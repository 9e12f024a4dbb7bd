/** The audio files on disk, as mutagen sees them: a format and a tag dictionary. */
module Media {
  import opened Common

  /** mutagen.File's verdict on a file: an MP4 container, another format it knows, or nothing. */
  datatype FileKind = Mp4 | OtherFormat | Unrecognized

  /** An MP4 tag value: a text atom, a freeform atom of bytes, or a list of cover images. */
  datatype Tag = Text(v: Value) | FreeForm(data: seq<byte>) | Cover(images: seq<Value>)

  type Tags = map<string, Tag>

  /** A file: its format and its tags, None when it carries no tag block at all. */
  datatype AudioFile = AudioFile(kind: FileKind, tags: Option<Tags>)

  const ArtistAtom: string := "\U{a9}ART"
  const TitleAtom: string := "\U{a9}nam"
  const LyricsAtom: string := "\U{a9}lyr"
  const UrlAtom: string := "----:com.apple.iTunes:WWW"
  const CoverAtom: string := "covr"

  /** The tag dictionary a write starts from: the file's own, or the empty one add_tags makes. */
  function TagsOf(f: AudioFile): (t: Tags)
    ensures f.tags.Some? ==> t == f.tags.value
    ensures f.tags.None? ==> t == map[]
  {
    if f.tags.Some? then f.tags.value else map[]
  }

  /** The directory yt-dlp downloads into: paths and the files stored under them. */
  class Disk {
    var files: map<string, AudioFile>

    constructor (files: map<string, AudioFile>)
      ensures this.files == files
    {
      this.files := files;
    }
  }
}
