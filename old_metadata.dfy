/**
 * metadata/metadata.py, the earlier tag writer: artist, title, lyrics and url are looked
 * up unconditionally, in that order, so a dict missing any of them raises KeyError.
 */
module OldMetadata {
  import opened Common
  import opened Media
  import Utf8
  import Metadata

  /** The tags the MP4 branch leaves in memory, or the first error it meets. */
  function OldUpdated(base: Tags, md: Dict): (r: Result<Tags>)
    ensures r.Ok? ==> "artist" in md && "title" in md && "lyrics" in md && "url" in md && md["url"].Str?
    ensures "artist" !in md ==> r == Err(KeyError("artist"))
    ensures "artist" in md && "title" !in md ==> r == Err(KeyError("title"))
    ensures "artist" in md && "title" in md && "lyrics" !in md ==> r == Err(KeyError("lyrics"))
    ensures "artist" in md && "title" in md && "lyrics" in md && "url" !in md ==> r == Err(KeyError("url"))
    ensures "artist" in md && "title" in md && "lyrics" in md && "url" in md && !md["url"].Str? ==>
              r == Err(AttributeError)
    ensures "artist" in md && "title" in md && "lyrics" in md && "url" in md && md["url"].Str? ==>
              (r.Err? <==> "thumbnail" in md && !md["thumbnail"].Bytes?) && (r.Err? ==> r.error == TypeError)
  {
    if "artist" !in md then Err(KeyError("artist"))
    else if "title" !in md then Err(KeyError("title"))
    else if "lyrics" !in md then Err(KeyError("lyrics"))
    else if "url" !in md then Err(KeyError("url"))
    else if !md["url"].Str? then Err(AttributeError)
    else if "thumbnail" in md && !md["thumbnail"].Bytes? then Err(TypeError)
    else
      var t := base[ArtistAtom := Text(md["artist"])][TitleAtom := Text(md["title"])]
                   [LyricsAtom := Text(md["lyrics"])][UrlAtom := FreeForm(Utf8.Encode(md["url"].s))];
      Ok(if "thumbnail" in md then t[CoverAtom := Cover([md["thumbnail"]])] else t)
  }

  /** On a dict with all four entries the earlier writer and the current one agree. */
  lemma OldAgreesWhenComplete(base: Tags, md: Dict)
    requires "artist" in md && "title" in md && "lyrics" in md && "url" in md
    ensures OldUpdated(base, md) == Metadata.Updated(base, md)
  {
  }

  /** Where the earlier writer succeeds, the current one writes the same tags. */
  lemma CurrentExtendsOld(base: Tags, md: Dict)
    requires OldUpdated(base, md).Ok?
    ensures Metadata.Updated(base, md) == OldUpdated(base, md)
  {
  }

  /** write_metadata(filepath, metadata) of the earlier revision. */
  method OldWriteMetadata(disk: Disk, filepath: string, md: Dict) returns (err: Option<Error>)
    modifies disk
    ensures filepath !in old(disk.files) ==> err == Some(FileNotFound)
    ensures filepath in old(disk.files) && old(disk.files)[filepath].kind == Unrecognized ==> err == Some(AttributeError)
    ensures filepath in old(disk.files) && old(disk.files)[filepath].kind == OtherFormat ==> err == Some(UnknownFileType)
    ensures filepath in old(disk.files) && old(disk.files)[filepath].kind == Mp4 ==>
              var r := OldUpdated(TagsOf(old(disk.files)[filepath]), md);
              (r.Err? ==> err == Some(r.error)) &&
              (r.Ok? ==> err.None? && disk.files == old(disk.files)[filepath := AudioFile(Mp4, Some(r.value))])
    ensures err.Some? ==> disk.files == old(disk.files)
  {
    if filepath !in disk.files {
      return Some(FileNotFound);
    }
    var file := disk.files[filepath];
    if file.kind == Unrecognized {
      return Some(AttributeError);
    }
    var tags := if file.tags.None? then map[] else file.tags.value;
    if file.kind != Mp4 {
      return Some(UnknownFileType);
    }
    if "artist" !in md {
      return Some(KeyError("artist"));
    }
    tags := tags[ArtistAtom := Text(md["artist"])];
    if "title" !in md {
      return Some(KeyError("title"));
    }
    tags := tags[TitleAtom := Text(md["title"])];
    if "lyrics" !in md {
      return Some(KeyError("lyrics"));
    }
    tags := tags[LyricsAtom := Text(md["lyrics"])];
    if "url" !in md {
      return Some(KeyError("url"));
    }
    if !md["url"].Str? {
      return Some(AttributeError);
    }
    tags := tags[UrlAtom := FreeForm(Utf8.Encode(md["url"].s))];
    if "thumbnail" in md {
      if !md["thumbnail"].Bytes? {
        return Some(TypeError);
      }
      tags := tags[CoverAtom := Cover([md["thumbnail"]])];
    }
    disk.files := disk.files[filepath := AudioFile(Mp4, Some(tags))];
    err := None;
  }
}
