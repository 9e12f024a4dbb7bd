/**
 * ytldl/metadata/metadata.py: write_metadata, which puts the entries of a metadata dict
 * into the MP4 atoms of a file and saves it. Each entry is written only when present.
 */
module Metadata {
  import opened Common
  import opened Media
  import Utf8

  /**
   * The tags the MP4 branch leaves in memory, or the error it stops with: a url that is
   * not a string has no .encode (AttributeError); MP4Cover only takes bytes (TypeError).
   */
  function Updated(base: Tags, md: Dict): (r: Result<Tags>)
    ensures r.Err? <==> ("url" in md && !md["url"].Str?) || ("thumbnail" in md && !md["thumbnail"].Bytes?)
    ensures "url" in md && !md["url"].Str? ==> r == Err(AttributeError)
    ensures !("url" in md && !md["url"].Str?) && "thumbnail" in md && !md["thumbnail"].Bytes? ==> r == Err(TypeError)
  {
    var t := base;
    var t := if "artist" in md then t[ArtistAtom := Text(md["artist"])] else t;
    var t := if "title" in md then t[TitleAtom := Text(md["title"])] else t;
    var t := if "lyrics" in md then t[LyricsAtom := Text(md["lyrics"])] else t;
    if "url" in md && !md["url"].Str? then Err(AttributeError)
    else if "thumbnail" in md && !md["thumbnail"].Bytes? then Err(TypeError)
    else
      var t := if "url" in md then t[UrlAtom := FreeForm(Utf8.Encode(md["url"].s))] else t;
      var t := if "thumbnail" in md then t[CoverAtom := Cover([md["thumbnail"]])] else t;
      Ok(t)
  }

  /** The atoms write_metadata may touch. */
  predicate Managed(key: string)
  {
    key == ArtistAtom || key == TitleAtom || key == LyricsAtom || key == UrlAtom || key == CoverAtom
  }

  /** What a successful write puts into atom `key`, if anything. */
  function Written(md: Dict, key: string): Option<Tag>
  {
    if key == CoverAtom && "thumbnail" in md then Some(Cover([md["thumbnail"]]))
    else if key == UrlAtom && "url" in md && md["url"].Str? then Some(FreeForm(Utf8.Encode(md["url"].s)))
    else if key == LyricsAtom && "lyrics" in md then Some(Text(md["lyrics"]))
    else if key == TitleAtom && "title" in md then Some(Text(md["title"]))
    else if key == ArtistAtom && "artist" in md then Some(Text(md["artist"]))
    else None
  }

  /** The five managed atoms are distinct keys. */
  lemma AtomsDistinct()
    ensures ArtistAtom != TitleAtom && ArtistAtom != LyricsAtom && ArtistAtom != UrlAtom && ArtistAtom != CoverAtom
    ensures TitleAtom != LyricsAtom && TitleAtom != UrlAtom && TitleAtom != CoverAtom
    ensures LyricsAtom != UrlAtom && LyricsAtom != CoverAtom
    ensures UrlAtom != CoverAtom
  {
    assert ArtistAtom[1] != TitleAtom[1] && ArtistAtom[1] != LyricsAtom[1] && TitleAtom[1] != LyricsAtom[1];
    assert ArtistAtom[0] != UrlAtom[0] && ArtistAtom[0] != CoverAtom[0] && UrlAtom[0] != CoverAtom[0];
    assert TitleAtom[0] != UrlAtom[0] && TitleAtom[0] != CoverAtom[0];
    assert LyricsAtom[0] != UrlAtom[0] && LyricsAtom[0] != CoverAtom[0];
  }

  /** Atom by atom: a written atom holds its entry, every other atom keeps its old value. */
  lemma UpdatedPointwise(base: Tags, md: Dict)
    requires Updated(base, md).Ok?
    ensures var t := Updated(base, md).value;
            forall k :: (k in t <==> k in base || Written(md, k).Some?) &&
                        (k in t ==> t[k] == if Written(md, k).Some? then Written(md, k).value else base[k])
  {
    AtomsDistinct();
  }

  /** Each entry lands in its own atom; the url is stored as its UTF-8 bytes and reads back. */
  lemma UpdatedWritesEntries(base: Tags, md: Dict)
    requires Updated(base, md).Ok?
    ensures var t := Updated(base, md).value;
            && ("artist" in md ==> t[ArtistAtom] == Text(md["artist"]))
            && ("title" in md ==> t[TitleAtom] == Text(md["title"]))
            && ("lyrics" in md ==> t[LyricsAtom] == Text(md["lyrics"]))
            && ("url" in md ==> t[UrlAtom].FreeForm? && Utf8.Decode(t[UrlAtom].data) == Some(md["url"].s))
            && ("thumbnail" in md ==> t[CoverAtom] == Cover([md["thumbnail"]]))
  {
    if "url" in md {
      Utf8.DecodeEncode(md["url"].s);
    }
  }

  /** Atoms other than the five are kept, and so is every atom whose entry is absent. */
  lemma UpdatedKeepsOthers(base: Tags, md: Dict)
    requires Updated(base, md).Ok?
    ensures var t := Updated(base, md).value;
            && (forall k :: k in base && !Managed(k) ==> k in t && t[k] == base[k])
            && (forall k :: k in t && !Managed(k) ==> k in base)
            && ("artist" !in md && ArtistAtom in base ==> t[ArtistAtom] == base[ArtistAtom])
            && ("title" !in md && TitleAtom in base ==> t[TitleAtom] == base[TitleAtom])
            && ("lyrics" !in md && LyricsAtom in base ==> t[LyricsAtom] == base[LyricsAtom])
            && ("url" !in md && UrlAtom in base ==> t[UrlAtom] == base[UrlAtom])
            && ("thumbnail" !in md && CoverAtom in base ==> t[CoverAtom] == base[CoverAtom])
  {
  }

  /** Writing the same dict twice leaves the tags as one write does. */
  lemma UpdatedIdempotent(base: Tags, md: Dict)
    requires Updated(base, md).Ok?
    ensures Updated(Updated(base, md).value, md) == Updated(base, md)
  {
    var t1 := Updated(base, md).value;
    UpdatedPointwise(base, md);
    UpdatedPointwise(t1, md);
    var t2 := Updated(t1, md).value;
    assert t2 == t1;
  }

  /** An empty metadata dict changes nothing. */
  lemma UpdatedEmpty(base: Tags)
    ensures Updated(base, map[]) == Ok(base)
  {
  }

  /**
   * write_metadata(filepath, metadata): mutagen.File opens the path (a missing path
   * raises; an unrecognized format gives None, whose .tags raises AttributeError); a
   * file without tags gets an empty tag block; a non-MP4 file raises UnknownFileType.
   * Only file.save() reaches the disk, so a write that raises leaves the disk as it was.
   */
  method WriteMetadata(disk: Disk, filepath: string, md: Dict) returns (err: Option<Error>)
    modifies disk
    ensures filepath !in old(disk.files) ==> err == Some(FileNotFound)
    ensures filepath in old(disk.files) && old(disk.files)[filepath].kind == Unrecognized ==> err == Some(AttributeError)
    ensures filepath in old(disk.files) && old(disk.files)[filepath].kind == OtherFormat ==> err == Some(UnknownFileType)
    ensures filepath in old(disk.files) && old(disk.files)[filepath].kind == Mp4 ==>
              var r := Updated(TagsOf(old(disk.files)[filepath]), md);
              (r.Err? ==> err == Some(r.error)) &&
              (r.Ok? ==> err.None? && disk.files == old(disk.files)[filepath := AudioFile(Mp4, Some(r.value))])
    ensures err.Some? ==> disk.files == old(disk.files)
  {
    if filepath !in disk.files {
      return Some(FileNotFound);
    }
    var file := disk.files[filepath];
    if file.kind == Unrecognized {
      return Some(AttributeError);
    }
    var tags := if file.tags.None? then map[] else file.tags.value;
    if file.kind != Mp4 {
      return Some(UnknownFileType);
    }
    if "artist" in md {
      tags := tags[ArtistAtom := Text(md["artist"])];
    }
    if "title" in md {
      tags := tags[TitleAtom := Text(md["title"])];
    }
    if "lyrics" in md {
      tags := tags[LyricsAtom := Text(md["lyrics"])];
    }
    if "url" in md {
      if !md["url"].Str? {
        return Some(AttributeError);
      }
      tags := tags[UrlAtom := FreeForm(Utf8.Encode(md["url"].s))];
    }
    if "thumbnail" in md {
      if !md["thumbnail"].Bytes? {
        return Some(TypeError);
      }
      tags := tags[CoverAtom := Cover([md["thumbnail"]])];
    }
    disk.files := disk.files[filepath := AudioFile(Mp4, Some(tags))];
    err := None;
  }
}
