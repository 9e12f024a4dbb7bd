/**
 * yt/postprocessors.py, the earlier post-processors. LyricsPP swallows every error of the
 * lookup; MetadataPP keeps its metadata in a dict defined on the class, so every
 * instance, and every track, shares and updates the same dict.
 */
module OldPostProcessors {
  import opened Common
  import opened Api
  import opened Media
  import PostProcessors
  import OldMetadata

  // ---------------------------------------------------------------------------
  // LyricsPP

  /** LyricsPP.get_lyrics: plain indexing, so a missing "lyrics" key raises KeyError. */
  function OldGetLyrics(api: LyricsApi, videoId: Value): (r: Result<Value>)
    ensures api.getWatchPlaylist(videoId).Raises? ==> r == Err(CollaboratorFailed)
    ensures api.getWatchPlaylist(videoId).Returns? && "lyrics" !in api.getWatchPlaylist(videoId).d ==>
              r == Err(KeyError("lyrics"))
    ensures r.Ok? ==>
              var playlist := api.getWatchPlaylist(videoId).d;
              "lyrics" in playlist && api.getLyrics(playlist["lyrics"]).Returns? &&
              "lyrics" in api.getLyrics(playlist["lyrics"]).d &&
              r.value == api.getLyrics(playlist["lyrics"]).d["lyrics"]
    ensures api.getWatchPlaylist(videoId).Returns? && "lyrics" in api.getWatchPlaylist(videoId).d ==>
              var found := api.getLyrics(api.getWatchPlaylist(videoId).d["lyrics"]);
              (found.Raises? ==> r == Err(CollaboratorFailed)) &&
              (found.Returns? && "lyrics" !in found.d ==> r == Err(KeyError("lyrics"))) &&
              (found.Returns? && "lyrics" in found.d ==> r == Ok(found.d["lyrics"]))
  {
    match api.getWatchPlaylist(videoId)
    case Raises => Err(CollaboratorFailed)
    case Returns(playlist) =>
      if "lyrics" !in playlist then Err(KeyError("lyrics"))
      else match api.getLyrics(playlist["lyrics"])
        case Raises => Err(CollaboratorFailed)
        case Returns(found) =>
          if "lyrics" !in found then Err(KeyError("lyrics")) else Ok(found["lyrics"])
  }

  /**
   * LyricsPP.run: info["id"] (KeyError), then the lyrics with every error of the lookup
   * swallowed into ""; len(lyrics) raises TypeError when the lookup gave None.
   */
  function OldLyricsRun(api: LyricsApi, info: Dict): (r: Result<Dict>)
    ensures r.Err? ==> r.error == KeyError("id") || r.error == TypeError
    ensures "id" !in info ==> r == Err(KeyError("id"))
    ensures "id" in info && OldGetLyrics(api, info["id"]).Err? ==> r == Ok(info["lyrics" := Str("")])
    ensures "id" in info && OldGetLyrics(api, info["id"]).Ok? ==>
              var lyrics := OldGetLyrics(api, info["id"]).value;
              (lyrics.Null? ==> r == Err(TypeError)) && (!lyrics.Null? ==> r == Ok(info["lyrics" := lyrics]))
  {
    if "id" !in info then Err(KeyError("id"))
    else
      var got := OldGetLyrics(api, info["id"]);
      var lyrics := if got.Ok? then got.value else Str("");
      if lyrics.Null? then Err(TypeError) else Ok(info["lyrics" := lyrics])
  }

  /** Where the earlier lookup finds real lyrics behind a real browse ID, the current one finds the same. */
  lemma LyricsAgreeOnFound(api: LyricsApi, videoId: Value)
    requires OldGetLyrics(api, videoId).Ok? && Truthy(OldGetLyrics(api, videoId).value)
    requires Truthy(api.getWatchPlaylist(videoId).d["lyrics"])
    ensures PostProcessors.GetLyrics(api, videoId) == OldGetLyrics(api, videoId)
  {
  }

  /** A watch playlist without a lyrics entry: "" now, and "" before only by swallowing the KeyError. */
  lemma MissingLyricsEntry(api: LyricsApi, info: Dict)
    requires "id" in info && api.getWatchPlaylist(info["id"]).Returns?
    requires "lyrics" !in api.getWatchPlaylist(info["id"]).d
    ensures OldGetLyrics(api, info["id"]) == Err(KeyError("lyrics"))
    ensures OldLyricsRun(api, info) == PostProcessors.LyricsRun(api, info) == Ok(info["lyrics" := Str("")])
  {
  }

  // ---------------------------------------------------------------------------
  // MetadataPP

  /** The metadata dict after one run's updates, and the KeyError that cut them short. */
  datatype SharedStep = SharedStep(entries: Dict, err: Option<Error>)

  /**
   * The updates MetadataPP.run makes to the shared dict, in order: artist, title and url
   * by indexing (a missing key raises after the earlier updates are made), then lyrics
   * only when the info has truthy lyrics, then info["filepath"].
   */
  function UpdateShared(m: Dict, info: Dict): (r: SharedStep)
    ensures r.err.Some? <==> !("artist" in info && "title" in info && "webpage_url" in info && "filepath" in info)
    ensures r.err.Some? ==> r.err.value.KeyError?
    ensures forall k :: k in m && k !in {"artist", "title", "url", "lyrics"} ==> k in r.entries && r.entries[k] == m[k]
    ensures r.err.None? ==>
              "artist" in r.entries && "title" in r.entries && "url" in r.entries &&
              r.entries["artist"] == info["artist"] && r.entries["title"] == info["title"] &&
              r.entries["url"] == info["webpage_url"]
    ensures "artist" in info && "title" in info && "webpage_url" in info && Truthy(Get(info, "lyrics", Null)) ==>
              "lyrics" in r.entries && r.entries["lyrics"] == info["lyrics"]
    ensures !("artist" in info && "title" in info && "webpage_url" in info && Truthy(Get(info, "lyrics", Null))) ==>
              ("lyrics" in r.entries <==> "lyrics" in m) && ("lyrics" in m ==> r.entries["lyrics"] == m["lyrics"])
    ensures r.entries.Keys <= m.Keys + {"artist", "title", "url", "lyrics"}
  {
    if "artist" !in info then SharedStep(m, Some(KeyError("artist")))
    else
      var m := m["artist" := info["artist"]];
      if "title" !in info then SharedStep(m, Some(KeyError("title")))
      else
        var m := m["title" := info["title"]];
        if "webpage_url" !in info then SharedStep(m, Some(KeyError("webpage_url")))
        else
          var m := m["url" := info["webpage_url"]];
          var lyrics := Get(info, "lyrics", Null);
          var m := if Truthy(lyrics) then m["lyrics" := lyrics] else m;
          if "filepath" !in info then SharedStep(m, Some(KeyError("filepath"))) else SharedStep(m, None)
  }

  /** A track with no lyrics keeps whatever lyrics an earlier track left in the shared dict. */
  lemma StaleLyrics(m: Dict, info: Dict)
    requires "lyrics" in m && "artist" in info && "title" in info && "webpage_url" in info
    requires !Truthy(Get(info, "lyrics", Null))
    ensures UpdateShared(m, info).entries["lyrics"] == m["lyrics"]
  {
  }

  /** An info without a title still overwrites the artist before raising. */
  lemma PartialUpdate(m: Dict, info: Dict)
    requires "artist" in info && "title" !in info
    ensures UpdateShared(m, info) == SharedStep(m["artist" := info["artist"]], Some(KeyError("title")))
  {
  }

  /** Two tracks in a row: the second, without lyrics, is tagged with the first one's lyrics. */
  lemma LyricsLeakBetweenTracks(first: Dict, second: Dict)
    requires "artist" in first && "title" in first && "webpage_url" in first && "filepath" in first
    requires Truthy(Get(first, "lyrics", Null))
    requires "artist" in second && "title" in second && "webpage_url" in second && "filepath" in second
    requires !Truthy(Get(second, "lyrics", Null))
    ensures var s1 := UpdateShared(map[], first);
            var s2 := UpdateShared(s1.entries, second);
            s2.err.None? && s2.entries["lyrics"] == first["lyrics"]
  {
    var s1 := UpdateShared(map[], first);
    assert s1.entries["lyrics"] == first["lyrics"];
    StaleLyrics(s1.entries, second);
  }

  /** The very first track without lyrics cannot be tagged: write_metadata finds no "lyrics". */
  lemma FirstTrackWithoutLyricsFails(base: Tags, info: Dict)
    requires "artist" in info && "title" in info && "webpage_url" in info && "filepath" in info
    requires !Truthy(Get(info, "lyrics", Null))
    ensures OldMetadata.OldUpdated(base, UpdateShared(map[], info).entries) == Err(KeyError("lyrics"))
  {
  }

  /** MetadataPP.metadata, the dict defined on the class and shared by every instance. */
  class MetadataStore {
    var entries: Dict

    constructor ()
      ensures entries == map[]
    {
      entries := map[];
    }
  }

  class OldMetadataPP {
    const store: MetadataStore
    var filepath: Option<Value>

    constructor (store: MetadataStore)
      ensures this.store == store && filepath.None?
    {
      this.store := store;
      filepath := None;
    }

    /**
     * MetadataPP.run: the shared dict is updated step by step, the file path is
     * remembered, and the whole shared dict is written to that file.
     */
    method Run(disk: Disk, info: Dict) returns (r: Result<Dict>)
      modifies store, this, disk
      ensures store.entries == UpdateShared(old(store.entries), info).entries
      ensures UpdateShared(old(store.entries), info).err.Some? ==>
                r == Err(UpdateShared(old(store.entries), info).err.value) && disk.files == old(disk.files) &&
                filepath == old(filepath)
      ensures UpdateShared(old(store.entries), info).err.None? ==> filepath == Some(info["filepath"])
      ensures r.Ok? ==> r.value == info && info["filepath"].Str?
      ensures r.Ok? ==>
                var path := info["filepath"].s;
                var tags := if path in old(disk.files) then OldMetadata.OldUpdated(TagsOf(old(disk.files)[path]), store.entries)
                            else Err(FileNotFound);
                path in old(disk.files) && old(disk.files)[path].kind == Mp4 &&
                tags.Ok? && disk.files == old(disk.files)[path := AudioFile(Mp4, Some(tags.value))]
      ensures UpdateShared(old(store.entries), info).err.None? && !info["filepath"].Str? ==> r == Err(FileNotFound)
      ensures UpdateShared(old(store.entries), info).err.None? && info["filepath"].Str? ==>
                var path := info["filepath"].s;
                (path !in old(disk.files) ==> r == Err(FileNotFound)) &&
                (path in old(disk.files) && old(disk.files)[path].kind == Unrecognized ==> r == Err(AttributeError)) &&
                (path in old(disk.files) && old(disk.files)[path].kind == OtherFormat ==> r == Err(UnknownFileType)) &&
                (path in old(disk.files) && old(disk.files)[path].kind == Mp4 ==>
                   var tags := OldMetadata.OldUpdated(TagsOf(old(disk.files)[path]), store.entries);
                   (tags.Ok? ==> r == Ok(info)) && (tags.Err? ==> r == Err(tags.error)))
      ensures r.Err? ==> disk.files == old(disk.files)
    {
      if "artist" !in info {
        return Err(KeyError("artist"));
      }
      store.entries := store.entries["artist" := info["artist"]];
      if "title" !in info {
        return Err(KeyError("title"));
      }
      store.entries := store.entries["title" := info["title"]];
      if "webpage_url" !in info {
        return Err(KeyError("webpage_url"));
      }
      store.entries := store.entries["url" := info["webpage_url"]];
      var lyrics := Get(info, "lyrics", Null);
      if Truthy(lyrics) {
        store.entries := store.entries["lyrics" := lyrics];
      }
      if "filepath" !in info {
        return Err(KeyError("filepath"));
      }
      filepath := Some(info["filepath"]);
      if !info["filepath"].Str? {
        return Err(FileNotFound);
      }
      var err := OldMetadata.OldWriteMetadata(disk, info["filepath"].s, store.entries);
      if err.Some? {
        return Err(err.value);
      }
      r := Ok(info);
    }
  }

  /** InfoExtractorPP: remembers the info of the last run and hands it on. */
  class InfoExtractorPP {
    var info: Option<Dict>

    constructor ()
      ensures info.None?
    {
      info := None;
    }

    method Run(info: Dict) returns (r: Dict)
      modifies this
      ensures this.info == Some(info) && r == info
    {
      this.info := Some(info);
      r := info;
    }
  }
}
