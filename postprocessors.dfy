/**
 * ytldl/yt/postprocessors.py: the yt-dlp post-processors. FilterPP rejects what is not
 * a song before the download; after it LyricsPP adds the lyrics to the info dict and
 * MetadataPP writes the tags into the downloaded file. The info dict is modelled as a
 * value that each run hands on.
 */
module PostProcessors {
  import opened Common
  import opened Api
  import opened Media
  import Metadata

  /** The keys is_song looks for. */
  const SongKeys: seq<string> := ["artist", "title"]

  /** is_song: every one of SongKeys is in the info, that is, it names both an artist and a title. */
  predicate IsSong(info: Dict)
    ensures IsSong(info) <==> "artist" in info && "title" in info
  {
    forall k :: k in SongKeys ==> k in info
  }

  /** FilterPP.run: a song passes unchanged, anything else raises FilterPPException. */
  function FilterRun(info: Dict): (r: Result<Dict>)
    ensures r.Ok? <==> "artist" in info && "title" in info
    ensures r.Ok? ==> r.value == info
    ensures r.Err? ==> r.error == FilterPPException
  {
    if !IsSong(info) then Err(FilterPPException) else Ok(info)
  }

  // ---------------------------------------------------------------------------
  // LyricsPP

  /**
   * LyricsPP.get_lyrics: the lyrics browse ID of the watch playlist, then the lyrics
   * text; "" when either is missing or falsy. Missing keys never raise (.get is used);
   * a lookup that raises does.
   */
  function GetLyrics(api: LyricsApi, videoId: Value): (r: Result<Value>)
    ensures r.Err? ==> r.error == CollaboratorFailed
    ensures r.Err? <==>
              api.getWatchPlaylist(videoId).Raises? ||
              (Truthy(Get(api.getWatchPlaylist(videoId).d, "lyrics", Null)) &&
               api.getLyrics(Get(api.getWatchPlaylist(videoId).d, "lyrics", Null)).Raises?)
    ensures r.Ok? ==> r.value == Str("") || Truthy(r.value)
    ensures r.Ok? && Truthy(r.value) ==>
              var browseId := Get(api.getWatchPlaylist(videoId).d, "lyrics", Null);
              Truthy(browseId) && r.value == Get(api.getLyrics(browseId).d, "lyrics", Null)
    ensures api.getWatchPlaylist(videoId).Returns? ==>
              var browseId := Get(api.getWatchPlaylist(videoId).d, "lyrics", Null);
              (!Truthy(browseId) ==> r == Ok(Str(""))) &&
              (Truthy(browseId) && api.getLyrics(browseId).Returns? ==>
                 var lyrics := Get(api.getLyrics(browseId).d, "lyrics", Null);
                 (Truthy(lyrics) ==> r == Ok(lyrics)) && (!Truthy(lyrics) ==> r == Ok(Str(""))))
  {
    match api.getWatchPlaylist(videoId)
    case Raises => Err(CollaboratorFailed)
    case Returns(playlist) =>
      var browseId := Get(playlist, "lyrics", Null);
      if !Truthy(browseId) then Ok(Str(""))
      else match api.getLyrics(browseId)
        case Raises => Err(CollaboratorFailed)
        case Returns(found) =>
          var lyrics := Get(found, "lyrics", Null);
          if !Truthy(lyrics) then Ok(Str("")) else Ok(lyrics)
  }

  /** `x or ""` */
  function OrEmptyString(v: Value): (r: Value)
    ensures Truthy(v) ==> r == v
    ensures !Truthy(v) ==> r == Str("")
  {
    if Truthy(v) then v else Str("")
  }

  /**
   * LyricsPP.run: info["id"] must be there (KeyError); the lyrics, or "", are stored
   * under "lyrics" and every other entry is kept.
   */
  function LyricsRun(api: LyricsApi, info: Dict): (r: Result<Dict>)
    ensures "id" !in info ==> r == Err(KeyError("id"))
    ensures "id" in info ==>
              (r.Err? <==> GetLyrics(api, info["id"]).Err?) &&
              (r.Ok? ==> r.value == info["lyrics" := GetLyrics(api, info["id"]).value])
    ensures r.Ok? ==> "lyrics" in r.value && (r.value["lyrics"] == Str("") || Truthy(r.value["lyrics"]))
    ensures r.Ok? ==> forall k :: k in info && k != "lyrics" ==> k in r.value && r.value[k] == info[k]
  {
    if "id" !in info then Err(KeyError("id"))
    else match GetLyrics(api, info["id"])
      case Err(e) => Err(e)
      case Ok(lyrics) => Ok(info["lyrics" := OrEmptyString(lyrics)])
  }

  /** A track whose watch playlist has no lyrics entry gets "" without asking for lyrics. */
  lemma NoLyricsEntryGivesEmpty(api: LyricsApi, info: Dict)
    requires "id" in info && api.getWatchPlaylist(info["id"]).Returns?
    requires "lyrics" !in api.getWatchPlaylist(info["id"]).d
    ensures LyricsRun(api, info) == Ok(info["lyrics" := Str("")])
  {
  }

  // ---------------------------------------------------------------------------
  // MetadataPP

  /** The dict MetadataPP.run starts from: four entries, each "" when the info lacks it. */
  function BaseMetadata(info: Dict): (md: Dict)
    ensures md.Keys == {"artist", "title", "url", "lyrics"}
    ensures md["artist"] == Get(info, "artist", Str(""))
    ensures md["title"] == Get(info, "title", Str(""))
    ensures md["url"] == Get(info, "webpage_url", Str(""))
    ensures md["lyrics"] == Get(info, "lyrics", Str(""))
  {
    map["artist" := Get(info, "artist", Str("")), "title" := Get(info, "title", Str("")),
        "url" := Get(info, "webpage_url", Str("")), "lyrics" := Get(info, "lyrics", Str(""))]
  }

  /**
   * The dict handed to write_metadata, or the error met while building it: a truthy
   * thumbnail URL is fetched and re-encoded as JPEG (imageBytes; None when that raises).
   */
  function MetadataFor(imageBytes: Value -> Option<seq<byte>>, info: Dict): (r: Result<Dict>)
    ensures var thumb := Get(info, "thumbnail", Null);
            (r.Err? <==> Truthy(thumb) && imageBytes(thumb).None?) &&
            (r.Ok? && Truthy(thumb) ==> r.value == BaseMetadata(info)["thumbnail" := Bytes(imageBytes(thumb).value)]) &&
            (r.Ok? && !Truthy(thumb) ==> r.value == BaseMetadata(info))
  {
    var md := BaseMetadata(info);
    var thumb := Get(info, "thumbnail", Null);
    if !Truthy(thumb) then Ok(md)
    else match imageBytes(thumb)
      case None => Err(CollaboratorFailed)
      case Some(jpeg) => Ok(md["thumbnail" := Bytes(jpeg)])
  }

  /** The metadata dict always carries the four text entries, so the url atom is always written. */
  lemma MetadataForIsComplete(imageBytes: Value -> Option<seq<byte>>, info: Dict)
    requires MetadataFor(imageBytes, info).Ok?
    ensures var md := MetadataFor(imageBytes, info).value;
            "artist" in md && "title" in md && "lyrics" in md && "url" in md
  {
  }

  /** The cover handed to the writer is always the fetched bytes, so it never makes MP4Cover raise. */
  lemma MetadataForCoverIsBytes(imageBytes: Value -> Option<seq<byte>>, info: Dict)
    requires MetadataFor(imageBytes, info).Ok?
    ensures var md := MetadataFor(imageBytes, info).value;
            "thumbnail" in md ==> md["thumbnail"].Bytes?
  {
  }

  /** An info holding only a file path yields four empty entries, which an MP4 file accepts. */
  lemma FilepathAloneSucceeds(imageBytes: Value -> Option<seq<byte>>, base: Tags, path: string)
    ensures var md := MetadataFor(imageBytes, map["filepath" := Str(path)]);
            md == Ok(map["artist" := Str(""), "title" := Str(""), "url" := Str(""), "lyrics" := Str("")]) &&
            Metadata.Updated(base, md.value).Ok?
  {
  }

  /**
   * MetadataPP.run: the metadata dict, then info["filepath"] (KeyError), then
   * write_metadata on that file. The info comes back unchanged.
   */
  method MetadataRun(disk: Disk, imageBytes: Value -> Option<seq<byte>>, info: Dict) returns (r: Result<Dict>)
    modifies disk
    ensures MetadataFor(imageBytes, info).Err? ==> r == Err(MetadataFor(imageBytes, info).error)
    ensures MetadataFor(imageBytes, info).Ok? && "filepath" !in info ==> r == Err(KeyError("filepath"))
    ensures r.Ok? ==> r.value == info
    ensures r.Ok? ==>
              && "filepath" in info && info["filepath"].Str?
              && info["filepath"].s in old(disk.files) && old(disk.files)[info["filepath"].s].kind == Mp4
              && var md := MetadataFor(imageBytes, info).value;
                 var path := info["filepath"].s;
                 var tags := Metadata.Updated(TagsOf(old(disk.files)[path]), md);
                 tags.Ok? && disk.files == old(disk.files)[path := AudioFile(Mp4, Some(tags.value))]
    ensures MetadataFor(imageBytes, info).Ok? && "filepath" in info && !info["filepath"].Str? ==>
              r == Err(FileNotFound)
    ensures MetadataFor(imageBytes, info).Ok? && "filepath" in info && info["filepath"].Str? ==>
              var path := info["filepath"].s;
              (path !in old(disk.files) ==> r == Err(FileNotFound)) &&
              (path in old(disk.files) && old(disk.files)[path].kind == Unrecognized ==> r == Err(AttributeError)) &&
              (path in old(disk.files) && old(disk.files)[path].kind == OtherFormat ==> r == Err(UnknownFileType)) &&
              (path in old(disk.files) && old(disk.files)[path].kind == Mp4 ==>
                 var tags := Metadata.Updated(TagsOf(old(disk.files)[path]), MetadataFor(imageBytes, info).value);
                 (tags.Ok? ==> r == Ok(info)) && (tags.Err? ==> r == Err(tags.error)))
    ensures r.Err? ==> disk.files == old(disk.files)
  {
    var md := MetadataFor(imageBytes, info);
    if md.Err? {
      return Err(md.error);
    }
    if "filepath" !in info {
      return Err(KeyError("filepath"));
    }
    var filepath := info["filepath"];
    if !filepath.Str? {
      return Err(FileNotFound);
    }
    var err := Metadata.WriteMetadata(disk, filepath.s, md.value);
    if err.Some? {
      return Err(err.value);
    }
    r := Ok(info);
  }
}
