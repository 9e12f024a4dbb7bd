/**
 * The download orchestration of the earlier revision, yt/download.py: no callbacks, no
 * limit, and a cache whose filter reports the cached items (see OldCache).
 */
module OldDownload {
  import opened Common
  import opened Api
  import Current = Download
  import OldCache
  import Cache

  /**
   * Downloader.download_tracks of yt/download.py: every distinct ID is dispatched; a download goes to the
   * result, a filtered item and any other failure are skipped.
   */
  method DownloadTracks(d: Current.Downloader, videoIds: seq<string>) returns (order: seq<string>, downloaded: seq<string>)
    ensures Elems(order) == Elems(videoIds) && NoDuplicates(order)
    ensures downloaded == Current.WithOutcome(d, order, Downloaded)
    ensures NoDuplicates(downloaded)
    ensures forall x :: x in downloaded <==> x in videoIds && Current.DownloadTrack(d, x) == Downloaded
    ensures d.debug ==> Elems(downloaded) == Elems(videoIds)
  {
    order := ListOfSet(Elems(videoIds));
    downloaded := [];
    for i := 0 to |order|
      invariant downloaded == Current.WithOutcome(d, order[..i], Downloaded)
    {
      assert order[..i + 1][..i] == order[..i];
      if Current.DownloadTrack(d, order[i]) == Downloaded {
        downloaded := downloaded + [order[i]];
      }
    }
    assert order[..|order|] == order;
    Current.WithOutcomeMembers(d, order, Downloaded);
    Current.WithOutcomeNoDuplicates(d, order, Downloaded);
    forall x
      ensures x in order <==> x in videoIds
    {
      assert x in order <==> x in Elems(order);
      assert x in videoIds <==> x in Elems(videoIds);
    }
  }

  /**
   * Downloader.extract_video_ids of yt/download.py: get_playlist, else get_watch_playlist, at the
   * library's default limit; [] when both raise; every track otherwise.
   */
  function ExtractVideoIds(d: Current.Downloader, playlistId: string): (ids: seq<string>)
    ensures d.catalog.getPlaylist(playlistId, None).Some? ==> ids == d.catalog.getPlaylist(playlistId, None).value
    ensures (d.catalog.getPlaylist(playlistId, None).None? && d.catalog.getWatchPlaylist(playlistId, None).Some?) ==>
              ids == d.catalog.getWatchPlaylist(playlistId, None).value
    ensures (d.catalog.getPlaylist(playlistId, None).None? && d.catalog.getWatchPlaylist(playlistId, None).None?) ==>
              ids == []
  {
    var playlist := d.catalog.getPlaylist(playlistId, None);
    var playlist := if playlist.None? then d.catalog.getWatchPlaylist(playlistId, None) else playlist;
    match playlist
    case None => []
    case Some(tracks) => tracks
  }

  /** Downloader.extract_video_ids_channel of yt/download.py: raises (None) when get_artist does. */
  function ExtractVideoIdsChannel(d: Current.Downloader, channelId: string): (ids: Option<seq<string>>)
    ensures ids.Some? <==> d.catalog.getArtistSongs(channelId).Some?
    ensures ids.Some? ==> ids.value == ExtractVideoIds(d, d.catalog.getArtistSongs(channelId).value)
  {
    match d.catalog.getArtistSongs(channelId)
    case None => None
    case Some(browseId) => Some(ExtractVideoIds(d, browseId))
  }

  function FromPlaylists(d: Current.Downloader, l: seq<string>): seq<string>
    decreases |l|
  {
    if l == [] then [] else FromPlaylists(d, l[..|l| - 1]) + ExtractVideoIds(d, l[|l| - 1])
  }

  function FromChannels(d: Current.Downloader, c: seq<string>): seq<string>
    decreases |c|
  {
    if c == [] then []
    else
      var got := ExtractVideoIdsChannel(d, c[|c| - 1]);
      FromChannels(d, c[..|c| - 1]) + (if got.Some? then got.value else [])
  }

  /** The earlier extraction is the current one with the library's default limit and no truncation. */
  lemma ExtractMatchesCurrentUnlimited(d: Current.Downloader, playlistId: string, limit: int)
    requires forall p :: d.catalog.getPlaylist(p, Some(limit)) == d.catalog.getPlaylist(p, None)
    requires forall p :: d.catalog.getWatchPlaylist(p, Some(limit)) == d.catalog.getWatchPlaylist(p, None)
    requires forall p :: (d.catalog.getPlaylist(p, None).Some? ==> |d.catalog.getPlaylist(p, None).value| <= limit)
    requires forall p :: (d.catalog.getWatchPlaylist(p, None).Some? ==> |d.catalog.getWatchPlaylist(p, None).value| <= limit)
    ensures ExtractVideoIds(d, playlistId) == Current.ExtractVideoIds(d, playlistId, limit)
  {
  }

  lemma FromPlaylistsStep(d: Current.Downloader, l: seq<string>, i: nat, start: seq<string>, items: seq<string>)
    requires i < |l| && items == start + FromPlaylists(d, l[..i])
    ensures items + ExtractVideoIds(d, l[i]) == start + FromPlaylists(d, l[..i + 1])
  {
    assert l[..i + 1][..i] == l[..i];
  }

  lemma FromChannelsStep(d: Current.Downloader, c: seq<string>, j: nat, start: seq<string>, items: seq<string>)
    requires j < |c| && items == start + FromChannels(d, c[..j])
    ensures var got := ExtractVideoIdsChannel(d, c[j]);
            (if got.Some? then items + got.value else items) == start + FromChannels(d, c[..j + 1])
  {
    assert c[..j + 1][..j] == c[..j];
  }

  /** The first half of Downloader.download of yt/download.py: v is extended in place, then list(set(v)). */
  method Gather(d: Current.Downloader, v: IdList, l: seq<string>, c: seq<string>) returns (distinct: seq<string>)
    modifies v
    ensures v.items == old(v.items) + FromPlaylists(d, l) + FromChannels(d, c)
    ensures Elems(distinct) == Elems(v.items) && NoDuplicates(distinct)
  {
    ghost var start := v.items;
    for i := 0 to |l|
      invariant v.items == start + FromPlaylists(d, l[..i])
    {
      FromPlaylistsStep(d, l, i, start, v.items);
      v.items := v.items + ExtractVideoIds(d, l[i]);
    }
    assert l[..|l|] == l;
    ghost var mid := v.items;
    for j := 0 to |c|
      invariant v.items == mid + FromChannels(d, c[..j])
    {
      FromChannelsStep(d, c, j, mid, v.items);
      var res := ExtractVideoIdsChannel(d, c[j]);
      if res.Some? {
        v.items := v.items + res.value;
      }
    }
    assert c[..|c|] == c;
    distinct := ListOfSet(Elems(v.items));
  }

  /** Downloader.download of yt/download.py */
  method Download(d: Current.Downloader, v: IdList, l: seq<string>, c: seq<string>) returns (downloaded: seq<string>)
    modifies v
    ensures v.items == old(v.items) + FromPlaylists(d, l) + FromChannels(d, c)
    ensures NoDuplicates(downloaded)
    ensures forall x :: x in downloaded <==> x in v.items && Current.DownloadTrack(d, x) == Downloaded
  {
    var distinct := Gather(d, v, l, c);
    var _, dl := DownloadTracks(d, distinct);
    downloaded := dl;
    forall x
      ensures x in distinct <==> x in v.items
    {
      assert x in distinct <==> x in Elems(distinct);
    }
  }

  /**
   * CacheDownloader.download_tracks: what filter_uncached reports is downloaded and
   * then added to the cache. As that filter reports the cached items, only items the
   * cache already holds are ever downloaded and the cache never grows.
   */
  method CacheDownloadTracks(d: Current.Downloader, cache: OldCache.OldMemoryCache, videoIds: seq<string>)
    returns (downloaded: seq<string>)
    modifies cache
    ensures cache.cache == old(cache.cache) + Elems(downloaded)
    ensures forall x :: x in downloaded <==> x in videoIds && x in old(cache.cache) && Current.DownloadTrack(d, x) == Downloaded
    ensures cache.cache == old(cache.cache)
  {
    var selected := cache.FilterUncached(videoIds);
    var _, dl := DownloadTracks(d, selected);
    cache.AddItems(dl);
    downloaded := dl;
  }

  /**
   * CacheDownloader.download_tracks with the filter that was evidently intended (the
   * one the current revision's MemoryCache has): only uncached items are downloaded, and
   * the cache grows by exactly the downloaded ones.
   */
  method CacheDownloadTracksFixed(d: Current.Downloader, cache: Cache.MemoryCache, videoIds: seq<string>)
    returns (downloaded: seq<string>)
    modifies cache
    ensures cache.cache == old(cache.cache) + Elems(downloaded)
    ensures NoDuplicates(downloaded)
    ensures forall x :: x in downloaded <==> x in videoIds && x !in old(cache.cache) && Current.DownloadTrack(d, x) == Downloaded
  {
    var uncached := cache.FilterUncached(videoIds);
    var selected := ListOfSet(uncached);
    var _, dl := DownloadTracks(d, selected);
    cache.AddItems(dl);
    downloaded := dl;
  }

  /** download on a CacheDownloader: the gathering, then CacheDownloader.download_tracks. */
  method CacheDownload(d: Current.Downloader, cache: OldCache.OldMemoryCache, v: IdList, l: seq<string>, c: seq<string>)
    returns (downloaded: seq<string>)
    modifies v, cache
    ensures v.items == old(v.items) + FromPlaylists(d, l) + FromChannels(d, c)
    ensures cache.cache == old(cache.cache)
    ensures forall x :: x in downloaded <==> x in v.items && x in old(cache.cache) && Current.DownloadTrack(d, x) == Downloaded
  {
    var distinct := Gather(d, v, l, c);
    downloaded := CacheDownloadTracks(d, cache, distinct);
    forall x
      ensures x in distinct <==> x in v.items
    {
      assert x in distinct <==> x in Elems(distinct);
    }
  }
}
