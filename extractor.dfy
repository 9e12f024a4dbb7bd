/**
 * ytldl/yt/extractor.py: gathering video IDs from explicit videos, playlists and
 * channels. Futures complete in any order, so the result is specified up to order.
 */
module Extractor {
  import opened Common
  import opened Api
  import Download

  /**
   * _extract_video_ids_from_playlist AS WRITTEN: when get_playlist raises, the fallback
   * passes the still unbound `contents` to get_watch_playlist, which raises before the
   * call is made; so the fallback never yields anything. None: the call raised.
   */
  function PlaylistIdsAsWritten(catalog: Catalog, playlist: string, limit: int): (ids: Option<seq<string>>)
    ensures catalog.getPlaylist(playlist, Some(limit)).None? ==> ids.None?
    ensures catalog.getPlaylist(playlist, Some(limit)).Some? ==>
              ids == Some(TakeAtMost(catalog.getPlaylist(playlist, Some(limit)).value, limit))
  {
    match catalog.getPlaylist(playlist, Some(limit))
    case None => None
    case Some(tracks) => Some(TakeAtMost(tracks, limit))
  }

  /**
   * The evidently intended playlist extraction: get_playlist, falling back to
   * get_watch_playlist on the same playlist ID; raises when both raise; then the first
   * min(limit, len(tracks)) track IDs.
   */
  function PlaylistIds(catalog: Catalog, playlist: string, limit: int): (ids: Option<seq<string>>)
    ensures ids.None? <==>
              catalog.getPlaylist(playlist, Some(limit)).None? && catalog.getWatchPlaylist(playlist, Some(limit)).None?
    ensures catalog.getPlaylist(playlist, Some(limit)).Some? ==>
              ids == Some(TakeAtMost(catalog.getPlaylist(playlist, Some(limit)).value, limit))
    ensures (catalog.getPlaylist(playlist, Some(limit)).None? && catalog.getWatchPlaylist(playlist, Some(limit)).Some?) ==>
              ids == Some(TakeAtMost(catalog.getWatchPlaylist(playlist, Some(limit)).value, limit))
    ensures ids.Some? && limit >= 0 ==> |ids.value| <= limit
  {
    var contents := catalog.getPlaylist(playlist, Some(limit));
    var contents := if contents.None? then catalog.getWatchPlaylist(playlist, Some(limit)) else contents;
    match contents
    case None => None
    case Some(tracks) => Some(TakeAtMost(tracks, limit))
  }

  /**
   * Which playlist extraction the channel extraction and extract build on: the one of
   * the source as written, or the corrected one.
   */
  datatype Variant = AsWritten | Corrected

  /** _extract_video_ids_from_playlist in the chosen variant. */
  function PlaylistIdsOf(v: Variant, catalog: Catalog, playlist: string, limit: int): (ids: Option<seq<string>>)
    ensures v.AsWritten? ==> ids == PlaylistIdsAsWritten(catalog, playlist, limit)
    ensures v.Corrected? ==> ids == PlaylistIds(catalog, playlist, limit)
  {
    match v
    case AsWritten => PlaylistIdsAsWritten(catalog, playlist, limit)
    case Corrected => PlaylistIds(catalog, playlist, limit)
  }

  /** extract_video_ids_from_channel: the playlist behind get_artist(channel)["songs"]["browseId"]. */
  function ChannelIds(v: Variant, catalog: Catalog, channel: string, limit: int): (ids: Option<seq<string>>)
    ensures catalog.getArtistSongs(channel).None? ==> ids.None?
    ensures catalog.getArtistSongs(channel).Some? ==>
              ids == PlaylistIdsOf(v, catalog, catalog.getArtistSongs(channel).value, limit)
  {
    match catalog.getArtistSongs(channel)
    case None => None
    case Some(browseId) => PlaylistIdsOf(v, catalog, browseId, limit)
  }

  /** The two extractions agree whenever get_playlist answers. */
  lemma AsWrittenAgreesOnPrimary(catalog: Catalog, playlist: string, limit: int)
    requires catalog.getPlaylist(playlist, Some(limit)).Some?
    ensures PlaylistIdsAsWritten(catalog, playlist, limit) == PlaylistIds(catalog, playlist, limit)
  {
  }

  /**
   * The discrepancy: a playlist that get_playlist cannot open but get_watch_playlist can
   * yields its tracks with the intended fallback and nothing as written.
   */
  lemma AsWrittenLosesWatchPlaylist()
    ensures var catalog := Catalog((p, n) => None, (p, n) => Some(["a", "b"]), a => None);
            PlaylistIdsAsWritten(catalog, "RDAMVM", 50).None? &&
            PlaylistIds(catalog, "RDAMVM", 50) == Some(["a", "b"])
  {
  }

  /**
   * The corrected extraction is the one of Downloader.extract_video_ids, except that it
   * raises where that one returns [].
   */
  lemma PlaylistIdsMatchesDownloader(d: Download.Downloader, playlist: string, limit: int)
    ensures PlaylistIds(d.catalog, playlist, limit).Some? ==>
              PlaylistIds(d.catalog, playlist, limit).value == Download.ExtractVideoIds(d, playlist, limit)
    ensures PlaylistIds(d.catalog, playlist, limit).None? ==> Download.ExtractVideoIds(d, playlist, limit) == []
  {
  }

  /** What a future contributes: its IDs, or nothing when it raised. */
  function OrEmpty(ids: Option<seq<string>>): seq<string>
  {
    if ids.Some? then ids.value else []
  }

  /** The contributions of every playlist and then every channel, in submission order. */
  function Contributions(v: Variant, catalog: Catalog, playlists: seq<string>, channels: seq<string>, limit: int):
    seq<string>
    decreases |playlists| + |channels|
  {
    if channels != [] then
      Contributions(v, catalog, playlists, channels[..|channels| - 1], limit) +
        OrEmpty(ChannelIds(v, catalog, channels[|channels| - 1], limit))
    else if playlists != [] then
      Contributions(v, catalog, playlists[..|playlists| - 1], [], limit) +
        OrEmpty(PlaylistIdsOf(v, catalog, playlists[|playlists| - 1], limit))
    else []
  }

  /** Each playlist and each channel contributes at most `limit` IDs. */
  lemma {:induction false} ContributionsBound(v: Variant, catalog: Catalog, playlists: seq<string>, channels: seq<string>, limit: nat)
    ensures |Contributions(v, catalog, playlists, channels, limit)| <= (|playlists| + |channels|) * limit
    decreases |playlists| + |channels|
  {
    if channels != [] {
      ContributionsBound(v, catalog, playlists, channels[..|channels| - 1], limit);
      assert (|playlists| + |channels| - 1) * limit + limit == (|playlists| + |channels|) * limit;
    } else if playlists != [] {
      ContributionsBound(v, catalog, playlists[..|playlists| - 1], [], limit);
      assert (|playlists| - 1) * limit + limit == |playlists| * limit;
    }
  }

  /** A limit of 0 keeps every playlist and channel from contributing. */
  lemma {:induction false} ContributionsZeroLimit(v: Variant, catalog: Catalog, playlists: seq<string>, channels: seq<string>)
    ensures Contributions(v, catalog, playlists, channels, 0) == []
    decreases |playlists| + |channels|
  {
    if channels != [] {
      ContributionsZeroLimit(v, catalog, playlists, channels[..|channels| - 1]);
    } else if playlists != [] {
      ContributionsZeroLimit(v, catalog, playlists[..|playlists| - 1], []);
    }
  }

  lemma PlaylistStep(v: Variant, catalog: Catalog, playlists: seq<string>, i: nat, limit: int, start: seq<string>, ids: seq<string>)
    requires i < |playlists| && ids == start + Contributions(v, catalog, playlists[..i], [], limit)
    ensures var got := PlaylistIdsOf(v, catalog, playlists[i], limit);
            (if got.Some? then ids + got.value else ids) == start + Contributions(v, catalog, playlists[..i + 1], [], limit)
  {
    assert playlists[..i + 1][..i] == playlists[..i];
  }

  lemma ChannelStep(v: Variant, catalog: Catalog, playlists: seq<string>, channels: seq<string>, j: nat, limit: int,
                    start: seq<string>, ids: seq<string>)
    requires j < |channels| && ids == start + Contributions(v, catalog, playlists, channels[..j], limit)
    ensures var got := ChannelIds(v, catalog, channels[j], limit);
            (if got.Some? then ids + got.value else ids) == start + Contributions(v, catalog, playlists, channels[..j + 1], limit)
  {
    assert channels[..j + 1][..j] == channels[..j];
  }

  /** As written, playlists that get_playlist cannot open contribute nothing, whatever get_watch_playlist says. */
  lemma {:induction false} AsWrittenSkipsUnopened(catalog: Catalog, playlists: seq<string>, limit: int)
    requires forall k :: 0 <= k < |playlists| ==> catalog.getPlaylist(playlists[k], Some(limit)).None?
    ensures Contributions(AsWritten, catalog, playlists, [], limit) == []
    decreases |playlists|
  {
    if playlists != [] {
      AsWrittenSkipsUnopened(catalog, playlists[..|playlists| - 1], limit);
    }
  }

  /**
   * When get_playlist opens every playlist and every channel's songs playlist, the two
   * variants contribute the same IDs.
   */
  lemma {:induction false} VariantsAgreeOnPrimary(catalog: Catalog, playlists: seq<string>, channels: seq<string>,
                                                  limit: int)
    requires forall k :: 0 <= k < |playlists| ==> catalog.getPlaylist(playlists[k], Some(limit)).Some?
    requires forall k :: 0 <= k < |channels| && catalog.getArtistSongs(channels[k]).Some? ==>
               catalog.getPlaylist(catalog.getArtistSongs(channels[k]).value, Some(limit)).Some?
    ensures Contributions(AsWritten, catalog, playlists, channels, limit) ==
            Contributions(Corrected, catalog, playlists, channels, limit)
    decreases |playlists| + |channels|
  {
    if channels != [] {
      VariantsAgreeOnPrimary(catalog, playlists, channels[..|channels| - 1], limit);
      var c := channels[|channels| - 1];
      if catalog.getArtistSongs(c).Some? {
        AsWrittenAgreesOnPrimary(catalog, catalog.getArtistSongs(c).value, limit);
      }
    } else if playlists != [] {
      VariantsAgreeOnPrimary(catalog, playlists[..|playlists| - 1], [], limit);
      AsWrittenAgreesOnPrimary(catalog, playlists[|playlists| - 1], limit);
    }
  }

  /**
   * extract(playlists=["p"]) where only get_watch_playlist knows "p": nothing as
   * written, its track with the corrected fallback.
   */
  lemma ExtractLosesWatchPlaylist()
    ensures var catalog := Catalog((p, n) => None, (p, n) => Some(["a"]), a => None);
            Contributions(AsWritten, catalog, ["p"], [], 50) == [] &&
            Contributions(Corrected, catalog, ["p"], [], 50) == ["a"]
  {
    var catalog := Catalog((p, n) => None, (p, n) => Some(["a"]), a => None);
    assert ["p"][..0] == [];
  }

  /**
   * Extractor.extract: the explicit videos first, then whatever each future yields; a
   * future that raised is skipped. The futures are collected here in submission order,
   * but only the multiset of the tail is promised, as completion order is arbitrary.
   */
  method Extract(v: Variant, catalog: Catalog, videos: seq<string>, playlists: seq<string>, channels: seq<string>, limit: int)
    returns (ids: seq<string>)
    ensures |ids| >= |videos| && ids[..|videos|] == videos
    ensures multiset(ids[|videos|..]) == multiset(Contributions(v, catalog, playlists, channels, limit))
    ensures multiset(ids) == multiset(videos) + multiset(Contributions(v, catalog, playlists, channels, limit))
    ensures videos == [] && playlists == [] && channels == [] ==> ids == []
  {
    ids := videos;
    for i := 0 to |playlists|
      invariant ids == videos + Contributions(v, catalog, playlists[..i], [], limit)
    {
      PlaylistStep(v, catalog, playlists, i, limit, videos, ids);
      var res := PlaylistIdsOf(v, catalog, playlists[i], limit);
      if res.Some? {
        ids := ids + res.value;
      }
    }
    assert playlists[..|playlists|] == playlists;
    for j := 0 to |channels|
      invariant ids == videos + Contributions(v, catalog, playlists, channels[..j], limit)
    {
      ChannelStep(v, catalog, playlists, channels, j, limit, videos, ids);
      var res := ChannelIds(v, catalog, channels[j], limit);
      if res.Some? {
        ids := ids + res.value;
      }
    }
    assert channels[..|channels|] == channels;
    assert ids[|videos|..] == Contributions(v, catalog, playlists, channels, limit);
    assert ids == videos + ids[|videos|..];
  }
}
