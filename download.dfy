/**
 * The download orchestration of ytldl/yt/download.py. The thread pool becomes a
 * sequential fan-in loop; what yt-dlp does with one URL is the abstract Downloader.fetch.
 */
module Download {
  import opened Common
  import opened Api
  import Cache

  const WatchUrlPrefix: string := "https://youtube.com/watch?v="

  /** Downloader.to_url */
  function ToUrl(videoId: string): (url: string)
    ensures |url| == |WatchUrlPrefix| + |videoId|
    ensures url[..|WatchUrlPrefix|] == WatchUrlPrefix
    ensures url[|WatchUrlPrefix|..] == videoId
  {
    WatchUrlPrefix + videoId
  }

  /** The inverse of ToUrl: the v= parameter of a watch URL. */
  function VideoIdOfUrl(url: string): Option<string>
  {
    if |url| >= |WatchUrlPrefix| && url[..|WatchUrlPrefix|] == WatchUrlPrefix
    then Some(url[|WatchUrlPrefix|..]) else None
  }

  lemma UrlRoundTrip(videoId: string)
    ensures VideoIdOfUrl(ToUrl(videoId)) == Some(videoId)
  {
  }

  lemma ToUrlInjective(a: string, b: string)
    ensures ToUrl(a) == ToUrl(b) ==> a == b
  {
    if ToUrl(a) == ToUrl(b) {
      UrlRoundTrip(a);
      UrlRoundTrip(b);
    }
  }

  /** A Downloader: its debug flag, what yt-dlp does per URL, and the catalog. */
  datatype Downloader = Downloader(debug: bool, fetch: string -> Outcome, catalog: Catalog)

  /**
   * Downloader.download_track: in debug mode the ID comes back without any download;
   * otherwise yt-dlp runs on the watch URL, with the filter as a pre-processor.
   */
  function DownloadTrack(d: Downloader, videoId: string): (o: Outcome)
    ensures d.debug ==> o == Downloaded
    ensures !d.debug ==> o == d.fetch(ToUrl(videoId))
  {
    if d.debug then Downloaded else d.fetch(ToUrl(videoId))
  }

  // ---------------------------------------------------------------------------
  // download_tracks: the routing of per-item outcomes.

  /** A callback invocation: after_download(video_id) or on_discarded([video_id]). */
  datatype Event = AfterDownload(videoId: string) | OnDiscarded(videoIds: seq<string>)

  /** The result list, the callbacks made so far, and whether the loop raised. */
  datatype Routing = Routing(downloaded: seq<string>, events: seq<Event>, raised: bool)

  /**
   * One turn of the fan-in loop. A filtered item calls on_discarded unguarded, so with
   * no such callback the call raises (TypeError) and the loop ends.
   */
  function RouteOne(d: Downloader, r: Routing, id: string, hasAfter: bool, hasDiscard: bool): Routing
  {
    if r.raised then r
    else match DownloadTrack(d, id)
      case Downloaded =>
        Routing(r.downloaded + [id], r.events + (if hasAfter then [AfterDownload(id)] else []), false)
      case Discarded =>
        if hasDiscard then r.(events := r.events + [OnDiscarded([id])]) else r.(raised := true)
      case Failed => r
  }

  /** The fan-in loop over a dispatch order. */
  function Route(d: Downloader, order: seq<string>, hasAfter: bool, hasDiscard: bool): Routing
    decreases |order|
  {
    if order == [] then Routing([], [], false)
    else RouteOne(d, Route(d, order[..|order| - 1], hasAfter, hasDiscard), order[|order| - 1], hasAfter, hasDiscard)
  }

  /** The items of s whose download ends with outcome o, in order. */
  function WithOutcome(d: Downloader, s: seq<string>, o: Outcome): seq<string>
    decreases |s|
  {
    if s == [] then []
    else WithOutcome(d, s[..|s| - 1], o) + (if DownloadTrack(d, s[|s| - 1]) == o then [s[|s| - 1]] else [])
  }

  /** The arguments of the after_download calls, in order. */
  function AfterIds(events: seq<Event>): seq<string>
    decreases |events|
  {
    if events == [] then []
    else
      var e := events[|events| - 1];
      AfterIds(events[..|events| - 1]) + (if e.AfterDownload? then [e.videoId] else [])
  }

  /** The arguments of the on_discarded calls, in order. */
  function DiscardArgs(events: seq<Event>): seq<seq<string>>
    decreases |events|
  {
    if events == [] then []
    else
      var e := events[|events| - 1];
      DiscardArgs(events[..|events| - 1]) + (if e.OnDiscarded? then [e.videoIds] else [])
  }

  /** Every ID that some callback was given. */
  function EventIds(events: seq<Event>): set<string>
    decreases |events|
  {
    if events == [] then {}
    else
      var e := events[|events| - 1];
      EventIds(events[..|events| - 1]) + (if e.AfterDownload? then {e.videoId} else Elems(e.videoIds))
  }

  function Singletons(s: seq<string>): seq<seq<string>>
    decreases |s|
  {
    if s == [] then [] else Singletons(s[..|s| - 1]) + [[s[|s| - 1]]]
  }

  /** How many items of the order the loop gets through before raising (all, if it does not). */
  function Stop(d: Downloader, order: seq<string>, hasDiscard: bool): nat
    decreases |order|
  {
    if order == [] then 0
    else
      var k := Stop(d, order[..|order| - 1], hasDiscard);
      if k < |order| - 1 then k
      else if !hasDiscard && DownloadTrack(d, order[|order| - 1]) == Discarded then |order| - 1
      else |order|
  }

  lemma {:induction false} WithOutcomeMembers(d: Downloader, s: seq<string>, o: Outcome)
    ensures forall x :: x in WithOutcome(d, s, o) <==> x in s && DownloadTrack(d, x) == o
    decreases |s|
  {
    if s != [] {
      var p := s[..|s| - 1];
      WithOutcomeMembers(d, p, o);
      assert s == p + [s[|s| - 1]];
    }
  }

  lemma {:induction false} WithOutcomeNoDuplicates(d: Downloader, s: seq<string>, o: Outcome)
    requires NoDuplicates(s)
    ensures NoDuplicates(WithOutcome(d, s, o))
    decreases |s|
  {
    if s != [] {
      var p := s[..|s| - 1];
      assert NoDuplicates(p);
      WithOutcomeNoDuplicates(d, p, o);
      WithOutcomeMembers(d, p, o);
      assert s[|s| - 1] !in p;
    }
  }

  /** The loop stops early exactly when a filtered item meets a missing on_discarded. */
  lemma {:induction false} StopAt(d: Downloader, order: seq<string>, hasDiscard: bool)
    ensures Stop(d, order, hasDiscard) <= |order|
    ensures Stop(d, order, hasDiscard) < |order| <==>
              !hasDiscard && exists x :: x in order && DownloadTrack(d, x) == Discarded
    ensures Stop(d, order, hasDiscard) < |order| ==>
              DownloadTrack(d, order[Stop(d, order, hasDiscard)]) == Discarded
    decreases |order|
  {
    if order != [] {
      var p := order[..|order| - 1];
      StopAt(d, p, hasDiscard);
      assert order == p + [order[|order| - 1]];
      var k := Stop(d, p, hasDiscard);
      if k < |p| {
        assert order[k] == p[k];
      }
    }
  }

  lemma AfterIdsSnoc(es: seq<Event>, e: Event)
    ensures AfterIds(es + [e]) == AfterIds(es) + (if e.AfterDownload? then [e.videoId] else [])
    ensures DiscardArgs(es + [e]) == DiscardArgs(es) + (if e.OnDiscarded? then [e.videoIds] else [])
    ensures EventIds(es + [e]) == EventIds(es) + (if e.AfterDownload? then {e.videoId} else Elems(e.videoIds))
  {
    assert (es + [e])[..|es|] == es;
  }

  lemma WithOutcomeSnoc(d: Downloader, s: seq<string>, x: string, o: Outcome)
    ensures WithOutcome(d, s + [x], o) == WithOutcome(d, s, o) + (if DownloadTrack(d, x) == o then [x] else [])
    ensures Singletons(WithOutcome(d, s + [x], o)) ==
              Singletons(WithOutcome(d, s, o)) + (if DownloadTrack(d, x) == o then [[x]] else [])
  {
    assert (s + [x])[..|s|] == s;
    if DownloadTrack(d, x) == o {
      var w := WithOutcome(d, s, o) + [x];
      assert WithOutcome(d, s + [x], o) == w;
      assert w[..|w| - 1] == WithOutcome(d, s, o);
    } else {
      assert WithOutcome(d, s, o) + [] == WithOutcome(d, s, o);
    }
  }

  /** One turn of the loop that does not raise extends the result and the callbacks as the outcome says. */
  lemma RouteOneStep(d: Downloader, r: Routing, x: string, hasAfter: bool, hasDiscard: bool)
    requires !r.raised && !(!hasDiscard && DownloadTrack(d, x) == Discarded)
    ensures var r2 := RouteOne(d, r, x, hasAfter, hasDiscard);
            && !r2.raised
            && r2.downloaded == r.downloaded + (if DownloadTrack(d, x) == Downloaded then [x] else [])
            && AfterIds(r2.events) == AfterIds(r.events) + (if hasAfter && DownloadTrack(d, x) == Downloaded then [x] else [])
            && DiscardArgs(r2.events) == DiscardArgs(r.events) + (if DownloadTrack(d, x) == Discarded then [[x]] else [])
            && EventIds(r2.events) == EventIds(r.events) +
                 (if (hasAfter && DownloadTrack(d, x) == Downloaded) || DownloadTrack(d, x) == Discarded then {x} else {})
  {
    var o := DownloadTrack(d, x);
    if o == Downloaded && hasAfter {
      AfterIdsSnoc(r.events, AfterDownload(x));
    } else if o == Discarded {
      assert RouteOne(d, r, x, hasAfter, hasDiscard) == r.(events := r.events + [OnDiscarded([x])]);
      AfterIdsSnoc(r.events, OnDiscarded([x]));
      assert Elems([x]) == {x};
    } else {
      assert r.events + [] == r.events;
    }
  }

  /** What the fan-in loop produces, in terms of the prefix of the order it got through. */
  lemma {:induction false} RouteSpec(d: Downloader, order: seq<string>, hasAfter: bool, hasDiscard: bool)
    ensures var r := Route(d, order, hasAfter, hasDiscard);
            var k := Stop(d, order, hasDiscard);
            && k <= |order|
            && r.raised == (k < |order|)
            && r.downloaded == WithOutcome(d, order[..k], Downloaded)
            && AfterIds(r.events) == (if hasAfter then r.downloaded else [])
            && DiscardArgs(r.events) == (if hasDiscard then Singletons(WithOutcome(d, order[..k], Discarded)) else [])
    decreases |order|
  {
    if order != [] {
      var n := |order|;
      var p := order[..n - 1];
      var x := order[n - 1];
      assert order == p + [x];
      RouteSpec(d, p, hasAfter, hasDiscard);
      var k' := Stop(d, p, hasDiscard);
      if k' < n - 1 {
        assert order[..k'] == p[..k'];
      } else {
        assert p[..k'] == p;
        if !(!hasDiscard && DownloadTrack(d, x) == Discarded) {
          assert order[..n] == order;
          RouteOneStep(d, Route(d, p, hasAfter, hasDiscard), x, hasAfter, hasDiscard);
          WithOutcomeSnoc(d, p, x, Downloaded);
          WithOutcomeSnoc(d, p, x, Discarded);
        }
      }
    }
  }

  /** With both callbacks, every item that did not fail is handed to one of them. */
  lemma {:induction false} RouteRecordsNonFailed(d: Downloader, order: seq<string>)
    ensures !Route(d, order, true, true).raised
    ensures EventIds(Route(d, order, true, true).events) ==
              set x | x in order && DownloadTrack(d, x) != Failed
    decreases |order|
  {
    if order != [] {
      var p := order[..|order| - 1];
      var x := order[|order| - 1];
      RouteRecordsNonFailed(d, p);
      assert order == p + [x];
      RouteOneStep(d, Route(d, p, true, true), x, true, true);
    }
  }

  lemma {:induction false} SingletonsMembers(s: seq<string>)
    ensures forall xs :: xs in Singletons(s) <==> exists x :: x in s && xs == [x]
    decreases |s|
  {
    if s != [] {
      SingletonsMembers(s[..|s| - 1]);
      assert s == s[..|s| - 1] + [s[|s| - 1]];
    }
  }

  /** Every callback made appears in AfterIds or DiscardArgs. */
  lemma {:induction false} EventsListed(events: seq<Event>)
    ensures forall e :: e in events && e.AfterDownload? ==> e.videoId in AfterIds(events)
    ensures forall e :: e in events && e.OnDiscarded? ==> e.videoIds in DiscardArgs(events)
    decreases |events|
  {
    if events != [] {
      EventsListed(events[..|events| - 1]);
      assert events == events[..|events| - 1] + [events[|events| - 1]];
    }
  }

  /** Route over a one-longer prefix of the order is one more turn of the loop. */
  lemma RouteSnoc(d: Downloader, order: seq<string>, i: nat, hasAfter: bool, hasDiscard: bool)
    requires i < |order|
    ensures Route(d, order[..i + 1], hasAfter, hasDiscard) ==
              RouteOne(d, Route(d, order[..i], hasAfter, hasDiscard), order[i], hasAfter, hasDiscard)
  {
    assert order[..i + 1][..i] == order[..i];
  }

  /**
   * The fan-in loop of download_tracks over the dispatch order: a download goes to the
   * result and to after_download when one is given, a filtered item goes to
   * on_discarded([id]) (raising when there is none), any other failure is dropped.
   */
  method FanIn(d: Downloader, order: seq<string>, hasAfter: bool, hasDiscard: bool)
    returns (downloaded: seq<string>, events: seq<Event>, raised: bool)
    ensures Routing(downloaded, events, raised) == Route(d, order, hasAfter, hasDiscard)
  {
    downloaded, events, raised := [], [], false;
    var i := 0;
    while i < |order| && !raised
      invariant 0 <= i <= |order|
      invariant Routing(downloaded, events, raised) == Route(d, order[..i], hasAfter, hasDiscard)
      invariant raised ==> i > 0
    {
      RouteSnoc(d, order, i, hasAfter, hasDiscard);
      var id := order[i];
      match DownloadTrack(d, id) {
        case Downloaded =>
          downloaded := downloaded + [id];
          if hasAfter {
            events := events + [AfterDownload(id)];
          }
        case Discarded =>
          if hasDiscard {
            events := events + [OnDiscarded([id])];
          } else {
            raised := true;
          }
        case Failed =>
      }
      i := i + 1;
    }
    if raised {
      RouteAfterStop(d, order, i - 1, hasAfter, hasDiscard);
    } else {
      assert order[..|order|] == order;
    }
  }

  /**
   * Downloader.download_tracks: the IDs are collected into a set, dispatched in some
   * order (`order`), and each outcome is routed by the fan-in loop.
   */
  method DownloadTracks(d: Downloader, videoIds: seq<string>, hasAfter: bool, hasDiscard: bool)
    returns (order: seq<string>, downloaded: seq<string>, events: seq<Event>, raised: bool)
    ensures Elems(order) == Elems(videoIds) && NoDuplicates(order)
    ensures Routing(downloaded, events, raised) == Route(d, order, hasAfter, hasDiscard)
    ensures raised <==> !hasDiscard && exists x :: x in videoIds && DownloadTrack(d, x) == Discarded
    ensures !raised ==> NoDuplicates(downloaded)
    ensures !raised ==> forall x :: x in downloaded <==> x in videoIds && DownloadTrack(d, x) == Downloaded
    ensures !raised ==> AfterIds(events) == (if hasAfter then downloaded else [])
    ensures !raised && hasDiscard ==>
              forall xs :: xs in DiscardArgs(events) <==>
                exists x :: x in videoIds && DownloadTrack(d, x) == Discarded && xs == [x]
    ensures forall x :: x in videoIds && DownloadTrack(d, x) == Failed ==>
              x !in downloaded && AfterDownload(x) !in events && OnDiscarded([x]) !in events
  {
    order := ListOfSet(Elems(videoIds));
    downloaded, events, raised := FanIn(d, order, hasAfter, hasDiscard);
    RouteFacts(d, order, videoIds, hasAfter, hasDiscard);
  }

  /** Once the prefix up to the stop index is routed, the rest of the order changes nothing. */
  lemma {:induction false} RouteAfterStop(d: Downloader, order: seq<string>, i: nat, hasAfter: bool, hasDiscard: bool)
    requires i < |order| && Route(d, order[..i + 1], hasAfter, hasDiscard).raised
    ensures Route(d, order, hasAfter, hasDiscard) == Route(d, order[..i + 1], hasAfter, hasDiscard)
    decreases |order|
  {
    if |order| == i + 1 {
      assert order[..i + 1] == order;
    } else {
      var p := order[..|order| - 1];
      assert p[..i + 1] == order[..i + 1];
      RouteAfterStop(d, p, i, hasAfter, hasDiscard);
    }
  }

  /** The meaning of Route for a dispatch order without duplicates. */
  lemma RouteFacts(d: Downloader, order: seq<string>, videoIds: seq<string>, hasAfter: bool, hasDiscard: bool)
    requires Elems(order) == Elems(videoIds) && NoDuplicates(order)
    ensures var r := Route(d, order, hasAfter, hasDiscard);
            && (r.raised <==> !hasDiscard && exists x :: x in videoIds && DownloadTrack(d, x) == Discarded)
            && (!r.raised ==> NoDuplicates(r.downloaded))
            && (!r.raised ==> forall x :: x in r.downloaded <==> x in videoIds && DownloadTrack(d, x) == Downloaded)
            && (!r.raised ==> AfterIds(r.events) == (if hasAfter then r.downloaded else []))
            && (!r.raised && hasDiscard ==>
                  forall xs :: xs in DiscardArgs(r.events) <==>
                    exists x :: x in videoIds && DownloadTrack(d, x) == Discarded && xs == [x])
            && (forall x :: x in videoIds && DownloadTrack(d, x) == Failed ==>
                  x !in r.downloaded && AfterDownload(x) !in r.events && OnDiscarded([x]) !in r.events)
  {
    var r := Route(d, order, hasAfter, hasDiscard);
    var k := Stop(d, order, hasDiscard);
    forall x
      ensures x in videoIds <==> x in order
    {
      assert x in videoIds <==> x in Elems(videoIds);
      assert x in order <==> x in Elems(order);
    }
    RouteSpec(d, order, hasAfter, hasDiscard);
    StopAt(d, order, hasDiscard);
    if k < |order| {
      assert order[k] in videoIds;
    } else {
      assert order[..k] == order;
      WithOutcomeNoDuplicates(d, order, Downloaded);
      if hasDiscard {
        WithOutcomeMembers(d, order, Discarded);
        SingletonsMembers(WithOutcome(d, order, Discarded));
      }
    }
    assert order[..k] <= order;
    WithOutcomeMembers(d, order[..k], Downloaded);
    WithOutcomeMembers(d, order[..k], Discarded);
    SingletonsMembers(WithOutcome(d, order[..k], Discarded));
    EventsListed(r.events);
    forall x | x in videoIds && DownloadTrack(d, x) == Failed
      ensures x !in r.downloaded && AfterDownload(x) !in r.events && OnDiscarded([x]) !in r.events
    {
    }
  }

  // ---------------------------------------------------------------------------
  // CacheDownloader.download_tracks

  /**
   * Only the IDs the cache reports as uncached are dispatched; after_download and
   * on_discarded both add to the cache, and the cache is committed at the end. The
   * callbacks are replayed onto the cache after the loop, in the order they were made:
   * the loop never reads the cache, so the final state is the same.
   */
  method CacheDownloadTracks(d: Downloader, cache: Cache.SqliteCache, videoIds: seq<string>)
    returns (raised: bool, downloaded: seq<string>)
    modifies cache
    ensures raised <==> !old(cache.isOpen)
    ensures raised ==> cache.State() == old(cache.State())
    ensures !raised ==> cache.isOpen && cache.batch == []
    ensures !raised ==>
              cache.rows == old(Cache.Recorded(cache.State())) +
                (set x | x in videoIds && x !in old(cache.rows) && DownloadTrack(d, x) != Failed)
    ensures !raised ==> NoDuplicates(downloaded)
    ensures !raised ==> forall x :: x in downloaded <==>
              x in videoIds && x !in old(cache.rows) && DownloadTrack(d, x) == Downloaded
  {
    var uncached := cache.FilterUncached(videoIds);
    if uncached.None? {
      return true, [];
    }
    var ids := ListOfSet(uncached.value);
    var order, dl, events, r := DownloadTracks(d, ids, true, true);
    RouteRecordsNonFailed(d, order);
    ghost var before := Cache.Recorded(cache.State());
    ghost var stored := cache.rows;
    Replay(cache, events);
    var _ := cache.Commit();
    NewRows(d, videoIds, stored, uncached.value, ids, order, before, EventIds(events));
    raised, downloaded := false, dl;
  }

  /**
   * CacheDownloadTracks on the default cache, a MemoryCache: the same dispatch, with the
   * callbacks adding to the in-memory set; commit does nothing there.
   */
  method CacheDownloadTracksMemory(d: Downloader, cache: Cache.MemoryCache, videoIds: seq<string>)
    returns (downloaded: seq<string>)
    modifies cache
    ensures cache.cache ==
              old(cache.cache) + (set x | x in videoIds && x !in old(cache.cache) && DownloadTrack(d, x) != Failed)
    ensures NoDuplicates(downloaded)
    ensures forall x :: x in downloaded <==>
              x in videoIds && x !in old(cache.cache) && DownloadTrack(d, x) == Downloaded
  {
    var uncached := cache.FilterUncached(videoIds);
    var ids := ListOfSet(uncached);
    var order, dl, events, r := DownloadTracks(d, ids, true, true);
    RouteRecordsNonFailed(d, order);
    ghost var stored := cache.cache;
    ReplayMemory(cache, events);
    cache.Commit();
    NewRows(d, videoIds, stored, uncached, ids, order, stored, EventIds(events));
    downloaded := dl;
  }

  /** The set arithmetic behind CacheDownloadTracks: new rows are the uncached items that did not fail. */
  lemma NewRows(d: Downloader, videoIds: seq<string>, stored: set<string>, uncached: set<string>,
                ids: seq<string>, order: seq<string>, before: set<string>, recorded: set<string>)
    requires forall x :: x in uncached <==> x in videoIds && x !in stored
    requires Elems(ids) == uncached && Elems(order) == Elems(ids)
    requires recorded == set x | x in order && DownloadTrack(d, x) != Failed
    ensures before + recorded ==
              before + (set x | x in videoIds && x !in stored && DownloadTrack(d, x) != Failed)
  {
    forall x
      ensures x in order <==> x in uncached
    {
      assert x in order <==> x in Elems(order);
    }
  }

  /** The callbacks made during the loop, applied to the cache in the order they were made. */
  method Replay(cache: Cache.SqliteCache, events: seq<Event>)
    modifies cache
    requires cache.isOpen
    ensures cache.isOpen
    ensures Cache.Recorded(cache.State()) == old(Cache.Recorded(cache.State())) + EventIds(events)
  {
    var i := 0;
    while i < |events|
      invariant 0 <= i <= |events|
      invariant cache.isOpen
      invariant Cache.Recorded(cache.State()) == old(Cache.Recorded(cache.State())) + EventIds(events[..i])
    {
      assert events[..i + 1] == events[..i] + [events[i]];
      AfterIdsSnoc(events[..i], events[i]);
      var items := match events[i] case AfterDownload(x) => [x] case OnDiscarded(xs) => xs;
      assert Elems(items) == (if events[i].AfterDownload? then {events[i].videoId} else Elems(events[i].videoIds));
      Cache.AddRecords(cache.State(), cache.batchSize, items);
      var _ := cache.AddItems(items);
      i := i + 1;
    }
    assert events[..|events|] == events;
  }

  /** The callbacks made during the loop, applied to a MemoryCache in the order they were made. */
  method ReplayMemory(cache: Cache.MemoryCache, events: seq<Event>)
    modifies cache
    ensures cache.cache == old(cache.cache) + EventIds(events)
  {
    var i := 0;
    while i < |events|
      invariant 0 <= i <= |events|
      invariant cache.cache == old(cache.cache) + EventIds(events[..i])
    {
      assert events[..i + 1] == events[..i] + [events[i]];
      AfterIdsSnoc(events[..i], events[i]);
      var items := match events[i] case AfterDownload(x) => [x] case OnDiscarded(xs) => xs;
      assert Elems(items) == (if events[i].AfterDownload? then {events[i].videoId} else Elems(events[i].videoIds));
      cache.AddItems(items);
      i := i + 1;
    }
    assert events[..|events|] == events;
  }

  // ---------------------------------------------------------------------------
  // Extraction of video IDs from playlists and channels.

  /**
   * Downloader.extract_video_ids: get_playlist, or get_watch_playlist when that raises;
   * no IDs when both raise; otherwise the IDs of the first min(limit, len(tracks)) tracks.
   */
  function ExtractVideoIds(d: Downloader, playlistId: string, limit: int): (ids: seq<string>)
    ensures d.catalog.getPlaylist(playlistId, Some(limit)).Some? ==>
              ids == TakeAtMost(d.catalog.getPlaylist(playlistId, Some(limit)).value, limit)
    ensures (d.catalog.getPlaylist(playlistId, Some(limit)).None? &&
             d.catalog.getWatchPlaylist(playlistId, Some(limit)).Some?) ==>
              ids == TakeAtMost(d.catalog.getWatchPlaylist(playlistId, Some(limit)).value, limit)
    ensures (d.catalog.getPlaylist(playlistId, Some(limit)).None? &&
             d.catalog.getWatchPlaylist(playlistId, Some(limit)).None?) ==> ids == []
    ensures limit >= 0 ==> |ids| <= limit
  {
    var playlist := d.catalog.getPlaylist(playlistId, Some(limit));
    var playlist := if playlist.None? then d.catalog.getWatchPlaylist(playlistId, Some(limit)) else playlist;
    match playlist
    case None => []
    case Some(tracks) => TakeAtMost(tracks, limit)
  }

  /**
   * Downloader.extract_video_ids_channel: the channel's songs playlist, resolved as
   * above. A get_artist that raises (or lacks songs.browseId) raises here: None.
   */
  function ExtractVideoIdsChannel(d: Downloader, channelId: string, limit: int): (ids: Option<seq<string>>)
    ensures ids.Some? <==> d.catalog.getArtistSongs(channelId).Some?
    ensures ids.Some? ==> ids.value == ExtractVideoIds(d, d.catalog.getArtistSongs(channelId).value, limit)
  {
    match d.catalog.getArtistSongs(channelId)
    case None => None
    case Some(browseId) => Some(ExtractVideoIds(d, browseId, limit))
  }

  /** What the playlists contribute to v, in submission order. */
  function FromPlaylists(d: Downloader, l: seq<string>, limit: int): seq<string>
    decreases |l|
  {
    if l == [] then []
    else FromPlaylists(d, l[..|l| - 1], limit) + ExtractVideoIds(d, l[|l| - 1], limit)
  }

  /** What the channels contribute to v; a channel whose extraction raises is skipped. */
  function FromChannels(d: Downloader, c: seq<string>, limit: int): seq<string>
    decreases |c|
  {
    if c == [] then []
    else
      var got := ExtractVideoIdsChannel(d, c[|c| - 1], limit);
      FromChannels(d, c[..|c| - 1], limit) + (if got.Some? then got.value else [])
  }

  /** Each playlist contributes at most `limit` IDs. */
  lemma {:induction false} FromPlaylistsBound(d: Downloader, l: seq<string>, limit: nat)
    ensures |FromPlaylists(d, l, limit)| <= |l| * limit
    decreases |l|
  {
    if l != [] {
      FromPlaylistsBound(d, l[..|l| - 1], limit);
      assert (|l| - 1) * limit + limit == |l| * limit;
    }
  }

  /** Each channel contributes at most `limit` IDs. */
  lemma {:induction false} FromChannelsBound(d: Downloader, c: seq<string>, limit: nat)
    ensures |FromChannels(d, c, limit)| <= |c| * limit
    decreases |c|
  {
    if c != [] {
      FromChannelsBound(d, c[..|c| - 1], limit);
      assert (|c| - 1) * limit + limit == |c| * limit;
    }
  }

  /** One more playlist extends what the playlists contributed so far by its own IDs. */
  lemma FromPlaylistsStep(d: Downloader, l: seq<string>, i: nat, limit: int, start: seq<string>, items: seq<string>)
    requires i < |l| && items == start + FromPlaylists(d, l[..i], limit)
    ensures items + ExtractVideoIds(d, l[i], limit) == start + FromPlaylists(d, l[..i + 1], limit)
  {
    assert l[..i + 1][..i] == l[..i];
  }

  /** One more channel extends what the channels contributed so far, unless its extraction raises. */
  lemma FromChannelsStep(d: Downloader, c: seq<string>, j: nat, limit: int, start: seq<string>, items: seq<string>)
    requires j < |c| && items == start + FromChannels(d, c[..j], limit)
    ensures var got := ExtractVideoIdsChannel(d, c[j], limit);
            (if got.Some? then items + got.value else items) == start + FromChannels(d, c[..j + 1], limit)
  {
    assert c[..j + 1][..j] == c[..j];
  }

  /**
   * The first half of Downloader.download: v is extended in place with what every
   * playlist and then every channel yields, in submission order, skipping the channels
   * whose extraction raises; the result is list(set(v)).
   */
  method Gather(d: Downloader, v: IdList, l: seq<string>, c: seq<string>, limit: int)
    returns (distinct: seq<string>)
    modifies v
    ensures v.items == old(v.items) + FromPlaylists(d, l, limit) + FromChannels(d, c, limit)
    ensures Elems(distinct) == Elems(v.items) && NoDuplicates(distinct)
  {
    ghost var start := v.items;
    var i := 0;
    while i < |l|
      invariant 0 <= i <= |l|
      invariant v.items == start + FromPlaylists(d, l[..i], limit)
    {
      FromPlaylistsStep(d, l, i, limit, start, v.items);
      v.items := v.items + ExtractVideoIds(d, l[i], limit);
      i := i + 1;
    }
    assert l[..|l|] == l;
    ghost var mid := v.items;
    var j := 0;
    while j < |c|
      invariant 0 <= j <= |c|
      invariant v.items == mid + FromChannels(d, c[..j], limit)
    {
      FromChannelsStep(d, c, j, limit, mid, v.items);
      var res := ExtractVideoIdsChannel(d, c[j], limit);
      if res.Some? {
        v.items := v.items + res.value;
      }
      j := j + 1;
    }
    assert c[..|c|] == c;
    distinct := ListOfSet(Elems(v.items));
  }

  /** Downloader.download: the gathered IDs go to download_tracks with the caller's callbacks. */
  method Download(d: Downloader, v: IdList, l: seq<string>, c: seq<string>, limit: int,
                  hasAfter: bool, hasDiscard: bool)
    returns (order: seq<string>, downloaded: seq<string>, events: seq<Event>, raised: bool)
    modifies v
    ensures v.items == old(v.items) + FromPlaylists(d, l, limit) + FromChannels(d, c, limit)
    ensures Elems(order) == Elems(v.items) && NoDuplicates(order)
    ensures Routing(downloaded, events, raised) == Route(d, order, hasAfter, hasDiscard)
    ensures raised <==> !hasDiscard && exists x :: x in v.items && DownloadTrack(d, x) == Discarded
    ensures !raised ==> NoDuplicates(downloaded)
    ensures !raised ==> forall x :: x in downloaded <==> x in v.items && DownloadTrack(d, x) == Downloaded
  {
    var distinct := Gather(d, v, l, c, limit);
    order, downloaded, events, raised := DownloadTracks(d, distinct, hasAfter, hasDiscard);
    forall x
      ensures x in distinct <==> x in v.items
    {
      assert x in distinct <==> x in Elems(distinct);
    }
  }

  /**
   * download on a CacheDownloader: the same gathering, then CacheDownloader.download_tracks
   * (the call dispatches to the subclass).
   */
  method CacheDownload(d: Downloader, cache: Cache.SqliteCache, v: IdList, l: seq<string>, c: seq<string>,
                       limit: int)
    returns (raised: bool, downloaded: seq<string>)
    modifies v, cache
    ensures v.items == old(v.items) + FromPlaylists(d, l, limit) + FromChannels(d, c, limit)
    ensures raised <==> !old(cache.isOpen)
    ensures !raised ==>
              cache.rows == old(Cache.Recorded(cache.State())) +
                (set x | x in v.items && x !in old(cache.rows) && DownloadTrack(d, x) != Failed)
    ensures !raised ==> forall x :: x in downloaded <==>
              x in v.items && x !in old(cache.rows) && DownloadTrack(d, x) == Downloaded
  {
    var distinct := Gather(d, v, l, c, limit);
    raised, downloaded := CacheDownloadTracks(d, cache, distinct);
    forall x
      ensures x in distinct <==> x in v.items
    {
      assert x in distinct <==> x in Elems(distinct);
    }
  }

  /** download on a CacheDownloader built with the default MemoryCache. */
  method CacheDownloadMemory(d: Downloader, cache: Cache.MemoryCache, v: IdList, l: seq<string>, c: seq<string>,
                             limit: int)
    returns (downloaded: seq<string>)
    modifies v, cache
    ensures v.items == old(v.items) + FromPlaylists(d, l, limit) + FromChannels(d, c, limit)
    ensures cache.cache ==
              old(cache.cache) + (set x | x in v.items && x !in old(cache.cache) && DownloadTrack(d, x) != Failed)
    ensures forall x :: x in downloaded <==>
              x in v.items && x !in old(cache.cache) && DownloadTrack(d, x) == Downloaded
  {
    var distinct := Gather(d, v, l, c, limit);
    downloaded := CacheDownloadTracksMemory(d, cache, distinct);
    forall x
      ensures x in distinct <==> x in v.items
    {
      assert x in distinct <==> x in Elems(distinct);
    }
    assert (set x | x in v.items && x !in old(cache.cache) && DownloadTrack(d, x) != Failed) ==
           (set x | x in distinct && x !in old(cache.cache) && DownloadTrack(d, x) != Failed);
  }

  // ---------------------------------------------------------------------------
  // LibDownloader.get_home_items

  /** One section of the home feed: its title and its entries. */
  datatype HomeSection = HomeSection(title: string, contents: seq<Dict>)

  /** The dict(v=[], l=[], c=[]) that get_home_items fills. */
  datatype HomeItems = HomeItems(v: seq<Value>, l: seq<Value>, c: seq<Value>)

  datatype Kind = Video | Playlist | Channel

  /** The test an entry passes to land in the list of that kind. */
  predicate Matches(e: Dict, kind: Kind)
  {
    match kind
    case Video => "videoId" in e
    case Playlist => "playlistId" in e
    case Channel => "subscribers" in e && "browseId" in e
  }

  /** The key whose value is appended for that kind. */
  function KeyOf(kind: Kind): string
  {
    match kind
    case Video => "videoId"
    case Playlist => "playlistId"
    case Channel => "browseId"
  }

  /** The sections that contribute: those titled in filter_titles, or all when it is empty. */
  function Selected(home: seq<HomeSection>, filterTitles: seq<string>): seq<HomeSection>
    decreases |home|
  {
    if home == [] then []
    else
      var s := home[|home| - 1];
      Selected(home[..|home| - 1], filterTitles) +
        (if filterTitles == [] || s.title in filterTitles then [s] else [])
  }

  /** [contents for home_item in home for contents in home_item["contents"]] */
  function Flatten(sections: seq<HomeSection>): seq<Dict>
    decreases |sections|
  {
    if sections == [] then [] else Flatten(sections[..|sections| - 1]) + sections[|sections| - 1].contents
  }

  /** The values appended to the list of one kind, in entry order. */
  function Column(entries: seq<Dict>, kind: Kind): seq<Value>
    decreases |entries|
  {
    if entries == [] then []
    else
      var e := entries[|entries| - 1];
      Column(entries[..|entries| - 1], kind) + (if Matches(e, kind) then [e[KeyOf(kind)]] else [])
  }

  function HomeEntries(home: seq<HomeSection>, filterTitles: seq<string>): seq<Dict>
  {
    Flatten(Selected(home, filterTitles))
  }

  method GetHomeItems(home: seq<HomeSection>, filterTitles: seq<string>) returns (res: HomeItems)
    ensures var entries := HomeEntries(home, filterTitles);
            res == HomeItems(Column(entries, Video), Column(entries, Playlist), Column(entries, Channel))
  {
    var sections := Selected(home, filterTitles);
    var homeItems := Flatten(sections);
    res := HomeItems([], [], []);
    for i := 0 to |homeItems|
      invariant res == HomeItems(Column(homeItems[..i], Video), Column(homeItems[..i], Playlist),
                                 Column(homeItems[..i], Channel))
    {
      assert homeItems[..i + 1][..i] == homeItems[..i];
      var homeItem := homeItems[i];
      if "videoId" in homeItem {
        res := res.(v := res.v + [homeItem["videoId"]]);
      }
      if "subscribers" in homeItem && "browseId" in homeItem {
        res := res.(c := res.c + [homeItem["browseId"]]);
      }
      if "playlistId" in homeItem {
        res := res.(l := res.l + [homeItem["playlistId"]]);
      }
    }
    assert homeItems[..|homeItems|] == homeItems;
  }

  /** A value is in a column exactly when some entry passes that kind's test with it. */
  lemma {:induction false} ColumnMembers(entries: seq<Dict>, kind: Kind)
    ensures forall x :: x in Column(entries, kind) <==>
              exists e :: e in entries && Matches(e, kind) && e[KeyOf(kind)] == x
    decreases |entries|
  {
    if entries != [] {
      ColumnMembers(entries[..|entries| - 1], kind);
      assert entries == entries[..|entries| - 1] + [entries[|entries| - 1]];
    }
  }

  /** Only selected sections contribute entries. */
  lemma {:induction false} HomeEntriesFromSelected(home: seq<HomeSection>, filterTitles: seq<string>)
    ensures forall e :: e in HomeEntries(home, filterTitles) ==>
              exists s :: s in home && e in s.contents && (filterTitles != [] ==> s.title in filterTitles)
    decreases |home|
  {
    if home != [] {
      var p := home[..|home| - 1];
      HomeEntriesFromSelected(p, filterTitles);
      var s := home[|home| - 1];
      var tail := if filterTitles == [] || s.title in filterTitles then [s] else [];
      assert Selected(home, filterTitles) == Selected(p, filterTitles) + tail;
      FlattenAppend(Selected(p, filterTitles), tail);
      forall e | e in HomeEntries(home, filterTitles)
        ensures exists s' :: s' in home && e in s'.contents && (filterTitles != [] ==> s'.title in filterTitles)
      {
        if e in HomeEntries(p, filterTitles) {
          var s' :| s' in p && e in s'.contents && (filterTitles != [] ==> s'.title in filterTitles);
          assert s' in home;
        } else {
          assert e in Flatten(tail);
          assert tail != [];
          assert Flatten(tail) == s.contents by {
            assert tail[..0] == [];
          }
        }
      }
    }
  }

  lemma {:induction false} FlattenAppend(a: seq<HomeSection>, b: seq<HomeSection>)
    ensures Flatten(a + b) == Flatten(a) + Flatten(b)
    decreases |b|
  {
    if b != [] {
      assert (a + b)[..|a + b| - 1] == a + b[..|b| - 1];
      FlattenAppend(a, b[..|b| - 1]);
    } else {
      assert a + b == a;
    }
  }

  /** An entry with both a videoId and a playlistId lands in both lists. */
  lemma EntryInSeveralLists(id: Value, list: Value)
    ensures var e := map["videoId" := id, "playlistId" := list];
            var items := HomeItems(Column([e], Video), Column([e], Playlist), Column([e], Channel));
            items.v == [id] && items.l == [list] && items.c == []
  {
    var e := map["videoId" := id, "playlistId" := list];
    assert [e][..0] == [];
  }
}
