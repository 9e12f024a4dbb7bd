# ytldl in Dafny

ytldl downloads songs from YouTube Music. It gathers video IDs from explicit videos, playlists, channels and the home feed. Each ID goes through yt-dlp with three post-processors:

- a filter that rejects anything that is not a song;
- a lyrics lookup;
- a tag writer that stores artist, title, lyrics, URL and cover art in the MP4 file.

A dedup cache remembers which IDs were already handled. The repository holds two revisions: the current one under `ytldl/` and an earlier one under `yt/` and `metadata/`. Both are modelled, one Dafny module per source file:

| module | models |
|---|---|
| `Cache` | `ytldl/yt/cache.py`: `MemoryCache` and `SqliteCache` |
| `OldCache` | `yt/cache.py` |
| `Download` | `ytldl/yt/download.py` |
| `OldDownload` | `yt/download.py` |
| `Extractor` | `ytldl/yt/extractor.py` |
| `PostProcessors` | `ytldl/yt/postprocessors.py` |
| `OldPostProcessors` | `yt/postprocessors.py` |
| `Metadata` | `ytldl/metadata/metadata.py` |
| `OldMetadata` | `metadata/metadata.py` |
| `Common`, `Api`, `Media`, `Utf8` | shared pieces (see below) |

The shared modules hold:

- `Common`: Python values (`None`, `str`, `bytes`), the exceptions the code raises, and `list(set(...))` as `ListOfSet`.
- `Api`: the ytmusicapi and yt-dlp collaborators. Each is an uninterpreted function whose `None` result means "the call raised".
- `Media`: the files on disk as mutagen sees them.
- `Utf8`: `str.encode("utf-8")`, with a strict decoder.

How the model is built:

- **Thread pools.** They become sequential loops.
- **Per-track download.** `Downloader.fetch` gives the outcome of downloading one track: downloaded, discarded by the filter (`FilterPPException`), or failed for any other reason.
- **`download_tracks` dispatch order.** The loop does not fix the order in which it dispatches the distinct IDs. The method returns that order, and every other result is stated in terms of it.
- **Callbacks.** The callbacks `download_tracks` makes are recorded as a trace of events.
- **`on_discarded`.** `on_discarded` is called without a `None` check. So a filtered track with no such callback raises `TypeError`, and that ends `download_tracks`. The model keeps this behaviour (`Download.DownloadTracks`, `raised`).
- **`CacheDownloader` callbacks.** These callbacks only add to the cache, and the loop never reads it. So they are applied to the cache after the loop, in the order they were made.
- **`SqliteCache`.** It is a class with fields for:
  - the committed rows;
  - the pending batch;
  - whether the connection is open. sqlite raises `ProgrammingError` on a closed connection.

  Its methods are specified against a pure state machine (`Cache.Table`, `Flush`, `Add`, `CloseTable`, `Run`). The invariants are proved over any sequence of operations.
- **The earlier `MetadataPP`.** Its class-level `metadata` dict becomes a `MetadataStore` object that several `OldMetadataPP` instances share.

## Model

| member | source | states |
|---|---|---|
| Cache.MemoryCache.constructor | ytldl/yt/cache.py:37-38 | the cache is exactly the set of the initial items |
| Cache.MemoryCache.FilterUncached | ytldl/yt/cache.py:40-41 | x is reported iff x is among the items and not cached |
| Cache.MemoryCache.AddItems | ytldl/yt/cache.py:43-44 | the cache becomes the old cache plus the items; nothing is removed |
| Cache.MemoryCache.Commit | ytldl/yt/cache.py:46-47 | commit leaves the cache unchanged (the base commit does nothing) |
| Cache.MemoryCache.Close | ytldl/yt/cache.py:49-50 | close leaves the cache unchanged (it only commits) |
| Cache.Flush | ytldl/yt/cache.py:81-92 | an empty batch changes nothing; a closed connection raises; otherwise the rows become old rows ∪ batch (insert-or-ignore) and the batch is emptied |
| Cache.Add | ytldl/yt/cache.py:72-79 | the batch is extended, then flushed iff batch_size is 0 or the batch has reached batch_size |
| Cache.CloseTable | ytldl/yt/cache.py:94-96 | close first commits; if that raises, the close stops there, otherwise the connection is closed |
| Cache.Uncached | ytldl/yt/cache.py:64-70 | on an open connection: exactly the items not in the committed rows (pending batch items count as uncached); closed: raises |
| Cache.AddEstablishesBatchBound | ytldl/yt/cache.py:75-79 | after an add on an open table: no raise, still open, and the batch is empty when batch_size ≤ 0, else shorter than batch_size |
| Cache.AddRecords | ytldl/yt/cache.py:72-79 | an add on an open table loses nothing: rows ∪ batch grows by exactly the items |
| Cache.RunKeepsRows | ytldl/yt/cache.py:89-92 | over any sequence of add/commit/close, committed rows are never removed |
| Cache.RunAccountsForEveryItem | ytldl/yt/cache.py:72-96 | over any run that does not raise, rows ∪ batch is the initial one plus every item ever added |
| Cache.RunKeepsBatchBound | ytldl/yt/cache.py:72-92 | the batch-size bound holds after every operation of any run that does not raise |
| Cache.CloseFlushesEverything | ytldl/yt/cache.py:94-96 | a run ending in a close that does not raise leaves the batch empty, the connection closed, and every item ever added in the rows |
| Cache.AddCommitFilter | ytldl/yt/cache.py:64-92 | after adding A and committing, filtering A+B reports exactly B minus A minus what was recorded before |
| Cache.BatchSizeTwoScenario | ytldl/yt/cache.py:72-79 | with batch_size 2, the first one-item add leaves a batch of 1 and the second flushes both |
| Cache.SqliteCache.constructor | ytldl/yt/cache.py:54-62 | a fresh connection with no pending batch over the stored rows; the bound holds |
| Cache.SqliteCache.FilterUncached | ytldl/yt/cache.py:64-70 | agrees with Uncached: the items not in the committed rows, or a raise when closed |
| Cache.SqliteCache.Commit | ytldl/yt/cache.py:81-92 | the new state and the raise agree with Flush |
| Cache.SqliteCache.AddItems | ytldl/yt/cache.py:72-79 | agrees with Add; on an open connection it never raises and keeps the batch bound |
| Cache.SqliteCache.Close | ytldl/yt/cache.py:94-96 | agrees with CloseTable; when it does not raise, nothing is pending, the connection is closed and everything recorded is in the rows |
| OldCache.CachedAmong | yt/cache.py:21-22 | x is reported iff x is both cached and among the items |
| OldCache.CachedAmongEmptyCache | yt/cache.py:21-22 | with an empty cache, a non-empty query reports nothing, its first item included |
| OldCache.CachedAmongIsCached | yt/cache.py:21-22 | every reported item is already cached and among the inputs; the report is exactly the inputs that `set(items) - cache` leaves out |
| OldCache.OldMemoryCache.constructor | yt/cache.py:18-19 | the cache is the set of the initial items |
| OldCache.OldMemoryCache.FilterUncached | yt/cache.py:21-22 | a duplicate-free list of exactly the cached items among the input |
| OldCache.OldMemoryCache.AddItems | yt/cache.py:30-31 | the cache becomes old cache ∪ items; every added item is in it |
| OldCache.OldMemoryCache.IsInCache | yt/cache.py:27-28 | true iff the item is cached |
| Download.ToUrl | ytldl/yt/download.py:79-80 | the URL is the watch prefix followed by exactly the video ID |
| Download.UrlRoundTrip | ytldl/yt/download.py:79-80 | the video ID can be read back from its URL |
| Download.ToUrlInjective | ytldl/yt/download.py:79-80 | distinct IDs give distinct URLs |
| Download.DownloadTrack | ytldl/yt/download.py:60-77 | in debug mode the track counts as downloaded without any fetch; otherwise the outcome is yt-dlp's on the watch URL |
| Common.ListOfSet | ytldl/yt/download.py:153 | `list(set(v))`: a duplicate-free list holding exactly the elements of the set |
| Common.TakeAtMost | ytldl/yt/download.py:124 | `tracks[:min(limit, len(tracks))]`: a prefix of the tracks, of length min(limit, len) for a non-negative limit and counted from the end for a negative one |
| Common.Get | ytldl/yt/postprocessors.py:54-57 | the definition of Python's `dict.get(key, default)`, which the contract spells out: the entry when the key is present, the default otherwise |
| Download.WithOutcomeMembers | ytldl/yt/download.py:100-103 | an ID is collected for an outcome iff it is in the order and its download has that outcome |
| Download.WithOutcomeNoDuplicates | ytldl/yt/download.py:91-103 | collecting from a duplicate-free order gives a duplicate-free list |
| Download.StopAt | ytldl/yt/download.py:106-108 | the loop stops early iff on_discarded is missing and some dispatched ID is filtered; it stops at a filtered ID |
| Download.RouteOneStep | ytldl/yt/download.py:100-110 | one turn that does not raise: a download extends the result and after_download; a filtered ID gives on_discarded([id]); a failure adds nothing |
| Download.RouteSpec | ytldl/yt/download.py:100-110 | up to the stop point: the result is the downloaded IDs in order, after_download gets the same IDs in the same order (nothing when absent), on_discarded gets each filtered ID as a singleton |
| Download.RouteRecordsNonFailed | ytldl/yt/download.py:169-171 | with both callbacks, the loop never raises and the callbacks see exactly the IDs that did not fail |
| Download.FanIn | ytldl/yt/download.py:100-110 | the loop over the futures does exactly what Route says of the dispatch order: result, callbacks and whether it raised |
| Download.DownloadTracks | ytldl/yt/download.py:82-112 | dispatches each distinct ID once; it raises iff a filtered ID meets a missing on_discarded; otherwise the result is duplicate-free and holds exactly the downloaded IDs, after_download sees the result in order, on_discarded sees exactly the filtered IDs as singletons; a failed ID is in no output |
| Download.RouteFacts | ytldl/yt/download.py:91-112 | the meaning of the loop for any duplicate-free order of the distinct input IDs |
| Download.CacheDownloadTracks | ytldl/yt/download.py:165-174 | raises iff the cache is closed; otherwise the cache is committed, holding what it recorded before plus every uncached input ID that did not fail; the result is exactly the uncached IDs that were downloaded |
| Download.Replay | ytldl/yt/download.py:169-172 | applying the callbacks adds exactly the IDs they carry to what the cache records |
| Download.CacheDownloadTracksMemory | ytldl/yt/download.py:160-174 | on the default MemoryCache: the cache gains every uncached input ID that did not fail; the result is exactly the uncached IDs that were downloaded, without duplicates |
| Download.ReplayMemory | ytldl/yt/download.py:169-172 | on a MemoryCache, applying the callbacks adds exactly the IDs they carry to the set |
| Download.ExtractVideoIds | ytldl/yt/download.py:114-126 | get_playlist, else get_watch_playlist, else []; the first min(limit, len) IDs (negative limits slice from the end as in Python); at most limit IDs |
| Download.ExtractVideoIdsChannel | ytldl/yt/download.py:128-130 | raises iff get_artist's songs browseId cannot be read; otherwise the playlist extraction of that browseId |
| Download.FromPlaylistsBound | ytldl/yt/download.py:139-141 | the playlists contribute at most limit IDs each |
| Download.FromChannelsBound | ytldl/yt/download.py:142-144 | the channels contribute at most limit IDs each |
| Download.Gather | ytldl/yt/download.py:137-153 | the caller's v is extended in place by every playlist's and every channel's IDs in submission order, skipping channels that raise; the IDs handed on are its distinct elements |
| Download.Download | ytldl/yt/download.py:132-157 | v is extended as above, and download_tracks runs on its distinct IDs; it raises iff there is no on_discarded and some ID of v is discarded; without a raise, the result is duplicate-free and exactly the downloaded IDs of v |
| Download.CacheDownload | ytldl/yt/download.py:153-174 | download on a CacheDownloader: v is extended, the cache gains every uncached ID of v that did not fail, and the result is the uncached IDs of v that were downloaded |
| Download.CacheDownloadMemory | ytldl/yt/download.py:153-174 | the same on a CacheDownloader with the default MemoryCache |
| Download.GetHomeItems | ytldl/yt/download.py:181-202 | v, l and c are, in entry order, the videoId, playlistId and (with subscribers) browseId of the entries of the selected sections |
| Download.ColumnMembers | ytldl/yt/download.py:194-200 | a value is in a list iff some entry passes that list's key test with that value |
| Download.HomeEntriesFromSelected | ytldl/yt/download.py:186-190 | with a non-empty filter, only sections whose title is in it contribute entries |
| Download.EntryInSeveralLists | ytldl/yt/download.py:194-200 | an entry with both videoId and playlistId lands in both v and l |
| Extractor.PlaylistIdsAsWritten | ytldl/yt/extractor.py:46-56 | as written: when get_playlist raises, the playlist always fails; otherwise the first min(limit, len) IDs |
| Extractor.PlaylistIds | ytldl/yt/extractor.py:46-56 | the intended extraction: fails iff both lookups raise; the primary's tracks, else the watch playlist's, cut to min(limit, len); at most limit IDs |
| Extractor.PlaylistIdsOf | ytldl/yt/extractor.py:46-56 | the playlist extraction of the chosen variant: as written, or corrected |
| Extractor.ChannelIds | ytldl/yt/extractor.py:58-64 | fails when get_artist's songs browseId cannot be read; otherwise the playlist extraction of that browseId, in either variant |
| Extractor.AsWrittenAgreesOnPrimary | ytldl/yt/extractor.py:46-56 | the as-written and intended extractions agree whenever get_playlist answers |
| Extractor.AsWrittenLosesWatchPlaylist | ytldl/yt/extractor.py:48-52 | a playlist that only the watch-playlist lookup can open gives nothing as written and its tracks as intended |
| Extractor.PlaylistIdsMatchesDownloader | ytldl/yt/download.py:114-126 | the intended extraction gives what Downloader.extract_video_ids gives, and fails exactly where that one returns [] |
| Extractor.ContributionsBound | ytldl/yt/extractor.py:53-54 | each playlist and each channel contributes at most limit IDs |
| Extractor.ContributionsZeroLimit | ytldl/yt/extractor.py:53-54 | with limit 0 no source contributes anything, in either variant |
| Extractor.AsWrittenSkipsUnopened | ytldl/yt/extractor.py:46-52 | as written, playlists that get_playlist cannot open contribute nothing, whatever get_watch_playlist answers |
| Extractor.VariantsAgreeOnPrimary | ytldl/yt/extractor.py:25-30 | when get_playlist opens every playlist and every channel's songs playlist, both variants contribute the same IDs |
| Extractor.ExtractLosesWatchPlaylist | ytldl/yt/extractor.py:46-52 | extract(playlists=["p"]) with only get_watch_playlist knowing "p": nothing as written, its track when corrected |
| Extractor.Extract | ytldl/yt/extractor.py:12-38 | in either variant: the explicit videos come first, unfiltered; the rest is, as a multiset, what each source yields (failing sources yield nothing); no arguments give nothing |
| OldDownload.DownloadTracks | yt/download.py:77-99 | each distinct ID is dispatched once; the result is duplicate-free and holds exactly the downloaded IDs; filtered and failed IDs are excluded; in debug mode every distinct input ID is returned |
| OldDownload.ExtractVideoIds | yt/download.py:101-112 | get_playlist, else get_watch_playlist, at the library's default limit; [] when both raise; every track otherwise |
| OldDownload.ExtractVideoIdsChannel | yt/download.py:114-116 | raises iff get_artist's songs browseId cannot be read; otherwise that playlist's IDs |
| OldDownload.ExtractMatchesCurrentUnlimited | yt/download.py:101-112 | when the limit changes nothing and cuts nothing, the earlier extraction equals the current one |
| OldDownload.Gather | yt/download.py:122-138 | the caller's v is extended in place by every source's IDs in order, skipping channels that raise; the distinct elements are handed on |
| OldDownload.Download | yt/download.py:118-142 | v is extended as above; the result is duplicate-free and exactly the downloaded IDs of v |
| OldDownload.CacheDownloadTracks | yt/download.py:150-155 | the cache gains exactly the returned IDs; as written, only IDs already cached are downloaded, so the cache never changes |
| OldDownload.CacheDownloadTracksFixed | yt/download.py:150-155 | with the intended filter, exactly the uncached downloaded IDs are returned and added to the cache |
| OldDownload.CacheDownload | yt/download.py:140-155 | download on a CacheDownloader: v is extended; the result is the already-cached IDs of v that were downloaded; the cache is unchanged |
| PostProcessors.IsSong | ytldl/yt/postprocessors.py:81-82 | `all(k in info for k in ["artist", "title"])` holds iff the info has both an "artist" and a "title" key |
| PostProcessors.FilterRun | ytldl/yt/postprocessors.py:94-97 | passes the info unchanged iff it has both "artist" and "title" keys; otherwise raises FilterPPException |
| PostProcessors.GetLyrics | ytldl/yt/postprocessors.py:28-42 | never raises on a missing key, only when a lookup raises; gives "" when the browse ID or the text is missing or falsy, otherwise the text found under that browse ID; each of these cases is stated outright |
| PostProcessors.OrEmptyString | ytldl/yt/postprocessors.py:23 | the definition of Python's `x or ""`, which the contract spells out: a truthy value is kept, anything falsy becomes "" |
| PostProcessors.LyricsRun | ytldl/yt/postprocessors.py:21-26 | KeyError without "id"; raises iff the lookup raises; otherwise "lyrics" is set to a non-empty text or "", and every other key is kept |
| PostProcessors.NoLyricsEntryGivesEmpty | ytldl/yt/postprocessors.py:33-35 | a watch playlist without a lyrics entry gives lyrics "" |
| PostProcessors.BaseMetadata | ytldl/yt/postprocessors.py:54-57 | exactly the keys artist, title, url and lyrics; artist, title and lyrics come from the info and url from webpage_url; each defaults to "" |
| PostProcessors.MetadataFor | ytldl/yt/postprocessors.py:54-62 | a thumbnail entry holding the fetched image is added iff the info's thumbnail is truthy; it fails iff that fetch fails |
| PostProcessors.MetadataForCoverIsBytes | ytldl/yt/postprocessors.py:58-62 | the thumbnail entry is always the fetched bytes, so the writer's MP4Cover never rejects it |
| PostProcessors.MetadataForIsComplete | ytldl/yt/postprocessors.py:54-57 | the dict handed on always holds the four text entries |
| PostProcessors.FilepathAloneSucceeds | ytldl/yt/postprocessors.py:53-71 | an info with only a file path yields four empty entries, which the MP4 writer accepts |
| PostProcessors.MetadataRun | ytldl/yt/postprocessors.py:53-71 | a failed thumbnail fetch, then a missing filepath (KeyError), then the writer's errors are raised; on success the info is returned unchanged and the file holds the updated tags; it succeeds exactly when the path names an MP4 file and the tags update succeeds, and otherwise raises FileNotFound, AttributeError, UnknownFileType or the update's error; on any error the disk is unchanged |
| Metadata.Updated | ytldl/metadata/metadata.py:14-26 | the MP4 branch fails iff url is present and not a string (AttributeError: no .encode) or, failing that, the thumbnail is present and not bytes (TypeError from MP4Cover) |
| Metadata.UpdatedPointwise | ytldl/metadata/metadata.py:14-26 | atom by atom: an atom whose entry is present holds that entry, every other atom keeps its old value |
| Metadata.UpdatedWritesEntries | ytldl/metadata/metadata.py:15-26 | artist→©ART, title→©nam, lyrics→©lyr, thumbnail→covr as a one-image list; url→the WWW freeform atom, whose bytes decode back to the url |
| Metadata.UpdatedKeepsOthers | ytldl/metadata/metadata.py:14-26 | atoms outside the five are never changed or created, and an absent entry leaves its atom as it was |
| Metadata.UpdatedIdempotent | ytldl/metadata/metadata.py:14-26 | writing the same metadata twice gives the tags of one write |
| Metadata.UpdatedEmpty | ytldl/metadata/metadata.py:14-26 | an empty metadata dict writes nothing |
| Metadata.WriteMetadata | ytldl/metadata/metadata.py:9-30 | error order: a missing file, then an unrecognized format (AttributeError on None.tags), then a non-MP4 file (UnknownFileType), then a url without .encode, then a thumbnail that is not bytes (TypeError from MP4Cover); an MP4 write saves the updated tags, starting from an empty tag block when the file has none; an error saves nothing |
| Media.TagsOf | ytldl/metadata/metadata.py:11-12 | the definition of `if file.tags == None: file.add_tags()`, which the contract spells out: a file without tags starts from an empty tag block |
| Utf8.EncodeChar | ytldl/metadata/metadata.py:22-23 | each code point encodes to one to four bytes |
| Utf8.Encode | ytldl/metadata/metadata.py:22-23 | the encoding has between one and four bytes per character |
| Utf8.DecodeChar | ytldl/metadata/metadata.py:22-23 | a decoded code point takes one to four of the available bytes |
| Utf8.DecodeEncode | ytldl/metadata/metadata.py:22-23 | decoding the UTF-8 encoding of a string gives the string back |
| Utf8.EncodeDecodeChar | ytldl/metadata/metadata.py:22-23 | the decoder is strict: a code point it accepts was read from exactly its own one-to-four-byte encoding |
| Utf8.EncodeInjective | ytldl/metadata/metadata.py:22-23 | distinct strings have distinct encodings |
| Utf8.EncodeAscii | ytldl/metadata/metadata.py:22-23 | ASCII text encodes to its own code points, one byte each |
| OldMetadata.OldUpdated | metadata/metadata.py:26-35 | KeyError on the first missing key of artist, title, lyrics, url, in that order; a url that is not a string raises AttributeError; after that it fails iff the thumbnail is present and not bytes (TypeError from MP4Cover); covr only with a thumbnail |
| OldMetadata.OldAgreesWhenComplete | metadata/metadata.py:27-35 | with all four entries present, the earlier writer and the current one write the same tags |
| OldMetadata.CurrentExtendsOld | metadata/metadata.py:27-35 | wherever the earlier writer succeeds, the current writer writes the same tags |
| OldMetadata.OldWriteMetadata | metadata/metadata.py:19-39 | the same file checks as the current writer, then the unconditional lookups, a url without .encode and a thumbnail that is not bytes; success saves the tags, any error saves nothing |
| OldPostProcessors.OldGetLyrics | yt/postprocessors.py:30-36 | a raising lookup or a missing "lyrics" key raises; when both lookups answer and both keys are present, the text under the browse ID |
| OldPostProcessors.OldLyricsRun | yt/postprocessors.py:19-28 | the only errors are KeyError on "id" and TypeError from len(None); a lookup that raises leaves lyrics ""; otherwise the looked-up value is stored |
| OldPostProcessors.LyricsAgreeOnFound | yt/postprocessors.py:30-36 | where the earlier lookup finds non-empty lyrics under a non-empty browse ID, the current lookup finds the same |
| OldPostProcessors.MissingLyricsEntry | yt/postprocessors.py:19-28 | without a lyrics entry, the earlier lookup raises KeyError, and both revisions store "" |
| OldPostProcessors.UpdateShared | yt/postprocessors.py:51-60 | raises a KeyError iff artist, title, webpage_url or filepath is missing; entries other than the four are kept; on success artist, title and url are overwritten; lyrics are overwritten exactly when artist, title and webpage_url are present and the info's lyrics are truthy, and are otherwise kept or left absent; no other key is added |
| OldPostProcessors.StaleLyrics | yt/postprocessors.py:56-58 | a track without truthy lyrics keeps the lyrics already in the shared dict |
| OldPostProcessors.PartialUpdate | yt/postprocessors.py:52-53 | an info without a title still overwrites the shared artist before raising |
| OldPostProcessors.LyricsLeakBetweenTracks | yt/postprocessors.py:46-58 | after a track with lyrics, the next track without lyrics carries the first one's lyrics |
| OldPostProcessors.FirstTrackWithoutLyricsFails | yt/postprocessors.py:56-58 | on a fresh shared dict, a track without lyrics gives a dict that the earlier writer rejects with KeyError("lyrics") |
| OldPostProcessors.MetadataStore.constructor | yt/postprocessors.py:46 | the shared dict starts empty |
| OldPostProcessors.OldMetadataPP.constructor | yt/postprocessors.py:39-49 | an instance over the shared store, with no file path yet |
| OldPostProcessors.OldMetadataPP.Run | yt/postprocessors.py:51-71 | the shared dict ends as UpdateShared says, even on error; the file path is remembered; on success the info is returned unchanged and the file holds the earlier writer's tags for the shared dict; once the shared dict is updated, it succeeds exactly when the path names an MP4 file and the earlier writer's update succeeds, and otherwise raises FileNotFound, AttributeError, UnknownFileType or the update's error; on error the disk is unchanged |
| OldPostProcessors.InfoExtractorPP.Run | yt/postprocessors.py:81-83 | records the info it was given and hands it on |

## Left out

- Thread pools and `as_completed` become sequential loops. Extractor results are stated as a multiset because completion order is arbitrary. `download_tracks` results are stated in terms of the dispatch order it returns.
- yt-dlp, FFmpeg, the `_ydl_opts` settings (format, output template, `paths`), and the directory creation in `set_download_dir`. What one download does is the abstract `Downloader.fetch`. How yt-dlp passes a `FilterPPException` from a pre-processor up to `download_tracks` is part of that abstraction.
- The network: every ytmusicapi call, and the `requests`/PIL image fetch in `get_image_bytes`. Each is an abstract function whose `None` result means it raised. `util/exxception.py` and `ytldl/util/exxception.py` (`try_or`) are not part of this model. `try_or` is taken to turn any exception into `None`.
- The catalog gives each playlist as its list of video IDs. A track without a `videoId`, which in the source raises part-way through `v.extend`, counts the same as a failed lookup.
- A `get_playlist` answer without a `tracks` key is treated as a failed lookup. Then the model tries `get_watch_playlist`. The source instead raises `KeyError` at ytldl/yt/download.py:123, outside the try, and tries no fallback.
- SQLite itself:
  - the table is a set of strings and the connection a flag;
  - `SqliteCache.create` is the constructor over no stored rows;
  - the `__main__` block of ytldl/yt/cache.py is not modelled;
  - neither are SQLite's limit on the number of bound parameters nor file-level failures.
- `Cache.SqliteCache.FilterUncached`: a parameter limit that sqlite would exceed is not modelled.
- mutagen's file parsing and `file.save()`. The writer's checks on the type of text atom values, done when the file is saved, are not modelled. A write that raises is taken to leave the file on disk untouched.
- `PostProcessors.MetadataRun`: an `info["filepath"]` that is not a string is treated as a missing file.
- `OldPostProcessors.OldMetadataPP.Run`: an `info["filepath"]` that is not a string is treated as a missing file.
- `PostProcessors.LyricsRun` and `OldPostProcessors.OldLyricsRun` return the updated info dict rather than changing the caller's dict in place. Aliasing of the info dict is not captured.
- The empty file list that every post-processor returns beside the info is dropped.
- The default argument `v=[]` is modelled by passing the list explicitly. Sharing that one list across calls is therefore a caller's choice in the model.
- `Download.CacheDownloadTracks` and `Download.CacheDownload` take a `SqliteCache`, the cache `ytldl/app.py` passes. `Download.CacheDownloadTracksMemory` and `Download.CacheDownloadMemory` cover the default `MemoryCache()`. That one default object is shared by every `CacheDownloader` built without a cache; in the model the caller chooses whether to share it.
- `CacheDownloader.download_tracks` forwarding `*args`/`**kwargs` on top of its own callbacks, which raises `TypeError` when a caller also passes callbacks, is not modelled.
- `LibDownloader.get_home_items` of the earlier revision (yt/download.py:162-183) is the same code as the current one. `Download.GetHomeItems` models both.
- `download_track` of the earlier revision (yt/download.py:58-75) has the same outcomes as the current one. `Download.DownloadTrack` models both.
- `FilterPP.run` and `is_song` of the earlier revision (yt/postprocessors.py:86-104) are the same test as the current ones. `PostProcessors.FilterRun` models both.
- `LibDownloader.lib_update` is not modelled. It is the composition of `get_home_items` with the personalised section titles and `download`.
- `get_home(limit=10)` is a network call. The model takes the home feed as a parameter.
- Strings are sequences of Unicode scalar values. Python strings holding lone surrogates, which `encode("utf-8")` rejects, cannot occur in the model.
- Logging (`print`, `to_screen`, `write_debug`) is left out.
- `ytldl.py`, `ytldl/app.py`, `ytldl/yt/oauth.py` and `util/json.py` (command line, configuration, authentication, JSON file I/O) are not part of this model.

## Findings

| source | as written | input that shows it | evidently intended | confidence | as-written member | corrected member |
|---|---|---|---|---|---|---|
| yt/cache.py:21-22 | `filter_uncached` returns `list(cache.intersection(items))`: the cached items | empty cache, items `["a"]`: reports nothing, though "a" is uncached | `set(items) - cache`, as the docstring at yt/cache.py:6-10 and the current revision say | high; not executed | OldCache.CachedAmongEmptyCache | OldDownload.CacheDownloadTracksFixed |
| ytldl/yt/extractor.py:46-52 | when `get_playlist` raises, the fallback passes the unbound `contents` to `get_watch_playlist`, so the fallback itself raises | a playlist that `get_playlist` cannot open but `get_watch_playlist` can (e.g. a radio mix): nothing is extracted | `get_watch_playlist(playlistId=playlist, ...)`, as `Downloader.extract_video_ids` does | high; not executed | Extractor.AsWrittenLosesWatchPlaylist | Extractor.PlaylistIds |

`Extractor.ChannelIds`, `Extractor.Contributions` and `Extractor.Extract` take the variant as a parameter: `AsWritten` builds on `Extractor.PlaylistIdsAsWritten` and `Corrected` on `Extractor.PlaylistIds`. `Extractor.AsWrittenSkipsUnopened` and `Extractor.ExtractLosesWatchPlaylist` show what `extract` does as written; `Extractor.VariantsAgreeOnPrimary` shows where the two agree. `OldDownload.CacheDownloadTracks` keeps the as-written filter and shows what it does: a cache downloader of the earlier revision only downloads items that are already cached. `OldDownload.CacheDownloadTracksFixed` is the same composition with the intended filter, `Cache.MemoryCache.FilterUncached`.
