/**
 * The ytmusicapi and yt-dlp collaborators, each as an uninterpreted function.
 * A result of None stands for a call that raised (or whose answer lacked the key read
 * from it); the model never looks inside the network.
 */
module Api {
  import opened Common

  /**
   * The catalog queries of YTMusic. The track lists are the 'videoId' of every entry of
   * the answer's 'tracks' list. A limit of None is the library's own default.
   */
  datatype Catalog = Catalog(
    getPlaylist: (string, Option<int>) -> Option<seq<string>>,
    getWatchPlaylist: (string, Option<int>) -> Option<seq<string>>,
    // get_artist(channel)["songs"]["browseId"]
    getArtistSongs: string -> Option<string>)

  /** An answer of a ytmusicapi lookup that returns a dict. */
  datatype Answer = Raises | Returns(d: Dict)

  /** The two lookups behind the lyrics post-processor. */
  datatype LyricsApi = LyricsApi(
    getWatchPlaylist: Value -> Answer,   // get_watch_playlist(video_id)
    getLyrics: Value -> Answer)          // get_lyrics(browse_id)

  /**
   * What one run of yt-dlp does with one watch URL, with FilterPP, LyricsPP and
   * MetadataPP attached: the item is downloaded, the filter discards it
   * (FilterPPException), or something else raises.
   */
  datatype Outcome = Downloaded | Discarded | Failed
}
