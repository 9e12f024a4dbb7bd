/** Python values and collection helpers shared by every module of the model. */
module Common {

  datatype Option<T> = None | Some(value: T)

  /** The exceptions the modelled code raises or lets through. */
  datatype Error =
    | KeyError(key: string)       // d["key"] on a dict without that key
    | AttributeError              // an attribute looked up on None or on the wrong type
    | TypeError                   // calling None, len(None), MP4Cover of a non-bytes value
    | FilterPPException           // the filter post-processor rejected an item
    | UnknownFileType             // the tag writer met a file that is not MP4
    | CollaboratorFailed          // a network or library call raised
    | ProgrammingError            // sqlite3: operating on a closed database
    | FileNotFound                // mutagen.File on a path that names no file

  datatype Result<T> = Ok(value: T) | Err(error: Error)

  newtype byte = x: int | 0 <= x < 256

  /** A Python value as it appears in the dicts that yt-dlp and ytmusicapi hand around. */
  datatype Value = Null | Str(s: string) | Bytes(b: seq<byte>)

  type Dict = map<string, Value>

  /** Python truthiness: None, "" and b"" are false. */
  predicate Truthy(v: Value)
  {
    match v
    case Null => false
    case Str(s) => s != ""
    case Bytes(b) => b != []
  }

  /** d.get(key, default) */
  function Get(d: Dict, key: string, default: Value): (v: Value)
    ensures key in d ==> v == d[key]
    ensures key !in d ==> v == default
  {
    if key in d then d[key] else default
  }

  function Elems<T>(s: seq<T>): set<T>
  {
    set x | x in s
  }

  predicate NoDuplicates<T(==)>(s: seq<T>)
  {
    forall i, j :: 0 <= i < j < |s| ==> s[i] != s[j]
  }

  lemma ElemsAppend<T>(s: seq<T>, t: seq<T>)
    ensures Elems(s + t) == Elems(s) + Elems(t)
  {
  }

  /**
   * s[:min(limit, len(s))] with Python's slicing, where a negative bound counts from
   * the end: the first `limit` elements, or all but the last -limit when limit < 0.
   */
  function TakeAtMost<T>(s: seq<T>, limit: int): (r: seq<T>)
    ensures r <= s
    ensures limit >= 0 ==> |r| == (if limit < |s| then limit else |s|)
    ensures limit < 0 ==> |r| == (if |s| + limit > 0 then |s| + limit else 0)
  {
    if limit >= 0 then (if limit < |s| then s[..limit] else s)
    else if |s| + limit > 0 then s[..|s| + limit] else []
  }

  /** A Python list of item IDs that a callee extends in place. */
  class IdList {
    var items: seq<string>

    constructor (items: seq<string>)
      ensures this.items == items
    {
      this.items := items;
    }
  }

  /** list(s) for a set s: some enumeration of it, each element once. */
  method ListOfSet<T(==)>(s: set<T>) returns (r: seq<T>)
    ensures Elems(r) == s
    ensures NoDuplicates(r)
    ensures |r| == |s|
  {
    r := [];
    var rest := s;
    while rest != {}
      invariant rest !! Elems(r)
      invariant rest + Elems(r) == s
      invariant NoDuplicates(r)
      invariant |r| + |rest| == |s|
      decreases rest
    {
      var x :| x in rest;
      r := r + [x];
      rest := rest - {x};
    }
  }
}
