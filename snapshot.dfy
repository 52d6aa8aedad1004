/**
 * What a qBittorrent daemon reports about its torrents. The HTTP client
 * that fetches it is not modelled; its answers are inputs.
 */
module Snapshot {
  import opened Wrappers

  /**
   * One entry of the daemon's torrent list: the keys both scripts read. An
   * entry is a dictionary, and a daemon may leave a key out (older releases
   * send no `infohash_v1`), so each is optional.
   */
  datatype RemoteTorrent = RemoteTorrent(
    hash: Option<string>,
    name: Option<string>,
    infohashV1: Option<string>,
    contentPath: Option<string>,
    magnetUri: Option<string>,
    completed: Option<int>)

  /** Every key the report loop reads is present, so reading the entry raises no `KeyError`. */
  predicate Readable(t: RemoteTorrent)
  {
    && t.hash.Some? && t.name.Some? && t.infohashV1.Some?
    && t.contentPath.Some? && t.magnetUri.Some? && t.completed.Some?
  }

  predicate AllReadable(ts: seq<RemoteTorrent>)
  {
    forall k :: 0 <= k < |ts| ==> Readable(ts[k])
  }

  /** A torrent report: the total count and the torrents shown, in client order. */
  datatype Listing = Listing(total: nat, shown: seq<RemoteTorrent>)

  /** Python's `s[:n]`: the longest prefix of `s` with at most `n` elements. */
  function FirstN<T>(s: seq<T>, n: nat): (r: seq<T>)
    ensures r <= s
    ensures |r| == if |s| < n then |s| else n
  {
    if |s| < n then s else s[..n]
  }
}
