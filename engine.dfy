/**
 * The collaborators the share hoster talks to, reduced to the state it reads
 * and the effects it causes: share resources, the download manager and its
 * downloads, the tracker and its hosted torrents, and the tag manager's tags.
 * None of their internals is modelled; each call's failure is an argument.
 */
module Engine {
  import opened Wrappers

  type Hash = seq<bv8>
  type Path = string
  /** A torrent attribute's name (TorrentAttribute). */
  type Attr = string
  type Value = string

  /** TorrentAttribute.TA_CATEGORY, the one attribute mirrored from a download back to its resource. */
  const TA_CATEGORY: Attr := "Category"

  /** A torrent, known to the code here only by its hash. */
  datatype Torrent = Torrent(hash: Hash)

  /** A tag of the tag manager, found by its numeric uid. */
  datatype Tag = Tag(uid: int)

  /** What a file or directory share carries: its torrent and the torrent file's path. */
  datatype ShareItem = ShareItem(torrent: Torrent, torrentFile: Path)

  /** ShareResource.getType(): ST_FILE, ST_DIR, or ST_DIR_CONTENTS, which has no item of its own. */
  datatype ResourceKind =
    | FileResource(item: ShareItem, file: Path)
    | DirResource(item: ShareItem, dir: Path)
    | DirContentsResource

  /** A shared file or directory, as the share manager hands it to its listeners. */
  class ShareResource {
    const kind: ResourceKind
    const persistent: bool
    /** getProperties(); None is Java's null. */
    const properties: Option<map<string, string>>
    /** getAttributes() with getAttribute(a) for each. */
    var attributes: map<Attr, Value>
    /** A ShareResourceWillBeDeletedListener of the share hoster is registered. */
    var deletionHooked: bool
    /** Downloads that the share hoster's change listeners on this resource forward attribute changes to. */
    var forwards: seq<Download>

    constructor (kind: ResourceKind, persistent: bool, properties: Option<map<string, string>>,
                 attributes: map<Attr, Value>)
      ensures this.kind == kind && this.persistent == persistent && this.properties == properties
      ensures this.attributes == attributes && !deletionHooked && forwards == []
    {
      this.kind := kind;
      this.persistent := persistent;
      this.properties := properties;
      this.attributes := attributes;
      deletionHooked := false;
      forwards := [];
    }
  }

  /**
   * What the engine gives a new download before the plugin touches it: the
   * attributes, the tags and the run state it comes with.
   */
  datatype DownloadStart = DownloadStart(attributes: map<Attr, Value>, tags: seq<Tag>, stopped: bool)

  /** A download (torrent transfer) of the download manager. */
  class Download {
    const hash: Hash
    const persistent: bool
    const torrentFile: Path
    const dataFile: Path
    /** getTorrent() != null. */
    const hasTorrent: bool
    var attributes: map<Attr, Value>
    /** Networks set by a will-be-added listener; None leaves the engine's default. */
    var networks: Option<seq<string>>
    /** Tags this download was added to, in order. */
    var tags: seq<Tag>
    /** The share hoster's DownloadWillBeRemovedListener is registered. */
    var guarded: bool
    /** Resources that the share hoster's category listener on this download writes back to. */
    var mirrors: seq<ShareResource>
    var stopped: bool

    constructor (hash: Hash, persistent: bool, torrentFile: Path, dataFile: Path, hasTorrent: bool,
                 networks: Option<seq<string>>, start: DownloadStart)
      ensures this.hash == hash && this.persistent == persistent && this.torrentFile == torrentFile
      ensures this.dataFile == dataFile && this.hasTorrent == hasTorrent && this.networks == networks
      ensures attributes == start.attributes && tags == start.tags && stopped == start.stopped
      ensures !guarded && mirrors == []
    {
      this.hash := hash;
      this.persistent := persistent;
      this.torrentFile := torrentFile;
      this.dataFile := dataFile;
      this.hasTorrent := hasTorrent;
      this.networks := networks;
      attributes := start.attributes;
      tags := start.tags;
      guarded := false;
      mirrors := [];
      stopped := start.stopped;
    }
  }

  /** A torrent hosted by the tracker. */
  class TrackerTorrent {
    const hash: Hash
    const persistent: bool
    /** The share hoster's TrackerTorrentWillBeRemovedListener is registered. */
    var guarded: bool

    constructor (hash: Hash, persistent: bool)
      ensures this.hash == hash && this.persistent == persistent && !guarded
    {
      this.hash := hash;
      this.persistent := persistent;
      guarded := false;
    }
  }

  /**
   * A one-shot DownloadWillBeAddedListener: when a download whose torrent hash
   * is `hash` is initialised, it sets that download's networks.
   */
  class WillBeAddedListener {
    const hash: Hash
    const networks: seq<string>

    constructor (hash: Hash, networks: seq<string>)
      ensures this.hash == hash && this.networks == networks
    {
      this.hash := hash;
      this.networks := networks;
    }
  }

  /**
   * The networks that the listeners in ls, fired in registration order, leave
   * on a new download with hash h: the last listener for h wins, and without
   * one the download keeps the engine's default.
   */
  function NetworksAssigned(ls: seq<WillBeAddedListener>, h: Hash): (r: Option<seq<string>>)
    ensures r.None? <==> forall i :: 0 <= i < |ls| ==> ls[i].hash != h
    ensures r.Some? ==> exists i :: 0 <= i < |ls| && ls[i].hash == h && ls[i].networks == r.value &&
                                    forall j :: i < j < |ls| ==> ls[j].hash != h
  {
    if ls == [] then None
    else if ls[|ls| - 1].hash == h then Some(ls[|ls| - 1].networks)
    else
      var r := NetworksAssigned(ls[..|ls| - 1], h);
      assert forall i :: 0 <= i < |ls| - 1 ==> ls[..|ls| - 1][i] == ls[i];
      r
  }

  /** s without its first occurrence of x (java.util.List.remove(Object)). */
  function RemoveFirst<T(==)>(s: seq<T>, x: T): (r: seq<T>)
    ensures x !in s ==> r == s
    ensures x in s ==> |r| == |s| - 1 && multiset(r) == multiset(s) - multiset{x}
  {
    if s == [] then []
    else if s[0] == x then
      assert s == [s[0]] + s[1..];
      s[1..]
    else
      var r := [s[0]] + RemoveFirst(s[1..], x);
      assert s == [s[0]] + s[1..];
      r
  }

  /** The position of the first occurrence of x in s. */
  function FirstIndex<T(==)>(s: seq<T>, x: T): (i: nat)
    requires x in s
    ensures i < |s| && s[i] == x && x !in s[..i]
  {
    if s[0] == x then 0
    else
      var j := FirstIndex(s[1..], x);
      assert s[..j + 1] == [s[0]] + s[1..][..j];
      j + 1
  }

  /** RemoveFirst keeps everything but that first occurrence, in order. */
  lemma {:induction false} RemoveFirstAt<T>(s: seq<T>, x: T)
    requires x in s
    ensures RemoveFirst(s, x) == s[..FirstIndex(s, x)] + s[FirstIndex(s, x) + 1..]
  {
    if s[0] != x {
      var t := s[1..];
      var j := FirstIndex(t, x);
      assert FirstIndex(s, x) == j + 1;
      calc {
        RemoveFirst(s, x);
        [s[0]] + RemoveFirst(t, x);
        { RemoveFirstAt(t, x); }
        [s[0]] + (t[..j] + t[j + 1..]);
        ([s[0]] + t[..j]) + t[j + 1..];
        { assert s[..j + 1] == [s[0]] + t[..j]; assert s[j + 2..] == t[j + 1..]; }
        s[..j + 1] + s[j + 2..];
      }
    }
  }

  /** Registering a listener nobody registered before and deregistering it again restores the list. */
  lemma {:induction false} RemoveFirstAppended<T>(s: seq<T>, x: T)
    requires x !in s
    ensures RemoveFirst(s + [x], x) == s
  {
    if s != [] {
      assert (s + [x])[1..] == s[1..] + [x];
      RemoveFirstAppended(s[1..], x);
    }
  }

  /** downloads without every entry for d. */
  function Unregistered(downloads: map<Hash, Download>, d: Download): (r: map<Hash, Download>)
    ensures d !in r.Values
    ensures forall h :: h in r <==> h in downloads && downloads[h] != d
    ensures forall h :: h in r ==> r[h] == downloads[h]
  {
    map h | h in downloads && downloads[h] != d :: downloads[h]
  }

  /** The plugin interface's DownloadManager, reduced to the known downloads, the archived stubs and the will-be-added listeners. */
  class DownloadManager {
    /** getDownload(torrent) by torrent hash. */
    var downloads: map<Hash, Download>
    /** hashes for which lookupDownloadStub finds an archived stub. */
    var stubs: set<Hash>
    var willBeAdded: seq<WillBeAddedListener>

    constructor (downloads: map<Hash, Download>, stubs: set<Hash>)
      ensures this.downloads == downloads && this.stubs == stubs && willBeAdded == []
    {
      this.downloads := downloads;
      this.stubs := stubs;
      willBeAdded := [];
    }

    method AddWillBeAddedListener(l: WillBeAddedListener)
      modifies this`willBeAdded
      ensures willBeAdded == old(willBeAdded) + [l]
    {
      willBeAdded := willBeAdded + [l];
    }

    method RemoveWillBeAddedListener(l: WillBeAddedListener)
      modifies this`willBeAdded
      ensures willBeAdded == RemoveFirst(old(willBeAdded), l)
    {
      willBeAdded := RemoveFirst(willBeAdded, l);
    }

    /**
     * addDownload / addNonPersistentDownload: a new download for the torrent,
     * on which every will-be-added listener has fired; `failure` is the
     * DownloadException the engine may throw instead, `hasTorrent` whether
     * the new download can give back its torrent, and `start` the attributes,
     * tags and run state the engine gives it.
     */
    method AddDownload(torrent: Torrent, torrentFile: Path, dataFile: Path, persistent: bool,
                       failure: Option<string>, hasTorrent: bool, start: DownloadStart)
      returns (r: Result<Download, string>)
      modifies this`downloads
      ensures failure.Some? ==> r == Failure(failure.value) && downloads == old(downloads)
      ensures failure.None? ==> r.Success? && fresh(r.value)
      ensures failure.None? ==> var d := r.value;
        && d.hash == torrent.hash && d.persistent == persistent && d.torrentFile == torrentFile
        && d.dataFile == dataFile && d.hasTorrent == hasTorrent
        && d.networks == NetworksAssigned(willBeAdded, torrent.hash)
        && d.attributes == start.attributes && d.tags == start.tags && d.stopped == start.stopped
        && !d.guarded && d.mirrors == []
        && downloads == old(downloads)[torrent.hash := d]
    {
      if failure.Some? {
        return Failure(failure.value);
      }
      var d := new Download(torrent.hash, persistent, torrentFile, dataFile, hasTorrent,
                            NetworksAssigned(willBeAdded, torrent.hash), start);
      downloads := downloads[torrent.hash := d];
      r := Success(d);
    }

    /** The effect of a download's successful remove(). */
    method Remove(d: Download)
      modifies this`downloads
      ensures downloads == Unregistered(old(downloads), d)
    {
      downloads := Unregistered(downloads, d);
    }
  }

  /** The plugin interface's Tracker, reduced to the set of hosted torrents. */
  class Tracker {
    var hosted: set<TrackerTorrent>

    constructor (hosted: set<TrackerTorrent>)
      ensures this.hosted == hosted
    {
      this.hosted := hosted;
    }

    /** host(torrent, persistent); `failure` is the exception it may throw instead. */
    method Host(hash: Hash, persistent: bool, failure: Option<string>) returns (r: Result<TrackerTorrent, string>)
      modifies this
      ensures failure.Some? ==> r == Failure(failure.value) && hosted == old(hosted)
      ensures failure.None? ==> r.Success? && fresh(r.value)
      ensures failure.None? ==> && r.value.hash == hash && r.value.persistent == persistent
                                && !r.value.guarded && hosted == old(hosted) + {r.value}
    {
      if failure.Some? {
        return Failure(failure.value);
      }
      var tt := new TrackerTorrent(hash, persistent);
      hosted := hosted + {tt};
      r := Success(tt);
    }

    /** The effect of a hosted torrent's successful remove(). */
    method Remove(tt: TrackerTorrent)
      modifies this
      ensures hosted == old(hosted) - {tt}
    {
      hosted := hosted - {tt};
    }
  }
}
