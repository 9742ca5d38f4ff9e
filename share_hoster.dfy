/**
 * The share hoster: it keeps the share manager's resources and the download
 * manager's downloads (with their tracker torrents) in step. Resource events
 * create, re-create or tear down the download paired with a resource; single
 * markers record which download and which tracker torrent the plugin itself
 * is removing, and the removal-veto listeners it registers let only those
 * through.
 */
module ShareHoster {
  import opened Wrappers
  import opened Engine
  import opened ShareProperties

  /** MessageText keys of the two removal vetoes; the localised text is not modelled. */
  const DOWNLOAD_REMOVE_VETO: string := "plugin.sharing.download.remove.veto"
  const TORRENT_REMOVE_VETO: string := "plugin.sharing.torrent.remove.veto"

  /** What the foreign calls made while a resource is added answer. */
  datatype AddOutcomes = AddOutcomes(
    /** the network classifier, Long.parseLong and the tag manager's lookup */
    lookups: Lookups,
    /** the DownloadException thrown by addDownload / addNonPersistentDownload, if any */
    addFailure: Option<string>,
    /** whether the new download's getTorrent() is non-null */
    hasTorrent: bool,
    /** the exception thrown by tracker.host, if any */
    hostFailure: Option<string>,
    /** the attributes, tags and run state the engine gives the new download */
    start: DownloadStart)

  /** What a download's and a tracker torrent's other removal listeners answer in canBeRemoved(). */
  datatype VetoOutcomes = VetoOutcomes(downloadVeto: Option<string>, torrentVeto: Option<string>)

  /** What the engine answers while a resource's download and tracker torrent are torn down. */
  datatype DeleteOutcomes = DeleteOutcomes(
    /** stop() throws (it does when the download is already stopped) */
    stopFails: bool,
    /** remove() on the download throws, from another listener's veto or the engine */
    downloadRemoveFailure: Option<string>,
    /** remove() on the tracker torrent throws */
    torrentRemoveFailure: Option<string>)

  /** A ShareResourceEvent: ET_ATTRIBUTE_CHANGED carries the attribute, the other types nothing used here. */
  datatype ResourceEvent = AttributeChanged(attribute: Attr) | OtherResourceEvent

  /** DownloadAttributeListener.WRITTEN or WILL_BE_READ. */
  datatype AttributeEventType = Written | WillBeRead

  /** The item of a file or directory resource; a directory-contents resource has none. */
  function ItemOf(kind: ResourceKind): Option<ShareItem>
  {
    match kind
    case FileResource(item, _) => Some(item)
    case DirResource(item, _) => Some(item)
    case DirContentsResource => None
  }

  /** The data file handed to the download manager: the shared file or the shared directory. */
  function DataPathOf(kind: ResourceKind): Path
  {
    match kind
    case FileResource(_, file) => file
    case DirResource(_, dir) => dir
    case DirContentsResource => ""
  }

  /**
   * Whether resourceAdded creates a download for resource: it has an item,
   * no download exists for the item's torrent, a persistent resource has no
   * archived stub for it, and the engine's add does not throw.
   */
  predicate Provisions(resource: ShareResource, downloads: map<Hash, Download>, stubs: set<Hash>, env: AddOutcomes)
  {
    match ItemOf(resource.kind)
    case None => false
    case Some(item) =>
      && item.torrent.hash !in downloads
      && !(resource.persistent && item.torrent.hash in stubs)
      && env.addFailure.None?
  }

  /** The download manager's downloads after resourceDeleted(r) tried to remove r's download. */
  function DownloadsAfterDelete(downloads: map<Hash, Download>, resourceDl: map<ShareResource, Download>,
                                r: ShareResource, env: DeleteOutcomes): map<Hash, Download>
  {
    if r in resourceDl && env.downloadRemoveFailure.None? then Unregistered(downloads, resourceDl[r]) else downloads
  }

  /**
   * target after setAttribute(a, source's value for a), where setting Java's
   * null clears: the two now agree on a, and every other attribute of target is kept.
   */
  function CopiedAttribute(target: map<Attr, Value>, source: map<Attr, Value>, a: Attr): (r: map<Attr, Value>)
    ensures a in r <==> a in source
    ensures a in source ==> r[a] == source[a]
    ensures forall b :: b != a ==> (b in r <==> b in target)
    ensures forall b :: b != a && b in r ==> r[b] == target[b]
  {
    if a in source then target[a := source[a]] else target - {a}
  }

  class ShareHosterPlugin {
    const downloadManager: DownloadManager
    const tracker: Tracker
    /** resource_dl_map */
    var resourceDl: map<ShareResource, Download>
    /** resource_tt_map */
    var resourceTt: map<ShareResource, TrackerTorrent>
    /** download_being_removed; None is null */
    var downloadBeingRemoved: Option<Download>
    /** torrent_being_removed; None is null */
    var torrentBeingRemoved: Option<TrackerTorrent>

    /**
     * Between events: both markers are clear; a resource has a tracker torrent
     * only if it has a download; each download and tracker torrent is for its
     * resource's own torrent; no two resources share a download.
     */
    ghost predicate Valid()
      reads this
    {
      && downloadBeingRemoved.None? && torrentBeingRemoved.None?
      && resourceTt.Keys <= resourceDl.Keys
      && (forall r :: r in resourceDl ==>
            ItemOf(r.kind).Some? && resourceDl[r].hash == ItemOf(r.kind).value.torrent.hash)
      && (forall r :: r in resourceTt ==> resourceTt[r].hash == resourceDl[r].hash)
      && (forall r1, r2 :: r1 in resourceDl && r2 in resourceDl && r1 != r2 ==> resourceDl[r1] != resourceDl[r2])
    }

    /** The download resourceDeleted(resource) may stop. */
    function DownloadOf(resource: ShareResource): set<Download>
      reads this
    {
      if resource in resourceDl then {resourceDl[resource]} else {}
    }

    /** The plugin as initialise() leaves it: download manager and tracker set, nothing associated yet. */
    constructor (downloadManager: DownloadManager, tracker: Tracker)
      ensures Valid()
      ensures this.downloadManager == downloadManager && this.tracker == tracker
      ensures resourceDl == map[] && resourceTt == map[]
    {
      this.downloadManager := downloadManager;
      this.tracker := tracker;
      resourceDl := map[];
      resourceTt := map[];
      downloadBeingRemoved := None;
      torrentBeingRemoved := None;
    }

    /**
     * What dl.canBeRemoved() or dl.remove() answers: the DownloadWillBeRemovedListener
     * that resourceAdded registers on a non-persistent download vetoes unless dl is
     * download_being_removed; otherwise the other listeners' answer stands.
     */
    function DownloadRemovalVerdict(dl: Download, others: Option<string>): Option<string>
      reads this, dl
    {
      if dl.guarded && downloadBeingRemoved != Some(dl) then Some(DOWNLOAD_REMOVE_VETO) else others
    }

    /** The same for a tracker torrent, with the TrackerTorrentWillBeRemovedListener resourceAdded registers and torrent_being_removed. */
    function TorrentRemovalVerdict(tt: TrackerTorrent, others: Option<string>): Option<string>
      reads this, tt
    {
      if tt.guarded && torrentBeingRemoved != Some(tt) then Some(TORRENT_REMOVE_VETO) else others
    }

    /** Between events, removing a guarded download from outside is always vetoed, whatever the other listeners say. */
    lemma OutsideDownloadRemovalVetoed(dl: Download, others: Option<string>)
      requires Valid() && dl.guarded
      ensures DownloadRemovalVerdict(dl, others) == Some(DOWNLOAD_REMOVE_VETO)
    {
    }

    /** The download the plugin is removing itself is never vetoed by its own listener. */
    lemma MarkedDownloadRemovalAllowed(dl: Download, others: Option<string>)
      requires downloadBeingRemoved == Some(dl)
      ensures DownloadRemovalVerdict(dl, others) == others
    {
    }

    /** Between events, removing a guarded tracker torrent from outside is always vetoed. */
    lemma OutsideTorrentRemovalVetoed(tt: TrackerTorrent, others: Option<string>)
      requires Valid() && tt.guarded
      ensures TorrentRemovalVerdict(tt, others) == Some(TORRENT_REMOVE_VETO)
    {
    }

    /** The tracker torrent the plugin is removing itself is never vetoed by its own listener. */
    lemma MarkedTorrentRemovalAllowed(tt: TrackerTorrent, others: Option<string>)
      requires torrentBeingRemoved == Some(tt)
      ensures TorrentRemovalVerdict(tt, others) == others
    {
    }

    /**
     * The body of the ShareResourceListener that resourceAdded registers on
     * the resource: an attribute change is copied onto the paired download.
     */
    method ShareResourceChanged(resource: ShareResource, download: Download, event: ResourceEvent)
      modifies download`attributes
      ensures event.AttributeChanged? ==>
        download.attributes == CopiedAttribute(old(download.attributes), resource.attributes, event.attribute)
      ensures !event.AttributeChanged? ==> download.attributes == old(download.attributes)
    {
      if event.AttributeChanged? {
        download.attributes := CopiedAttribute(download.attributes, resource.attributes, event.attribute);
      }
    }

    /**
     * The DownloadAttributeListener that resourceAdded registers on the new
     * download for TA_CATEGORY and WRITTEN only: the download's
     * category is copied back onto the resource; no other attribute flows back.
     */
    method DownloadAttributeEventOccurred(download: Download, attribute: Attr, eventType: AttributeEventType,
                                          resource: ShareResource)
      modifies resource`attributes
      ensures attribute == TA_CATEGORY && eventType == Written ==>
        resource.attributes == CopiedAttribute(old(resource.attributes), download.attributes, attribute)
      ensures !(attribute == TA_CATEGORY && eventType == Written) ==> resource.attributes == old(resource.attributes)
    {
      if attribute == TA_CATEGORY && eventType == Written {
        resource.attributes := CopiedAttribute(resource.attributes, download.attributes, attribute);
      }
    }

    /** resourceAdded's loop over resource.getAttributes(): every attribute set on the resource is copied onto the download. */
    method CopyAttributes(resource: ShareResource, download: Download)
      modifies download`attributes
      ensures download.attributes == old(download.attributes) + resource.attributes
    {
      var pending := resource.attributes.Keys;
      while pending != {}
        invariant pending <= resource.attributes.Keys
        invariant download.attributes ==
          old(download.attributes) + map a | a in resource.attributes && a !in pending :: resource.attributes[a]
        decreases pending
      {
        var a :| a in pending;
        download.attributes := download.attributes[a := resource.attributes[a]];
        pending := pending - {a};
      }
      assert resource.attributes == map a | a in resource.attributes && a !in pending :: resource.attributes[a];
    }

    /**
     * The try block of addDownload: give up on a persistent resource
     * whose torrent has an archived stub, otherwise add a persistent or
     * non-persistent download and add it to each tag. A Failure is the
     * DownloadException the engine throws.
     */
    method CreateDownload(persistent: bool, torrent: Torrent, torrentFile: Path, dataFile: Path,
                          tags: seq<Tag>, env: AddOutcomes)
      returns (r: Result<Option<Download>, string>)
      modifies downloadManager`downloads
      ensures persistent && torrent.hash in downloadManager.stubs ==>
        r == Success(None) && downloadManager.downloads == old(downloadManager.downloads)
      ensures !(persistent && torrent.hash in downloadManager.stubs) && env.addFailure.Some? ==>
        r == Failure(env.addFailure.value) && downloadManager.downloads == old(downloadManager.downloads)
      ensures !(persistent && torrent.hash in downloadManager.stubs) && env.addFailure.None? ==>
        r.Success? && r.value.Some? && fresh(r.value.value)
      ensures r.Success? && r.value.Some? ==>
        var d := r.value.value;
        && d.hash == torrent.hash && d.persistent == persistent
        && d.torrentFile == torrentFile && d.dataFile == dataFile && d.hasTorrent == env.hasTorrent
        && d.networks == NetworksAssigned(downloadManager.willBeAdded, torrent.hash)
        && d.tags == env.start.tags + tags
        && d.attributes == env.start.attributes && d.stopped == env.start.stopped
        && !d.guarded && d.mirrors == []
        && downloadManager.downloads == old(downloadManager.downloads)[torrent.hash := d]
    {
      if persistent && torrent.hash in downloadManager.stubs {
        return Success(None);
      }
      var added := downloadManager.AddDownload(torrent, torrentFile, dataFile, persistent,
                                               env.addFailure, env.hasTorrent, env.start);
      if added.Failure? {
        return Failure(added.error);
      }
      var d: Download := added.value;
      if |tags| > 0 {
        for i := 0 to |tags|
          modifies d`tags
          invariant d.tags == env.start.tags + tags[..i]
        {
          d.tags := d.tags + [tags[i]];
        }
      }
      r := Success(Some(d));
    }

    /**
     * addDownload: parse the networks and tags, register a one-shot
     * will-be-added listener when there are networks, run the try block, and
     * deregister the listener on every exit (its finally block).
     */
    method AddDownload(resource: ShareResource, torrent: Torrent, torrentFile: Path, dataFile: Path, env: AddOutcomes)
      returns (r: Result<Option<Download>, string>)
      modifies downloadManager`downloads, downloadManager`willBeAdded
      ensures downloadManager.willBeAdded == old(downloadManager.willBeAdded)
      ensures resource.persistent && torrent.hash in downloadManager.stubs ==>
        r == Success(None) && downloadManager.downloads == old(downloadManager.downloads)
      ensures !(resource.persistent && torrent.hash in downloadManager.stubs) && env.addFailure.Some? ==>
        r == Failure(env.addFailure.value) && downloadManager.downloads == old(downloadManager.downloads)
      ensures !(resource.persistent && torrent.hash in downloadManager.stubs) && env.addFailure.None? ==>
        r.Success? && r.value.Some? && fresh(r.value.value)
      ensures r.Success? && r.value.Some? ==>
        var d := r.value.value;
        var networks := NetworksOf(resource.properties, env.lookups);
        && d.hash == torrent.hash && d.persistent == resource.persistent
        && d.torrentFile == torrentFile && d.dataFile == dataFile && d.hasTorrent == env.hasTorrent
        && d.networks == (if networks != [] then Some(networks)
                          else NetworksAssigned(old(downloadManager.willBeAdded), torrent.hash))
        && d.tags == env.start.tags + TagsOf(resource.properties, env.lookups)
        && d.attributes == env.start.attributes && d.stopped == env.start.stopped
        && !d.guarded && d.mirrors == []
        && downloadManager.downloads == old(downloadManager.downloads)[torrent.hash := d]
    {
      var networks := ParseNetworks(resource.properties, env.lookups);
      var tags := ParseTags(resource.properties, env.lookups);
      ghost var listenersBefore := downloadManager.willBeAdded;
      var listener: WillBeAddedListener? := null;
      if |networks| > 0 {
        listener := new WillBeAddedListener(torrent.hash, networks);
        downloadManager.AddWillBeAddedListener(listener);
      }
      ghost var listenersDuring := downloadManager.willBeAdded;
      r := CreateDownload(resource.persistent, torrent, torrentFile, dataFile, tags, env);
      if listener != null {
        var registered: WillBeAddedListener := listener;
        assert listenersDuring == listenersBefore + [registered];
        downloadManager.RemoveWillBeAddedListener(registered);
        RemoveFirstAppended<WillBeAddedListener>(listenersBefore, registered);
      }
    }

    /**
     * The type dispatch of resourceAdded on ST_FILE and ST_DIR: a file or directory
     * resource whose torrent has no download yet gets one from addDownload;
     * a thrown DownloadException, like a stub or a directory-contents
     * resource, leaves it without one.
     */
    method ProvisionDownload(resource: ShareResource, env: AddOutcomes) returns (newDownload: Option<Download>)
      modifies downloadManager`downloads, downloadManager`willBeAdded
      ensures downloadManager.willBeAdded == old(downloadManager.willBeAdded)
      ensures newDownload.Some? <==>
        Provisions(resource, old(downloadManager.downloads), downloadManager.stubs, env)
      ensures newDownload.None? ==> downloadManager.downloads == old(downloadManager.downloads)
      ensures newDownload.Some? ==>
        var d := newDownload.value;
        var item := ItemOf(resource.kind).value;
        var networks := NetworksOf(resource.properties, env.lookups);
        && fresh(d) && d.hash == item.torrent.hash && d.persistent == resource.persistent
        && d.torrentFile == item.torrentFile && d.dataFile == DataPathOf(resource.kind)
        && d.hasTorrent == env.hasTorrent
        && downloadManager.downloads == old(downloadManager.downloads)[d.hash := d]
        && d.networks == (if networks != [] then Some(networks)
                          else NetworksAssigned(old(downloadManager.willBeAdded), d.hash))
        && d.tags == env.start.tags + TagsOf(resource.properties, env.lookups)
        && d.attributes == env.start.attributes && d.stopped == env.start.stopped
        && !d.guarded && d.mirrors == []
    {
      newDownload := None;
      match resource.kind {
        case FileResource(item, file) =>
          if item.torrent.hash !in downloadManager.downloads {
            var r := AddDownload(resource, item.torrent, item.torrentFile, file, env);
            if r.Success? {
              newDownload := r.value;
            }
          }
        case DirResource(item, dir) =>
          if item.torrent.hash !in downloadManager.downloads {
            var r := AddDownload(resource, item.torrent, item.torrentFile, dir, env);
            if r.Success? {
              newDownload := r.value;
            }
          }
        case DirContentsResource =>
      }
    }

    /**
     * The rest of resourceAdded for a new download: record it for
     * the resource, bridge the attributes both ways, host its torrent when it
     * has one and guard both against outside removal when the resource is not
     * persistent. A throw from tracker.host ends resourceAdded in its catch-all handler with
     * the download already recorded and neither it nor anything else guarded.
     */
    method PairDownload(resource: ShareResource, d: Download, env: AddOutcomes)
      returns (ghost hosted: Option<TrackerTorrent>)
      requires Valid()
      requires ItemOf(resource.kind).Some? && d.hash == ItemOf(resource.kind).value.torrent.hash
      requires d !in resourceDl.Values && d.hasTorrent == env.hasTorrent
      modifies this`resourceDl, this`resourceTt, resource`forwards, d`attributes, d`mirrors, d`guarded,
               tracker
      ensures Valid()
      ensures resourceDl == old(resourceDl)[resource := d]
      ensures resourceTt == Associated(old(resourceTt), resource, hosted)
      ensures d.attributes == old(d.attributes) + resource.attributes
      ensures resource.forwards == old(resource.forwards) + [d] && d.mirrors == old(d.mirrors) + [resource]
      ensures d.guarded == (old(d.guarded) || (!resource.persistent && (env.hasTorrent ==> env.hostFailure.None?)))
      ensures hosted.Some? <==> env.hasTorrent && env.hostFailure.None?
      ensures hosted.None? ==> tracker.hosted == old(tracker.hosted)
      ensures hosted.Some? ==>
        var tt := hosted.value;
        && fresh(tt) && tt.hash == d.hash && tt.persistent == resource.persistent
        && tt.guarded == !resource.persistent && tracker.hosted == old(tracker.hosted) + {tt}
    {
      hosted := None;
      resourceDl := resourceDl[resource := d];
      resource.forwards := resource.forwards + [d];
      CopyAttributes(resource, d);
      d.mirrors := d.mirrors + [resource];
      var persistent := resource.persistent;
      if d.hasTorrent {
        var h := tracker.Host(d.hash, persistent, env.hostFailure);
        if h.Failure? {
          return;
        }
        var tt := h.value;
        if !persistent {
          tt.guarded := true;
        }
        resourceTt := resourceTt[resource := tt];
        hosted := Some(tt);
      }
      if !persistent {
        d.guarded := true;
      }
    }

    /**
     * resourceAdded. `created` and `hosted` name the download and tracker
     * torrent it creates, if any. Its catch-all handler keeps what was already
     * done: a failing tracker.host leaves the download associated with no
     * tracker torrent and without its veto listener.
     */
    method ResourceAdded(resource: ShareResource, env: AddOutcomes)
      returns (ghost created: Option<Download>, ghost hosted: Option<TrackerTorrent>)
      requires Valid()
      modifies this, resource`deletionHooked, resource`forwards, downloadManager, tracker
      ensures Valid()
      ensures resource.deletionHooked
      ensures downloadManager.willBeAdded == old(downloadManager.willBeAdded)
      ensures downloadManager.stubs == old(downloadManager.stubs)
      ensures created.Some? <==>
        Provisions(resource, old(downloadManager.downloads), old(downloadManager.stubs), env)
      ensures ItemOf(resource.kind).Some? && ItemOf(resource.kind).value.torrent.hash in old(downloadManager.downloads) ==>
        && resourceDl == old(resourceDl) && resourceTt == old(resourceTt)
        && downloadManager.downloads == old(downloadManager.downloads) && tracker.hosted == old(tracker.hosted)
      ensures resourceDl == Associated(old(resourceDl), resource, created)
      ensures resourceTt == Associated(old(resourceTt), resource, hosted)
      ensures created.None? ==>
        && downloadManager.downloads == old(downloadManager.downloads)
        && resource.forwards == old(resource.forwards) && hosted.None?
      ensures created.Some? ==>
        var d := created.value;
        var item := ItemOf(resource.kind).value;
        var networks := NetworksOf(resource.properties, env.lookups);
        && fresh(d) && d.hash == item.torrent.hash && d.persistent == resource.persistent
        && d.torrentFile == item.torrentFile && d.dataFile == DataPathOf(resource.kind)
        && downloadManager.downloads == old(downloadManager.downloads)[d.hash := d]
        && d.attributes == env.start.attributes + resource.attributes
        && d.networks == (if networks != [] then Some(networks)
                          else NetworksAssigned(old(downloadManager.willBeAdded), d.hash))
        && d.tags == env.start.tags + TagsOf(resource.properties, env.lookups)
        && resource.forwards == old(resource.forwards) + [d] && d.mirrors == [resource]
        && d.guarded == (!resource.persistent && (env.hasTorrent ==> env.hostFailure.None?))
        && d.stopped == env.start.stopped
      ensures hosted.Some? <==> created.Some? && env.hasTorrent && env.hostFailure.None?
      ensures hosted.None? ==> tracker.hosted == old(tracker.hosted)
      ensures hosted.Some? ==>
        var tt := hosted.value;
        && fresh(tt) && tt.hash == created.value.hash && tt.persistent == resource.persistent
        && tt.guarded == !resource.persistent && tracker.hosted == old(tracker.hosted) + {tt}
    {
      created, hosted := None, None;
      resource.deletionHooked := true;
      var newDownload := ProvisionDownload(resource, env);
      if newDownload.Some? {
        created := newDownload;
        hosted := PairDownload(resource, newDownload.value, env);
      }
    }

    /**
     * canResourceBeDeleted, run by the deletion listener resourceAdded
     * registers. The plugin's own listeners let its check through,
     * so a veto comes only from the other listeners and carries their message;
     * a download veto ends the check before the tracker torrent is asked.
     */
    method CanResourceBeDeleted(resource: ShareResource, env: VetoOutcomes) returns (r: Outcome<string>)
      requires Valid()
      modifies this`downloadBeingRemoved, this`torrentBeingRemoved
      ensures Valid()
      ensures resourceDl == old(resourceDl) && resourceTt == old(resourceTt)
      ensures resource in resourceDl && env.downloadVeto.Some? ==> r == Fail(env.downloadVeto.value)
      ensures !(resource in resourceDl && env.downloadVeto.Some?) && resource in resourceTt && env.torrentVeto.Some? ==>
        r == Fail(env.torrentVeto.value)
      ensures !(resource in resourceDl && env.downloadVeto.Some?) && !(resource in resourceTt && env.torrentVeto.Some?) ==>
        r == Pass
    {
      if resource in resourceDl {
        var dl := resourceDl[resource];
        downloadBeingRemoved := Some(dl);
        var veto := DownloadRemovalVerdict(dl, env.downloadVeto);
        downloadBeingRemoved := None;
        if veto.Some? {
          return Fail(veto.value);
        }
      }
      if resource in resourceTt {
        var tt := resourceTt[resource];
        torrentBeingRemoved := Some(tt);
        var veto := TorrentRemovalVerdict(tt, env.torrentVeto);
        torrentBeingRemoved := None;
        if veto.Some? {
          return Fail(veto.value);
        }
      }
      r := Pass;
    }

    /**
     * The first half of resourceDeleted: under download_being_removed,
     * stop the resource's download (a failing stop is ignored and does not keep
     * remove from running), remove it, clear the marker and forget the download.
     */
    method RemovePairedDownload(resource: ShareResource, env: DeleteOutcomes)
      requires Valid()
      modifies this`resourceDl, this`downloadBeingRemoved, downloadManager`downloads, DownloadOf(resource)`stopped
      ensures downloadBeingRemoved.None?
      ensures resourceDl == old(resourceDl) - {resource}
      ensures downloadManager.downloads ==
        DownloadsAfterDelete(old(downloadManager.downloads), old(resourceDl), resource, env)
      ensures resource in old(resourceDl) ==>
        old(resourceDl)[resource].stopped == (old(resourceDl[resource].stopped) || !env.stopFails)
    {
      if resource in resourceDl {
        var dl := resourceDl[resource];
        downloadBeingRemoved := Some(dl);
        if !env.stopFails {
          dl.stopped := true;
        }
        var veto := DownloadRemovalVerdict(dl, env.downloadRemoveFailure);
        if veto.None? {
          downloadManager.Remove(dl);
        }
        downloadBeingRemoved := None;
        resourceDl := resourceDl - {resource};
      }
    }

    /**
     * The second half of resourceDeleted: under torrent_being_removed,
     * remove the resource's tracker torrent (a failure is ignored), clear the
     * marker and forget the tracker torrent.
     */
    method RemovePairedTorrent(resource: ShareResource, env: DeleteOutcomes)
      requires torrentBeingRemoved.None?
      modifies this`resourceTt, this`torrentBeingRemoved, tracker
      ensures torrentBeingRemoved.None?
      ensures resourceTt == old(resourceTt) - {resource}
      ensures tracker.hosted ==
        if resource in old(resourceTt) && env.torrentRemoveFailure.None?
        then old(tracker.hosted) - {old(resourceTt)[resource]} else old(tracker.hosted)
    {
      if resource in resourceTt {
        var tt := resourceTt[resource];
        torrentBeingRemoved := Some(tt);
        var veto := TorrentRemovalVerdict(tt, env.torrentRemoveFailure);
        if veto.None? {
          tracker.Remove(tt);
        }
        torrentBeingRemoved := None;
        resourceTt := resourceTt - {resource};
      }
    }

    /**
     * resourceDeleted: tear down the resource's download, then its
     * tracker torrent, and forget both associations whatever happened.
     */
    method ResourceDeleted(resource: ShareResource, env: DeleteOutcomes)
      requires Valid()
      modifies this, downloadManager`downloads, tracker, DownloadOf(resource)`stopped
      ensures Valid()
      ensures resourceDl == old(resourceDl) - {resource}
      ensures resourceTt == old(resourceTt) - {resource}
      ensures downloadManager.downloads ==
        DownloadsAfterDelete(old(downloadManager.downloads), old(resourceDl), resource, env)
      ensures tracker.hosted ==
        if resource in old(resourceTt) && env.torrentRemoveFailure.None?
        then old(tracker.hosted) - {old(resourceTt)[resource]} else old(tracker.hosted)
      ensures resource in old(resourceDl) ==>
        old(resourceDl)[resource].stopped == (old(resourceDl[resource].stopped) || !env.stopFails)
    {
      RemovePairedDownload(resource, env);
      RemovePairedTorrent(resource, env);
    }

    /**
     * resourceModified: resourceDeleted(oldResource) then
     * resourceAdded(newResource), nothing more; the add sees the download
     * manager as the delete left it.
     */
    method ResourceModified(oldResource: ShareResource, newResource: ShareResource,
                            deleteEnv: DeleteOutcomes, addEnv: AddOutcomes)
      returns (ghost created: Option<Download>, ghost hosted: Option<TrackerTorrent>)
      requires Valid()
      modifies this, newResource`deletionHooked, newResource`forwards, downloadManager, tracker,
               DownloadOf(oldResource)`stopped
      ensures Valid()
      ensures resourceDl == Associated(old(resourceDl) - {oldResource}, newResource, created)
      ensures resourceTt == Associated(old(resourceTt) - {oldResource}, newResource, hosted)
      ensures created.Some? <==>
        Provisions(newResource,
                   DownloadsAfterDelete(old(downloadManager.downloads), old(resourceDl), oldResource, deleteEnv),
                   old(downloadManager.stubs), addEnv)
      ensures downloadManager.downloads ==
        var afterDelete := DownloadsAfterDelete(old(downloadManager.downloads), old(resourceDl), oldResource, deleteEnv);
        if created.Some? then afterDelete[created.value.hash := created.value] else afterDelete
      ensures downloadManager.willBeAdded == old(downloadManager.willBeAdded)
      ensures downloadManager.stubs == old(downloadManager.stubs)
      ensures tracker.hosted ==
        var afterDelete :=
          if oldResource in old(resourceTt) && deleteEnv.torrentRemoveFailure.None?
          then old(tracker.hosted) - {old(resourceTt)[oldResource]} else old(tracker.hosted);
        if hosted.Some? then afterDelete + {hosted.value} else afterDelete
      ensures oldResource in old(resourceDl) ==>
        old(resourceDl)[oldResource].stopped == (old(resourceDl[oldResource].stopped) || !deleteEnv.stopFails)
      ensures newResource.deletionHooked
      ensures created.None? ==> newResource.forwards == old(newResource.forwards) && hosted.None?
      ensures created.Some? ==>
        var d := created.value;
        var item := ItemOf(newResource.kind).value;
        var networks := NetworksOf(newResource.properties, addEnv.lookups);
        && fresh(d) && d.hash == item.torrent.hash && d.persistent == newResource.persistent
        && d.torrentFile == item.torrentFile && d.dataFile == DataPathOf(newResource.kind)
        && d.attributes == addEnv.start.attributes + newResource.attributes
        && d.networks == (if networks != [] then Some(networks)
                          else NetworksAssigned(old(downloadManager.willBeAdded), d.hash))
        && d.tags == addEnv.start.tags + TagsOf(newResource.properties, addEnv.lookups)
        && newResource.forwards == old(newResource.forwards) + [d] && d.mirrors == [newResource]
        && d.guarded == (!newResource.persistent && (addEnv.hasTorrent ==> addEnv.hostFailure.None?))
        && d.stopped == addEnv.start.stopped
      ensures hosted.Some? <==> created.Some? && addEnv.hasTorrent && addEnv.hostFailure.None?
      ensures hosted.Some? ==>
        var tt := hosted.value;
        && fresh(tt) && tt.hash == created.value.hash && tt.persistent == newResource.persistent
        && tt.guarded == !newResource.persistent
    {
      ResourceDeleted(oldResource, deleteEnv);
      created, hosted := ResourceAdded(newResource, addEnv);
    }
  }
}
