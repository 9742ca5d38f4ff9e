# Share hoster model

This project models BiglyBT's share hoster plugin (`ShareHosterPlugin`). The
plugin keeps the share manager's resources in step with the download manager
and the tracker:

- A shared file or directory gets a seeding download and, when its torrent is
  available, a hosted tracker torrent.
- Attribute changes flow from the resource to the download. The category also
  flows back.
- Deleting a resource tears the download and the tracker torrent down again.
- A non-persistent share's download and tracker torrent carry removal-veto
  listeners. These let a removal through only when the plugin itself has
  marked that object as "being removed".

The modules, in dependency order:

- `Wrappers` (`wrappers.dfy`): `Option`, `Result`, `Outcome`, and
  `Associated`, a map update by an optional value.
- `JavaStrings` (`java_strings.dfy`): Java's `String.split(String)` for a
  one-character separator, and `String.trim()`.
  - `split` includes its rule that trailing empty pieces are dropped.
  - `trim` strips leading and trailing characters at or below U+0020.
- `Engine` (`engine.dfy`): the collaborators the plugin changes.
  - `ShareResource`, `Download` and `TrackerTorrent` are classes. Their
    mutable fields stand for the attribute maps and for the listeners
    registered on them.
  - `DownloadManager` holds the downloads by torrent hash, the archived
    stubs and the will-be-added listeners.
  - `Tracker` holds the set of hosted torrents.
- `ShareProperties` (`share_properties.dfy`): how a resource's property bag
  becomes the network list and the tag list of its new download.
- `ShareHoster` (`share_hoster.dfy`): the plugin as class
  `ShareHosterPlugin`.
  - Its fields are `resource_dl_map`, `resource_tt_map`,
    `download_being_removed` and `torrent_being_removed`.
  - Its methods are `resourceAdded`, `addDownload`, `canResourceBeDeleted`,
    `resourceModified` and `resourceDeleted`, and the bodies of the listeners
    it registers.

How foreign behaviour is represented:

- **Calls into code that is not modelled are parameters.**
  - `Lookups` holds `AENetworkClassifier.internalise`, `Long.parseLong` and
    `TagManager.lookupTagByUID`. Each is a function returning `Option`.
    - For `internalise`, `None` stands for null only; the networks loop has
      no `try`.
    - For `parseLong` and `lookupTagByUID`, `None` stands for null or a
      thrown exception; the tags loop catches those per piece.
  - `AddOutcomes`, `VetoOutcomes` and `DeleteOutcomes` say which engine or
    tracker call throws, and with what message.
  - `AddOutcomes.start` (an `Engine.DownloadStart`) is the state the engine
    gives a new download before the plugin touches it: its attributes, its
    tags and whether it is stopped. The plugin only adds to that state.
- **A listener the plugin registers is a flag or a sequence on the object it
  is registered with.**
  - `deletionHooked` on the resource is the deletion listener.
  - `forwards` on the resource is the change listener aimed at a download.
  - `mirrors` on a download is the category listener.
  - `guarded` on a download or tracker torrent is the removal-veto listener.
  - The listener's body is a method or function of the plugin.
- **`ShareHosterPlugin.Valid()` is the invariant between events.**
  - Both markers are null.
  - A resource has a tracker torrent only if it has a download.
  - Both are for the resource's own torrent.
  - No two resources share a download.

The handlers do not undo earlier steps when a later one fails, and the
model keeps that order:

- `resourceAdded` records the download in `resource_dl_map` at line 211,
  before `tracker.host` at line 261. Its catch-all handler at 309-312 keeps
  what was already done. So a throwing `tracker.host` leaves the resource
  with a download, no tracker torrent and no download-removal veto.
  `PairDownload` and `ResourceAdded` state this outcome.
- `canResourceBeDeleted` rethrows a download veto at line 464, before the
  tracker torrent is consulted at 472-489. `CanResourceBeDeleted` states
  this.
- `resourceDeleted` drops the download association at line 541 whether or
  not `stop` and `remove` threw, before the tracker torrent's removal at 551
  is tried. `RemovePairedDownload` and `ResourceDeleted` state this.

## Model

| member | source | states |
|---|---|---|
| JavaStrings.Fields | core/src/com/biglybt/plugin/sharing/hoster/ShareHosterPlugin.java:335 | the separator-delimited pieces of s, trailing empty ones included: one more piece than separators, no piece contains the separator, and joining them with it gives s back |
| JavaStrings.Split | core/src/com/biglybt/plugin/sharing/hoster/ShareHosterPlugin.java:335 | `nets.split(",")`: without a comma the whole string is the one piece; otherwise the pieces are a prefix of the fields that does not end in an empty piece, and everything dropped is empty; no piece contains a comma |
| JavaStrings.SplitRejoin | core/src/com/biglybt/plugin/sharing/hoster/ShareHosterPlugin.java:352 | when the value does not end in a comma, splitting loses nothing: joining the pieces with commas gives the value back |
| JavaStrings.TrimStartSuffix | core/src/com/biglybt/plugin/sharing/hoster/ShareHosterPlugin.java:339 | stripping leading blanks keeps a suffix that does not start with a character at or below U+0020, and everything cut off is such a character |
| JavaStrings.TrimEndPrefix | core/src/com/biglybt/plugin/sharing/hoster/ShareHosterPlugin.java:359 | stripping trailing blanks keeps a prefix that does not end with a character at or below U+0020, and everything cut off is such a character |
| JavaStrings.TrimInfix | core/src/com/biglybt/plugin/sharing/hoster/ShareHosterPlugin.java:339 | `bit.trim()` is the infix of the piece between its leading and trailing blanks; if non-empty it starts and ends with a non-blank; it is empty exactly when the piece is all blanks |
| JavaStrings.TrimIdempotent | core/src/com/biglybt/plugin/sharing/hoster/ShareHosterPlugin.java:359 | trimming an already trimmed piece changes nothing |
| ShareProperties.NetworkListMembers | core/src/com/biglybt/plugin/sharing/hoster/ShareHosterPlugin.java:337-345 | a network is in the list exactly when some piece, trimmed, canonicalises to it; pieces that canonicalise to null contribute nothing |
| ShareProperties.NetworkListInOrder | core/src/com/biglybt/plugin/sharing/hoster/ShareHosterPlugin.java:337-345 | when every piece names a known network, the list has one entry per piece, in input order |
| ShareProperties.TagListMembers | core/src/com/biglybt/plugin/sharing/hoster/ShareHosterPlugin.java:356-371 | a tag is in the list exactly when some piece, trimmed, parses as a long whose uid the tag manager resolves to that tag |
| ShareProperties.TagListSkipsBadEntry | core/src/com/biglybt/plugin/sharing/hoster/ShareHosterPlugin.java:358-370 | a piece that is not a number or names no tag is skipped (the exception is caught), and the pieces before and after it still contribute, in order |
| ShareProperties.ParseNetworks | core/src/com/biglybt/plugin/sharing/hoster/ShareHosterPlugin.java:329-346 | the loop's result is the network list of the split PR_NETWORKS value; it is empty for a null property bag or a missing key |
| ShareProperties.ParseTags | core/src/com/biglybt/plugin/sharing/hoster/ShareHosterPlugin.java:348-372 | the loop's result is the tag list of the split PR_TAGS value; it is empty for a null property bag or a missing key |
| Engine.NetworksAssigned | core/src/com/biglybt/plugin/sharing/hoster/ShareHosterPlugin.java:379-392 | the networks a new download ends up with after every will-be-added listener has fired: none exactly when no listener is for its hash, otherwise those of the last listener for its hash |
| Engine.RemoveFirstAppended | core/src/com/biglybt/plugin/sharing/hoster/ShareHosterPlugin.java:438-443 | registering a fresh listener and removing it again restores the listener list exactly |
| Engine.RemoveFirstAt | core/src/com/biglybt/plugin/sharing/hoster/ShareHosterPlugin.java:442 | removing a listener from the list drops exactly its first occurrence and keeps every other listener in order |
| Engine.DownloadManager.AddWillBeAddedListener | core/src/com/biglybt/plugin/sharing/hoster/ShareHosterPlugin.java:394 | the listener is appended to the will-be-added listeners |
| Engine.DownloadManager.RemoveWillBeAddedListener | core/src/com/biglybt/plugin/sharing/hoster/ShareHosterPlugin.java:442 | the first occurrence of the listener is removed from the will-be-added listeners |
| Engine.DownloadManager.AddDownload | core/src/com/biglybt/plugin/sharing/hoster/ShareHosterPlugin.java:419-423 | a thrown DownloadException changes nothing. Otherwise a fresh download for the torrent is registered under its hash. It has the networks the will-be-added listeners assign it, and the attributes, tags and run state the engine gives a new download |
| Engine.DownloadManager.Remove | core/src/com/biglybt/plugin/sharing/hoster/ShareHosterPlugin.java:530 | a removed download is no longer registered under any hash, and every other registration stays |
| Engine.Tracker.Host | core/src/com/biglybt/plugin/sharing/hoster/ShareHosterPlugin.java:261 | a throw changes nothing; otherwise a fresh tracker torrent for the hash and persistence flag, without a veto listener, joins the hosted set |
| Engine.Tracker.Remove | core/src/com/biglybt/plugin/sharing/hoster/ShareHosterPlugin.java:551 | the tracker torrent leaves the hosted set |
| ShareHoster.CopiedAttribute | core/src/com/biglybt/plugin/sharing/hoster/ShareHosterPlugin.java:228-230 | after `setAttribute(a, source.getAttribute(a))` target agrees with source on a (both unset when source has none) and keeps every other attribute |
| ShareHoster.ShareHosterPlugin.constructor | core/src/com/biglybt/plugin/sharing/hoster/ShareHosterPlugin.java:63-67 | the plugin starts with empty maps and both markers null, which satisfies the invariant |
| ShareHoster.ShareHosterPlugin.OutsideDownloadRemovalVetoed | core/src/com/biglybt/plugin/sharing/hoster/ShareHosterPlugin.java:299-303 | between events, removing a guarded download is vetoed with the download-removal message whatever the other listeners answer |
| ShareHoster.ShareHosterPlugin.MarkedDownloadRemovalAllowed | core/src/com/biglybt/plugin/sharing/hoster/ShareHosterPlugin.java:299-303 | when the download is download_being_removed, the plugin's listener lets it through and the other listeners' answer stands |
| ShareHoster.ShareHosterPlugin.OutsideTorrentRemovalVetoed | core/src/com/biglybt/plugin/sharing/hoster/ShareHosterPlugin.java:275-279 | between events, removing a guarded tracker torrent is vetoed with the torrent-removal message |
| ShareHoster.ShareHosterPlugin.MarkedTorrentRemovalAllowed | core/src/com/biglybt/plugin/sharing/hoster/ShareHosterPlugin.java:275-279 | when the tracker torrent is torrent_being_removed, the plugin's listener lets it through |
| ShareHoster.ShareHosterPlugin.ShareResourceChanged | core/src/com/biglybt/plugin/sharing/hoster/ShareHosterPlugin.java:213-233 | an attribute-changed event copies that one attribute from the resource onto the download; any other event changes nothing |
| ShareHoster.ShareHosterPlugin.CopyAttributes | core/src/com/biglybt/plugin/sharing/hoster/ShareHosterPlugin.java:235-242 | after the loop every attribute set on the resource has the resource's value on the download, and the download's other attributes are kept |
| ShareHoster.ShareHosterPlugin.DownloadAttributeEventOccurred | core/src/com/biglybt/plugin/sharing/hoster/ShareHosterPlugin.java:244-253 | a WRITTEN event for the category copies the download's category onto the resource; other attributes and WILL_BE_READ events change nothing |
| ShareHoster.ShareHosterPlugin.CreateDownload | core/src/com/biglybt/plugin/sharing/hoster/ShareHosterPlugin.java:397-436 | the try block of addDownload. A persistent resource with an archived stub gives null and adds nothing. A thrown DownloadException propagates and adds nothing. Otherwise the new download is registered, and its tags are the engine-given ones followed by exactly the parsed tags, in order |
| ShareHoster.ShareHosterPlugin.AddDownload | core/src/com/biglybt/plugin/sharing/hoster/ShareHosterPlugin.java:316-445 | addDownload. The will-be-added listeners end as they started, on every exit. With a non-empty network list, the new download gets exactly the parsed networks; otherwise it gets whatever other listeners assign. The parsed tags follow the engine-given ones. The stub and exception cases add nothing |
| ShareHoster.ShareHosterPlugin.ProvisionDownload | core/src/com/biglybt/plugin/sharing/hoster/ShareHosterPlugin.java:174-204 | a download is created exactly when the resource is a file or directory, its torrent has no download yet, no stub blocks a persistent share and the add does not throw. It is for the item's torrent file and the shared file or directory, and carries the parsed networks and tags on top of its engine-given state |
| ShareHoster.ShareHosterPlugin.PairDownload | core/src/com/biglybt/plugin/sharing/hoster/ShareHosterPlugin.java:206-306 | the new download is recorded for the resource. Every resource attribute is written over the download's own, and both attribute listeners are registered. A tracker torrent is hosted and recorded exactly when the download has a torrent and host does not throw. Both are guarded exactly for a non-persistent share, and a throwing host leaves the download unguarded. The invariant is kept |
| ShareHoster.ShareHosterPlugin.ResourceAdded | core/src/com/biglybt/plugin/sharing/hoster/ShareHosterPlugin.java:152-313 | the deletion listener is registered. If a download already exists for the torrent, nothing else changes. Otherwise the maps gain exactly the download and tracker torrent created. The new download's attributes are the engine-given ones overridden by the resource's. Its tags are the engine-given ones followed by the parsed ones. It has everything else the two steps above state. The will-be-added listeners and stubs are untouched, and the invariant is kept |
| ShareHoster.ShareHosterPlugin.CanResourceBeDeleted | core/src/com/biglybt/plugin/sharing/hoster/ShareHosterPlugin.java:448-490 | a veto from the download's other listeners is rethrown with its message and the tracker torrent is not consulted; otherwise a tracker-torrent veto is rethrown; otherwise deletion may proceed. The maps are unchanged and both markers end null |
| ShareHoster.ShareHosterPlugin.RemovePairedDownload | core/src/com/biglybt/plugin/sharing/hoster/ShareHosterPlugin.java:512-542 | the download is stopped unless stop throws. A failing stop does not keep remove from running. The download leaves the download manager unless remove throws. The association is dropped either way and the marker ends null |
| ShareHoster.ShareHosterPlugin.RemovePairedTorrent | core/src/com/biglybt/plugin/sharing/hoster/ShareHosterPlugin.java:544-563 | the tracker torrent leaves the hosted set unless remove throws; the association is dropped either way and the marker ends null |
| ShareHoster.ShareHosterPlugin.ResourceDeleted | core/src/com/biglybt/plugin/sharing/hoster/ShareHosterPlugin.java:507-564 | both associations of the resource are gone whatever the engine answered, and the download manager and tracker lose exactly what removes that did not throw removed. The invariant is kept |
| ShareHoster.ShareHosterPlugin.ResourceModified | core/src/com/biglybt/plugin/sharing/hoster/ShareHosterPlugin.java:494-503 | the effect of deleting the old resource and then adding the new one. The maps, the download manager and the hosted set are as left by the delete, plus what the add created. The add is judged against the downloads the delete left. The old download is stopped unless stop threw. The listeners and stubs are unchanged. The new download and tracker torrent have everything `ResourceAdded` states |

## Left out

- Plugin lifecycle (`load`, `initialize`, `initializationComplete`, `initialise`, `closedownInitiated`, `closedownComplete`, `reportProgress`, `reportCurrentTask`): these wire up the listeners and the share manager at start-up and shut-down. The model starts from the state they produce; its constructor takes the download manager and the tracker as given.
- Logging, `Debug.out`, `Debug.printStackTrace` and `MessageText`: they have no effect on state. A veto's message is its MessageText key.
- `torrent.setComplete(data_file)`: its effect on the torrent belongs to the engine, and its failure is caught and ignored, so the model leaves it out.
- `AENetworkClassifier.internalise`, `Long.parseLong`, `TagManager.lookupTagByUID`: these are engine code, so they are parameters (`Lookups`).
- `Tag.addTaggable`: modelled as appending to the download's tag list after the tags the engine gave it. So a tag named twice, or one the download already had, appears twice, where the engine keeps a set. An exception it might throw is not modelled.
- `PluginCoreUtils.unwrap`, `setNetworks` and the engine's internals behind download and tracker creation: these are reduced to the fields the plugin's contracts speak about.
- Engine.DownloadManager.Remove and ShareHoster.ShareHosterPlugin.RemovePairedDownload: the engine's own refusal to remove a running download shows up only as the `downloadRemoveFailure` outcome, not as a rule tied to `stopped`.
- ShareHoster.ShareHosterPlugin.PairDownload and ShareHoster.ShareHosterPlugin.ResourceAdded: only `addDownload`/`addNonPersistentDownload` and `tracker.host` are taken to throw. The other calls under the catch-all handler are taken to return normally: `item.getTorrent()`, `download_manager.getDownload`, `addChangeListener`, `setAttribute` in the copy loop, `addAttributeListener`, `getTorrent()`, `addRemovalListener` and `addDownloadWillBeRemovedListener`. The partial states they could leave are not modelled. One example: a tracker torrent that is hosted but never recorded, when `addRemovalListener` throws before the put into `resource_tt_map`.
- Engine.Tracker.Host: it is taken to create a fresh tracker torrent on every call. The plugin does not check whether the torrent is already hosted. The model does not capture what follows if the tracker hands back an existing tracker torrent: two resources sharing it, one delete removing it for both, or a second veto listener on it.
- ShareProperties.ParseNetworks and ShareHoster.ShareHosterPlugin.AddDownload: a throwing `AENetworkClassifier.internalise` is not modelled. It would leave `addDownload` before any listener is registered, and no download would be created. In the model, `internalise` answers null or a name.
- Engine.NetworksAssigned: the engine is taken to fire the will-be-added listeners in registration order, so the last one for the hash sets the networks. Every registered listener is taken to be a network-setting one like the plugin's. Other kinds of will-be-added listener, and any other firing order, are not modelled.
- Cascading events: the listeners the plugin registers run only when their method is called. An attribute write triggered by another listener does not fire the bridge again.
- The order in which the engine calls removal listeners: the plugin's own veto listener is taken to be consulted before the others.
- Java's null attribute value: `setAttribute(a, null)` is taken to clear `a`.
- The values of `ShareManager.PR_NETWORKS`, `ShareManager.PR_TAGS` and `TorrentAttribute.TA_CATEGORY` (`"networks"`, `"tags"`, `"Category"`): ShareManager and TorrentAttribute are not part of this model, so these are assumed.
- File handling: torrent and data files are paths that are passed through unchanged.
- Deletion listeners: registering one is a flag, so a resource added twice does not show two of them.
- Concurrency and threading (`Thread.setPriority`, the delayed-task start-up): these are outside a sequential model.
