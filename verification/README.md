# Replication and reconciliation of a peer-to-peer file store node

A model, in Dafny, of one node of a small multi-node file store. Each node
keeps one byte blob per flat name in a local storage directory. It accepts
uploads and downloads. After every upload it pushes the file once to each
statically configured peer. On a local miss it falls back to its peers, first
200 answer wins, and caches the result. Periodically it reconciles: it reads
every peer's directory and pulls the names its own listing lacks.

- `store.dfy`, module `Store` (storage.go): the `Storage` class holds the
  directory as a `map<string, seq<byte>>`. A fixed `Layout` records what no
  operation of the node changes: which names are sub-directories, which
  files' metadata cannot be read while listing, and whether the directory can
  be listed at all. Only a sub-directory name blocks a save. What the disk
  does to one save is a `WriteFault` parameter: no fault, a failing create, or
  a copy that breaks off after some bytes. `AfterWrite` is the specification
  of a save.
- `peers.dfy`, module `Peers` (the peer-client half of node.go): a peer call
  answers `Unreachable` or a status with a body that may break off. The
  peers are a `Network` of fixed oracles for download, push and directory
  calls. `FirstServing`, `Fetch` and `Asked` specify the first-success search.
- `reconcile.dfy`, module `Reconcile` (syncWithPeers): `Held`, `PullOne`,
  `Pull`, `Branch` and `Tick` specify one reconciliation tick over the
  store's content.
- `node.dfy`, module `Coordinator` (node.go): requests and responses as
  values. `UploadOutcome` and `DownloadOutcome` specify the handlers. The
  `Node` class holds the peer list and the store, and its handler methods
  are proved against those specifications.

Behaviour of the source that the model keeps and the lemmas make visible:

- A save whose copy breaks off leaves a truncated file, because the file was
  truncated on create. The upload answers 500, but the truncated file stays.
  It is then listed, served and pulled by peers like any other file.
  `Coordinator.TruncatedCacheIsServedLater` shows the same thing for the
  download cache.
- Reconciliation ignores the local listing's error. When the directory cannot
  be listed, the snapshot holds nothing, so every name a peer lists is pulled
  and overwrites the local copy (`Reconcile.UnlistableStoreIsOverwritten`).
  A file whose metadata cannot be read is likewise missing from the snapshot
  and may be overwritten.
- A pulled name comes from the first peer answering 200 for it. That need not
  be the peer whose directory listed it.

## Model

| member | source | states |
|---|---|---|
| Store.AfterWrite | storage.go:22-39 | a successful save makes the name hold exactly the data, replacing what was there; a save on a directory or a failing create changes nothing; a copy that breaks off leaves a prefix of the data of the copied length; no other name changes; no file ever shadows a directory |
| Store.Storage.constructor | storage.go:15-19 | the store opens on the directory as found, with files and directories disjoint |
| Store.Storage.SaveFile | storage.go:22-39 | truncates and then writes; the new directory is `AfterWrite` of the old one; reports success exactly when the name is no directory and the disk does not fail |
| Store.Storage.GetFile | storage.go:42-47 | succeeds exactly when the name holds a file, yielding its whole content; a never-saved or deleted name is NotFound |
| Store.Storage.ListFiles | storage.go:50-80 | an unreadable directory is an error with no entries; otherwise one entry per regular file whose metadata reads, no name twice, size equal to the content length, no directory and no unreadable entry |
| Store.Storage.DeleteFile | storage.go:83-86 | removes exactly that name, so later gets fail and listings omit it; every other name keeps its content; fails when no such file exists |
| Peers.FirstServing | node.go:246-263 | the position of the first peer answering 200, with every earlier peer unreachable or answering something else |
| Peers.FetchIsFirstSuccess | node.go:246-263 | the fetch yields c if and only if some peer answers 200 with body c and no earlier peer answers 200 |
| Peers.NoServingPeerMeansNotFound | node.go:247-262 | when no peer answers 200 the fetch fails after contacting every peer |
| Peers.LaterPeersNeverAsked | node.go:257-259 | once a peer answers 200, peers after it are neither contacted nor able to change the result |
| Peers.FailingPeerIsSkipped | node.go:251-259 | an unreachable peer or a non-200 answer is skipped and the search continues with the next peer |
| Reconcile.PullTouchesOnlyMissing | node.go:299-313 | in one peer's branch, names in the local snapshot and names the peer does not list keep exactly their content or absence |
| Reconcile.PullKeepsOrServes | node.go:306-313 | a branch leaves a name as it was or gives it the content the peers serve for it, when its save does not fail |
| Reconcile.PullServed | node.go:306-313 | a listed name missing from the snapshot ends up holding the served content, and a name already holding it keeps it, when its save does not fail |
| Reconcile.TickKeepsListed | node.go:280-317 | with a working local listing, every name listed before the tick holds exactly its old content after the tick |
| Reconcile.TickPullsMissing | node.go:280-317 | every name a reachable peer lists, the local listing lacks and some peer serves holds, after the tick, the complete body of the first peer answering 200 for it, when its save does not fail |
| Reconcile.UnlistableStoreIsOverwritten | node.go:299-310 | when the local listing fails, a held name that a peer lists is overwritten with the complete body of the first peer answering 200 for it, when its save does not fail |
| Reconcile.WantedIsMissing | node.go:299-308 | a branch asks the peers for a name exactly when the peer's directory lists it and the local snapshot lacks it |
| Reconcile.NothingHeldFetchesEverything | node.go:299-308 | with an empty snapshot, a branch asks for every entry of the peer's directory in its order, a name listed twice twice |
| Reconcile.TickNeverFetchesListed | node.go:280-317 | with a working local listing, no branch of the tick asks the peers for a name the node listed before the tick |
| Reconcile.SilentPeerContributesNothing | node.go:287-296 | a peer whose directory cannot be reached or decoded contributes nothing through its own branch; it still answers the downloads that other branches' pulls make |
| Coordinator.UploadRejectsInOrder | node.go:65-83 | a non-POST is 405, then an unparsable form is 400, then a missing file part is 400; none changes the store or pushes |
| Coordinator.UploadSaveFailure | node.go:87-91 | a failing save answers 500 with no replication; only the uploaded name may change, and a failing create changes nothing |
| Coordinator.UploadSuccess | node.go:87-104 | a successful save holds exactly the uploaded bytes, other names are untouched, the answer names the file, and one push per peer in order carries that name and identical bytes |
| Coordinator.UploadThenDownload | node.go:87-139 | after a successful upload, downloading the name is a local hit with the uploaded bytes and no peer calls, whatever the peers do |
| Coordinator.UploadOverwrites | node.go:86-91 | a second successful upload of a name replaces the first one's content entirely |
| Coordinator.DownloadLocalHit | node.go:113-139 | a local hit answers the local content, contacts no peer and changes nothing |
| Coordinator.DownloadFallsBack | node.go:115-132 | on a local miss the answer is the first 200 peer's body even if the cache save fails; peers up to that one are contacted in order; the store gains exactly that save |
| Coordinator.DownloadNotFound | node.go:119-123 | a name absent locally and on every peer is 404 after contacting every peer, with the store unchanged |
| Coordinator.CacheFillMakesNextDownloadLocal | node.go:125-131 | after a fallback whose cache save succeeds, the next download is a local hit with the same bytes and no peer calls |
| Coordinator.TruncatedCacheIsServedLater | node.go:125-131 | a cache save that breaks off still answers the full peer bytes, but later downloads serve the truncated copy locally |
| Coordinator.Node.constructor | node.go:32-39 | the node keeps its port, its ordered peer list and its store |
| Coordinator.Node.Upload | node.go:63-105 | response, new store and pushes are exactly `UploadOutcome` of the old store |
| Coordinator.Node.Download | node.go:108-142 | response, new store and peers contacted are exactly `DownloadOutcome` of the old store |
| Coordinator.Node.List | node.go:145-154 | 500 when the directory cannot be listed, otherwise a listing of the store |
| Coordinator.Node.Sync | node.go:157-171 | GET answers as List and changes nothing; POST has exactly the effect of Upload; any other method answers nothing and changes nothing |
| Coordinator.Node.Replicate | node.go:180-206 | nothing is pushed when the file cannot be read; otherwise exactly one push per configured peer, in order, each with the stored bytes, delivered exactly when the peer answers 200 |
| Coordinator.Node.SendFileToPeer | node.go:209-243 | a push counts as delivered exactly when the peer answers 200; an unreachable peer or any other status is a failure |
| Coordinator.Node.FetchFromPeers | node.go:246-263 | yields `Fetch` and contacts exactly `Asked`: peers in configured order up to the first 200 |
| Coordinator.Node.Reconcile | node.go:280-317 | the new store is `Tick` of the old one over all configured peers, and the names each branch asks the peers for are `TickFetches` of the old store |
| Coordinator.Node.SyncWithPeer | node.go:282-315 | the new store is `Branch` of the old one: the snapshot is the local listing's names, or none when it fails; the names asked for are `BranchFetches`, the listed names outside the snapshot in listing order |

## Left out

- HTTP transport: route registration, `ListenAndServe`, response headers, and the multipart and JSON wire formats, including the 10 MB parse limit. A request is a verb plus its parsed form; a response is a value.
- Concurrency: the replication goroutines, the per-peer push goroutines and the per-peer reconciliation branches run one after another. Races between concurrent saves of one name are not modelled. In particular, a later branch's snapshot sees an earlier branch's pulls: a name that an earlier branch saved successfully and that the local listing then reports is not fetched again within the tick, where the concurrent source may fetch it once per branch. Names outside the snapshot (every name when the listing fails, names whose metadata cannot be read, names an earlier save left absent: a failing create, or a directory name; names no peer served, or whose first 200 body broke off) and names one peer lists twice are still fetched again. A save that breaks off mid-copy leaves a truncated file, which the listing reports, so that name is not fetched again. The unused mutex is not modelled.
- Timing: the 5 s initial delay and 30 s ticker of `periodicSync` are not modelled; `Coordinator.Node.Reconcile` is one tick. The 10 s and 5 s client timeouts are an `Unreachable` reply.
- Peers answer as fixed functions of their arguments, so one peer giving two different answers to the same request within a tick is not modelled.
- Coordinator.Node.Reconcile: the disk's behaviour is one `WriteFault` per name for the whole tick, so a tick in which one save of a name succeeds and a later save of the same name breaks off is not represented.
- `handleHealth` is a constant 200 response that reads no state, so it is not modelled.
- Path semantics of `filepath.Join` and `filepath.Base` are not modelled: names are opaque flat keys. Go's multipart parser never files a part without a file name under the form's files, so the model does not treat empty file names specially.
- Store.Storage.GetFile: a directory name is treated as a miss. In the source `os.Open` on a directory succeeds: the download then answers 200 with an empty body, and replication stops at the failing read.
- Read errors after a successful open are not modelled: neither a failing `io.Copy` of a local file nor the failing `io.ReadAll` that makes replication stop (node.go:189-193). Neither is a failing open of an uploaded part.
- Store.Storage.ListFiles: does not state the order of the entries. `os.ReadDir` sorts them by name, but the model picks them in any order.
- Store.Storage.DeleteFile: always fails on a directory name, as for a non-empty directory. `os.Remove` would remove an empty one. Permission errors are not modelled.
- File sizes are unbounded integers rather than `int64`.
