/**
 * The node coordinator (node.go): the request handlers over the local
 * store and the fixed, ordered peer list. Requests and responses are
 * abstract values; the replication fan-out and the reconciliation branches,
 * concurrent in the source, run here one peer after another.
 */
module Coordinator {
  import opened Store
  import opened Peers
  import opened Reconcile

  const METHOD_GET := "GET"
  const METHOD_POST := "POST"
  const FILE_FIELD := "file"

  const STATUS_BAD_REQUEST := 400
  const STATUS_NOT_FOUND := 404
  const STATUS_METHOD_NOT_ALLOWED := 405
  const STATUS_INTERNAL_SERVER_ERROR := 500

  /** One file part of a multipart form: its file name and its bytes. */
  datatype Part = Part(filename: string, content: seq<byte>)

  /** The outcome of parsing a request body as a multipart form. */
  datatype Form = Malformed | Parsed(fileParts: map<string, seq<Part>>)

  datatype Request = Request(verb: string, form: Form)

  /**
   * What a handler writes back: an error status, the upload acknowledgement
   * (200), a directory listing (200), a file as an attachment (200), or
   * nothing at all (an implicit 200 with an empty body).
   */
  datatype Response =
    | Error(code: int)
    | Uploaded(file: string)
    | Listing(entries: seq<FileInfo>)
    | Attachment(name: string, content: seq<byte>)
    | Empty

  /** One replication push: where it went, what it carried, whether the peer took it. */
  datatype Push = Push(peer: string, name: string, content: seq<byte>, delivered: bool)

  /** What an upload leaves behind: the response, the store, the pushes it triggered. */
  datatype Handled = Handled(resp: Response, files: map<string, seq<byte>>, pushes: seq<Push>)

  /** What a download leaves behind: the response, the store, the peers it asked. */
  datatype Served = Served(resp: Response, files: map<string, seq<byte>>, asked: seq<string>)

  /** The first file part filed under the form field `file`, if any. */
  function FormFile(form: Form): Option<Part>
  {
    if form.Parsed? && FILE_FIELD in form.fileParts && |form.fileParts[FILE_FIELD]| > 0
    then Some(form.fileParts[FILE_FIELD][0])
    else None
  }

  datatype Admission = Reject(code: int) | Accept(part: Part)

  /**
   * The checks an upload passes before anything is saved, in their fixed
   * order: the method, then the form, then the file part.
   */
  function Admit(req: Request): Admission
  {
    if req.verb != METHOD_POST then Reject(STATUS_METHOD_NOT_ALLOWED)
    else if req.form.Malformed? then Reject(STATUS_BAD_REQUEST)
    else match FormFile(req.form)
      case None => Reject(STATUS_BAD_REQUEST)
      case Some(part) => Accept(part)
  }

  /** One push per configured peer, in order, each carrying `content`. */
  function Replication(peers: seq<string>, name: string, content: seq<byte>, net: Network): seq<Push>
  {
    seq(|peers|, i requires 0 <= i < |peers| =>
      Push(peers[i], name, content, Succeeded(net.push(peers[i], name, content))))
  }

  /** handleUpload: reject, or save and then replicate what was saved. */
  function UploadOutcome(files: map<string, seq<byte>>, dirs: set<string>, peers: seq<string>,
                         req: Request, net: Network, fault: WriteFault): Handled
  {
    match Admit(req)
    case Reject(code) => Handled(Error(code), files, [])
    case Accept(part) =>
      var after := AfterWrite(files, dirs, part.filename, part.content, fault);
      if WriteOk(dirs, part.filename, fault)
      then Handled(Uploaded(part.filename), after, Replication(peers, part.filename, part.content, net))
      else Handled(Error(STATUS_INTERNAL_SERVER_ERROR), after, [])
  }

  /** handleDownload: the local copy, else the first peer's copy, cached. */
  function DownloadOutcome(files: map<string, seq<byte>>, dirs: set<string>, peers: seq<string>,
                           name: string, net: Network, fault: WriteFault): Served
  {
    if name in files then Served(Attachment(name, files[name]), files, [])
    else match Fetch(peers, name, net)
      case None => Served(Error(STATUS_NOT_FOUND), files, Asked(peers, name, net))
      case Some(c) => Served(Attachment(name, c), AfterWrite(files, dirs, name, c, fault), Asked(peers, name, net))
  }

  /** handleList (and a GET on /sync): the listing, or 500 when the directory cannot be read. */
  ghost predicate ListResponse(resp: Response, files: map<string, seq<byte>>, layout: Layout)
  {
    if layout.listable then resp.Listing? && Lists(resp.entries, files, layout.unreadable)
    else resp == Error(STATUS_INTERNAL_SERVER_ERROR)
  }

  /**
   * Each rejection happens in its turn (405 before 400 for the form before
   * 400 for the file part), and none of them changes the store or pushes.
   */
  lemma UploadRejectsInOrder(files: map<string, seq<byte>>, dirs: set<string>, peers: seq<string>,
                             req: Request, net: Network, fault: WriteFault)
    ensures req.verb != METHOD_POST ==>
              UploadOutcome(files, dirs, peers, req, net, fault) == Handled(Error(STATUS_METHOD_NOT_ALLOWED), files, [])
    ensures req.verb == METHOD_POST && req.form.Malformed? ==>
              UploadOutcome(files, dirs, peers, req, net, fault) == Handled(Error(STATUS_BAD_REQUEST), files, [])
    ensures req.verb == METHOD_POST && req.form.Parsed? && FormFile(req.form).None? ==>
              UploadOutcome(files, dirs, peers, req, net, fault) == Handled(Error(STATUS_BAD_REQUEST), files, [])
  {
  }

  /**
   * A failing save answers 500 and triggers no replication; only the file
   * being written may have changed, and a failing create changes nothing.
   */
  lemma UploadSaveFailure(files: map<string, seq<byte>>, dirs: set<string>, peers: seq<string>,
                          req: Request, net: Network, fault: WriteFault)
    requires Admit(req).Accept? && !WriteOk(dirs, Admit(req).part.filename, fault)
    ensures var o := UploadOutcome(files, dirs, peers, req, net, fault);
            && o.resp == Error(STATUS_INTERNAL_SERVER_ERROR) && o.pushes == []
            && (forall n :: n != Admit(req).part.filename ==> Get(o.files, n) == Get(files, n))
            && (fault == CreateFails || Admit(req).part.filename in dirs ==> o.files == files)
  {
  }

  /**
   * A successful upload stores exactly the uploaded bytes under the file
   * name, leaves every other name alone, answers 200 with the name, and
   * pushes those same bytes once to every peer, in configured order.
   */
  lemma UploadSuccess(files: map<string, seq<byte>>, dirs: set<string>, peers: seq<string>,
                      req: Request, net: Network, fault: WriteFault)
    requires Admit(req).Accept? && WriteOk(dirs, Admit(req).part.filename, fault)
    ensures var part := Admit(req).part;
            var o := UploadOutcome(files, dirs, peers, req, net, fault);
            && o.resp == Uploaded(part.filename)
            && Get(o.files, part.filename) == Some(part.content)
            && (forall n :: n != part.filename ==> Get(o.files, n) == Get(files, n))
            && |o.pushes| == |peers|
            && (forall i :: 0 <= i < |peers| ==>
                  o.pushes[i].peer == peers[i] && o.pushes[i].name == part.filename
                  && o.pushes[i].content == part.content
                  && (o.pushes[i].delivered <==> Succeeded(net.push(peers[i], part.filename, part.content))))
  {
  }

  /** Round trip: after a successful upload, a download of that name is a local hit with the uploaded bytes. */
  lemma UploadThenDownload(files: map<string, seq<byte>>, dirs: set<string>, peers: seq<string>,
                           req: Request, net: Network, fault: WriteFault, net2: Network, fault2: WriteFault)
    requires Admit(req).Accept? && WriteOk(dirs, Admit(req).part.filename, fault)
    ensures var part := Admit(req).part;
            var after := UploadOutcome(files, dirs, peers, req, net, fault).files;
            DownloadOutcome(after, dirs, peers, part.filename, net2, fault2)
              == Served(Attachment(part.filename, part.content), after, [])
  {
  }

  /** Last writer wins: a second successful upload of a name replaces the first one's bytes entirely. */
  lemma UploadOverwrites(files: map<string, seq<byte>>, dirs: set<string>, peers: seq<string>,
                         first: Request, second: Request, net: Network, fault1: WriteFault, fault2: WriteFault)
    requires Admit(first).Accept? && Admit(second).Accept?
    requires Admit(first).part.filename == Admit(second).part.filename
    requires WriteOk(dirs, Admit(second).part.filename, fault2)
    ensures var mid := UploadOutcome(files, dirs, peers, first, net, fault1).files;
            Get(UploadOutcome(mid, dirs, peers, second, net, fault2).files, Admit(second).part.filename)
              == Some(Admit(second).part.content)
  {
  }

  /** A local hit answers the local content, asks no peer and changes nothing. */
  lemma DownloadLocalHit(files: map<string, seq<byte>>, dirs: set<string>, peers: seq<string>,
                         name: string, net: Network, fault: WriteFault)
    requires name in files
    ensures DownloadOutcome(files, dirs, peers, name, net, fault) == Served(Attachment(name, files[name]), files, [])
  {
  }

  /**
   * On a local miss the answer is the body of the first peer answering 200,
   * whatever happens to the cache save, the peers asked are those up to and
   * including it, and the store gains exactly that save.
   */
  lemma DownloadFallsBack(files: map<string, seq<byte>>, dirs: set<string>, peers: seq<string>,
                          name: string, net: Network, fault: WriteFault, k: nat, c: seq<byte>)
    requires name !in files
    requires k < |peers| && net.download(peers[k], name) == Answer(STATUS_OK, Some(c))
    requires forall j :: 0 <= j < k ==> !Succeeded(net.download(peers[j], name))
    ensures DownloadOutcome(files, dirs, peers, name, net, fault)
              == Served(Attachment(name, c), AfterWrite(files, dirs, name, c, fault), peers[..k + 1])
  {
    FetchIsFirstSuccess(peers, name, net, c);
  }

  /** A name held neither locally nor by any peer answering 200 is 404, after asking every peer. */
  lemma DownloadNotFound(files: map<string, seq<byte>>, dirs: set<string>, peers: seq<string>,
                         name: string, net: Network, fault: WriteFault)
    requires name !in files
    requires forall j :: 0 <= j < |peers| ==> !Succeeded(net.download(peers[j], name))
    ensures DownloadOutcome(files, dirs, peers, name, net, fault) == Served(Error(STATUS_NOT_FOUND), files, peers)
  {
    NoServingPeerMeansNotFound(peers, name, net);
  }

  /**
   * Cache-fill: after a peer fallback whose save succeeds, the next download
   * of the name is a local hit with the same bytes, whatever the peers do.
   */
  lemma CacheFillMakesNextDownloadLocal(files: map<string, seq<byte>>, dirs: set<string>, peers: seq<string>,
                                        name: string, net: Network, fault: WriteFault, net2: Network, fault2: WriteFault)
    requires name !in files && Fetch(peers, name, net).Some? && WriteOk(dirs, name, fault)
    ensures var first := DownloadOutcome(files, dirs, peers, name, net, fault);
            DownloadOutcome(first.files, dirs, peers, name, net2, fault2) == Served(first.resp, first.files, [])
  {
  }

  /**
   * A cache save that breaks off after `k < |c|` bytes still answers the
   * whole peer content, but leaves a truncated copy that every later
   * download serves as a local hit.
   */
  lemma TruncatedCacheIsServedLater(files: map<string, seq<byte>>, dirs: set<string>, peers: seq<string>,
                                    name: string, net: Network, k: nat, c: seq<byte>, net2: Network, fault2: WriteFault)
    requires name !in files && name !in dirs && Fetch(peers, name, net) == Some(c) && k < |c|
    ensures var first := DownloadOutcome(files, dirs, peers, name, net, CopyFailsAfter(k));
            && first.resp == Attachment(name, c)
            && DownloadOutcome(first.files, dirs, peers, name, net2, fault2) == Served(Attachment(name, c[..k]), first.files, [])
  {
  }

  class Node {
    const port: string
    const peers: seq<string>
    const storage: Storage

    ghost predicate Valid()
      reads storage
    {
      storage.Valid()
    }

    constructor (port: string, peers: seq<string>, storage: Storage)
      requires storage.Valid()
      ensures Valid()
      ensures this.port == port && this.peers == peers && this.storage == storage
    {
      this.port := port;
      this.peers := peers;
      this.storage := storage;
    }

    /** handleUpload. */
    method Upload(req: Request, net: Network, fault: WriteFault) returns (resp: Response, pushes: seq<Push>)
      requires Valid()
      modifies storage
      ensures Valid()
      ensures Handled(resp, storage.files, pushes)
                == UploadOutcome(old(storage.files), storage.layout.dirs, peers, req, net, fault)
    {
      pushes := [];
      match Admit(req) {
        case Reject(code) =>
          resp := Error(code);
        case Accept(part) =>
          var saved := storage.SaveFile(part.filename, part.content, fault);
          if !saved {
            resp := Error(STATUS_INTERNAL_SERVER_ERROR);
            return;
          }
          pushes := Replicate(part.filename, net);
          resp := Uploaded(part.filename);
      }
    }

    /** handleDownload. */
    method Download(name: string, net: Network, fault: WriteFault) returns (resp: Response, asked: seq<string>)
      requires Valid()
      modifies storage
      ensures Valid()
      ensures Served(resp, storage.files, asked)
                == DownloadOutcome(old(storage.files), storage.layout.dirs, peers, name, net, fault)
    {
      var local := storage.GetFile(name);
      if local.Ok? {
        return Attachment(name, local.value), [];
      }
      var content;
      content, asked := FetchFromPeers(name, net);
      if content.None? {
        resp := Error(STATUS_NOT_FOUND);
        return;
      }
      // the cache save's error is ignored
      var cached := storage.SaveFile(name, content.value, fault);
      resp := Attachment(name, content.value);
    }

    /** handleList. */
    method List() returns (resp: Response)
      requires Valid()
      ensures ListResponse(resp, storage.files, storage.layout)
    {
      var files := storage.ListFiles();
      if files.Err? {
        return Error(STATUS_INTERNAL_SERVER_ERROR);
      }
      resp := Listing(files.value);
    }

    /** handleSync: GET lists, POST uploads, any other method does nothing. */
    method Sync(req: Request, net: Network, fault: WriteFault) returns (resp: Response, pushes: seq<Push>)
      requires Valid()
      modifies storage
      ensures Valid()
      ensures req.verb == METHOD_GET ==>
                && ListResponse(resp, storage.files, storage.layout)
                && storage.files == old(storage.files) && pushes == []
      ensures req.verb == METHOD_POST ==>
                Handled(resp, storage.files, pushes)
                  == UploadOutcome(old(storage.files), storage.layout.dirs, peers, req, net, fault)
      ensures req.verb != METHOD_GET && req.verb != METHOD_POST ==>
                resp == Empty && storage.files == old(storage.files) && pushes == []
    {
      if req.verb == METHOD_GET {
        resp := List();
        pushes := [];
      } else if req.verb == METHOD_POST {
        resp, pushes := Upload(req, net, fault);
      } else {
        resp, pushes := Empty, [];
      }
    }

    /**
     * replicateFile: nothing when the file cannot be read; otherwise one
     * push per configured peer, in order, all carrying the stored bytes.
     */
    method Replicate(name: string, net: Network) returns (pushes: seq<Push>)
      requires Valid()
      ensures name !in storage.files ==> pushes == []
      ensures name in storage.files ==> |pushes| == |peers|
      ensures name in storage.files ==> forall i :: 0 <= i < |pushes| ==>
                && pushes[i].peer == peers[i] && pushes[i].name == name
                && pushes[i].content == storage.files[name]
                && (pushes[i].delivered <==> Succeeded(net.push(peers[i], name, storage.files[name])))
    {
      var file := storage.GetFile(name);
      if file.Err? {
        return [];
      }
      var content := file.value;
      pushes := [];
      for i := 0 to |peers|
        invariant |pushes| == i
        invariant forall j :: 0 <= j < i ==>
                    && pushes[j].peer == peers[j] && pushes[j].name == name && pushes[j].content == content
                    && (pushes[j].delivered <==> Succeeded(net.push(peers[j], name, content)))
      {
        var delivered := SendFileToPeer(peers[i], name, content, net);
        pushes := pushes + [Push(peers[i], name, content, delivered)];
      }
    }

    /** sendFileToPeer: a push is delivered exactly when the peer answers 200. */
    method SendFileToPeer(peer: string, name: string, content: seq<byte>, net: Network) returns (delivered: bool)
      ensures delivered <==> Succeeded(net.push(peer, name, content))
    {
      var reply := net.push(peer, name, content);
      if reply.Unreachable? {
        return false;
      }
      delivered := reply.status == STATUS_OK;
    }

    /**
     * fetchFileFromPeers: asks the peers in configured order, skipping
     * unreachable ones and answers other than 200; the first 200 decides.
     */
    method FetchFromPeers(name: string, net: Network) returns (content: Option<seq<byte>>, asked: seq<string>)
      ensures content == Fetch(peers, name, net)
      ensures asked == Asked(peers, name, net)
    {
      asked := [];
      var i := 0;
      while i < |peers|
        invariant 0 <= i <= |peers|
        invariant asked == peers[..i]
        invariant forall j :: 0 <= j < i ==> !Succeeded(net.download(peers[j], name))
      {
        asked := asked + [peers[i]];
        var reply := net.download(peers[i], name);
        if reply.Unreachable? {
          i := i + 1;
          continue;
        }
        if reply.status == STATUS_OK {
          assert FirstServing(peers, name, net) == i;
          return reply.body, asked;
        }
        i := i + 1;
      }
      assert peers[..i] == peers;
      content := None;
    }

    /**
     * syncWithPeers: one branch per configured peer, in order; `fetched`
     * holds, per branch, the names it asked the peers for.
     */
    method Reconcile(net: Network, disk: string -> WriteFault) returns (fetched: seq<seq<string>>)
      requires Valid()
      modifies storage
      ensures Valid()
      ensures storage.files == Tick(old(storage.files), storage.layout, peers, World(peers, net, disk))
      ensures fetched == TickFetches(old(storage.files), storage.layout, peers, World(peers, net, disk))
    {
      var w := World(peers, net, disk);
      fetched := [];
      for i := 0 to |peers|
        invariant Valid()
        invariant Tick(storage.files, storage.layout, peers[i..], w)
                    == Tick(old(storage.files), storage.layout, peers, w)
        invariant fetched + TickFetches(storage.files, storage.layout, peers[i..], w)
                    == TickFetches(old(storage.files), storage.layout, peers, w)
      {
        assert peers[i..][1..] == peers[i + 1..];
        ghost var rest := TickFetches(storage.files, storage.layout, peers[i..], w);
        var names := SyncWithPeer(peers[i], net, disk);
        assert rest == [names] + TickFetches(storage.files, storage.layout, peers[i + 1..], w);
        fetched := fetched + [names];
      }
      assert peers[|peers|..] == [];
    }

    /**
     * One peer's branch of syncWithPeers: read its directory, snapshot the
     * local names, and pull and save each listed name the snapshot lacks;
     * `fetched` is the names it asked the peers for, in order.
     */
    method SyncWithPeer(peer: string, net: Network, disk: string -> WriteFault) returns (fetched: seq<string>)
      requires Valid()
      modifies storage
      ensures Valid()
      ensures storage.files == Branch(old(storage.files), storage.layout, peer, World(peers, net, disk))
      ensures fetched == BranchFetches(old(storage.files), storage.layout, peer, World(peers, net, disk))
    {
      fetched := [];
      var w := World(peers, net, disk);
      var directory := net.directory(peer);
      if directory.None? {
        return;
      }
      var peerFiles := directory.value;
      // the listing's error is ignored: a failed listing holds nothing
      var localFiles := storage.ListFiles();
      var local: set<string> := {};
      if localFiles.Ok? {
        for k := 0 to |localFiles.value|
          invariant local == NameSet(localFiles.value[..k])
          modifies {}
        {
          NameSetAppend(localFiles.value[..k], localFiles.value[k]);
          assert localFiles.value[..k + 1] == localFiles.value[..k] + [localFiles.value[k]];
          local := local + {localFiles.value[k].name};
        }
        assert localFiles.value[..|localFiles.value|] == localFiles.value;
      }
      assert local == Held(storage.files, storage.layout);
      ghost var start := storage.files;
      for j := 0 to |peerFiles|
        invariant Valid()
        invariant Pull(storage.files, storage.layout, local, peerFiles[j..], w)
                    == Pull(start, storage.layout, local, peerFiles, w)
        invariant fetched == Wanted(local, peerFiles[..j])
      {
        assert peerFiles[j..][1..] == peerFiles[j + 1..];
        assert peerFiles[..j + 1][..j] == peerFiles[..j];
        var name := peerFiles[j].name;
        if name !in local {
          fetched := fetched + [name];
          var content, _ := FetchFromPeers(name, net);
          if content.Some? {
            var saved := storage.SaveFile(name, content.value, disk(name));
          }
        }
      }
      assert peerFiles[|peerFiles|..] == [];
      assert peerFiles[..|peerFiles|] == peerFiles;
    }
  }
}
