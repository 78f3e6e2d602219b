/**
 * Anti-entropy (syncWithPeers in node.go) as a specification over the
 * store's content. One tick visits the configured peers one after another;
 * for each peer whose directory can be read, it snapshots the names the
 * local listing reports, and pulls every name of the peer's directory that
 * the snapshot lacks, through the same first-success search over all peers
 * that a download uses.
 */
module Reconcile {
  import opened Store
  import opened Peers

  /**
   * Everything around the store during one tick: the configured peers (all
   * of them are searched for every pull), their answers, and what the disk
   * does to a save of each name.
   */
  datatype World = World(peers: seq<string>, net: Network, disk: string -> WriteFault)

  /**
   * The names the snapshot marks as held: the names of the local listing,
   * or none at all when the listing fails (its error is ignored).
   */
  function Held(files: map<string, seq<byte>>, layout: Layout): set<string>
  {
    if layout.listable then files.Keys - layout.unreadable else {}
  }

  /** One entry of a peer's directory: pulled and saved unless held. */
  function PullOne(files: map<string, seq<byte>>, layout: Layout, held: set<string>,
                   name: string, w: World): map<string, seq<byte>>
  {
    if name in held then files
    else match Fetch(w.peers, name, w.net)
      case None => files
      case Some(c) => AfterWrite(files, layout.dirs, name, c, w.disk(name))
  }

  /** The loop over a peer's directory, entry by entry, in the peer's order. */
  function Pull(files: map<string, seq<byte>>, layout: Layout, held: set<string>,
                listed: seq<FileInfo>, w: World): map<string, seq<byte>>
    decreases |listed|
  {
    if listed == [] then files
    else Pull(PullOne(files, layout, held, listed[0].name, w), layout, held, listed[1..], w)
  }

  /** One peer's branch: nothing when its directory cannot be had. */
  function Branch(files: map<string, seq<byte>>, layout: Layout, peer: string, w: World): map<string, seq<byte>>
  {
    match w.net.directory(peer)
    case None => files
    case Some(listed) => Pull(files, layout, Held(files, layout), listed, w)
  }

  /** One tick: the branches of `todo`, one after another. */
  function Tick(files: map<string, seq<byte>>, layout: Layout, todo: seq<string>, w: World): map<string, seq<byte>>
    decreases |todo|
  {
    if todo == [] then files
    else Tick(Branch(files, layout, todo[0], w), layout, todo[1..], w)
  }

  /**
   * The names one branch fetches from the peers, in the order of the peer's
   * directory: every listed name outside the snapshot, once per listing.
   */
  function Wanted(held: set<string>, listed: seq<FileInfo>): seq<string>
    decreases |listed|
  {
    if listed == [] then []
    else
      var last := listed[|listed| - 1].name;
      Wanted(held, listed[..|listed| - 1]) + (if last in held then [] else [last])
  }

  /** The names one peer's branch fetches: none when its directory cannot be had. */
  function BranchFetches(files: map<string, seq<byte>>, layout: Layout, peer: string, w: World): seq<string>
  {
    match w.net.directory(peer)
    case None => []
    case Some(listed) => Wanted(Held(files, layout), listed)
  }

  /** The names each branch of a tick fetches, one sequence per peer of `todo`. */
  function TickFetches(files: map<string, seq<byte>>, layout: Layout, todo: seq<string>, w: World): seq<seq<string>>
    decreases |todo|
  {
    if todo == [] then []
    else [BranchFetches(files, layout, todo[0], w)] + TickFetches(Branch(files, layout, todo[0], w), layout, todo[1..], w)
  }

  /** A branch fetches a name exactly when the peer lists it and the snapshot lacks it. */
  lemma {:induction false} WantedIsMissing(held: set<string>, listed: seq<FileInfo>, n: string)
    ensures n in Wanted(held, listed) <==> n in NameSet(listed) && n !in held
    decreases |listed|
  {
    if listed != [] {
      var init := listed[..|listed| - 1];
      var last := listed[|listed| - 1];
      WantedIsMissing(held, init, n);
      assert listed == init + [last];
      NameSetAppend(init, last);
    }
  }

  /**
   * With nothing held (the local listing failed, say), a branch fetches
   * every entry of the peer's directory, in order, a name listed twice
   * included.
   */
  lemma {:induction false} NothingHeldFetchesEverything(held: set<string>, listed: seq<FileInfo>)
    requires forall i :: 0 <= i < |listed| ==> listed[i].name !in held
    ensures Wanted(held, listed) == seq(|listed|, i requires 0 <= i < |listed| => listed[i].name)
    decreases |listed|
  {
    if listed != [] {
      var init := listed[..|listed| - 1];
      NothingHeldFetchesEverything(held, init);
    }
  }

  /**
   * When the local listing works, no branch of a tick fetches a name the
   * node listed before the tick.
   */
  lemma {:induction false} TickNeverFetchesListed(files: map<string, seq<byte>>, layout: Layout, todo: seq<string>,
                                                  w: World, n: string)
    requires layout.listable && n in files && n !in layout.unreadable
    ensures forall i :: 0 <= i < |TickFetches(files, layout, todo, w)| ==> n !in TickFetches(files, layout, todo, w)[i]
    decreases |todo|
  {
    if todo != [] {
      var next := Branch(files, layout, todo[0], w);
      var dir := w.net.directory(todo[0]);
      if dir.Some? {
        WantedIsMissing(Held(files, layout), dir.value, n);
        PullTouchesOnlyMissing(files, layout, Held(files, layout), dir.value, w, n);
      }
      assert n !in BranchFetches(files, layout, todo[0], w);
      assert n in next;
      TickNeverFetchesListed(next, layout, todo[1..], w, n);
    }
  }

  /**
   * Only entries of the peer's directory that are not held can change:
   * every held name, and every name the directory does not mention, keeps
   * exactly what it had (or stays absent).
   */
  lemma {:induction false} PullTouchesOnlyMissing(files: map<string, seq<byte>>, layout: Layout, held: set<string>,
                                                  listed: seq<FileInfo>, w: World, n: string)
    requires n in held || n !in NameSet(listed)
    ensures Get(Pull(files, layout, held, listed, w), n) == Get(files, n)
    decreases |listed|
  {
    if listed != [] {
      assert n != listed[0].name || n in held by {
        assert listed[0].name in NameSet(listed);
      }
      var next := PullOne(files, layout, held, listed[0].name, w);
      assert Get(next, n) == Get(files, n);
      assert NameSet(listed[1..]) <= NameSet(listed) by {
        forall i | 0 <= i < |listed[1..]| ensures listed[1..][i].name in NameSet(listed) {
          assert listed[1..][i] == listed[i + 1];
        }
      }
      PullTouchesOnlyMissing(next, layout, held, listed[1..], w, n);
    }
  }

  /**
   * A pull either leaves a name as it was or gives it `c`, when `c` is what
   * the peers serve for it and its save cannot fail.
   */
  lemma {:induction false} PullKeepsOrServes(files: map<string, seq<byte>>, layout: Layout, held: set<string>,
                                             listed: seq<FileInfo>, w: World, n: string, c: seq<byte>)
    requires Fetch(w.peers, n, w.net) == Some(c) && WriteOk(layout.dirs, n, w.disk(n))
    ensures Get(Pull(files, layout, held, listed, w), n) in {Get(files, n), Some(c)}
    decreases |listed|
  {
    if listed != [] {
      var next := PullOne(files, layout, held, listed[0].name, w);
      PullKeepsOrServes(next, layout, held, listed[1..], w, n, c);
      if Get(next, n) != Get(files, n) {
        assert Get(next, n) == Some(c);
        PullServed(next, layout, held, listed[1..], w, n, c);
      }
    }
  }

  /**
   * A name that the directory lists and the snapshot lacks ends up holding
   * what the peers serve for it, and a name already holding that content
   * keeps it, provided its save cannot fail.
   */
  lemma {:induction false} PullServed(files: map<string, seq<byte>>, layout: Layout, held: set<string>,
                                      listed: seq<FileInfo>, w: World, n: string, c: seq<byte>)
    requires Fetch(w.peers, n, w.net) == Some(c) && WriteOk(layout.dirs, n, w.disk(n))
    requires Get(files, n) == Some(c) || (n !in held && n in NameSet(listed))
    ensures Get(Pull(files, layout, held, listed, w), n) == Some(c)
    decreases |listed|
  {
    if listed != [] {
      var next := PullOne(files, layout, held, listed[0].name, w);
      if Get(files, n) == Some(c) || listed[0].name == n {
        assert Get(next, n) == Some(c);
      } else {
        assert Get(next, n) == Get(files, n);
        var i :| 0 <= i < |listed| && listed[i].name == n;
        assert listed[1..][i - 1] == listed[i];
        assert n in NameSet(listed[1..]);
      }
      PullServed(next, layout, held, listed[1..], w, n, c);
    }
  }

  /**
   * When the local listing works, every name it reports before the tick
   * still holds exactly its content after the tick: reconciliation never
   * overwrites what the node already lists.
   */
  lemma {:induction false} TickKeepsListed(files: map<string, seq<byte>>, layout: Layout, todo: seq<string>,
                                           w: World, n: string)
    requires layout.listable && n in files && n !in layout.unreadable
    ensures Get(Tick(files, layout, todo, w), n) == Some(files[n])
    decreases |todo|
  {
    if todo != [] {
      var next := Branch(files, layout, todo[0], w);
      if w.net.directory(todo[0]).Some? {
        PullTouchesOnlyMissing(files, layout, Held(files, layout), w.net.directory(todo[0]).value, w, n);
      }
      assert Get(next, n) == Get(files, n);
      TickKeepsListed(next, layout, todo[1..], w, n);
    }
  }

  /**
   * Convergence: a name that a reachable peer lists, that the local listing
   * lacks, and that some peer serves with 200 holds the served content
   * after the tick, when its save cannot fail.
   */
  lemma TickPullsMissing(files: map<string, seq<byte>>, layout: Layout, w: World,
                         p: string, n: string, c: seq<byte>)
    requires p in w.peers
    requires w.net.directory(p).Some? && n in NameSet(w.net.directory(p).value)
    requires n !in Held(files, layout)
    requires Fetch(w.peers, n, w.net) == Some(c) && WriteOk(layout.dirs, n, w.disk(n))
    ensures Get(Tick(files, layout, w.peers, w), n) == Some(c)
  {
    TickServed(files, layout, w.peers, w, p, n, c);
  }

  lemma {:induction false} TickServed(files: map<string, seq<byte>>, layout: Layout, todo: seq<string>, w: World,
                                      p: string, n: string, c: seq<byte>)
    requires Fetch(w.peers, n, w.net) == Some(c) && WriteOk(layout.dirs, n, w.disk(n))
    requires w.net.directory(p).Some? && n in NameSet(w.net.directory(p).value)
    requires Get(files, n) == Some(c) || (p in todo && n !in Held(files, layout))
    ensures Get(Tick(files, layout, todo, w), n) == Some(c)
    decreases |todo|
  {
    if todo != [] {
      var next := Branch(files, layout, todo[0], w);
      var dir := w.net.directory(todo[0]);
      if Get(files, n) == Some(c) {
        if dir.Some? {
          PullServed(files, layout, Held(files, layout), dir.value, w, n, c);
        }
        assert Get(next, n) == Some(c);
      } else if todo[0] == p {
        PullServed(files, layout, Held(files, layout), dir.value, w, n, c);
        assert Get(next, n) == Some(c);
      } else {
        if dir.Some? {
          PullKeepsOrServes(files, layout, Held(files, layout), dir.value, w, n, c);
        }
        assert p in todo[1..];
        assert Get(next, n) == Some(c) || n !in Held(next, layout);
      }
      TickServed(next, layout, todo[1..], w, p, n, c);
    }
  }

  /**
   * When the local listing fails, the snapshot is empty, so a name the node
   * does hold is overwritten with what the peers serve as soon as a
   * reachable peer lists it.
   */
  lemma UnlistableStoreIsOverwritten(files: map<string, seq<byte>>, layout: Layout, w: World,
                                     p: string, n: string, c: seq<byte>)
    requires !layout.listable && n in files
    requires p in w.peers
    requires w.net.directory(p).Some? && n in NameSet(w.net.directory(p).value)
    requires Fetch(w.peers, n, w.net) == Some(c) && WriteOk(layout.dirs, n, w.disk(n))
    ensures Get(Tick(files, layout, w.peers, w), n) == Some(c)
  {
    TickServed(files, layout, w.peers, w, p, n, c);
  }

  /**
   * A peer whose directory cannot be had contributes nothing through its own
   * branch; it stays in `w.peers` and still answers the other branches' pulls.
   */
  lemma SilentPeerContributesNothing(files: map<string, seq<byte>>, layout: Layout, p: string,
                                     rest: seq<string>, w: World)
    requires w.net.directory(p).None?
    ensures Tick(files, layout, [p] + rest, w) == Tick(files, layout, rest, w)
  {
    assert ([p] + rest)[1..] == rest;
  }
}
