/**
 The databases of servers that compact their logs: entries are applied while the cluster runs, snapshots are taken at
 any time, and a restart reads a snapshot back and replays the log from its base.
 */
module CompactedStores {
  import opened RaftLog
  import opened Server
  import opened Protocol
  import opened StateMachineSafety
  import opened Pipeline
  import opened Snapshots
  import C = CompactedRuns
  import CommitIndex
  import ReplicatedStore
  import Replica

  datatype Store = Store(
    db: Replica.Database,
    applied: nat,
    saved: Replica.Database,  // the snapshot file
    // history: what was ever applied, from which index on `db` is that prefix's, and the same two for the snapshot
    known: seq<Entry>,
    settled: nat,
    savedAt: nat,
    savedSettled: nat)

  const Empty := Store(map[], 0, map[], [], 0, 0, 0)

  datatype System = System(k: C.Machines, stores: map<Id, Store>)

  datatype Happening =
    | Runs(move: C.Move)
    | Applies(id: Id, waiting: Commands)  // one turn of the apply loop, with the commands of waiting sessions
    | Saves(id: Id)                       // a snapshot is taken

  /** The process of the server ends and starts again. */
  ghost predicate Reboots(k: C.Machines, move: C.Move, id: Id) {
    match move
    case Restarts(i) => i == id
    case Handles(r, _) =>
      && r.req.leader == id && id in k.nodes && k.nodes[id].role == Leader && r.res.success
      && CommitFaults(RecordMatch(k.nodes[id], r.from, r.res.matchIndex))
    case _ => false
  }

  /** The next entry to apply. */
  predicate Due(n: Node, st: Store) {
    st.applied < n.commitIndex && n.log.Present(st.applied + 1)
  }

  function DueEntry(n: Node, st: Store): Entry
    requires Due(n, st)
  {
    n.log.entries[st.applied - n.log.baseIndex]
  }

  function AfterApply(st: Store, e: Entry, waiting: Commands): Store {
    st.(db := ApplyEntry(Served(st.db, waiting, []), e).db,
        applied := st.applied + 1,
        known := if st.applied == |st.known| then st.known + [e] else st.known,
        settled := Max(st.settled, st.applied + 1))
  }

  function AfterSave(st: Store): Store {
    st.(saved := st.db, savedAt := st.applied, savedSettled := st.settled)
  }

  function AfterRestart(st: Store, base: nat): Store {
    st.(db := st.saved, applied := base, settled := Max(base, st.savedSettled))
  }

  ghost predicate CanHappen(x: System, x': System, event: Happening) {
    match event
    case Runs(move) =>
      && !move.Idles? && C.CanMove(x.k, x'.k, move)
      && (move.Compacts? ==> move.id in x.stores && move.index <= x.stores[move.id].applied)
      && x'.stores.Keys == x.stores.Keys
      && forall id | id in x.stores && id in x.k.nodes ::
           x'.stores[id] == if Reboots(x.k, move, id) then AfterRestart(x.stores[id], x.k.nodes[id].log.baseIndex)
                            else x.stores[id]
    case Applies(id, waiting) =>
      && id in x.k.nodes && id in x.stores && Due(x.k.nodes[id], x.stores[id])
      && Expected(waiting, DueEntry(x.k.nodes[id], x.stores[id]))
      && x' == x.(stores := x.stores[id := AfterApply(x.stores[id], DueEntry(x.k.nodes[id], x.stores[id]), waiting)])
    case Saves(id) => id in x.stores && x' == x.(stores := x.stores[id := AfterSave(x.stores[id])])
  }

  /** Besides, a snapshot read back is not older than the log's base. */
  ghost predicate Safely(x: System, event: Happening) {
    event.Runs? ==>
      && C.Careful(x.k, event.move)
      && forall id | id in x.stores && id in x.k.nodes && Reboots(x.k, event.move, id) ::
           x.k.nodes[id].log.baseIndex <= x.stores[id].savedAt
  }

  ghost predicate StoredNext(x: System, x': System) {
    exists event :: CanHappen(x, x', event) && Safely(x, event)
  }

  ghost predicate StoredAt(run: seq<System>, i: nat)
    requires i < |run| - 1
  {
    StoredNext(run[i], run[i + 1])
  }

  ghost predicate FreshSystem(x: System) {
    C.Starts(x.k) && x.stores.Keys == x.k.members && forall id | id in x.stores :: x.stores[id] == Empty
  }

  ghost predicate StoredRun(run: seq<System>) {
    run != [] && FreshSystem(run[0]) && forall i: nat | i < |run| - 1 :: StoredAt(run, i)
  }

  // ----- The cluster below

  function Clusters(run: seq<System>): seq<C.Machines> {
    seq(|run|, i requires 0 <= i < |run| => run[i].k)
  }

  lemma ClusterMoves(x: System, x': System)
    requires StoredNext(x, x')
    ensures C.Moves(x.k, x'.k)
  {
    var event :| CanHappen(x, x', event) && Safely(x, event);
    if event.Runs? {
      assert C.MoveTo(x.k, x'.k, event.move);
    } else {
      assert C.MoveTo(x.k, x'.k, C.Idles);
    }
  }

  lemma ClustersRun(run: seq<System>)
    requires StoredRun(run)
    ensures C.CompactedRun(Clusters(run))
  {
    forall i: nat | i < |Clusters(run)| - 1 ensures C.MovesAt(Clusters(run), i) {
      assert StoredAt(run, i);
      ClusterMoves(run[i], run[i + 1]);
    }
  }

  // ----- What a store is worth

  ghost predicate StoreOk(st: Store) {
    && st.applied <= |st.known| && Between(st.db, st.known, st.applied, st.settled)
    && Between(st.saved, st.known, st.savedAt, st.savedSettled)
  }

  predicate AppliedWithin(n: Node, st: Store) {
    n.log.baseIndex <= st.applied <= n.commitIndex
  }

  /** What was applied was committed by the server at the moment `i`. */
  predicate CommittedAt(full: seq<Cluster>, at: seq<nat>, i: nat, id: Id, known: seq<Entry>) {
    && i < |at| && at[i] < |full| && id in full[at[i]].nodes
    && |known| <= full[at[i]].nodes[id].commitIndex && known <= full[at[i]].nodes[id].log.entries
  }

  ghost predicate WasCommitted(full: seq<Cluster>, at: seq<nat>, i: nat, id: Id, known: seq<Entry>) {
    exists j: nat :: j <= i && CommittedAt(full, at, j, id, known)
  }

  ghost predicate Healthy(full: seq<Cluster>, at: seq<nat>, i: nat, id: Id, x: System) {
    && id in x.k.nodes && id in x.stores
    && StoreOk(x.stores[id]) && AppliedWithin(x.k.nodes[id], x.stores[id])
    && WasCommitted(full, at, i, id, x.stores[id].known)
  }

  lemma EmptyOk()
    ensures StoreOk(Empty)
  {
    AfterBetween([], 0);
  }

  lemma SaveOk(st: Store)
    requires StoreOk(st)
    ensures StoreOk(AfterSave(st))
  {
  }

  lemma RestartOk(st: Store, base: nat)
    requires StoreOk(st) && base <= st.savedAt
    ensures StoreOk(AfterRestart(st, base))
  {
    BetweenWidens(st.saved, st.known, st.savedAt, st.savedSettled, base);
  }

  lemma ApplyOk(st: Store, e: Entry, waiting: Commands)
    requires StoreOk(st) && Expected(waiting, e) && (st.applied < |st.known| ==> e == st.known[st.applied])
    ensures StoreOk(AfterApply(st, e, waiting))
  {
    var known := AfterApply(st, e, waiting).known;
    EntryActsByText(Served(st.db, waiting, []), e);
    BetweenGrows(st.db, st.known, known, st.applied, st.settled);
    BetweenGrows(st.saved, st.known, known, st.savedAt, st.savedSettled);
    BetweenNext(st.db, known, st.applied, st.settled);
  }

  // ----- What a move does to a server

  predicate Forward(s: Node, s': Node) {
    s'.id == s.id && s'.commitIndex >= s.commitIndex && s'.log.baseIndex == s.log.baseIndex
  }

  lemma RequestForward(s: Node, req: AppendReq)
    requires s.commitIndex <= OnAppendRequest(s, req).0.log.LastIndex()
    ensures Forward(s, OnAppendRequest(s, req).0)
  {
  }

  lemma ReplyForward(s: Node, r: C.Response, commit: nat, s': Node)
    requires CommitIndex.Orderly(s) && C.ReplyHandled(s, r, commit, s')
    ensures if s.role == Leader && r.res.success && CommitFaults(RecordMatch(s, r.from, r.res.matchIndex))
            then s' == Rebooted(s, s.log.baseIndex) else Forward(s, s')
  {
  }

  predicate AllForward(nodes: map<Id, Node>, nodes': map<Id, Node>) {
    nodes'.Keys == nodes.Keys && forall i | i in nodes :: Forward(nodes[i], nodes'[i])
  }

  predicate Identified(nodes: map<Id, Node>) {
    forall i | i in nodes :: nodes[i].id == i && CommitIndex.Orderly(nodes[i])
  }

  lemma OneForward(nodes: map<Id, Node>, id: Id, s': Node)
    requires Identified(nodes) && id in nodes && Forward(nodes[id], s')
    ensures AllForward(nodes, nodes[s'.id := s'])
  {
  }

  lemma ServerMoveForward(k: C.Machines, k': C.Machines, move: C.Move)
    requires Identified(k.nodes) && C.CanMove(k, k', move)
    requires move.Yields? || move.Elects? || move.Proposes? || move.CommitsAlone?
    ensures AllForward(k.nodes, k'.nodes)
  {
    OneForward(k.nodes, move.id, k'.nodes[move.id]);
  }

  lemma VoteMoveForward(k: C.Machines, k': C.Machines, move: C.Move)
    requires Identified(k.nodes) && C.CanMove(k, k', move) && (move.Votes? || move.Counts?)
    ensures AllForward(k.nodes, k'.nodes)
  {
    match move
    case Votes(m) => OneForward(k.nodes, m.to, OnVoteRequest(k.nodes[m.to], m.req).0);
    case Counts(r) => OneForward(k.nodes, r.req.candidate, OnVoteReply(k.nodes[r.req.candidate], r.res));
  }

  /** As long as no log ends below what its server has committed. */
  predicate CommitsWithin(nodes: map<Id, Node>, nodes': map<Id, Node>) {
    forall i | i in nodes && i in nodes' :: nodes[i].commitIndex <= nodes'[i].log.LastIndex()
  }

  lemma ReceiptForward(k: C.Machines, m: AppendMsg)
    requires Identified(k.nodes) && m.to in k.nodes && CommitsWithin(k.nodes, C.Receipt(k, m).nodes)
    ensures AllForward(k.nodes, C.Receipt(k, m).nodes)
  {
    var s' := OnAppendRequest(k.nodes[m.to], m.req).0;
    assert s'.id == m.to;
    RequestForward(k.nodes[m.to], m.req);
    OneForward(k.nodes, m.to, s');
  }

  /** A reboot starts again from the base; a compaction moves only the base; no other move lowers anything. */
  ghost predicate Moved(k: C.Machines, move: C.Move, id: Id, s: Node, s': Node) {
    if Reboots(k, move, id) then s'.log.baseIndex == s.log.baseIndex == s'.commitIndex
    else if move.Compacts? && move.id == id then s'.commitIndex == s.commitIndex && s'.log.baseIndex == move.index
    else Forward(s, s')
  }

  lemma HandlesMoved(k: C.Machines, k': C.Machines, r: C.Response, commit: nat, id: Id)
    requires Identified(k.nodes) && C.CanMove(k, k', C.Handles(r, commit)) && id in k.nodes
    ensures id in k'.nodes && Moved(k, C.Handles(r, commit), id, k.nodes[id], k'.nodes[id])
  {
    var s' :| C.ReplyHandled(k.nodes[r.req.leader], r, commit, s') && k' == C.Update(k, s');
    ReplyForward(k.nodes[r.req.leader], r, commit, s');
  }

  lemma MoveMoves(k: C.Machines, k': C.Machines, move: C.Move, id: Id)
    requires Identified(k.nodes) && C.CanMove(k, k', move) && id in k.nodes
    requires CommitsWithin(k.nodes, k'.nodes)
    ensures id in k'.nodes && Moved(k, move, id, k.nodes[id], k'.nodes[id])
  {
    if move.Yields? || move.Elects? || move.Proposes? || move.CommitsAlone? {
      ServerMoveForward(k, k', move);
    } else if move.Votes? || move.Counts? {
      VoteMoveForward(k, k', move);
    } else if move.Receives? {
      ReceiptForward(k, move.request);
    } else if move.Handles? {
      HandlesMoved(k, k', move.reply, move.commit, id);
    }
  }

  // ----- One event

  /** The run below, matched by one on complete logs. */
  ghost predicate Grounded(run: seq<System>, full: seq<Cluster>, at: seq<nat>) {
    StoredRun(run) && C.CompactedRun(Clusters(run)) && HonestRun(full) && C.MatchedBy(Clusters(run), full, at)
  }

  lemma NodesIdentified(run: seq<System>, full: seq<Cluster>, at: seq<nat>, i: nat)
    requires Grounded(run, full, at) && i < |run|
    ensures Identified(run[i].k.nodes)
  {
    var k := Clusters(run)[i];
    C.AlwaysReady(Clusters(run), i);
    forall a | a in k.nodes ensures k.nodes[a].id == a {
      C.MatchedNode(Clusters(run), full, at, i, a);
      RunNodeFacts(full, at[i], a);
    }
  }

  /** What a server ever applied is still what its complete log starts with. */
  lemma KnownStays(run: seq<System>, full: seq<Cluster>, at: seq<nat>, i: nat, id: Id, known: seq<Entry>)
    requires Grounded(run, full, at) && i < |run| && WasCommitted(full, at, i, id, known)
    ensures at[i] < |full| && id in full[at[i]].nodes && known <= full[at[i]].nodes[id].log.entries
  {
    var j: nat :| j <= i && CommittedAt(full, at, j, id, known);
    assert at[j] <= at[i];
    assert C.Mirrors(Clusters(run)[i], full[at[i]]);
    CommittedNeverRemoved(full, at[j], at[i], id);
    var x := full[at[j]].nodes[id];
    assert known <= x.log.entries[..x.commitIndex];
  }

  lemma CommittedLater(full: seq<Cluster>, at: seq<nat>, i: nat, id: Id, known: seq<Entry>)
    requires WasCommitted(full, at, i, id, known)
    ensures WasCommitted(full, at, i + 1, id, known)
  {
    var j: nat :| j <= i && CommittedAt(full, at, j, id, known);
    assert j <= i + 1 && CommittedAt(full, at, j, id, known);
  }

  lemma KeptEntry(n: Node, f: Node, index: nat)
    requires C.Shadows(n, f) && n.log.Present(index)
    ensures index <= |f.log.entries| && n.log.entries[index - n.log.baseIndex - 1] == f.log.entries[index - 1]
  {
  }

  /** What is applied next is what was applied before at that index, or makes a longer committed prefix. */
  lemma DueIsKnown(run: seq<System>, full: seq<Cluster>, at: seq<nat>, i: nat, id: Id)
    requires Grounded(run, full, at) && i < |run| && Healthy(full, at, i, id, run[i])
    requires Due(run[i].k.nodes[id], run[i].stores[id])
    ensures var st, e := run[i].stores[id], DueEntry(run[i].k.nodes[id], run[i].stores[id]);
            if st.applied < |st.known| then e == st.known[st.applied]
            else WasCommitted(full, at, i, id, st.known + [e])
  {
    KnownStays(run, full, at, i, id, run[i].stores[id].known);
    assert run[i].k.nodes[id] == Clusters(run)[i].nodes[id];
    C.MatchedNode(Clusters(run), full, at, i, id);
    DueInLog(full, at, i, id, run[i].k.nodes[id], run[i].stores[id]);
  }

  lemma DueInLog(full: seq<Cluster>, at: seq<nat>, i: nat, id: Id, n: Node, st: Store)
    requires i < |at| && at[i] < |full| && id in full[at[i]].nodes && C.Shadows(n, full[at[i]].nodes[id])
    requires Due(n, st) && st.applied <= |st.known| && st.known <= full[at[i]].nodes[id].log.entries
    ensures if st.applied < |st.known| then DueEntry(n, st) == st.known[st.applied]
            else WasCommitted(full, at, i, id, st.known + [DueEntry(n, st)])
  {
    var f := full[at[i]].nodes[id];
    KeptEntry(n, f, st.applied + 1);
    if st.applied == |st.known| {
      assert f.log.entries[..st.applied + 1] == st.known + [f.log.entries[st.applied]];
      assert CommittedAt(full, at, i, id, st.known + [DueEntry(n, st)]);
    }
  }

  lemma AppliedHealthy(run: seq<System>, full: seq<Cluster>, at: seq<nat>, i: nat, id: Id, waiting: Commands)
    requires Grounded(run, full, at) && i < |run| - 1 && Healthy(full, at, i, id, run[i])
    requires CanHappen(run[i], run[i + 1], Applies(id, waiting))
    ensures Healthy(full, at, i + 1, id, run[i + 1])
  {
    var n, st := run[i].k.nodes[id], run[i].stores[id];
    DueIsKnown(run, full, at, i, id);
    ApplyOk(st, DueEntry(n, st), waiting);
    CommittedLater(full, at, i, id, AfterApply(st, DueEntry(n, st), waiting).known);
  }

  /** No move takes a server's log below what it has committed. */
  lemma CommitStaysWithin(run: seq<System>, full: seq<Cluster>, at: seq<nat>, i: nat, id: Id)
    requires Grounded(run, full, at) && i < |run| - 1 && id in run[i].k.nodes && id in run[i + 1].k.nodes
    ensures run[i].k.nodes[id].commitIndex <= run[i + 1].k.nodes[id].log.LastIndex()
  {
    var ks := Clusters(run);
    C.MatchedNode(ks, full, at, i, id);
    C.MatchedNode(ks, full, at, i + 1, id);
    CommittedNeverRemoved(full, at[i], at[i + 1], id);
    KeepsCommit(ks[i].nodes[id], full[at[i]].nodes[id], ks[i + 1].nodes[id], full[at[i + 1]].nodes[id]);
  }

  lemma KeepsCommit(n: Node, f: Node, n': Node, f': Node)
    requires C.Shadows(n, f) && C.Shadows(n', f') && f.commitIndex <= |f.log.entries|
    requires f.log.entries[..f.commitIndex] <= f'.log.entries
    ensures n.commitIndex <= n'.log.LastIndex()
  {
    C.SameEnds(n', f');
  }

  lemma MovedHealthy(run: seq<System>, full: seq<Cluster>, at: seq<nat>, i: nat, id: Id, move: C.Move)
    requires Grounded(run, full, at) && i < |run| - 1 && Healthy(full, at, i, id, run[i])
    requires CanHappen(run[i], run[i + 1], Runs(move)) && Safely(run[i], Runs(move))
    ensures Healthy(full, at, i + 1, id, run[i + 1])
  {
    var x, x' := run[i], run[i + 1];
    NodesIdentified(run, full, at, i);
    forall a | a in x.k.nodes && a in x'.k.nodes
      ensures x.k.nodes[a].commitIndex <= x'.k.nodes[a].log.LastIndex()
    {
      CommitStaysWithin(run, full, at, i, a);
    }
    MoveMoves(x.k, x'.k, move, id);
    MoveHealthy(full, at, i, id, move, x, x');
  }

  lemma MoveHealthy(full: seq<Cluster>, at: seq<nat>, i: nat, id: Id, move: C.Move, x: System, x': System)
    requires Healthy(full, at, i, id, x) && CanHappen(x, x', Runs(move)) && Safely(x, Runs(move))
    requires id in x'.k.nodes && Moved(x.k, move, id, x.k.nodes[id], x'.k.nodes[id])
    ensures Healthy(full, at, i + 1, id, x')
  {
    CommittedLater(full, at, i, id, x.stores[id].known);
    if Reboots(x.k, move, id) { RestartOk(x.stores[id], x.k.nodes[id].log.baseIndex); }
  }

  lemma OtherHealthy(full: seq<Cluster>, at: seq<nat>, i: nat, id: Id, event: Happening, x: System, x': System)
    requires Healthy(full, at, i, id, x) && CanHappen(x, x', event)
    requires event.Saves? || (event.Applies? && event.id != id)
    ensures Healthy(full, at, i + 1, id, x')
  {
    CommittedLater(full, at, i, id, x.stores[id].known);
    SaveOk(x.stores[id]);
  }

  lemma EventHealthy(run: seq<System>, full: seq<Cluster>, at: seq<nat>, i: nat, id: Id, event: Happening)
    requires Grounded(run, full, at) && i < |run| - 1 && Healthy(full, at, i, id, run[i])
    requires CanHappen(run[i], run[i + 1], event) && Safely(run[i], event)
    ensures Healthy(full, at, i + 1, id, run[i + 1])
  {
    if event.Runs? {
      MovedHealthy(run, full, at, i, id, event.move);
    } else if event.Applies? && event.id == id {
      AppliedHealthy(run, full, at, i, id, event.waiting);
    } else {
      OtherHealthy(full, at, i, id, event, run[i], run[i + 1]);
    }
  }

  // ----- Runs

  lemma FirstHealthy(run: seq<System>, full: seq<Cluster>, at: seq<nat>, id: Id)
    requires Grounded(run, full, at) && id in run[0].stores
    ensures Healthy(full, at, 0, id, run[0])
  {
    EmptyOk();
    var k := Clusters(run)[0];
    var boot: Entry :| C.StartsWith(k, boot);
    assert InitialNode(k.members, id, boot, k.nodes[id]);
    C.MatchedNode(Clusters(run), full, at, 0, id);
    assert CommittedAt(full, at, 0, id, []);
  }

  lemma NextEvent(run: seq<System>, i: nat) returns (event: Happening)
    requires StoredRun(run) && i < |run| - 1
    ensures CanHappen(run[i], run[i + 1], event) && Safely(run[i], event)
  {
    assert StoredAt(run, i);
    event :| CanHappen(run[i], run[i + 1], event) && Safely(run[i], event);
  }

  lemma NextHealthy(run: seq<System>, full: seq<Cluster>, at: seq<nat>, i: nat, id: Id)
    requires Grounded(run, full, at) && i < |run| - 1 && Healthy(full, at, i, id, run[i])
    ensures Healthy(full, at, i + 1, id, run[i + 1])
  {
    var event := NextEvent(run, i);
    EventHealthy(run, full, at, i, id, event);
  }

  /** Every event keeps it. */
  ghost predicate Lasting(run: seq<System>, full: seq<Cluster>, at: seq<nat>, id: Id) {
    forall j: nat | j < |run| - 1 && Healthy(full, at, j, id, run[j]) :: Healthy(full, at, j + 1, id, run[j + 1])
  }

  lemma {:induction false} HealthLasts(run: seq<System>, full: seq<Cluster>, at: seq<nat>, i: nat, id: Id)
    requires i < |run| && Healthy(full, at, 0, id, run[0]) && Lasting(run, full, at, id)
    ensures Healthy(full, at, i, id, run[i])
    decreases i
  {
    if i > 0 { HealthLasts(run, full, at, i - 1, id); }
  }

  lemma RunHealthy(run: seq<System>, full: seq<Cluster>, at: seq<nat>, i: nat, id: Id)
    requires Grounded(run, full, at) && i < |run| && id in run[0].stores
    ensures Healthy(full, at, i, id, run[i])
  {
    FirstHealthy(run, full, at, id);
    assert Lasting(run, full, at, id) by {
      forall j: nat | j < |run| - 1 && Healthy(full, at, j, id, run[j])
        ensures Healthy(full, at, j + 1, id, run[j + 1])
      {
        NextHealthy(run, full, at, j, id);
      }
    }
    HealthLasts(run, full, at, i, id);
  }

  lemma {:induction false} SameStores(run: seq<System>, i: nat)
    requires StoredRun(run) && i < |run|
    ensures run[i].stores.Keys == run[0].stores.Keys
    decreases i
  {
    if i > 0 {
      SameStores(run, i - 1);
      var event := NextEvent(run, i - 1);
    }
  }

  lemma Ground(run: seq<System>) returns (full: seq<Cluster>, at: seq<nat>)
    requires StoredRun(run)
    ensures Grounded(run, full, at)
  {
    ClustersRun(run);
    full, at := C.CompactedRunMatched(Clusters(run));
  }

  // ----- Main results

  /** What two servers ever applied up to an index is the same sequence. */
  lemma KnownAgree(full: seq<Cluster>, at: seq<nat>, i: nat, j: nat, a: Id, b: Id, x: seq<Entry>, y: seq<Entry>, n: nat)
    requires HonestRun(full) && WasCommitted(full, at, i, a, x) && WasCommitted(full, at, j, b, y)
    requires n <= |x| && n <= |y|
    ensures x[..n] == y[..n]
  {
    var k: nat :| k <= i && CommittedAt(full, at, k, a, x);
    var l: nat :| l <= j && CommittedAt(full, at, l, b, y);
    ReplicatedStore.CommittedPrefixesAgree(full, at[k], at[l], a, b, n);
    assert x[..n] == full[at[k]].nodes[a].log.entries[..n];
    assert y[..n] == full[at[l]].nodes[b].log.entries[..n];
  }

  lemma SettledAgree(x: Store, y: Store)
    requires StoreOk(x) && StoreOk(y) && x.settled <= x.applied == y.applied && y.settled <= y.applied
    requires x.known[..x.applied] == y.known[..x.applied]
    ensures x.db == y.db
  {
    var n := x.applied;
    BetweenExactly(x.db, x.known, n);
    BetweenExactly(y.db, y.known, n);
    AfterPrefix(x.known[..n], x.known, n);
    AfterPrefix(y.known[..n], y.known, n);
  }

  /**
   Servers that compact their logs, take snapshots and restart from them have equal databases whenever they have
   applied up to the same index, at whatever two moments, once replay has passed what their snapshot had settled.
   */
  lemma CompactedDatabasesAgree(run: seq<System>, i: nat, j: nat, a: Id, b: Id)
    requires StoredRun(run) && i < |run| && j < |run| && a in run[i].stores && b in run[j].stores
    requires run[i].stores[a].applied == run[j].stores[b].applied
    requires run[i].stores[a].settled <= run[i].stores[a].applied
    requires run[j].stores[b].settled <= run[j].stores[b].applied
    ensures run[i].stores[a].db == run[j].stores[b].db
  {
    var full, at := Ground(run);
    SameStores(run, i);
    SameStores(run, j);
    RunHealthy(run, full, at, i, a);
    RunHealthy(run, full, at, j, b);
    var x, y := run[i].stores[a], run[j].stores[b];
    KnownAgree(full, at, i, j, a, b, x.known, y.known, x.applied);
    SettledAgree(x, y);
  }

  /** The apply loop never looks up an entry that is not there, whatever was compacted. */
  lemma ApplyNeverNull(run: seq<System>, i: nat, a: Id)
    requires StoredRun(run) && i < |run| && a in run[i].stores
    ensures a in run[i].k.nodes
    ensures run[i].stores[a].applied < run[i].k.nodes[a].commitIndex ==> Due(run[i].k.nodes[a], run[i].stores[a])
  {
    var full, at := Ground(run);
    SameStores(run, i);
    RunHealthy(run, full, at, i, a);
    NodesIdentified(run, full, at, i);
  }

  ghost predicate Restarted(x: System, x': System, id: Id) {
    exists event: Happening :: event.Runs? && CanHappen(x, x', event) && Reboots(x.k, event.move, id)
  }

  lemma StaysSettled(x: System, x': System, event: Happening, id: Id)
    requires CanHappen(x, x', event) && !Restarted(x, x', id) && id in x.k.nodes && id in x.stores
    requires x.stores[id].settled == x.stores[id].applied
    ensures id in x'.stores && x'.stores[id].settled == x'.stores[id].applied
  {
  }

  /** A server that never restarted is always settled. */
  lemma {:induction false} UnrestartedSettled(run: seq<System>, i: nat, a: Id)
    requires StoredRun(run) && i < |run| && a in run[i].stores
    requires forall j: nat | j < i :: !Restarted(run[j], run[j + 1], a)
    ensures run[i].stores[a].settled == run[i].stores[a].applied
    decreases i
  {
    if i > 0 {
      var event := NextEvent(run, i - 1);
      SameStores(run, i);
      SameStores(run, i - 1);
      UnrestartedSettled(run, i - 1, a);
      ApplyNeverNull(run, i - 1, a);
      StaysSettled(run[i - 1], run[i], event, a);
    }
  }
}
