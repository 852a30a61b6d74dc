/**
 Databases without the condition on snapshots: a lone server applies an entry, compacts its log and restarts from a
 snapshot taken before, and the entry is gone from its database for good.
 */
module StaleSnapshot {
  import opened RaftLog
  import opened Server
  import opened Protocol
  import opened CompactedStores
  import C = CompactedRuns
  import CommandParser
  import Pipeline
  import Replica

  ghost predicate StaleNext(x: System, x': System) {
    exists event :: CanHappen(x, x', event) && (event.Runs? ==> C.Careful(x.k, event.move))
  }

  ghost predicate StaleAt(run: seq<System>, i: nat)
    requires i < |run| - 1
  {
    StaleNext(run[i], run[i + 1])
  }

  ghost predicate StaleRun(run: seq<System>) {
    run != [] && FreshSystem(run[0]) && forall i: nat | i < |run| - 1 :: StaleAt(run, i)
  }

  lemma WithEvent(run: seq<System>, x: System, event: Happening) returns (run': seq<System>)
    requires StaleRun(run) && CanHappen(run[|run| - 1], x, event)
    requires event.Runs? ==> C.Careful(run[|run| - 1].k, event.move)
    ensures StaleRun(run') && run' == run + [x]
  {
    run' := run + [x];
    forall i: nat | i < |run'| - 1 ensures StaleAt(run', i) {
      if i < |run| - 1 { assert StaleAt(run, i); }
    }
  }

  // ----- The run

  const Root := Entry(1, 1, [], true)
  const Given := CommandParser.Command(CommandParser.CommandType.Set, [97], [98])

  function Written(): Entry {
    Entry(2, 2, Replica.LogText(Given), false)
  }

  function LoneDatabase(): Replica.Database {
    map[Given.key := Given.value]
  }

  lemma WrittenKept()
    ensures Pipeline.TextStep(map[], Written()) == LoneDatabase()
  {
    Replica.PlainAgrees(map[], Given);
  }

  function Lonely(role: Role, term: nat, log: LogView, commit: nat): Node {
    Node(1, {1}, term, if role == Leader then 1 else NoVote, role, if role == Leader then 1 else 0, log, commit,
         if role == Leader then map[1 := 2] else map[], if role == Leader then map[1 := 0] else map[])
  }

  function Lone(n: Node, st: Store): System {
    System(C.Machines({1}, map[1 := n], C.Wires({}, {}, {}, {}, {})), map[1 := st])
  }

  function Began(): Node {
    Lonely(Follower, 1, Full([Root]), 1)
  }

  function LoneLeader(): Node {
    Lonely(Leader, 2, Full([Root]), 1)
  }

  function LoneWriter(): Node {
    LoneLeader().(log := Full([Root, Written()]))
  }

  function LoneCommitter(): Node {
    LoneWriter().(commitIndex := 2)
  }

  function LoneCompacted(): Node {
    LoneCommitter().(log := LogView(2, 2, []))
  }

  function Rejoined(): Node {
    Rebooted(LoneCompacted(), 2)
  }

  const FirstApplied := Empty.(applied := 1, known := [Root], settled := 1)

  function SecondApplied(): Store {
    Empty.(db := LoneDatabase(), applied := 2, known := [Root, Written()], settled := 2)
  }

  /** The store after the restart. */
  function Lost(): Store {
    SecondApplied().(db := map[])
  }

  lemma OneServer(n: Node, n': Node, st: Store, st': Store)
    ensures C.Update(Lone(n, st).k, n'.(id := 1)) == Lone(n'.(id := 1), st).k
    ensures Lone(n, st).(stores := Lone(n, st).stores[1 := st']) == Lone(n, st')
  {
  }

  lemma LoneBegins()
    ensures StaleRun([Lone(Began(), Empty)])
  {
    var x := Lone(Began(), Empty);
    assert C.StartsWith(x.k, Root);
  }

  lemma LoneLeads()
    ensures CanHappen(Lone(Began(), Empty), Lone(LoneLeader(), Empty), Runs(C.Elects(1)))
  {
    var n := Began();
    assert |n.cluster| == 1;
    assert (map p | p in n.cluster :: 0) == map[1 := 0] && (map p | p in n.cluster :: 2) == map[1 := 2];
    assert StartElection(n) == LoneLeader();
    var requests := set p | p in {1} && p != 1 :: VoteMsg(p, BuildVoteReq(LoneLeader()));
    assert requests == {};
  }

  lemma LoneWrites()
    ensures CanHappen(Lone(LoneLeader(), Empty), Lone(LoneWriter(), Empty), Runs(C.Proposes(1, Replica.LogText(Given))))
  {
    assert ClientAppend(LoneLeader(), Replica.LogText(Given)) == LoneWriter();
  }

  lemma LoneCommits()
    ensures CanHappen(Lone(LoneWriter(), Empty), Lone(LoneCommitter(), Empty), Runs(C.CommitsAlone(1)))
  {
    assert Alone(LoneWriter()) && LoneWriter().log.LastIndex() == 2;
    OneServer(LoneWriter(), LoneCommitter(), Empty, Empty);
  }

  lemma ApplyingFirst()
    ensures CanHappen(Lone(LoneCommitter(), Empty), Lone(LoneCommitter(), FirstApplied), Applies(1, map[]))
  {
    assert DueEntry(LoneCommitter(), Empty) == Root && [] + [Root] == FirstApplied.known;
    assert AfterApply(Empty, Root, map[]) == FirstApplied;
    OneServer(LoneCommitter(), LoneCommitter(), Empty, FirstApplied);
  }

  lemma ApplyingSecond()
    ensures CanHappen(Lone(LoneCommitter(), FirstApplied), Lone(LoneCommitter(), SecondApplied()), Applies(1, map[]))
  {
    WrittenKept();
    assert DueEntry(LoneCommitter(), FirstApplied) == Written() && [Root] + [Written()] == SecondApplied().known;
    assert AfterApply(FirstApplied, Written(), map[]) == SecondApplied();
    OneServer(LoneCommitter(), LoneCommitter(), FirstApplied, SecondApplied());
  }

  lemma LoneCompacts()
    ensures CanHappen(Lone(LoneCommitter(), SecondApplied()), Lone(LoneCompacted(), SecondApplied()),
                      Runs(C.Compacts(1, 2)))
  {
    assert LoneCommitter().log.Drop(2) == LoneCompacted().log;
    OneServer(LoneCommitter(), LoneCompacted(), SecondApplied(), SecondApplied());
  }

  lemma Restarting()
    ensures CanHappen(Lone(LoneCompacted(), SecondApplied()), Lone(Rejoined(), Lost()), Runs(C.Restarts(1)))
  {
    assert Reboots(Lone(LoneCompacted(), SecondApplied()).k, C.Restarts(1), 1);
  }

  lemma Logged() returns (run: seq<System>)
    ensures StaleRun(run) && run[|run| - 1] == Lone(LoneWriter(), Empty)
  {
    LoneBegins();
    LoneLeads();
    run := WithEvent([Lone(Began(), Empty)], Lone(LoneLeader(), Empty), Runs(C.Elects(1)));
    LoneWrites();
    run := WithEvent(run, Lone(LoneWriter(), Empty), Runs(C.Proposes(1, Replica.LogText(Given))));
  }

  lemma Applied() returns (run: seq<System>)
    ensures StaleRun(run) && run[|run| - 1] == Lone(LoneCommitter(), SecondApplied())
  {
    run := Logged();
    LoneCommits();
    run := WithEvent(run, Lone(LoneCommitter(), Empty), Runs(C.CommitsAlone(1)));
    ApplyingFirst();
    run := WithEvent(run, Lone(LoneCommitter(), FirstApplied), Applies(1, map[]));
    ApplyingSecond();
    run := WithEvent(run, Lone(LoneCommitter(), SecondApplied()), Applies(1, map[]));
  }

  lemma ThenRestarted(before: seq<System>) returns (run: seq<System>)
    requires StaleRun(before) && before[|before| - 1] == Lone(LoneCommitter(), SecondApplied())
    ensures StaleRun(run) && before <= run && run[|run| - 1] == Lone(Rejoined(), Lost())
  {
    LoneCompacts();
    run := WithEvent(before, Lone(LoneCompacted(), SecondApplied()), Runs(C.Compacts(1, 2)));
    Restarting();
    run := WithEvent(run, Lone(Rejoined(), Lost()), Runs(C.Restarts(1)));
  }

  /**
   Where a snapshot may be older than the base databases do not agree: at two moments one server has applied up to the
   same index, settled both times, and its databases differ.
   */
  lemma StaleSnapshotLoses() returns (run: seq<System>, i: nat, j: nat, a: Id)
    ensures StaleRun(run) && i < |run| && j < |run| && a in run[i].stores && a in run[j].stores
    ensures run[i].stores[a].settled == run[i].stores[a].applied
    ensures run[j].stores[a].settled == run[j].stores[a].applied == run[i].stores[a].applied
    ensures run[i].stores[a].db != run[j].stores[a].db
  {
    var before := Applied();
    run := ThenRestarted(before);
    i, j, a := |before| - 1, |run| - 1, 1;
    assert run[i] == before[i] && Given.key in LoneDatabase();
  }
}
