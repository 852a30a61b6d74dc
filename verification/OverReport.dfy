/**
 State Machine Safety without the assumption on replies: a run in which a follower reports an entry its new leader
 never had, the leader counts it towards its own, and two servers commit different entries at index 2.
 */
module OverReport {
  import opened RaftLog
  import opened Server
  import opened Protocol

  const Trio: set<Id> := {1, 2, 3}

  // ----- Extending a run

  /** The run ends in a cluster of three with these servers; no vote of a term after `term` was counted. */
  ghost predicate Ends(run: seq<Cluster>, nodes: map<Id, Node>, term: nat) {
    && Run(run)
    && var c := run[|run| - 1];
       c.members == Trio && c.nodes == nodes && forall task | task in c.net.handled :: task.term <= term
  }

  lemma Extend(run: seq<Cluster>, c: Cluster, step: Step)
    requires Run(run) && NextStep(run[|run| - 1], c, step)
    ensures Run(run + [c])
  {
    forall i: nat | i < |run + [c]| - 1 ensures NextAt(run + [c], i) {
      if i < |run| - 1 {
        assert NextAt(run, i);
      } else {
        assert Next(run[|run| - 1], c);
      }
    }
  }

  function Granted(v: Node, term: nat, candidate: Id): Node {
    v.(term := term, votedFor := candidate, role := Follower)
  }

  function Candidacy(s: Node): Node {
    s.(role := Candidate, term := s.term + 1, votedFor := s.id, votes := 1)
  }

  function Won(s: Node): Node {
    StepUp(Candidacy(s).(votes := 2))
  }

  /** The voter has not reached the candidate's next term and its log is no newer. */
  predicate CanElect(nodes: map<Id, Node>, s: Node, v: Node) {
    && s.id in nodes && nodes[s.id] == s && v.id in nodes && nodes[v.id] == v
    && s.id in Trio && v.id in Trio && s.id != v.id
    && s.cluster == Trio && v.term <= s.term && AcceptsLog(v.log, s.log.LastIndex(), s.log.LastTerm())
  }

  lemma TrioSize()
    ensures |Trio| == 3 && NoVote !in Trio
  {
  }

  lemma Campaign(run: seq<Cluster>, nodes: map<Id, Node>, s: Node, v: Node) returns (run': seq<Cluster>)
    requires Ends(run, nodes, s.term) && CanElect(nodes, s, v)
    ensures Ends(run', nodes[s.id := Candidacy(s)], s.term)
    ensures VoteMsg(v.id, BuildVoteReq(Candidacy(s))) in run'[|run'| - 1].net.voteReqs
  {
    TrioSize();
    var c := run[|run| - 1];
    assert StartElection(s) == Candidacy(s);
    var c' := DoElect(c, s.id);
    Extend(run, c', Elect(s.id));
    run' := run + [c'];
  }

  lemma Vote(run: seq<Cluster>, nodes: map<Id, Node>, term: nat, v: Node, req: VoteReq) returns (run': seq<Cluster>)
    requires Ends(run, nodes, term) && v.id in nodes && nodes[v.id] == v
    requires VoteMsg(v.id, req) in run[|run| - 1].net.voteReqs
    requires v.term < req.term && AcceptsLog(v.log, req.lastIndex, req.lastTerm)
    ensures Ends(run', nodes[v.id := Granted(v, req.term, req.candidate)], term)
    ensures VoteReply(v.id, req, VoteRes(req.term, true)) in run'[|run'| - 1].net.voteReplies
  {
    GrantsVote(v, req);
    var c' := DoDeliverVote(run[|run| - 1], VoteMsg(v.id, req));
    Extend(run, c', DeliverVote(VoteMsg(v.id, req)));
    run' := run + [c'];
  }

  lemma Tally(run: seq<Cluster>, nodes: map<Id, Node>, term: nat, s: Node, r: VoteReply) returns (run': seq<Cluster>)
    requires Ends(run, nodes, term) && s.id in nodes && nodes[s.id] == s && r in run[|run| - 1].net.voteReplies
    requires s.cluster == Trio && s.role == Candidate && s.votes == 1 && s.term == term + 1
    requires r.req.candidate == s.id && r.req.term == s.term && r.res == VoteRes(s.term, true)
    ensures Ends(run', nodes[s.id := StepUp(s.(votes := 2))], s.term)
  {
    TrioSize();
    var c' := DoCountVote(run[|run| - 1], r);
    assert OnVoteReply(s, r.res) == StepUp(s.(votes := 2));
    Extend(run, c', CountVote(r));
    run' := run + [c'];
  }

  /** `s` starts an election, `v` grants its vote, and with two votes of three `s` leads. */
  lemma Election(run: seq<Cluster>, nodes: map<Id, Node>, s: Node, v: Node) returns (run': seq<Cluster>)
    requires Ends(run, nodes, s.term) && CanElect(nodes, s, v)
    ensures Ends(run', nodes[s.id := Won(s)][v.id := Granted(v, s.term + 1, s.id)], s.term + 1)
  {
    var req, v' := BuildVoteReq(Candidacy(s)), Granted(v, s.term + 1, s.id);
    var run1 := Campaign(run, nodes, s, v);
    var run2 := Vote(run1, nodes[s.id := Candidacy(s)], s.term, v, req);
    run' := Tally(run2, nodes[s.id := Candidacy(s)][v.id := v'], s.term, Candidacy(s),
                  VoteReply(v.id, req, VoteRes(s.term + 1, true)));
    LastUpdateCounts(nodes, s.id, Candidacy(s), v.id, v', Won(s));
  }

  lemma LastUpdateCounts(nodes: map<Id, Node>, a: Id, x: Node, b: Id, y: Node, z: Node)
    requires a != b
    ensures nodes[a := x][b := y][a := z] == nodes[a := z][b := y]
  {
  }

  lemma GrantsVote(v: Node, req: VoteReq)
    requires v.term < req.term && AcceptsLog(v.log, req.lastIndex, req.lastTerm)
    ensures OnVoteRequest(v, req) == (Granted(v, req.term, req.candidate), VoteRes(req.term, true))
  {
  }

  lemma Proposal(run: seq<Cluster>, nodes: map<Id, Node>, term: nat, s: Node, data: Bytes) returns (run': seq<Cluster>)
    requires Ends(run, nodes, term) && s.id in nodes && nodes[s.id] == s
    ensures Ends(run', nodes[s.id := ClientAppend(s, data)], term)
    ensures run'[|run'| - 1].net == run[|run| - 1].net
  {
    var c := DoPropose(run[|run| - 1], s.id, data);
    Extend(run, c, Propose(s.id, data));
    run' := run + [c];
  }

  /** The reply to what `s` sends `f` now. */
  function ReplyOf(s: Node, f: Node): AppendReply
    requires f.id in s.nextIndex
  {
    var req := BuildAppendReq(s, s.nextIndex[f.id]);
    var (f', res) := OnAppendRequest(f, req);
    AppendReply(f.id, req, res, f'.log.entries)
  }

  function Received(s: Node, f: Node): Node
    requires f.id in s.nextIndex
  {
    OnAppendRequest(f, BuildAppendReq(s, s.nextIndex[f.id])).0
  }

  /** `s` sends to `f`, which answers. */
  lemma Exchange(run: seq<Cluster>, nodes: map<Id, Node>, term: nat, s: Node, f: Node) returns (run': seq<Cluster>)
    requires Ends(run, nodes, term) && s.id in nodes && nodes[s.id] == s && f.id in nodes && nodes[f.id] == f
    requires s.role == Leader && s.id != f.id && f.id in s.nextIndex
    ensures Ends(run', nodes[f.id := Received(s, f)], term)
    ensures ReplyOf(s, f) in run'[|run'| - 1].net.appendReplies
  {
    var c1 := DoSendAppend(run[|run| - 1], s.id, f.id);
    Extend(run, c1, SendAppend(s.id, f.id));
    var m := AppendMsg(f.id, BuildAppendReq(s, s.nextIndex[f.id]));
    var c2 := DoDeliverAppend(c1, m);
    Extend(run + [c1], c2, DeliverAppend(m));
    run' := run + [c1] + [c2];
    assert Received(s, f).id == f.id;
  }

  lemma Handled(run: seq<Cluster>, nodes: map<Id, Node>, term: nat, r: AppendReply, commit: nat, s': Node)
    returns (run': seq<Cluster>)
    requires Ends(run, nodes, term) && r in run[|run| - 1].net.appendReplies && r.req.leader in nodes
    requires ReplyOutcome(nodes[r.req.leader], r, commit, s') && s'.id == r.req.leader
    ensures Ends(run', nodes[s'.id := s'], term)
  {
    var c := Put(run[|run| - 1], s');
    Extend(run, c, HandleReply(r, commit));
    run' := run + [c];
  }

  /** A leader of three whose whole log, ending in its own term, a single peer reports to hold may commit all of it. */
  lemma CommitsAll(s: Node, p: Id)
    requires s.cluster == Trio && s.id in Trio && p in Trio && p != s.id && s.log.entries != []
    requires MatchOf(s, p) == s.log.LastIndex() && s.commitIndex < s.log.LastIndex() && s.log.LastTerm() == s.term
    requires forall n | n in Trio && n != p :: MatchOf(s, n) == 0
    ensures !CommitFaults(s) && CommitRule(s, s.log.LastIndex())
  {
    var last := s.log.LastIndex();
    TrioSize();
    assert Holders(s, last) == {s.id, p} + (Holders(s, last) - {s.id, p});
    assert Committable(s, last);
    forall n ensures !Stray(s, n) { }
    assert Trio != {s.id};
  }

  // ----- The run

  const Boot := Entry(1, 1, [], true)
  const X := Entry(2, 2, [], false)
  const Y := Entry(3, 2, [], false)
  const Z := Entry(4, 3, [], false)

  function Same(k: nat): map<Id, nat> {
    map n | n in Trio :: k
  }

  function Fresh(id: Id): Node {
    Node(id, Trio, 1, NoVote, Follower, 0, Full([Boot]), 1, map[], map[])
  }

  /** A leader right after its election. */
  function Leading(id: Id, term: nat, log: seq<Entry>): Node {
    Node(id, Trio, term, id, Leader, 2, Full(log), 1, Same(|log| + 1), Same(0))
  }

  function Voter(id: Id, term: nat, candidate: Id): Node {
    Fresh(id).(term := term, votedFor := candidate)
  }

  lemma WonIs(s: Node)
    requires s.cluster == Trio && s.log == Full(s.log.entries)
    ensures Won(s) == Leading(s.id, s.term + 1, s.log.entries).(commitIndex := s.commitIndex)
  {
    assert (map n | n in s.cluster :: s.log.LastIndex() + 1) == Same(|s.log.entries| + 1);
  }

  ghost function Begin(): Cluster {
    Cluster(Trio, map[1 := Fresh(1), 2 := Fresh(2), 3 := Fresh(3)], Network({}, {}, {}, {}, {}),
            History(map[1 := Reign(NoVote, {}, [Boot])], map[], map[], map i | i in Trio :: (i, 1) := 1))
  }

  function Three(a: Node, b: Node, d: Node): map<Id, Node> {
    map[1 := a, 2 := b, 3 := d]
  }

  lemma OneReplaced(a: Node, b: Node, d: Node, x: Node)
    ensures Three(a, b, d)[1 := x] == Three(x, b, d)
    ensures Three(a, b, d)[2 := x] == Three(a, x, d)
    ensures Three(a, b, d)[3 := x] == Three(a, b, x)
  {
  }

  lemma Beginning() returns (run: seq<Cluster>)
    ensures Ends(run, Three(Fresh(1), Fresh(2), Fresh(3)), 1)
  {
    var c := Begin();
    run := [c];
    TrioSize();
    assert Bootstrapped(c, Boot) by {
      forall i | i in Trio ensures InitialNode(Trio, i, Boot, c.nodes[i]) {}
    }
  }

  /** Server 1 leads term 2. */
  lemma FirstTerm() returns (run: seq<Cluster>)
    ensures Ends(run, Three(Leading(1, 2, [Boot]), Voter(2, 2, 1), Fresh(3)), 2)
  {
    var a, b, d := Fresh(1), Fresh(2), Fresh(3);
    run := Beginning();
    run := Election(run, Three(a, b, d), a, b);
    WonIs(a);
    OneReplaced(a, b, d, Leading(1, 2, [Boot]));
    OneReplaced(Leading(1, 2, [Boot]), b, d, Voter(2, 2, 1));
  }

  /** Its entry X stays on it alone. */
  function Unshared(): Node {
    Leading(1, 2, [Boot]).(log := Full([Boot, X]))
  }

  lemma FirstEntry() returns (run: seq<Cluster>)
    ensures Ends(run, Three(Unshared(), Voter(2, 2, 1), Fresh(3)), 2)
  {
    var a := Leading(1, 2, [Boot]);
    run := FirstTerm();
    run := Proposal(run, Three(a, Voter(2, 2, 1), Fresh(3)), 2, a, []);
    assert ClientAppend(a, []) == Unshared();
    OneReplaced(a, Voter(2, 2, 1), Fresh(3), Unshared());
  }

  /** Server 2 leads term 3 with the vote of server 3. */
  lemma SecondTerm() returns (run: seq<Cluster>)
    ensures Ends(run, Three(Unshared(), Leading(2, 3, [Boot]), Voter(3, 3, 2)), 3)
  {
    var b, d := Voter(2, 2, 1), Fresh(3);
    run := FirstEntry();
    run := Election(run, Three(Unshared(), b, d), b, d);
    WonIs(b);
    OneReplaced(Unshared(), b, d, Leading(2, 3, [Boot]));
    OneReplaced(Unshared(), Leading(2, 3, [Boot]), d, Voter(3, 3, 2));
  }

  /** Server 1 after the heartbeat of server 2, which it answers by reporting X. */
  function Deposed(): Node {
    Unshared().(term := 3, votedFor := NoVote, role := Follower)
  }

  function OverReported(): AppendReply {
    AppendReply(1, AppendReq(3, 2, 1, 1, [], 1), AppendRes(3, true, 2), [Boot, X])
  }

  lemma HeartbeatReply()
    ensures var b := Leading(2, 3, [Boot]);
            Received(b, Unshared()) == Deposed() && ReplyOf(b, Unshared()) == OverReported()
  {
    var b, a := Leading(2, 3, [Boot]), Unshared();
    var req := BuildAppendReq(b, b.nextIndex[1]);
    assert b.nextIndex[1] == 2 && b.log.Lookup(1) == Some(Boot);
    assert req == AppendReq(3, 2, 1, 1, [], 1);
    assert a.log.HasEntry(1, 1) && a.log.FirstNew([], 0) == 0;
  }

  lemma Heartbeat() returns (run: seq<Cluster>)
    ensures Ends(run, Three(Deposed(), Leading(2, 3, [Boot]), Voter(3, 3, 2)), 3)
    ensures OverReported() in run[|run| - 1].net.appendReplies
  {
    var a, b, d := Unshared(), Leading(2, 3, [Boot]), Voter(3, 3, 2);
    HeartbeatReply();
    run := SecondTerm();
    run := Exchange(run, Three(a, b, d), 3, b, a);
    OneReplaced(a, b, d, Deposed());
  }

  /**
   Handled before that, the report is of an index the leader does not have: a run in which the look-up of the first
   loop of `adjust_commit_index` finds nothing.
   */
  lemma OverReportFaults() returns (run: seq<Cluster>, r: AppendReply)
    ensures Run(run) && r in run[|run| - 1].net.appendReplies && r.req.leader in run[|run| - 1].nodes
    ensures var s := run[|run| - 1].nodes[r.req.leader];
            && s.role == Leader && r.res.success && r.res.term == s.term
            && CommitFaults(RecordMatch(s, r.from, r.res.matchIndex))
  {
    run := Heartbeat();
    r := OverReported();
    assert Stray(RecordMatch(Leading(2, 3, [Boot]), 1, 2), 1);
  }

  /** Server 2 appends Y at the index of X. */
  function Misled(): Node {
    Leading(2, 3, [Boot]).(log := Full([Boot, Y]))
  }

  lemma SecondEntry() returns (run: seq<Cluster>)
    ensures Ends(run, Three(Deposed(), Misled(), Voter(3, 3, 2)), 3)
    ensures OverReported() in run[|run| - 1].net.appendReplies
  {
    var b := Leading(2, 3, [Boot]);
    run := Heartbeat();
    run := Proposal(run, Three(Deposed(), b, Voter(3, 3, 2)), 3, b, []);
    assert ClientAppend(b, []) == Misled();
    OneReplaced(Deposed(), b, Voter(3, 3, 2), Misled());
  }

  /** The report of X counts for Y: server 2 commits index 2. */
  function Overcommitted(): Node {
    RecordMatch(Misled(), 1, 2).(commitIndex := 2)
  }

  lemma FirstCommit() returns (run: seq<Cluster>)
    ensures Ends(run, Three(Deposed(), Overcommitted(), Voter(3, 3, 2)), 3)
  {
    CommitsAll(RecordMatch(Misled(), 1, 2), 1);
    run := SecondEntry();
    run := Handled(run, Three(Deposed(), Misled(), Voter(3, 3, 2)), 3, OverReported(), 2, Overcommitted());
    OneReplaced(Deposed(), Misled(), Voter(3, 3, 2), Overcommitted());
  }

  /** Server 1 leads term 4 with the vote of server 3, whose log ends at index 1. */
  lemma ThirdTerm() returns (run: seq<Cluster>)
    ensures Ends(run, Three(Leading(1, 4, [Boot, X]), Overcommitted(), Voter(3, 4, 1)), 4)
  {
    var a, b, d := Deposed(), Overcommitted(), Voter(3, 3, 2);
    run := FirstCommit();
    run := Election(run, Three(a, b, d), a, d);
    WonIs(a);
    OneReplaced(a, b, d, Leading(1, 4, [Boot, X]));
    OneReplaced(Leading(1, 4, [Boot, X]), b, d, Voter(3, 4, 1));
  }

  function Returned(): Node {
    Leading(1, 4, [Boot, X]).(log := Full([Boot, X, Z]))
  }

  lemma ThirdEntry() returns (run: seq<Cluster>)
    ensures Ends(run, Three(Returned(), Overcommitted(), Voter(3, 4, 1)), 4)
  {
    var a, b, d := Leading(1, 4, [Boot, X]), Overcommitted(), Voter(3, 4, 1);
    run := ThirdTerm();
    run := Proposal(run, Three(a, b, d), 4, a, []);
    assert ClientAppend(a, []) == Returned();
    OneReplaced(a, b, d, Returned());
  }

  /** Server 3 lacks index 2 and refuses; server 1 goes back to it. */
  function Retrying(): Node {
    Returned().(nextIndex := Same(3)[3 := 2])
  }

  function RefusedAnswer(): AppendReply {
    AppendReply(3, AppendReq(4, 1, 2, 2, [Z], 1), AppendRes(4, false, 1), [Boot])
  }

  lemma RefusedReply()
    ensures var d := Voter(3, 4, 1); Received(Returned(), d) == d && ReplyOf(Returned(), d) == RefusedAnswer()
    ensures OnAppendRefusal(Returned(), 3, AppendRes(4, false, 1)) == Retrying()
  {
    var a, d := Returned(), Voter(3, 4, 1);
    assert a.nextIndex[3] == 3 && a.log.Lookup(2) == Some(X);
    assert SentEntries(a.log, 3) == [Z];
    assert BuildAppendReq(a, 3) == AppendReq(4, 1, 2, 2, [Z], 1);
    assert !d.log.HasEntry(2, 2);
  }

  lemma Refusal() returns (run: seq<Cluster>)
    ensures Ends(run, Three(Retrying(), Overcommitted(), Voter(3, 4, 1)), 4)
  {
    var a, b, d := Returned(), Overcommitted(), Voter(3, 4, 1);
    RefusedReply();
    run := ThirdEntry();
    run := Exchange(run, Three(a, b, d), 4, a, d);
    OneReplaced(a, b, d, d);
    run := Handled(run, Three(a, b, d), 4, RefusedAnswer(), 0, Retrying());
    OneReplaced(a, b, d, Retrying());
  }

  /** Server 3 takes X and Z. */
  function Caught(): Node {
    Voter(3, 4, 1).(log := Full([Boot, X, Z]))
  }

  function AcceptedAnswer(): AppendReply {
    AppendReply(3, AppendReq(4, 1, 1, 1, [X, Z], 1), AppendRes(4, true, 3), [Boot, X, Z])
  }

  lemma AcceptedReply()
    ensures var d := Voter(3, 4, 1); Received(Retrying(), d) == Caught() && ReplyOf(Retrying(), d) == AcceptedAnswer()
  {
    var a, d := Retrying(), Voter(3, 4, 1);
    assert a.nextIndex[3] == 2 && a.log.Lookup(1) == Some(Boot);
    assert SentEntries(a.log, 2) == [X, Z];
    assert BuildAppendReq(a, 2) == AppendReq(4, 1, 1, 1, [X, Z], 1);
    assert d.log.HasEntry(1, 1) && d.log.FirstNew([X, Z], 0) == 0;
    assert d.log.Merge([X, Z]) == Full([Boot, X, Z]);
  }

  function Committing(): Node {
    RecordMatch(Retrying(), 3, 3).(commitIndex := 3)
  }

  lemma SecondCommit() returns (run: seq<Cluster>)
    ensures Ends(run, Three(Committing(), Overcommitted(), Caught()), 4)
  {
    var a, b, d := Retrying(), Overcommitted(), Voter(3, 4, 1);
    AcceptedReply();
    CommitsAll(RecordMatch(a, 3, 3), 3);
    run := Refusal();
    run := Exchange(run, Three(a, b, d), 4, a, d);
    OneReplaced(a, b, d, Caught());
    run := Handled(run, Three(a, b, Caught()), 4, AcceptedAnswer(), 3, Committing());
    OneReplaced(a, b, Caught(), Committing());
  }

  /** Over unrestricted runs State Machine Safety fails: servers 1 and 2 have committed X and Y at index 2. */
  lemma OverReportBreaksSafety() returns (run: seq<Cluster>, a: Id, b: Id, index: nat)
    ensures Run(run)
    ensures var c := run[|run| - 1];
            && a in c.nodes && b in c.nodes && 1 <= index
            && index <= c.nodes[a].commitIndex <= |c.nodes[a].log.entries|
            && index <= c.nodes[b].commitIndex <= |c.nodes[b].log.entries|
            && c.nodes[a].log.entries[index - 1] != c.nodes[b].log.entries[index - 1]
  {
    run := SecondCommit();
    a, b, index := 1, 2, 2;
  }
}
