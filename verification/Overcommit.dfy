/**
 State Machine Safety without covered requests: a run of careful moves in all else, in which a leader with a compacted
 log announces a commit index its heartbeat does not account for, and the follower commits an entry of its own.
 */
module Overcommit {
  import opened RaftLog
  import opened Server
  import opened Protocol
  import opened OverReport
  import ExactReplies
  import C = CompactedRuns

  // ----- Runs in which requests need not be covered

  ghost predicate LooseMove(k: C.Machines, k': C.Machines, move: C.Move) {
    C.CanMove(k, k', move) && (move.Sends? || C.Careful(k, move))
  }

  ghost predicate LooseNext(k: C.Machines, k': C.Machines) {
    exists move :: LooseMove(k, k', move)
  }

  ghost predicate LooseAt(run: seq<C.Machines>, i: nat)
    requires i < |run| - 1
  {
    LooseNext(run[i], run[i + 1])
  }

  ghost predicate LooseRun(run: seq<C.Machines>) {
    run != [] && C.Starts(run[0]) && forall i: nat | i < |run| - 1 :: LooseAt(run, i)
  }

  /** The run ends in a cluster of three with these servers and replies; no vote of a term after `term` was counted. */
  ghost predicate Reaches(run: seq<C.Machines>, nodes: map<Id, Node>, term: nat, replies: set<C.Response>) {
    && LooseRun(run)
    && var k := run[|run| - 1];
       && k.members == Trio && k.nodes == nodes && replies <= k.net.appendReplies
       && forall task | task in k.net.handled :: task.term <= term
  }

  lemma Onto(run: seq<C.Machines>, k: C.Machines, move: C.Move)
    requires LooseRun(run) && LooseMove(run[|run| - 1], k, move)
    ensures LooseRun(run + [k])
  {
    forall i: nat | i < |run + [k]| - 1 ensures LooseAt(run + [k], i) {
      if i < |run| - 1 {
        assert LooseAt(run, i);
      } else {
        assert LooseMove(run[|run| - 1], k, move);
      }
    }
  }

  lemma Candidates(run: seq<C.Machines>, nodes: map<Id, Node>, term: nat, replies: set<C.Response>, s: Node)
    returns (run': seq<C.Machines>)
    requires Reaches(run, nodes, term, replies) && s.id in nodes && nodes[s.id] == s
    requires s.cluster == Trio && s.id in Trio
    ensures Reaches(run', nodes[s.id := Candidacy(s)], term, replies)
    ensures forall v | v in Trio && v != s.id ::
              VoteMsg(v, BuildVoteReq(Candidacy(s))) in run'[|run'| - 1].net.voteReqs
  {
    TrioSize();
    var k := run[|run| - 1];
    assert StartElection(s) == Candidacy(s);
    var requests := set n | n in k.members && n != s.id :: VoteMsg(n, BuildVoteReq(Candidacy(s)));
    var k' := C.Update(k, Candidacy(s)).(net := k.net.(voteReqs := k.net.voteReqs + requests));
    Onto(run, k', C.Elects(s.id));
    run' := run + [k'];
  }

  lemma Voting(run: seq<C.Machines>, nodes: map<Id, Node>, term: nat, replies: set<C.Response>, v: Node, req: VoteReq)
    returns (run': seq<C.Machines>)
    requires Reaches(run, nodes, term, replies) && v.id in nodes && nodes[v.id] == v
    requires VoteMsg(v.id, req) in run[|run| - 1].net.voteReqs
    requires v.term < req.term && AcceptsLog(v.log, req.lastIndex, req.lastTerm)
    ensures Reaches(run', nodes[v.id := Granted(v, req.term, req.candidate)], term, replies)
    ensures VoteReply(v.id, req, VoteRes(req.term, true)) in run'[|run'| - 1].net.voteReplies
  {
    GrantsVote(v, req);
    var k := run[|run| - 1];
    var reply := VoteReply(v.id, req, VoteRes(req.term, true));
    var k' := C.Update(k, Granted(v, req.term, req.candidate)).(
                net := k.net.(voteReplies := k.net.voteReplies + {reply}));
    Onto(run, k', C.Votes(VoteMsg(v.id, req)));
    run' := run + [k'];
  }

  lemma Counting(run: seq<C.Machines>, nodes: map<Id, Node>, term: nat, replies: set<C.Response>, s: Node, r: VoteReply)
    returns (run': seq<C.Machines>)
    requires Reaches(run, nodes, term, replies) && s.id in nodes && nodes[s.id] == s
    requires r in run[|run| - 1].net.voteReplies && s.cluster == Trio && s.role == Candidate && s.votes == 1
    requires term < s.term && r.req.candidate == s.id && r.req.term == s.term && r.res == VoteRes(s.term, true)
    ensures Reaches(run', nodes[s.id := StepUp(s.(votes := 2))], s.term, replies)
  {
    TrioSize();
    var k := run[|run| - 1];
    assert OnVoteReply(s, r.res) == StepUp(s.(votes := 2));
    var k' := C.Update(k, StepUp(s.(votes := 2))).(net := k.net.(handled := k.net.handled + {TaskOf(r)}));
    Onto(run, k', C.Move.Counts(r));
    run' := run + [k'];
  }

  /** `s` wins the next term with the vote of `v`. */
  lemma Electing(run: seq<C.Machines>, nodes: map<Id, Node>, term: nat, replies: set<C.Response>, s: Node, v: Node)
    returns (run': seq<C.Machines>)
    requires Reaches(run, nodes, term, replies) && CanElect(nodes, s, v) && term <= s.term
    ensures Reaches(run', nodes[s.id := Won(s)][v.id := Granted(v, s.term + 1, s.id)], s.term + 1, replies)
  {
    var req, v' := BuildVoteReq(Candidacy(s)), Granted(v, s.term + 1, s.id);
    var run1 := Candidates(run, nodes, term, replies, s);
    var run2 := Voting(run1, nodes[s.id := Candidacy(s)], term, replies, v, req);
    run' := Counting(run2, nodes[s.id := Candidacy(s)][v.id := v'], term, replies, Candidacy(s),
                     VoteReply(v.id, req, VoteRes(s.term + 1, true)));
    LastUpdateCounts(nodes, s.id, Candidacy(s), v.id, v', Won(s));
  }

  /** A move of one server that sends nothing. */
  lemma Moving(run: seq<C.Machines>, nodes: map<Id, Node>, term: nat, replies: set<C.Response>, s': Node, move: C.Move)
    returns (run': seq<C.Machines>)
    requires Reaches(run, nodes, term, replies) && s'.id in nodes
    requires LooseMove(run[|run| - 1], C.Update(run[|run| - 1], s'), move)
    ensures Reaches(run', nodes[s'.id := s'], term, replies)
  {
    var k' := C.Update(run[|run| - 1], s');
    Onto(run, k', move);
    run' := run + [k'];
  }

  lemma Proposing(run: seq<C.Machines>, nodes: map<Id, Node>, term: nat, replies: set<C.Response>, s: Node)
    returns (run': seq<C.Machines>)
    requires Reaches(run, nodes, term, replies) && s.id in nodes && nodes[s.id] == s
    ensures Reaches(run', nodes[s.id := ClientAppend(s, [])], term, replies)
  {
    run' := Moving(run, nodes, term, replies, ClientAppend(s, []), C.Proposes(s.id, []));
  }

  lemma Compacting(run: seq<C.Machines>, nodes: map<Id, Node>, term: nat, replies: set<C.Response>, s: Node, index: nat)
    returns (run': seq<C.Machines>)
    requires Reaches(run, nodes, term, replies) && s.id in nodes && nodes[s.id] == s
    requires s.log.Present(index) && index <= s.commitIndex
    ensures Reaches(run', nodes[s.id := s.(log := s.log.Drop(index))], term, replies)
  {
    run' := Moving(run, nodes, term, replies, s.(log := s.log.Drop(index)), C.Compacts(s.id, index));
  }

  lemma Handling(run: seq<C.Machines>, nodes: map<Id, Node>, term: nat, replies: set<C.Response>, r: C.Response,
                 commit: nat, s': Node)
    returns (run': seq<C.Machines>)
    requires Reaches(run, nodes, term, replies) && r in replies && r.req.leader in nodes && s'.id == r.req.leader
    requires ExactReplies.ExactReply(nodes[r.req.leader], r.req, r.res)
    requires C.ReplyHandled(nodes[r.req.leader], r, commit, s')
    ensures Reaches(run', nodes[s'.id := s'], term, replies)
  {
    run' := Moving(run, nodes, term, replies, s', C.Handles(r, commit));
  }

  /** What `s` would send to `f`, and what `f` makes of it. */
  predicate Exchanged(s: Node, f: Node, req: AppendReq, f': Node, res: AppendRes) {
    && f.id in s.nextIndex && BuildAppendReq(s, s.nextIndex[f.id]) == req
    && OnAppendRequest(f, req) == (f', res) && f'.id == f.id
  }

  lemma Exchanging(run: seq<C.Machines>, nodes: map<Id, Node>, term: nat, replies: set<C.Response>, s: Node, f: Node,
                   req: AppendReq, f': Node, res: AppendRes)
    returns (run': seq<C.Machines>)
    requires Reaches(run, nodes, term, replies)
    requires s.id in nodes && nodes[s.id] == s && f.id in nodes && nodes[f.id] == f
    requires s.role == Leader && s.id != f.id && Exchanged(s, f, req, f', res)
    ensures Reaches(run', nodes[f.id := f'], term, replies + {C.Response(f.id, req, res)})
  {
    var k, m := run[|run| - 1], AppendMsg(f.id, req);
    var k1 := k.(net := k.net.(appendReqs := k.net.appendReqs + {m}));
    Onto(run, k1, C.Sends(s.id, f.id));
    Onto(run + [k1], C.Receipt(k1, m), C.Receives(m));
    run' := run + [k1] + [C.Receipt(k1, m)];
  }

  // ----- The run: a reply from term 3 that arrives in term 5

  lemma Starting() returns (run: seq<C.Machines>)
    ensures Reaches(run, Three(Fresh(1), Fresh(2), Fresh(3)), 1, {})
  {
    var k := C.Machines(Trio, Three(Fresh(1), Fresh(2), Fresh(3)), C.Wires({}, {}, {}, {}, {}));
    run := [k];
    TrioSize();
    assert C.StartsWith(k, Boot) by {
      forall i | i in Trio ensures InitialNode(Trio, i, Boot, k.nodes[i]) {}
    }
  }

  /** Server 3 has timed out twice. */
  function Ahead(): Node {
    Candidacy(Candidacy(Fresh(3)))
  }

  function StaleReply(): C.Response {
    C.Response(3, AppendReq(2, 1, 1, 1, [], 1), AppendRes(3, false, 1))
  }

  /** Server 1 leads term 2. */
  lemma SecondTermBegun() returns (run: seq<C.Machines>)
    ensures Reaches(run, Three(Leading(1, 2, [Boot]), Voter(2, 2, 1), Fresh(3)), 2, {})
  {
    var a, b, d, l := Fresh(1), Fresh(2), Fresh(3), Leading(1, 2, [Boot]);
    run := Starting();
    run := Electing(run, Three(a, b, d), 1, {}, a, b);
    WonIs(a);
    OneReplaced(a, b, d, l);
    OneReplaced(l, b, d, Voter(2, 2, 1));
  }

  lemma TimedOut() returns (run: seq<C.Machines>)
    ensures Reaches(run, Three(Leading(1, 2, [Boot]), Voter(2, 2, 1), Ahead()), 2, {})
  {
    var a, b, d, e := Leading(1, 2, [Boot]), Voter(2, 2, 1), Fresh(3), Candidacy(Fresh(3));
    run := SecondTermBegun();
    run := Candidates(run, Three(a, b, d), 2, {}, d);
    OneReplaced(a, b, d, e);
    run := Candidates(run, Three(a, b, e), 2, {}, e);
    OneReplaced(a, b, e, Ahead());
  }

  /** Server 3, ahead of it, refuses its heartbeat. */
  lemma Stale() returns (run: seq<C.Machines>)
    ensures Reaches(run, Three(Leading(1, 2, [Boot]), Voter(2, 2, 1), Ahead()), 2, {StaleReply()})
  {
    var a, b, d, r := Leading(1, 2, [Boot]), Voter(2, 2, 1), Ahead(), StaleReply();
    assert a.log.Lookup(1) == Some(Boot) && BuildAppendReq(a, 2) == r.req;
    run := TimedOut();
    run := Exchanging(run, Three(a, b, d), 2, {}, a, d, r.req, d, r.res);
    OneReplaced(a, b, d, d);
  }

  const P := Entry(3, 2, [], false)
  const Q := Entry(3, 3, [], false)
  const U := Entry(4, 3, [], false)
  const W := Entry(5, 4, [], false)

  /** In term 3 server 1 has appended P. */
  function Third(): Node {
    Leading(1, 3, [Boot]).(log := Full([Boot, P]))
  }

  lemma ThirdTermEntry() returns (run: seq<C.Machines>)
    ensures Reaches(run, Three(Third(), Voter(2, 3, 1), Ahead()), 3, {StaleReply()})
  {
    var a, b, l := Leading(1, 2, [Boot]), Voter(2, 2, 1), Leading(1, 3, [Boot]);
    run := Stale();
    run := Electing(run, Three(a, b, Ahead()), 2, {StaleReply()}, a, b);
    WonIs(a);
    OneReplaced(a, b, Ahead(), l);
    OneReplaced(l, b, Ahead(), Voter(2, 3, 1));
    run := Proposing(run, Three(l, Voter(2, 3, 1), Ahead()), 3, {StaleReply()}, l);
    assert ClientAppend(l, []) == Third();
    OneReplaced(l, Voter(2, 3, 1), Ahead(), Third());
  }

  /** Both peers take P. */
  function Second(): Node {
    Voter(2, 3, 1).(log := Full([Boot, P]))
  }

  function Joined(): Node {
    Ahead().(role := Follower, log := Full([Boot, P]))
  }

  function PSent(): AppendReq {
    AppendReq(3, 1, 1, 1, [P], 1)
  }

  lemma PTaken()
    ensures Exchanged(Third(), Voter(2, 3, 1), PSent(), Second(), AppendRes(3, true, 2))
    ensures Exchanged(Third(), Ahead(), PSent(), Joined(), AppendRes(3, true, 2))
  {
    var a := Third();
    assert a.log.Lookup(1) == Some(Boot) && SentEntries(a.log, 2) == [P];
    assert BuildAppendReq(a, 2) == PSent();
    var v := Full([Boot]);
    assert v.HasEntry(1, 1) && v.FirstNew([P], 0) == 0 && v.Merge([P]) == Full([Boot, P]);
  }

  lemma Replicated() returns (run: seq<C.Machines>)
    ensures Reaches(run, Three(Third(), Second(), Joined()), 3,
                    {StaleReply(), C.Response(2, PSent(), AppendRes(3, true, 2))})
  {
    var replies := {StaleReply()} + {C.Response(2, PSent(), AppendRes(3, true, 2))};
    var a, b, d := Third(), Voter(2, 3, 1), Ahead();
    PTaken();
    run := ThirdTermEntry();
    run := Exchanging(run, Three(a, b, d), 3, {StaleReply()}, a, b, PSent(), Second(), AppendRes(3, true, 2));
    OneReplaced(a, b, d, Second());
    run := Exchanging(run, Three(a, Second(), d), 3, replies, a, d, PSent(), Joined(), AppendRes(3, true, 2));
    OneReplaced(a, Second(), d, Joined());
  }

  /** Server 1 commits P and appends Q, which stays on it alone. */
  function Settled(): Node {
    RecordMatch(Third(), 2, 2).(commitIndex := 2)
  }

  function Unsent(): Node {
    Settled().(log := Full([Boot, P, Q]))
  }

  lemma PCommitted() returns (run: seq<C.Machines>)
    ensures Reaches(run, Three(Settled(), Second(), Joined()), 3, {StaleReply()})
  {
    var r := C.Response(2, PSent(), AppendRes(3, true, 2));
    CommitsAll(RecordMatch(Third(), 2, 2), 2);
    run := Replicated();
    run := Handling(run, Three(Third(), Second(), Joined()), 3, {StaleReply(), r}, r, 2, Settled());
    OneReplaced(Third(), Second(), Joined(), Settled());
  }

  lemma QAppended() returns (run: seq<C.Machines>)
    ensures Reaches(run, Three(Unsent(), Second(), Joined()), 3, {StaleReply()})
  {
    run := PCommitted();
    run := Proposing(run, Three(Settled(), Second(), Joined()), 3, {StaleReply()}, Settled());
    assert ClientAppend(Settled(), []) == Unsent();
    OneReplaced(Settled(), Second(), Joined(), Unsent());
  }

  /** Server 3 leads term 4 with the vote of server 2 and appends U at the index of Q. */
  function Rival(): Node {
    Leading(3, 4, [Boot, P]).(log := Full([Boot, P, U]))
  }

  lemma FourthTerm() returns (run: seq<C.Machines>)
    ensures Reaches(run, Three(Unsent(), Granted(Second(), 4, 3), Rival()), 4, {StaleReply()})
  {
    var a, b, d := Unsent(), Second(), Joined();
    var b', l := Granted(b, 4, 3), Leading(3, 4, [Boot, P]);
    run := QAppended();
    run := Electing(run, Three(a, b, d), 3, {StaleReply()}, d, b);
    WonIs(d);
    OneReplaced(a, b, d, l);
    OneReplaced(a, b, l, b');
    run := Proposing(run, Three(a, b', l), 4, {StaleReply()}, l);
    assert ClientAppend(l, []) == Rival();
    OneReplaced(a, b', l, Rival());
  }

  /** Server 1 leads term 5 with the vote of server 2 and appends W. */
  function Voted(): Node {
    Granted(Granted(Second(), 4, 3), 5, 1)
  }

  function Fifth(): Node {
    Leading(1, 5, [Boot, P, Q]).(log := Full([Boot, P, Q, W]), commitIndex := 2)
  }

  lemma FifthCampaign() returns (run: seq<C.Machines>)
    ensures Reaches(run, Three(Candidacy(Unsent()), Granted(Second(), 4, 3), Rival()), 4, {StaleReply()})
  {
    var a, b, d := Unsent(), Granted(Second(), 4, 3), Rival();
    run := FourthTerm();
    run := Candidates(run, Three(a, b, d), 4, {StaleReply()}, a);
    OneReplaced(a, b, d, Candidacy(a));
  }

  lemma FifthTerm() returns (run: seq<C.Machines>)
    ensures Reaches(run, Three(Fifth(), Voted(), Rival()), 5, {StaleReply()})
  {
    var a, b, d := Candidacy(Unsent()), Granted(Second(), 4, 3), Rival();
    var l := Leading(1, 5, [Boot, P, Q]).(commitIndex := 2);
    run := FifthCampaign();
    run := Electing(run, Three(a, b, d), 4, {StaleReply()}, a, b);
    WonIs(a);
    OneReplaced(a, b, d, l);
    OneReplaced(l, b, d, Voted());
    run := Proposing(run, Three(l, Voted(), d), 5, {StaleReply()}, l);
    assert ClientAppend(l, []) == Fifth();
    OneReplaced(l, Voted(), d, Fifth());
  }

  /** The old refusal sends server 1 back to index 2 for server 3, and then it compacts its log there. */
  function Backed(): Node {
    Fifth().(nextIndex := Same(4)[3 := 2])
  }

  function Short(): Node {
    Backed().(log := LogView(2, 3, [Q, W]))
  }

  lemma Compaction() returns (run: seq<C.Machines>)
    ensures Reaches(run, Three(Short(), Voted(), Rival()), 5, {StaleReply()})
  {
    var a, b, d := Fifth(), Voted(), Rival();
    run := FifthTerm();
    assert a.log.Lookup(2) == Some(P);
    run := Handling(run, Three(a, b, d), 5, {StaleReply()}, StaleReply(), 0, Backed());
    OneReplaced(a, b, d, Backed());
    run := Compacting(run, Three(Backed(), b, d), 5, {StaleReply()}, Backed(), 2);
    assert Backed().log.Drop(2) == LogView(2, 3, [Q, W]);
    OneReplaced(Backed(), b, d, Short());
  }

  /** Server 2 refuses W, then takes Q and W. */
  function Resent(): Node {
    Short().(nextIndex := Same(4)[3 := 2][2 := 3])
  }

  function WSent(): AppendReq {
    AppendReq(5, 1, 3, 3, [W], 2)
  }

  function QSent(): AppendReq {
    AppendReq(5, 1, 2, 3, [Q, W], 2)
  }

  function Filled(): Node {
    Voted().(log := Full([Boot, P, Q, W]), commitIndex := 2)
  }

  lemma WRefused()
    ensures Exchanged(Short(), Voted(), WSent(), Voted(), AppendRes(5, false, 2))
    ensures OnAppendRefusal(Short(), 2, AppendRes(5, false, 2)) == Resent()
  {
    var a := Short();
    assert a.log.Lookup(3) == Some(Q) && SentEntries(a.log, 4) == [W];
    assert BuildAppendReq(a, 4) == WSent();
    assert !Voted().log.HasEntry(3, 3);
  }

  lemma QTaken()
    ensures Exchanged(Resent(), Voted(), QSent(), Filled(), AppendRes(5, true, 4))
  {
    var a := Resent();
    assert a.log.Lookup(2) == None && SentEntries(a.log, 3) == [Q, W];
    assert BuildAppendReq(a, 3) == QSent();
    var v := Full([Boot, P]);
    assert v.HasEntry(2, 3) && v.FirstNew([Q, W], 0) == 0 && v.Merge([Q, W]) == Full([Boot, P, Q, W]);
  }

  lemma Refilled() returns (run: seq<C.Machines>)
    ensures Reaches(run, Three(Resent(), Filled(), Rival()), 5, {C.Response(2, QSent(), AppendRes(5, true, 4))})
  {
    var a, b, d := Short(), Voted(), Rival();
    var refused := C.Response(2, WSent(), AppendRes(5, false, 2));
    WRefused();
    QTaken();
    run := Compaction();
    run := Exchanging(run, Three(a, b, d), 5, {}, a, b, WSent(), b, AppendRes(5, false, 2));
    OneReplaced(a, b, d, b);
    run := Handling(run, Three(a, b, d), 5, {refused}, refused, 0, Resent());
    OneReplaced(a, b, d, Resent());
    run := Exchanging(run, Three(Resent(), b, d), 5, {}, Resent(), b, QSent(), Filled(), AppendRes(5, true, 4));
    OneReplaced(Resent(), b, d, Filled());
  }

  /** Server 1 commits index 4; its heartbeat to server 3 says so but carries nothing, and server 3 commits U. */
  function Done(): Node {
    RecordMatch(Resent(), 2, 4).(commitIndex := 4)
  }

  function Fooled(): Node {
    Rival().(term := 5, votedFor := NoVote, role := Follower, commitIndex := 3)
  }

  function Bare(): AppendReq {
    AppendReq(5, 1, 2, 3, [], 4)
  }

  lemma BareTaken()
    ensures Exchanged(Done(), Rival(), Bare(), Fooled(), AppendRes(5, true, 3)) && !C.Covered(Bare())
  {
    var a, d := Done(), Rival();
    assert a.nextIndex[3] == 2 && a.log.Lookup(1) == None;
    assert BuildAppendReq(a, 2) == Bare();
    assert d.log.HasEntry(2, 3) && d.log.FirstNew([], 0) == 0;
  }

  lemma Finishing() returns (run: seq<C.Machines>)
    ensures Reaches(run, Three(Done(), Filled(), Fooled()), 5, {})
  {
    var a, b, d := Resent(), Filled(), Rival();
    var r := C.Response(2, QSent(), AppendRes(5, true, 4));
    CommitsAll(RecordMatch(a, 2, 4), 2);
    BareTaken();
    run := Refilled();
    run := Handling(run, Three(a, b, d), 5, {r}, r, 4, Done());
    OneReplaced(a, b, d, Done());
    run := Exchanging(run, Three(Done(), b, d), 5, {}, Done(), d, Bare(), Fooled(), AppendRes(5, true, 3));
    OneReplaced(Done(), b, d, Fooled());
  }

  /** Where requests need not be covered State Machine Safety fails: servers 1 and 3 commit Q and U at index 3. */
  lemma OvercommitBreaksSafety() returns (run: seq<C.Machines>, a: Id, b: Id, index: nat)
    ensures LooseRun(run)
    ensures var k := run[|run| - 1];
            && a in k.nodes && b in k.nodes
            && k.nodes[a].log.baseIndex < index <= k.nodes[a].commitIndex
            && k.nodes[b].log.baseIndex < index <= k.nodes[b].commitIndex
            && k.nodes[a].log.Present(index) && k.nodes[b].log.Present(index)
            && !C.SameAt(k.nodes[a].log, k.nodes[b].log, index)
  {
    run := Finishing();
    a, b, index := 1, 3, 3;
  }
}
