/**
 State Machine Safety when leaders compare the reported index only: a run of five servers in which a reply of an earlier
 leadership is counted after the leader's log was cut and rewritten, and two servers commit different entries.
 */
module StaleReplies {
  import opened RaftLog
  import opened Server
  import opened Protocol
  import OverReport

  const Quint: set<Id> := {1, 2, 3, 4, 5}

  // ----- Runs with half of the check

  predicate WithinRequest(s: Node, r: AppendReply) {
    s.role == Leader && r.res.success ==> r.res.matchIndex <= r.req.prevIndex + |r.req.entries|
  }

  ghost predicate HalfStep(c: Cluster, c': Cluster, step: Step) {
    NextStep(c, c', step) && (step.HandleReply? ==> WithinRequest(c.nodes[step.reply.req.leader], step.reply))
  }

  ghost predicate HalfNext(c: Cluster, c': Cluster) {
    exists step :: HalfStep(c, c', step)
  }

  ghost predicate HalfAt(run: seq<Cluster>, i: nat)
    requires i < |run| - 1
  {
    HalfNext(run[i], run[i + 1])
  }

  ghost predicate HalfRun(run: seq<Cluster>) {
    run != [] && Init(run[0]) && forall i: nat | i < |run| - 1 :: HalfAt(run, i)
  }

  lemma Further(run: seq<Cluster>, c: Cluster, step: Step)
    requires HalfRun(run) && HalfStep(run[|run| - 1], c, step)
    ensures HalfRun(run + [c])
  {
    forall i: nat | i < |run + [c]| - 1 ensures HalfAt(run + [c], i) {
      if i < |run| - 1 {
        assert HalfAt(run, i);
      } else {
        assert HalfNext(run[|run| - 1], c);
      }
    }
  }

  // ----- Extending a run

  /** The run ends with these servers; of votes after `term` only those in `counted` were counted. */
  ghost predicate Comes(run: seq<Cluster>, nodes: map<Id, Node>, term: nat, counted: set<VoteTask>,
                        replies: set<AppendReply>)
  {
    && HalfRun(run)
    && var c := run[|run| - 1];
       && c.members == Quint && c.nodes == nodes && replies <= c.net.appendReplies
       && forall task | task in c.net.handled :: task.term <= term || task in counted
  }

  lemma QuintSize()
    ensures |Quint| == 5 && NoVote !in Quint
  {
  }

  lemma StandsFor(run: seq<Cluster>, nodes: map<Id, Node>, term: nat, replies: set<AppendReply>, s: Node)
    returns (run': seq<Cluster>)
    requires Comes(run, nodes, term, {}, replies) && s.id in nodes && nodes[s.id] == s
    requires s.cluster == Quint && s.id in Quint
    ensures Comes(run', nodes[s.id := OverReport.Candidacy(s)], term, {}, replies)
    ensures forall v | v in Quint && v != s.id ::
              VoteMsg(v, BuildVoteReq(OverReport.Candidacy(s))) in run'[|run'| - 1].net.voteReqs
  {
    QuintSize();
    assert StartElection(s) == OverReport.Candidacy(s);
    var c := DoElect(run[|run| - 1], s.id);
    Further(run, c, Elect(s.id));
    run' := run + [c];
  }

  lemma Granting(run: seq<Cluster>, nodes: map<Id, Node>, term: nat, replies: set<AppendReply>, v: Node, req: VoteReq)
    returns (run': seq<Cluster>)
    requires Comes(run, nodes, term, {}, replies) && v.id in nodes && nodes[v.id] == v
    requires VoteMsg(v.id, req) in run[|run| - 1].net.voteReqs
    requires v.term < req.term && AcceptsLog(v.log, req.lastIndex, req.lastTerm)
    ensures Comes(run', nodes[v.id := OverReport.Granted(v, req.term, req.candidate)], term, {}, replies)
    ensures run'[|run'| - 1].net.voteReqs == run[|run| - 1].net.voteReqs
    ensures run'[|run'| - 1].net.voteReplies
            == run[|run| - 1].net.voteReplies + {VoteReply(v.id, req, VoteRes(req.term, true))}
  {
    OverReport.GrantsVote(v, req);
    var c := DoDeliverVote(run[|run| - 1], VoteMsg(v.id, req));
    Further(run, c, DeliverVote(VoteMsg(v.id, req)));
    run' := run + [c];
  }

  /** A vote is counted; the third one wins. */
  lemma OneVote(run: seq<Cluster>, nodes: map<Id, Node>, term: nat, counted: set<VoteTask>, replies: set<AppendReply>,
                s: Node, r: VoteReply)
    returns (run': seq<Cluster>)
    requires Comes(run, nodes, term, counted, replies) && s.id in nodes && nodes[s.id] == s
    requires r in run[|run| - 1].net.voteReplies && TaskOf(r) !in counted && term < s.term
    requires s.cluster == Quint && s.role == Candidate && s.votes < 3
    requires r.req.candidate == s.id && r.req.term == s.term && r.res == VoteRes(s.term, true)
    ensures var s1 := s.(votes := s.votes + 1);
            Comes(run', nodes[s.id := if s1.votes == 3 then StepUp(s1) else s1], term, counted + {TaskOf(r)}, replies)
    ensures run'[|run'| - 1].net.voteReplies == run[|run| - 1].net.voteReplies
  {
    QuintSize();
    var c := DoCountVote(run[|run| - 1], r);
    Further(run, c, CountVote(r));
    run' := run + [c];
  }

  function MadeChief(s: Node): Node {
    StepUp(OverReport.Candidacy(s).(votes := 3))
  }

  /** The voter has not reached the candidate's next term and its log is no newer. */
  predicate Votes(s: Node, v: Node) {
    v.id in Quint && v.id != s.id && v.term <= s.term && AcceptsLog(v.log, s.log.LastIndex(), s.log.LastTerm())
  }

  /** Two more grant their votes. */
  lemma Supported(run: seq<Cluster>, nodes: map<Id, Node>, term: nat, replies: set<AppendReply>, s: Node, v: Node,
                  w: Node)
    returns (run': seq<Cluster>)
    requires Comes(run, nodes, term, {}, replies) && {s.id, v.id, w.id} <= nodes.Keys && v.id != w.id
    requires nodes[s.id] == s && nodes[v.id] == v && nodes[w.id] == w && s.cluster == Quint && s.id in Quint
    requires Votes(s, v) && Votes(s, w)
    ensures var req := BuildVoteReq(OverReport.Candidacy(s));
            && Comes(run', nodes[s.id := OverReport.Candidacy(s)]
                                [v.id := OverReport.Granted(v, s.term + 1, s.id)]
                                [w.id := OverReport.Granted(w, s.term + 1, s.id)], term, {}, replies)
            && VoteReply(v.id, req, VoteRes(s.term + 1, true)) in run'[|run'| - 1].net.voteReplies
            && VoteReply(w.id, req, VoteRes(s.term + 1, true)) in run'[|run'| - 1].net.voteReplies
  {
    var s1, v1 := OverReport.Candidacy(s), OverReport.Granted(v, s.term + 1, s.id);
    run' := StandsFor(run, nodes, term, replies, s);
    run' := Granting(run', nodes[s.id := s1], term, replies, v, BuildVoteReq(s1));
    run' := Granting(run', nodes[s.id := s1][v.id := v1], term, replies, w, BuildVoteReq(s1));
  }

  lemma Winning(run: seq<Cluster>, nodes: map<Id, Node>, term: nat, replies: set<AppendReply>, s: Node, v: Node,
                w: Node)
    returns (run': seq<Cluster>)
    requires Comes(run, nodes, term, {}, replies) && {s.id, v.id, w.id} <= nodes.Keys && v.id != w.id
    requires nodes[s.id] == s && nodes[v.id] == v && nodes[w.id] == w && s.cluster == Quint && s.id in Quint
    requires Votes(s, v) && Votes(s, w) && term <= s.term
    ensures Comes(run', nodes[s.id := MadeChief(s)]
                             [v.id := OverReport.Granted(v, s.term + 1, s.id)]
                             [w.id := OverReport.Granted(w, s.term + 1, s.id)], s.term + 1, {}, replies)
  {
    var s1 := OverReport.Candidacy(s);
    var req := BuildVoteReq(s1);
    var v1, w1 := OverReport.Granted(v, s.term + 1, s.id), OverReport.Granted(w, s.term + 1, s.id);
    run' := Supported(run, nodes, term, replies, s, v, w);
    LastOfThree(nodes, s.id, s1, v.id, v1, w.id, w1, MadeChief(s));
    run' := BothVotes(run', nodes[s.id := s1][v.id := v1][w.id := w1], term, replies, s1,
                      VoteReply(v.id, req, VoteRes(s.term + 1, true)), VoteReply(w.id, req, VoteRes(s.term + 1, true)));
  }

  lemma LastOfThree(nodes: map<Id, Node>, a: Id, x: Node, b: Id, y: Node, d: Id, z: Node, x': Node)
    requires a != b && a != d && b != d
    ensures nodes[a := x][b := y][d := z][a] == x
    ensures nodes[a := x][b := y][d := z][a := x'] == nodes[a := x'][b := y][d := z]
  {
  }

  lemma BothVotes(run: seq<Cluster>, nodes: map<Id, Node>, term: nat, replies: set<AppendReply>, s: Node, r: VoteReply,
                  q: VoteReply)
    returns (run': seq<Cluster>)
    requires Comes(run, nodes, term, {}, replies) && s.id in nodes && nodes[s.id] == s && term + 1 <= s.term
    requires r in run[|run| - 1].net.voteReplies && q in run[|run| - 1].net.voteReplies && r.voter != q.voter
    requires s.cluster == Quint && s.role == Candidate && s.votes == 1
    requires r.req.candidate == s.id && r.req.term == s.term && r.res == VoteRes(s.term, true)
    requires q.req.candidate == s.id && q.req.term == s.term && q.res == VoteRes(s.term, true)
    ensures Comes(run', nodes[s.id := StepUp(s.(votes := 3))], s.term, {}, replies)
  {
    var s1 := s.(votes := 2);
    run' := OneVote(run, nodes, term, {}, replies, s, r);
    run' := OneVote(run', nodes[s.id := s1], term, {} + {TaskOf(r)}, replies, s1, q);
    assert nodes[s.id := s1][s.id := StepUp(s.(votes := 3))] == nodes[s.id := StepUp(s.(votes := 3))];
  }

  lemma Writing(run: seq<Cluster>, nodes: map<Id, Node>, term: nat, replies: set<AppendReply>, s: Node)
    returns (run': seq<Cluster>)
    requires Comes(run, nodes, term, {}, replies) && s.id in nodes && nodes[s.id] == s
    ensures Comes(run', nodes[s.id := ClientAppend(s, [])], term, {}, replies)
  {
    var c := DoPropose(run[|run| - 1], s.id, []);
    Further(run, c, Propose(s.id, []));
    run' := run + [c];
  }

  /** What `s` would send to `f`, and what `f` makes of it. */
  predicate Passes(s: Node, f: Node, req: AppendReq, f': Node, res: AppendRes) {
    && s.role == Leader && s.id != f.id && f.id in s.nextIndex && BuildAppendReq(s, s.nextIndex[f.id]) == req
    && OnAppendRequest(f, req) == (f', res) && f'.id == f.id
  }

  /** The reply of `f` to what `s` would send it. */
  predicate AnswersAs(s: Node, f: Node, f': Node, r: AppendReply) {
    Passes(s, f, r.req, f', r.res) && r.from == f'.id && f'.log.entries == r.log
  }

  lemma JoinReplies(r: AppendReply, q: AppendReply)
    ensures {} + {r} == {r} && {r} + {q} == {r, q}
  {
  }

  lemma Passing(run: seq<Cluster>, nodes: map<Id, Node>, term: nat, replies: set<AppendReply>, s: Node, f: Node,
                f': Node, r: AppendReply)
    returns (run': seq<Cluster>)
    requires Comes(run, nodes, term, {}, replies) && s.id in nodes && nodes[s.id] == s
    requires f.id in nodes && nodes[f.id] == f && AnswersAs(s, f, f', r)
    ensures Comes(run', nodes[f.id := f'], term, {}, replies + {r})
    ensures Comes(run', nodes[f.id := f'], term, {}, replies)
  {
    var c1 := DoSendAppend(run[|run| - 1], s.id, f.id);
    Further(run, c1, SendAppend(s.id, f.id));
    var c2 := DoDeliverAppend(c1, AppendMsg(f.id, r.req));
    Further(run + [c1], c2, DeliverAppend(AppendMsg(f.id, r.req)));
    run' := run + [c1] + [c2];
  }

  lemma Hearing(run: seq<Cluster>, nodes: map<Id, Node>, term: nat, replies: set<AppendReply>, r: AppendReply,
                commit: nat, s': Node)
    returns (run': seq<Cluster>)
    requires Comes(run, nodes, term, {}, replies) && r in replies && r.req.leader in nodes && s'.id == r.req.leader
    requires ReplyOutcome(nodes[r.req.leader], r, commit, s') && WithinRequest(nodes[r.req.leader], r)
    ensures Comes(run', nodes[s'.id := s'], term, {}, replies)
    ensures Comes(run', nodes[s'.id := s'], term, {}, {})
  {
    var c := Put(run[|run| - 1], s');
    Further(run, c, HandleReply(r, commit));
    run' := run + [c];
  }

  // ----- Counting of five

  /** One other holder is not enough. */
  lemma TooFew(s: Node, p: Id)
    requires s.cluster == Quint && s.id in Quint && s.commitIndex >= 1 && s.log.Present(MatchOf(s, p))
    requires forall n | n in Quint && n != p :: MatchOf(s, n) == 0
    ensures !CommitFaults(s) && CommitRule(s, s.commitIndex)
  {
    QuintSize();
    forall i: nat ensures !Committable(s, i) {
      if i > s.commitIndex {
        assert Holders(s, i) <= {s.id, p};
        SubsetSize(Holders(s, i), {s.id, p});
        assert |{s.id, p}| <= 2;
      }
    }
    assert Quint != {s.id};
  }

  /** Two other holders of a log that ends in the present term are. */
  lemma Enough(s: Node, p: Id, q: Id)
    requires s.cluster == Quint && {s.id, p, q} <= Quint && s.id != p && s.id != q && p != q && s.log.entries != []
    requires MatchOf(s, p) == MatchOf(s, q) == s.log.LastIndex() > s.commitIndex && s.log.LastTerm() == s.term
    requires forall n | n in Quint && n != p && n != q :: MatchOf(s, n) == 0
    ensures !CommitFaults(s) && CommitRule(s, s.log.LastIndex())
  {
    var last := s.log.LastIndex();
    QuintSize();
    SubsetSize({s.id, p, q}, Holders(s, last));
    assert |{s.id, p, q}| == 3;
    assert Committable(s, last);
    assert Quint != {s.id};
  }

  // ----- The run

  const Start := OverReport.Boot
  const X1 := Entry(2, 2, [], false)
  const X2 := Entry(2, 3, [], false)
  const Y1 := Entry(3, 2, [], false)
  const Y2 := Entry(3, 3, [], false)
  const Z1 := Entry(4, 3, [], false)
  const W1 := Entry(5, 4, [], false)

  function EveryPeer(k: nat): map<Id, nat> {
    map n | n in Quint :: k
  }

  function Peer(id: Id, term: nat, votedFor: Id, log: seq<Entry>): Node {
    Node(id, Quint, term, votedFor, Follower, 0, Full(log), 1, map[], map[])
  }

  /** A leader right after its election with `log`, which may since have grown to `now`. */
  function Chief(id: Id, term: nat, log: seq<Entry>, now: seq<Entry>): Node {
    Node(id, Quint, term, id, Leader, 3, Full(now), 1, EveryPeer(|log| + 1), EveryPeer(0))
  }

  lemma ElectedIs(s: Node)
    requires s.cluster == Quint && s.log == Full(s.log.entries) && s.commitIndex == 1
    ensures MadeChief(s) == Chief(s.id, s.term + 1, s.log.entries, s.log.entries)
  {
  }

  function Five(a: Node, b: Node, d: Node, e: Node, f: Node): map<Id, Node> {
    map[1 := a, 2 := b, 3 := d, 4 := e, 5 := f]
  }

  lemma FiveAt1(a: Node, b: Node, d: Node, e: Node, f: Node, x: Node)
    ensures Five(a, b, d, e, f)[1 := x] == Five(x, b, d, e, f)
  {
  }

  lemma FiveAt2(a: Node, b: Node, d: Node, e: Node, f: Node, x: Node)
    ensures Five(a, b, d, e, f)[2 := x] == Five(a, x, d, e, f)
  {
  }

  lemma FiveAt3(a: Node, b: Node, d: Node, e: Node, f: Node, x: Node)
    ensures Five(a, b, d, e, f)[3 := x] == Five(a, b, x, e, f)
  {
  }

  lemma FiveAt4(a: Node, b: Node, d: Node, e: Node, f: Node, x: Node)
    ensures Five(a, b, d, e, f)[4 := x] == Five(a, b, d, x, f)
  {
  }

  lemma FiveAt5(a: Node, b: Node, d: Node, e: Node, f: Node, x: Node)
    ensures Five(a, b, d, e, f)[5 := x] == Five(a, b, d, e, x)
  {
  }

  lemma Opening() returns (run: seq<Cluster>)
    ensures Comes(run, Five(Peer(1, 1, 0, [Start]), Peer(2, 1, 0, [Start]), Peer(3, 1, 0, [Start]),
                            Peer(4, 1, 0, [Start]), Peer(5, 1, 0, [Start])), 1, {}, {})
  {
    var nodes := Five(Peer(1, 1, 0, [Start]), Peer(2, 1, 0, [Start]), Peer(3, 1, 0, [Start]), Peer(4, 1, 0, [Start]),
                      Peer(5, 1, 0, [Start]));
    var c := Cluster(Quint, nodes, Network({}, {}, {}, {}, {}),
                     History(map[1 := Reign(NoVote, {}, [Start])], map[], map[], map i | i in Quint :: (i, 1) := 1));
    run := [c];
    QuintSize();
    assert Bootstrapped(c, Start) by {
      forall i | i in Quint ensures InitialNode(Quint, i, Start, c.nodes[i]) {}
    }
  }

  /** Server 1 leads term 2. */
  lemma TermTwo() returns (run: seq<Cluster>)
    ensures Comes(run, Five(Chief(1, 2, [Start], [Start]), Peer(2, 1, 0, [Start]), Peer(3, 1, 0, [Start]),
                            Peer(4, 2, 1, [Start]), Peer(5, 2, 1, [Start])), 2, {}, {})
  {
    var a, b, d, e, f := Peer(1, 1, 0, [Start]), Peer(2, 1, 0, [Start]), Peer(3, 1, 0, [Start]), Peer(4, 1, 0, [Start]),
                         Peer(5, 1, 0, [Start]);
    var a', e', f' := Chief(1, 2, [Start], [Start]), Peer(4, 2, 1, [Start]), Peer(5, 2, 1, [Start]);
    run := Opening();
    run := Winning(run, Five(a, b, d, e, f), 1, {}, a, e, f);
    ElectedIs(a);
    FiveAt1(a, b, d, e, f, a');
    FiveAt4(a', b, d, e, f, e');
    FiveAt5(a', b, d, e', f, f');
  }

  // ----- Requests between servers with complete logs

  /** Entries that continue a log at its end, or replace what conflicts behind `prev`. */
  lemma Taken(log: seq<Entry>, es: seq<Entry>, prev: nat)
    requires 1 <= prev <= |log| && Numbered(0, log) && Numbered(prev, es) && es != []
    requires prev < |log| ==> log[prev].term != es[0].term
    ensures Full(log).HasEntry(prev, log[prev - 1].term)
    ensures !Full(log).ChopFails(es) && Full(log).Merge(es) == Full(log[..prev] + es)
  {
    assert Full(log).FirstNew(es, 0) == 0;
  }

  lemma SentBehind(s: Node, f: Node, log: seq<Entry>, prev: nat)
    requires s.log == Full(log) && Numbered(0, log) && 1 <= prev < |log|
    ensures BuildAppendReq(s, prev + 1) == AppendReq(s.term, s.id, prev, log[prev - 1].term, log[prev..], s.commitIndex)
  {
    assert s.log.Lookup(prev) == Some(log[prev - 1]);
  }

  /** The peer once it has taken what follows `prev` in the leader's log. */
  function Following(f: Node, term: nat, log: seq<Entry>): Node {
    (if term > f.term then f.(term := term, votedFor := NoVote) else f).(role := Follower, log := Full(log))
  }

  lemma Takes(s: Node, f: Node, log: seq<Entry>, held: seq<Entry>, prev: nat)
    requires s.role == Leader && s.id != f.id && f.id in s.nextIndex && s.nextIndex[f.id] == prev + 1
    requires s.log == Full(log) && Numbered(0, log) && f.log == Full(held) && Numbered(0, held)
    requires 1 <= prev <= |held| && prev < |log| && log[prev - 1].term == held[prev - 1].term
    requires prev < |held| ==> held[prev].term != log[prev].term
    requires s.term >= f.term && s.commitIndex <= f.commitIndex
    ensures Passes(s, f, AppendReq(s.term, s.id, prev, log[prev - 1].term, log[prev..], s.commitIndex),
                   Following(f, s.term, held[..prev] + log[prev..]), AppendRes(s.term, true, |log|))
  {
    SentBehind(s, f, log, prev);
    Taken(held, log[prev..], prev);
  }

  /** A peer that lacks the entry before refuses. */
  lemma Lacks(s: Node, f: Node, log: seq<Entry>, held: seq<Entry>, prev: nat)
    requires s.role == Leader && s.id != f.id && f.id in s.nextIndex && s.nextIndex[f.id] == prev + 1
    requires s.log == Full(log) && Numbered(0, log) && f.log == Full(held) && |held| < prev < |log|
    requires s.term == f.term && f.role == Follower
    ensures Passes(s, f, AppendReq(s.term, s.id, prev, log[prev - 1].term, log[prev..], s.commitIndex),
                   f, AppendRes(s.term, false, |held|))
  {
    SentBehind(s, f, log, prev);
  }

  // ----- Terms 2 and 3

  /** Server 1 appends two entries that only server 2 takes; the reply is under way. */
  function EarlyReply(): AppendReply {
    AppendReply(2, AppendReq(2, 1, 1, 1, [X1, X2], 1), AppendRes(2, true, 3), [Start, X1, X2])
  }

  function EarlyChief(): Node {
    Chief(1, 2, [Start], [Start, X1, X2])
  }

  lemma EarlyEntries() returns (run: seq<Cluster>)
    ensures Comes(run, Five(EarlyChief(), Peer(2, 1, 0, [Start]), Peer(3, 1, 0, [Start]), Peer(4, 2, 1, [Start]),
                            Peer(5, 2, 1, [Start])), 2, {}, {})
  {
    var b, d, e, f := Peer(2, 1, 0, [Start]), Peer(3, 1, 0, [Start]), Peer(4, 2, 1, [Start]), Peer(5, 2, 1, [Start]);
    var a, a' := Chief(1, 2, [Start], [Start]), Chief(1, 2, [Start], [Start, X1]);
    run := TermTwo();
    run := Writing(run, Five(a, b, d, e, f), 2, {}, a);
    assert ClientAppend(a, []) == a';
    FiveAt1(a, b, d, e, f, a');
    run := Writing(run, Five(a', b, d, e, f), 2, {}, a');
    assert ClientAppend(a', []) == EarlyChief();
    FiveAt1(a', b, d, e, f, EarlyChief());
  }

  lemma EarlyPasses()
    ensures var b' := Peer(2, 2, 0, [Start, X1, X2]);
            AnswersAs(EarlyChief(), Peer(2, 1, 0, [Start]), b', EarlyReply())
  {
    Takes(EarlyChief(), Peer(2, 1, 0, [Start]), [Start, X1, X2], [Start], 1);
    assert [Start, X1, X2][1..] == [X1, X2] && [Start][..1] + [X1, X2] == [Start, X1, X2];
  }

  lemma EarlyTaken() returns (run: seq<Cluster>)
    ensures Comes(run, Five(EarlyChief(), Peer(2, 2, 0, [Start, X1, X2]), Peer(3, 1, 0, [Start]),
                            Peer(4, 2, 1, [Start]), Peer(5, 2, 1, [Start])), 2, {}, {EarlyReply()})
  {
    var a, b, d, e, f := EarlyChief(), Peer(2, 1, 0, [Start]), Peer(3, 1, 0, [Start]), Peer(4, 2, 1, [Start]),
                         Peer(5, 2, 1, [Start]);
    var b' := Peer(2, 2, 0, [Start, X1, X2]);
    run := EarlyEntries();
    EarlyPasses();
    run := Passing(run, Five(a, b, d, e, f), 2, {}, a, b, b', EarlyReply());
    JoinReplies(EarlyReply(), EarlyReply());
    FiveAt2(a, b, d, e, f, b');
  }

  /** Server 3, which times out twice, leads term 3. */
  lemma TermThree() returns (run: seq<Cluster>)
    ensures Comes(run, Five(EarlyChief(), Peer(2, 2, 0, [Start, X1, X2]), Chief(3, 3, [Start], [Start]),
                            Peer(4, 3, 3, [Start]), Peer(5, 3, 3, [Start])), 3, {}, {EarlyReply()})
  {
    var a, b, d, e, f := EarlyChief(), Peer(2, 2, 0, [Start, X1, X2]), Peer(3, 1, 0, [Start]), Peer(4, 2, 1, [Start]),
                         Peer(5, 2, 1, [Start]);
    var d1, d2 := OverReport.Candidacy(d), Chief(3, 3, [Start], [Start]);
    run := EarlyTaken();
    run := StandsFor(run, Five(a, b, d, e, f), 2, {EarlyReply()}, d);
    FiveAt3(a, b, d, e, f, d1);
    run := Winning(run, Five(a, b, d1, e, f), 2, {EarlyReply()}, d1, e, f);
    ElectedIs(d1);
    FiveAt3(a, b, d1, e, f, d2);
    FiveAt4(a, b, d2, e, f, Peer(4, 3, 3, [Start]));
    FiveAt5(a, b, d2, Peer(4, 3, 3, [Start]), f, Peer(5, 3, 3, [Start]));
  }

  /** Its entry Y1 replaces X1 at server 1 and goes to server 4. */
  function Trimmed(): Node {
    Following(EarlyChief(), 3, [Start, Y1])
  }

  lemma YWritten() returns (run: seq<Cluster>)
    ensures Comes(run, Five(EarlyChief(), Peer(2, 2, 0, [Start, X1, X2]), Chief(3, 3, [Start], [Start, Y1]),
                            Peer(4, 3, 3, [Start]), Peer(5, 3, 3, [Start])), 3, {}, {EarlyReply()})
  {
    var a, b, d, e, f := EarlyChief(), Peer(2, 2, 0, [Start, X1, X2]), Chief(3, 3, [Start], [Start]),
                         Peer(4, 3, 3, [Start]), Peer(5, 3, 3, [Start]);
    run := TermThree();
    run := Writing(run, Five(a, b, d, e, f), 3, {EarlyReply()}, d);
    assert ClientAppend(d, []) == Chief(3, 3, [Start], [Start, Y1]);
    FiveAt3(a, b, d, e, f, Chief(3, 3, [Start], [Start, Y1]));
  }

  function YReply(from: Id): AppendReply {
    AppendReply(from, AppendReq(3, 3, 1, 1, [Y1], 1), AppendRes(3, true, 2), [Start, Y1])
  }

  lemma YPasses()
    ensures var d := Chief(3, 3, [Start], [Start, Y1]);
            && AnswersAs(d, EarlyChief(), Trimmed(), YReply(1))
            && AnswersAs(d, Peer(4, 3, 3, [Start]), Peer(4, 3, 3, [Start, Y1]), YReply(4))
  {
    var d, a, e := Chief(3, 3, [Start], [Start, Y1]), EarlyChief(), Peer(4, 3, 3, [Start]);
    assert [Start, Y1][1..] == [Y1] && [Start, X1, X2][..1] + [Y1] == [Start, Y1] && [Start][..1] + [Y1] == [Start, Y1];
    Takes(d, a, [Start, Y1], [Start, X1, X2], 1);
    Takes(d, e, [Start, Y1], [Start], 1);
    assert Following(e, 3, [Start, Y1]) == Peer(4, 3, 3, [Start, Y1]);
  }

  /** Server 3 sends, server 1 answers. */
  lemma ThreeToOne(run: seq<Cluster>, a: Node, b: Node, d: Node, e: Node, f: Node, term: nat,
                   replies: set<AppendReply>, a': Node, r: AppendReply)
    returns (run': seq<Cluster>)
    requires Comes(run, Five(a, b, d, e, f), term, {}, replies) && a.id == 1 && d.id == 3 && AnswersAs(d, a, a', r)
    ensures Comes(run', Five(a', b, d, e, f), term, {}, replies)
  {
    run' := Passing(run, Five(a, b, d, e, f), term, replies, d, a, a', r);
    FiveAt1(a, b, d, e, f, a');
  }

  lemma YAtOne() returns (run: seq<Cluster>)
    ensures Comes(run, Five(Trimmed(), Peer(2, 2, 0, [Start, X1, X2]), Chief(3, 3, [Start], [Start, Y1]),
                            Peer(4, 3, 3, [Start]), Peer(5, 3, 3, [Start])), 3, {}, {EarlyReply()})
  {
    var a, b, d, e, f := EarlyChief(), Peer(2, 2, 0, [Start, X1, X2]), Chief(3, 3, [Start], [Start, Y1]),
                         Peer(4, 3, 3, [Start]), Peer(5, 3, 3, [Start]);
    run := YWritten();
    YPasses();
    run := ThreeToOne(run, a, b, d, e, f, 3, {EarlyReply()}, Trimmed(), YReply(1));
  }

  lemma YAtFour() returns (run: seq<Cluster>)
    ensures Comes(run, Five(Trimmed(), Peer(2, 2, 0, [Start, X1, X2]), Chief(3, 3, [Start], [Start, Y1]),
                            Peer(4, 3, 3, [Start, Y1]), Peer(5, 3, 3, [Start])), 3, {}, {EarlyReply()})
  {
    var a, b, d, e, f := Trimmed(), Peer(2, 2, 0, [Start, X1, X2]), Chief(3, 3, [Start], [Start, Y1]),
                         Peer(4, 3, 3, [Start]), Peer(5, 3, 3, [Start]);
    var e' := Peer(4, 3, 3, [Start, Y1]);
    run := YAtOne();
    YPasses();
    run := Passing(run, Five(a, b, d, e, f), 3, {EarlyReply()}, d, e, e', YReply(4));
    FiveAt4(a, b, d, e, f, e');
  }

  lemma YYWritten() returns (run: seq<Cluster>)
    ensures Comes(run, Five(Trimmed(), Peer(2, 2, 0, [Start, X1, X2]), Chief(3, 3, [Start], [Start, Y1, Y2]),
                            Peer(4, 3, 3, [Start, Y1]), Peer(5, 3, 3, [Start])), 3, {}, {EarlyReply()})
  {
    var a, b, d, e, f := Trimmed(), Peer(2, 2, 0, [Start, X1, X2]), Chief(3, 3, [Start], [Start, Y1]),
                         Peer(4, 3, 3, [Start, Y1]), Peer(5, 3, 3, [Start]);
    var d' := Chief(3, 3, [Start], [Start, Y1, Y2]);
    run := YAtFour();
    run := Writing(run, Five(a, b, d, e, f), 3, {EarlyReply()}, d);
    assert ClientAppend(d, []) == d';
    FiveAt3(a, b, d, e, f, d');
  }

  function BothReply(): AppendReply {
    AppendReply(2, AppendReq(3, 3, 1, 1, [Y1, Y2], 1), AppendRes(3, true, 3), [Start, Y1, Y2])
  }

  lemma BothPass()
    ensures AnswersAs(Chief(3, 3, [Start], [Start, Y1, Y2]), Peer(2, 2, 0, [Start, X1, X2]),
                    Peer(2, 3, 0, [Start, Y1, Y2]), BothReply())
  {
    Takes(Chief(3, 3, [Start], [Start, Y1, Y2]), Peer(2, 2, 0, [Start, X1, X2]), [Start, Y1, Y2], [Start, X1, X2], 1);
    assert [Start, Y1, Y2][1..] == [Y1, Y2] && [Start, X1, X2][..1] + [Y1, Y2] == [Start, Y1, Y2];
  }

  /** Server 2 takes both of its entries in place of its own. */
  lemma Replaced() returns (run: seq<Cluster>)
    ensures Comes(run, Five(Trimmed(), Peer(2, 3, 0, [Start, Y1, Y2]), Chief(3, 3, [Start], [Start, Y1, Y2]),
                            Peer(4, 3, 3, [Start, Y1]), Peer(5, 3, 3, [Start])), 3, {}, {EarlyReply()})
  {
    var a, b, d, e, f := Trimmed(), Peer(2, 2, 0, [Start, X1, X2]), Chief(3, 3, [Start], [Start, Y1, Y2]),
                         Peer(4, 3, 3, [Start, Y1]), Peer(5, 3, 3, [Start]);
    var b' := Peer(2, 3, 0, [Start, Y1, Y2]);
    run := YYWritten();
    BothPass();
    run := Passing(run, Five(a, b, d, e, f), 3, {EarlyReply()}, d, b, b', BothReply());
    FiveAt2(a, b, d, e, f, b');
  }

  // ----- Term 4: the early reply counts for Z1

  function LateChief(): Node {
    Chief(1, 4, [Start, Y1], [Start, Y1, Z1])
  }

  lemma TermFour() returns (run: seq<Cluster>)
    ensures Comes(run, Five(Chief(1, 4, [Start, Y1], [Start, Y1]), Peer(2, 3, 0, [Start, Y1, Y2]),
                            Chief(3, 3, [Start], [Start, Y1, Y2]), Peer(4, 4, 1, [Start, Y1]), Peer(5, 4, 1, [Start])),
                  4, {}, {EarlyReply()})
  {
    var a, b, d, e, f := Trimmed(), Peer(2, 3, 0, [Start, Y1, Y2]), Chief(3, 3, [Start], [Start, Y1, Y2]),
                         Peer(4, 3, 3, [Start, Y1]), Peer(5, 3, 3, [Start]);
    var a', e', f' := Chief(1, 4, [Start, Y1], [Start, Y1]), Peer(4, 4, 1, [Start, Y1]), Peer(5, 4, 1, [Start]);
    run := Replaced();
    run := Winning(run, Five(a, b, d, e, f), 3, {EarlyReply()}, a, e, f);
    ElectedIs(a);
    FiveAt1(a, b, d, e, f, a');
    FiveAt4(a', b, d, e, f, e');
    FiveAt5(a', b, d, e', f, f');
  }

  lemma ZWritten() returns (run: seq<Cluster>)
    ensures Comes(run, Five(LateChief(), Peer(2, 3, 0, [Start, Y1, Y2]), Chief(3, 3, [Start], [Start, Y1, Y2]),
                            Peer(4, 4, 1, [Start, Y1]), Peer(5, 4, 1, [Start])), 4, {}, {EarlyReply()})
  {
    var a, b, d, e, f := Chief(1, 4, [Start, Y1], [Start, Y1]), Peer(2, 3, 0, [Start, Y1, Y2]),
                         Chief(3, 3, [Start], [Start, Y1, Y2]), Peer(4, 4, 1, [Start, Y1]), Peer(5, 4, 1, [Start]);
    run := TermFour();
    run := Writing(run, Five(a, b, d, e, f), 4, {EarlyReply()}, a);
    assert ClientAppend(a, []) == LateChief();
    FiveAt1(a, b, d, e, f, LateChief());
  }

  function ZReply(): AppendReply {
    AppendReply(4, AppendReq(4, 1, 2, 3, [Z1], 1), AppendRes(4, true, 3), [Start, Y1, Z1])
  }

  lemma ZPasses()
    ensures var e, e' := Peer(4, 4, 1, [Start, Y1]), Peer(4, 4, 1, [Start, Y1, Z1]);
            AnswersAs(LateChief(), e, e', ZReply())
  {
    Takes(LateChief(), Peer(4, 4, 1, [Start, Y1]), [Start, Y1, Z1], [Start, Y1], 2);
    assert [Start, Y1, Z1][2..] == [Z1] && [Start, Y1][..2] + [Z1] == [Start, Y1, Z1];
  }

  lemma ZTaken() returns (run: seq<Cluster>)
    ensures Comes(run, Five(LateChief(), Peer(2, 3, 0, [Start, Y1, Y2]), Chief(3, 3, [Start], [Start, Y1, Y2]),
                            Peer(4, 4, 1, [Start, Y1, Z1]), Peer(5, 4, 1, [Start])), 4, {}, {EarlyReply(), ZReply()})
  {
    var a, b, d, e, f := LateChief(), Peer(2, 3, 0, [Start, Y1, Y2]), Chief(3, 3, [Start], [Start, Y1, Y2]),
                         Peer(4, 4, 1, [Start, Y1]), Peer(5, 4, 1, [Start]);
    var e' := Peer(4, 4, 1, [Start, Y1, Z1]);
    run := ZWritten();
    ZPasses();
    run := Passing(run, Five(a, b, d, e, f), 4, {EarlyReply()}, a, e, e', ZReply());
    JoinReplies(EarlyReply(), ZReply());
    FiveAt4(a, b, d, e, f, e');
  }

  /** The reply of term 2 and one of term 4 make a majority with server 1: Z1 is committed on two servers. */
  function Misinformed(): Node {
    RecordMatch(LateChief(), 2, 3)
  }

  function Rash(): Node {
    RecordMatch(Misinformed(), 4, 3).(commitIndex := 3)
  }

  lemma ZCommitted() returns (run: seq<Cluster>)
    ensures Comes(run, Five(Rash(), Peer(2, 3, 0, [Start, Y1, Y2]), Chief(3, 3, [Start], [Start, Y1, Y2]),
                            Peer(4, 4, 1, [Start, Y1, Z1]), Peer(5, 4, 1, [Start])), 4, {}, {})
  {
    var a, b, d, e, f := LateChief(), Peer(2, 3, 0, [Start, Y1, Y2]), Chief(3, 3, [Start], [Start, Y1, Y2]),
                         Peer(4, 4, 1, [Start, Y1, Z1]), Peer(5, 4, 1, [Start]);
    run := ZTaken();
    TooFew(Misinformed(), 2);
    run := Hearing(run, Five(a, b, d, e, f), 4, {EarlyReply(), ZReply()}, EarlyReply(), 1, Misinformed());
    FiveAt1(a, b, d, e, f, Misinformed());
    Enough(RecordMatch(Misinformed(), 4, 3), 2, 4);
    run := Hearing(run, Five(Misinformed(), b, d, e, f), 4, {EarlyReply(), ZReply()}, ZReply(), 3, Rash());
    FiveAt1(Misinformed(), b, d, e, f, Rash());
  }

  // ----- Term 5: server 3 commits Y2 at the index of Z1

  function LastChief(): Node {
    Chief(3, 5, [Start, Y1, Y2], [Start, Y1, Y2, W1])
  }

  lemma FifthStanding() returns (run: seq<Cluster>)
    ensures Comes(run, Five(Rash(), Peer(2, 3, 0, [Start, Y1, Y2]),
                            OverReport.Candidacy(Chief(3, 3, [Start], [Start, Y1, Y2])),
                            Peer(4, 4, 1, [Start, Y1, Z1]), Peer(5, 4, 1, [Start])), 4, {}, {})
  {
    var a, b, d, e, f := Rash(), Peer(2, 3, 0, [Start, Y1, Y2]), Chief(3, 3, [Start], [Start, Y1, Y2]),
                         Peer(4, 4, 1, [Start, Y1, Z1]), Peer(5, 4, 1, [Start]);
    run := ZCommitted();
    run := StandsFor(run, Five(a, b, d, e, f), 4, {}, d);
    FiveAt3(a, b, d, e, f, OverReport.Candidacy(d));
  }

  lemma TermFive() returns (run: seq<Cluster>)
    ensures Comes(run, Five(Rash(), Peer(2, 5, 3, [Start, Y1, Y2]), Chief(3, 5, [Start, Y1, Y2], [Start, Y1, Y2]),
                            Peer(4, 4, 1, [Start, Y1, Z1]), Peer(5, 5, 3, [Start])), 5, {}, {})
  {
    var a, b, e, f := Rash(), Peer(2, 3, 0, [Start, Y1, Y2]), Peer(4, 4, 1, [Start, Y1, Z1]), Peer(5, 4, 1, [Start]);
    var d := OverReport.Candidacy(Chief(3, 3, [Start], [Start, Y1, Y2]));
    var d' := Chief(3, 5, [Start, Y1, Y2], [Start, Y1, Y2]);
    var b', f' := Peer(2, 5, 3, [Start, Y1, Y2]), Peer(5, 5, 3, [Start]);
    run := FifthStanding();
    run := Winning(run, Five(a, b, d, e, f), 4, {}, d, b, f);
    ElectedIs(d);
    FiveAt3(a, b, d, e, f, d');
    FiveAt2(a, b, d', e, f, b');
    FiveAt5(a, b', d', e, f, f');
  }

  lemma WWritten() returns (run: seq<Cluster>)
    ensures Comes(run, Five(Rash(), Peer(2, 5, 3, [Start, Y1, Y2]), LastChief(), Peer(4, 4, 1, [Start, Y1, Z1]),
                            Peer(5, 5, 3, [Start])), 5, {}, {})
  {
    var a, b, d, e, f := Rash(), Peer(2, 5, 3, [Start, Y1, Y2]), Chief(3, 5, [Start, Y1, Y2], [Start, Y1, Y2]),
                         Peer(4, 4, 1, [Start, Y1, Z1]), Peer(5, 5, 3, [Start]);
    run := TermFive();
    run := Writing(run, Five(a, b, d, e, f), 5, {}, d);
    assert ClientAppend(d, []) == LastChief();
    FiveAt3(a, b, d, e, f, LastChief());
  }

  function WReply(): AppendReply {
    AppendReply(2, AppendReq(5, 3, 3, 3, [W1], 1), AppendRes(5, true, 4), [Start, Y1, Y2, W1])
  }

  lemma WPasses()
    ensures var b, b' := Peer(2, 5, 3, [Start, Y1, Y2]), Peer(2, 5, 3, [Start, Y1, Y2, W1]);
            AnswersAs(LastChief(), b, b', WReply())
  {
    Takes(LastChief(), Peer(2, 5, 3, [Start, Y1, Y2]), [Start, Y1, Y2, W1], [Start, Y1, Y2], 3);
    assert [Start, Y1, Y2, W1][3..] == [W1] && [Start, Y1, Y2][..3] + [W1] == [Start, Y1, Y2, W1];
  }

  lemma WTaken() returns (run: seq<Cluster>)
    ensures Comes(run, Five(Rash(), Peer(2, 5, 3, [Start, Y1, Y2, W1]), LastChief(), Peer(4, 4, 1, [Start, Y1, Z1]),
                            Peer(5, 5, 3, [Start])), 5, {}, {WReply()})
  {
    var a, b, d, e, f := Rash(), Peer(2, 5, 3, [Start, Y1, Y2]), LastChief(), Peer(4, 4, 1, [Start, Y1, Z1]),
                         Peer(5, 5, 3, [Start]);
    var b' := Peer(2, 5, 3, [Start, Y1, Y2, W1]);
    run := WWritten();
    WPasses();
    run := Passing(run, Five(a, b, d, e, f), 5, {}, d, b, b', WReply());
    JoinReplies(WReply(), WReply());
    FiveAt2(a, b, d, e, f, b');
  }

  /** Server 5 lacks everything and is sent it. */
  function Stepping(): Node {
    LastChief().(nextIndex := EveryPeer(4)[5 := 2])
  }

  function NoReply(): AppendReply {
    AppendReply(5, AppendReq(5, 3, 3, 3, [W1], 1), AppendRes(5, false, 1), [Start])
  }

  lemma NoPasses()
    ensures var f := Peer(5, 5, 3, [Start]);
            AnswersAs(LastChief(), f, f, NoReply())
    ensures OnAppendRefusal(LastChief(), 5, NoReply().res) == Stepping()
  {
    Lacks(LastChief(), Peer(5, 5, 3, [Start]), [Start, Y1, Y2, W1], [Start], 3);
    assert [Start, Y1, Y2, W1][3..] == [W1];
    assert LastChief().log.Lookup(2) == Some(Y1);
  }

  lemma FifthRefuses() returns (run: seq<Cluster>)
    ensures Comes(run, Five(Rash(), Peer(2, 5, 3, [Start, Y1, Y2, W1]), Stepping(), Peer(4, 4, 1, [Start, Y1, Z1]),
                            Peer(5, 5, 3, [Start])), 5, {}, {WReply()})
  {
    var a, b, d, e, f := Rash(), Peer(2, 5, 3, [Start, Y1, Y2, W1]), LastChief(), Peer(4, 4, 1, [Start, Y1, Z1]),
                         Peer(5, 5, 3, [Start]);
    run := WTaken();
    NoPasses();
    run := Passing(run, Five(a, b, d, e, f), 5, {WReply()}, d, f, f, NoReply());
    FiveAt5(a, b, d, e, f, f);
    run := Hearing(run, Five(a, b, d, e, f), 5, {WReply()} + {NoReply()}, NoReply(), 0, Stepping());
    FiveAt3(a, b, d, e, f, Stepping());
  }

  function AllReply(): AppendReply {
    AppendReply(5, AppendReq(5, 3, 1, 1, [Y1, Y2, W1], 1), AppendRes(5, true, 4), [Start, Y1, Y2, W1])
  }

  lemma AllPasses()
    ensures var f' := Peer(5, 5, 3, [Start, Y1, Y2, W1]);
            AnswersAs(Stepping(), Peer(5, 5, 3, [Start]), f', AllReply())
  {
    Takes(Stepping(), Peer(5, 5, 3, [Start]), [Start, Y1, Y2, W1], [Start], 1);
    assert [Start, Y1, Y2, W1][1..] == [Y1, Y2, W1] && [Start][..1] + [Y1, Y2, W1] == [Start, Y1, Y2, W1];
    assert Following(Peer(5, 5, 3, [Start]), 5, [Start, Y1, Y2, W1]) == Peer(5, 5, 3, [Start, Y1, Y2, W1]);
  }

  lemma AllTaken() returns (run: seq<Cluster>)
    ensures Comes(run, Five(Rash(), Peer(2, 5, 3, [Start, Y1, Y2, W1]), Stepping(), Peer(4, 4, 1, [Start, Y1, Z1]),
                            Peer(5, 5, 3, [Start, Y1, Y2, W1])), 5, {}, {WReply(), AllReply()})
  {
    var a, b, d, e, f := Rash(), Peer(2, 5, 3, [Start, Y1, Y2, W1]), Stepping(), Peer(4, 4, 1, [Start, Y1, Z1]),
                         Peer(5, 5, 3, [Start]);
    var f' := Peer(5, 5, 3, [Start, Y1, Y2, W1]);
    run := FifthRefuses();
    AllPasses();
    run := Passing(run, Five(a, b, d, e, f), 5, {WReply()}, d, f, f', AllReply());
    JoinReplies(WReply(), AllReply());
    FiveAt5(a, b, d, e, f, f');
  }

  function Right(): Node {
    RecordMatch(RecordMatch(Stepping(), 2, 4), 5, 4).(commitIndex := 4)
  }

  lemma WCommitted() returns (run: seq<Cluster>)
    ensures Comes(run, Five(Rash(), Peer(2, 5, 3, [Start, Y1, Y2, W1]), Right(), Peer(4, 4, 1, [Start, Y1, Z1]),
                            Peer(5, 5, 3, [Start, Y1, Y2, W1])), 5, {}, {})
  {
    var a, b, d, e, f := Rash(), Peer(2, 5, 3, [Start, Y1, Y2, W1]), Stepping(), Peer(4, 4, 1, [Start, Y1, Z1]),
                         Peer(5, 5, 3, [Start, Y1, Y2, W1]);
    var d' := RecordMatch(d, 2, 4);
    run := AllTaken();
    TooFew(d', 2);
    run := Hearing(run, Five(a, b, d, e, f), 5, {WReply(), AllReply()}, WReply(), 1, d');
    FiveAt3(a, b, d, e, f, d');
    Enough(RecordMatch(d', 5, 4), 2, 5);
    run := Hearing(run, Five(a, b, d', e, f), 5, {WReply(), AllReply()}, AllReply(), 4, Right());
    FiveAt3(a, b, d', e, f, Right());
  }

  /** Where leaders do not compare terms State Machine Safety fails: servers 1 and 3 commit Z1 and Y2 at index 3. */
  lemma StaleReplyBreaksSafety() returns (run: seq<Cluster>, a: Id, b: Id, index: nat)
    ensures HalfRun(run)
    ensures var c := run[|run| - 1];
            && a in c.nodes && b in c.nodes && 1 <= index
            && index <= c.nodes[a].commitIndex <= |c.nodes[a].log.entries|
            && index <= c.nodes[b].commitIndex <= |c.nodes[b].log.entries|
            && c.nodes[a].log.entries[index - 1] != c.nodes[b].log.entries[index - 1]
  {
    run := WCommitted();
    a, b, index := 1, 3, 3;
  }
}
