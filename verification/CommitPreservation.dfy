/** Honest steps keep the invariant of module `CommitInvariants`. */
module CommitPreservation {
  import opened RaftLog
  import opened Server
  import opened Protocol
  import opened Invariants
  import opened CommitInvariants
  import opened Preservation

  // ----- What never shrinks

  ghost predicate AcksGrow(c: Cluster, c': Cluster)
    requires c.nodes.Keys == c.members
  {
    forall q, t | q in c.members ::
      && Acked(c.hist, q, t) <= Acked(c'.hist, q, t)
      && (Acked(c.hist, q, t) < Acked(c'.hist, q, t) ==> c.nodes[q].term <= t)
  }

  /** Terms, reigns and confirmations only grow, and nobody confirms for a term it has left. */
  ghost predicate Onward(c: Cluster, c': Cluster) {
    && c'.members == c.members && c.nodes.Keys == c.members && NodesAdvance(c.nodes, c'.nodes)
    && ReignsGrow(c.hist.reigns, c'.hist.reigns)
    && AcksGrow(c, c')
  }

  lemma AbleShrinks(c: Cluster, c': Cluster, t: nat, k: nat)
    requires Onward(c, c')
    ensures Able(c', t, k) <= Able(c, t, k)
  {
    forall q | q in Able(c', t, k) ensures q in Able(c, t, k) {
      assert Acked(c.hist, q, t) <= Acked(c'.hist, q, t);
    }
  }

  /** What can be chosen after a step could be chosen before it, unless the reign's log just grew to it. */
  lemma ChoosableBefore(c: Cluster, c': Cluster, t: nat, k: nat)
    requires Onward(c, c') && Choosable(c', t, k)
    requires t in c.hist.reigns && k <= |c.hist.reigns[t].log|
    ensures Choosable(c, t, k) && Head(c'.hist.reigns, t, k) == Head(c.hist.reigns, t, k)
  {
    AbleShrinks(c, c', t, k);
    SubsetSize(Able(c', t, k), Able(c, t, k));
  }

  lemma CommittedStays(c: Cluster, c': Cluster, t: nat, k: nat)
    requires Onward(c, c') && Committed(c, t, k)
    ensures Committed(c', t, k) && Head(c'.hist.reigns, t, k) == Head(c.hist.reigns, t, k)
  {
    forall q | q in Holding(c, t, k) ensures q in Holding(c', t, k) {
      assert Acked(c.hist, q, t) <= Acked(c'.hist, q, t);
    }
    SubsetSize(Holding(c, t, k), Holding(c', t, k));
  }

  lemma CommitSafeStays(c: Cluster, c': Cluster, log: seq<Entry>, commit: nat, t: nat, t': nat)
    requires Onward(c, c') && CommitSafe(c, log, commit, t) && t <= t'
    ensures CommitSafe(c', log, commit, t')
  {
    if commit > 0 {
      var u, k :| CommitWitness(c, log, commit, t, u, k);
      CommittedStays(c, c', u, k);
      assert CommitWitness(c', log, commit, t', u, k);
    }
  }

  /** A commit index justified for one log is justified for any log with the same head. */
  lemma CommitSafeMoves(c: Cluster, log: seq<Entry>, log': seq<Entry>, commit: nat, commit': nat, t: nat)
    requires CommitSafe(c, log, commit, t) && commit' <= commit && commit' <= |log'|
    requires log'[..commit'] == log[..commit']
    ensures CommitSafe(c, log', commit', t)
  {
    if commit' > 0 {
      var u, k :| CommitWitness(c, log, commit, t, u, k);
      assert log[..commit'] == log[..commit][..commit'];
      assert Head(c.hist.reigns, u, commit') == Head(c.hist.reigns, u, commit)[..commit'];
      assert CommitWitness(c, log', commit', t, u, k);
    }
  }

  lemma CommitsStay(c: Cluster, c': Cluster, s': Node)
    requires Onward(c, c') && CommitsOk(c) && s'.id in c.nodes && c'.nodes == c.nodes[s'.id := s']
    requires CommitSafe(c', s'.log.entries, s'.commitIndex, s'.term)
    ensures CommitsOk(c')
  {
    forall i | i in c'.nodes
      ensures CommitSafe(c', c'.nodes[i].log.entries, c'.nodes[i].commitIndex, c'.nodes[i].term)
    {
      if i != s'.id {
        var n := c.nodes[i];
        assert CommitSafe(c, n.log.entries, n.commitIndex, n.term);
        CommitSafeStays(c, c', n.log.entries, n.commitIndex, n.term, n.term);
      }
    }
  }

  lemma RequestCommitStays(c: Cluster, c': Cluster, req: AppendReq)
    requires Onward(c, c') && RequestCommitOk(c, req)
    ensures RequestCommitOk(c', req)
  {
    var log, log' := c.hist.reigns[req.term].log, c'.hist.reigns[req.term].log;
    CommitSafeStays(c, c', log, req.leaderCommit, req.term, req.term);
    CommitSafeMoves(c', log, log', req.leaderCommit, req.leaderCommit, req.term);
  }

  lemma RequestCommitsStay(c: Cluster, c': Cluster)
    requires Onward(c, c') && RequestCommitsOk(c) && c'.net.appendReqs == c.net.appendReqs
    ensures RequestCommitsOk(c')
  {
    forall m | m in c'.net.appendReqs ensures RequestCommitOk(c', m.req) {
      assert RequestCommitOk(c, m.req);
      RequestCommitStays(c, c', m.req);
    }
  }

  // ----- Steps that change neither logs nor votes nor confirmations

  lemma QuietChoices(c: Cluster, c': Cluster)
    requires Onward(c, c') && ChoicesKept(c)
    requires c'.hist.reigns == c.hist.reigns && c'.hist.grants == c.hist.grants && c'.hist.acked == c.hist.acked
    requires forall i | i in c.nodes :: c'.nodes[i].log == c.nodes[i].log
    ensures ChoicesKept(c')
  {
    forall t, k | Choosable(c', t, k) ensures Kept(c', t, k) {
      ChoosableBefore(c, c', t, k);
      assert Kept(c, t, k);
    }
  }

  /** The candidate whose votes and requests speak of its log still has that log, or is no candidate of that term. */
  predicate StillSpoken(s: Node, s': Node) {
    s'.id == s.id && (s'.role == Candidate ==> s.role == Candidate && s'.term == s.term && s'.log == s.log)
  }

  lemma SpokenStays(nodes: Nodes, s': Node, reigns: Reigns, grants: Grants, reqs: set<VoteMsg>)
    requires GrantLogsOk(nodes, reigns, grants) && VoteReqLogsOk(nodes, reqs)
    requires s'.id in nodes && StillSpoken(nodes[s'.id], s')
    ensures GrantLogsOk(nodes[s'.id := s'], reigns, grants) && VoteReqLogsOk(nodes[s'.id := s'], reqs)
  {
    var nodes' := nodes[s'.id := s'];
    forall key | key in grants ensures GrantLogOk(nodes', key.0, key.1, grants[key]) {
      assert GrantLogOk(nodes, key.0, key.1, grants[key]);
    }
    forall m | m in reqs ensures VoteReqLogOk(nodes', m.req) {
      assert VoteReqLogOk(nodes, m.req);
    }
  }

  lemma WovenGrants(reigns: Reigns, reigns': Reigns, nodes: Nodes, grants: Grants)
    requires GrantLogsOk(nodes, reigns, grants) && ReignsGrow(reigns, reigns')
    ensures GrantLogsOk(nodes, reigns', grants)
  {
    forall key | key in grants ensures Woven(reigns', grants[key].log) {
      WovenGrows(reigns, reigns', grants[key].log);
    }
  }

  lemma LeadersStay(nodes: Nodes, h: History, s': Node)
    requires LeadersKnow(nodes, h) && s'.id in nodes && LeaderKnows(h, s')
    ensures LeadersKnow(nodes[s'.id := s'], h)
  {
    var nodes' := nodes[s'.id := s'];
    forall i | i in nodes' ensures LeaderKnows(h, nodes'[i]) {
      assert LeaderKnows(h, nodes[i]);
    }
  }

  lemma AcksAdvance(nodes: Nodes, nodes': Nodes, reigns: Reigns, acked: map<(Id, nat), nat>)
    requires AcksOk(nodes, reigns, acked) && NodesAdvance(nodes, nodes')
    ensures AcksOk(nodes', reigns, acked)
  {
    forall key | key in acked ensures AckOk(nodes', reigns, key.0, key.1, acked[key]) {
      assert AckOk(nodes, reigns, key.0, key.1, acked[key]);
    }
  }

  predicate Quiet(s: Node, s': Node) {
    s'.term >= s.term && s'.log == s.log && StillSpoken(s, s')
  }

  /** One server changes, its log does not, and its new leader and commit state is justified. */
  lemma QuietKeepsCommitInv(c: Cluster, s': Node)
    requires CommitInv(c) && s'.id in c.nodes && Quiet(c.nodes[s'.id], s')
    requires LeaderKnows(c.hist, s')
    requires CommitSafe(c, s'.log.entries, s'.commitIndex, s'.term)
    ensures CommitInv(Put(c, s'))
  {
    var c' := Put(c, s');
    assert Onward(c, c');
    QuietChoices(c, c');
    SpokenStays(c.nodes, s', c.hist.reigns, c.hist.grants, c.net.voteReqs);
    LeadersStay(c.nodes, c.hist, s');
    AcksAdvance(c.nodes, c'.nodes, c.hist.reigns, c.hist.acked);
    CommitSafeStays(c, c', s'.log.entries, s'.commitIndex, s'.term, s'.term);
    CommitsStay(c, c', s');
    RequestCommitsStay(c, c');
  }

  lemma NodeFacts(c: Cluster, id: Id)
    requires SafetyInv(c) && id in c.nodes
    ensures NodeOk(c.members, c.hist.reigns, id, c.nodes[id])
    ensures LeaderKnows(c.hist, c.nodes[id])
    ensures CommitSafe(c, c.nodes[id].log.entries, c.nodes[id].commitIndex, c.nodes[id].term)
  {
  }

  lemma YieldKeepsCommits(c: Cluster, id: Id)
    requires SafetyInv(c) && id in c.nodes
    ensures CommitInv(Put(c, c.nodes[id].(role := Follower)))
  {
    NodeFacts(c, id);
    QuietKeepsCommitInv(c, c.nodes[id].(role := Follower));
  }

  lemma RebootKeepsCommits(c: Cluster, id: Id, commit: nat)
    requires SafetyInv(c) && id in c.nodes && commit <= c.nodes[id].commitIndex
    ensures CommitInv(Put(c, Rebooted(c.nodes[id], commit)))
  {
    NodeFacts(c, id);
    var s := c.nodes[id];
    CommitSafeMoves(c, s.log.entries, s.log.entries, s.commitIndex, commit, s.term);
    QuietKeepsCommitInv(c, Rebooted(s, commit));
  }

  // ----- The leader's commit rule

  /** An index a leader finds committable is confirmed by a majority in its term. */
  lemma CommittableIsCommitted(c: Cluster, s: Node, index: nat)
    requires s.cluster == c.members && s.log == Full(s.log.entries) && s.role == Leader
    requires s.id in c.members && s.term in c.hist.reigns && c.hist.reigns[s.term].log == s.log.entries
    requires LeaderKnows(c.hist, s) && s.matchIndex.Keys == c.members
    requires Committable(s, index) || (Alone(s) && index == |s.log.entries| > 0)
    ensures CommitSafe(c, s.log.entries, index, s.term)
  {
    var holders := if Alone(s) then {s.id} else Holders(s, index);
    assert holders <= Holding(c, s.term, index);
    SubsetSize(holders, Holding(c, s.term, index));
    assert CommitWitness(c, s.log.entries, index, s.term, s.term, index);
  }

  lemma CommitAloneKeepsCommits(c: Cluster, id: Id)
    requires SafetyInv(c) && id in c.nodes && c.nodes[id].role == Leader && Alone(c.nodes[id])
    ensures CommitInv(Put(c, c.nodes[id].(commitIndex := c.nodes[id].log.LastIndex())))
  {
    NodeFacts(c, id);
    CommittableIsCommitted(c, c.nodes[id], c.nodes[id].log.LastIndex());
    QuietKeepsCommitInv(c, c.nodes[id].(commitIndex := c.nodes[id].log.LastIndex()));
  }

  lemma ReplyFacts(c: Cluster, r: AppendReply)
    requires SafetyInv(c) && r in c.net.appendReplies
    ensures ReplyOk(c.members, c.hist.reigns, r) && SuccessOk(c.hist, r)
  {
  }

  lemma RecordKnows(h: History, s: Node, from: Id, matchIndex: nat)
    requires LeaderKnows(h, s) && s.role == Leader && from != s.id && matchIndex <= Acked(h, from, s.term)
    requires matchIndex <= |s.log.entries|
    ensures LeaderKnows(h, RecordMatch(s, from, matchIndex))
  {
  }

  /** An honest success reply reports a peer's confirmation in the leader's own term. */
  lemma HonestMatch(c: Cluster, s: Node, r: AppendReply)
    requires NodeOk(c.members, c.hist.reigns, r.req.leader, s) && LeaderKnows(c.hist, s)
    requires ReplyOk(c.members, c.hist.reigns, r) && SuccessOk(c.hist, r)
    requires s.role == Leader && r.res.success && Honest(s, r)
    ensures LeaderKnows(c.hist, RecordMatch(s, r.from, r.res.matchIndex))
  {
    RecordKnows(c.hist, s, r.from, r.res.matchIndex);
  }

  /** Under the commit rule a leader's new commit index is its old one or a majority's confirmation. */
  lemma RuleIsSafe(c: Cluster, s: Node, commit: nat)
    requires NodeOk(c.members, c.hist.reigns, s.id, s) && LeaderKnows(c.hist, s) && s.role == Leader
    requires s.id in c.members && CommitSafe(c, s.log.entries, s.commitIndex, s.term) && CommitRule(s, commit)
    ensures CommitSafe(c, s.log.entries, commit, s.term)
  {
    if commit != s.commitIndex {
      CommittableIsCommitted(c, s, commit);
    }
  }

  lemma HonestOutcome(c: Cluster, s: Node, r: AppendReply, commit: nat, s': Node)
    requires NodeOk(c.members, c.hist.reigns, s.id, s) && LeaderKnows(c.hist, s) && s.id == r.req.leader
    requires AcksOk(c.nodes, c.hist.reigns, c.hist.acked) && s.id in c.members
    requires ReplyOk(c.members, c.hist.reigns, r) && SuccessOk(c.hist, r)
    requires CommitSafe(c, s.log.entries, s.commitIndex, s.term)
    requires s.role == Leader && r.res.success && Honest(s, r) && SuccessOutcome(s, r, commit, s')
    ensures Quiet(s, s') && LeaderKnows(c.hist, s')
    ensures CommitSafe(c, s'.log.entries, s'.commitIndex, s'.term)
  {
    HonestMatch(c, s, r);
    var s1 := RecordMatch(s, r.from, r.res.matchIndex);
    NoStrays(c, s1);
    RuleIsSafe(c, s1, commit);
    assert s' == s1.(commitIndex := commit);
  }

  lemma SuccessKeepsCommits(c: Cluster, r: AppendReply, commit: nat, s': Node)
    requires SafetyInv(c) && r in c.net.appendReplies && r.req.leader in c.nodes
    requires var s := c.nodes[r.req.leader];
             s.role == Leader && r.res.success && Honest(s, r) && SuccessOutcome(s, r, commit, s')
    ensures CommitInv(Put(c, s'))
  {
    NodeFacts(c, r.req.leader);
    ReplyFacts(c, r);
    HonestOutcome(c, c.nodes[r.req.leader], r, commit, s');
    QuietKeepsCommitInv(c, s');
  }

  /** A leader that knows only confirmed matches never looks up a missing entry. */
  lemma NoStrays(c: Cluster, s: Node)
    requires AcksOk(c.nodes, c.hist.reigns, c.hist.acked) && LeaderKnows(c.hist, s) && s.role == Leader
    requires s.matchIndex.Keys == c.members && s.cluster == c.members && s.log == Full(s.log.entries)
    requires s.term in c.hist.reigns && c.hist.reigns[s.term].log == s.log.entries
    ensures !CommitFaults(s)
  {
    forall n: Id ensures !Stray(s, n) {
      if n in s.cluster && n != s.id {
        var key := (n, s.term);
        assert key in c.hist.acked ==> AckOk(c.nodes, c.hist.reigns, key.0, key.1, c.hist.acked[key]);
      }
    }
  }

  lemma RefusedNode(members: set<Id>, reigns: Reigns, h: History, s: Node, r: AppendReply)
    requires NodeOk(members, reigns, s.id, s) && LeaderKnows(h, s)
    ensures var s' := OnAppendRefusal(s, r.from, r.res);
            Quiet(s, s') && LeaderKnows(h, s') && s'.commitIndex == s.commitIndex && s'.term >= s.term
  {
  }

  lemma RefusalKeepsCommits(c: Cluster, r: AppendReply)
    requires SafetyInv(c) && r in c.net.appendReplies && r.req.leader in c.nodes
    ensures CommitInv(Put(c, OnAppendRefusal(c.nodes[r.req.leader], r.from, r.res)))
  {
    var s := c.nodes[r.req.leader];
    NodeFacts(c, r.req.leader);
    RefusedNode(c.members, c.hist.reigns, c.hist, s, r);
    var s' := OnAppendRefusal(s, r.from, r.res);
    CommitSafeStays(c, c, s.log.entries, s.commitIndex, s.term, s'.term);
    QuietKeepsCommitInv(c, s');
  }

  // ----- append_entries: sending

  /** A request runs to the end of the leader's log, so what it announces as committed is part of it. */
  lemma SentCommitOk(c: Cluster, s: Node, next: nat)
    requires NodeOk(c.members, c.hist.reigns, s.id, s) && s.role == Leader && 1 <= next <= |s.log.entries| + 1
    requires CommitSafe(c, s.log.entries, s.commitIndex, s.term)
    ensures RequestCommitOk(c, BuildAppendReq(s, next))
  {
    var req := BuildAppendReq(s, next);
    assert req.prevIndex == next - 1;
    assert |req.entries| == |s.log.entries| - (next - 1);
  }

  lemma SendAppendKeepsCommits(c: Cluster, id: Id, to: Id)
    requires SafetyInv(c) && id in c.nodes && c.nodes[id].role == Leader && to in c.nodes[id].nextIndex
    ensures CommitInv(DoSendAppend(c, id, to))
  {
    NodeFacts(c, id);
    SentCommitOk(c, c.nodes[id], c.nodes[id].nextIndex[to]);
    RequestKeepsCommits(c, AppendMsg(to, BuildAppendReq(c.nodes[id], c.nodes[id].nextIndex[to])));
  }

  lemma StretchCommitOk(c: Cluster, s: Node, prev: nat, count: nat)
    requires NodeOk(c.members, c.hist.reigns, s.id, s) && s.role == Leader
    requires CommitSafe(c, s.log.entries, s.commitIndex, s.term)
    requires s.commitIndex <= prev + count <= |s.log.entries|
    ensures RequestCommitOk(c, StretchReq(s, prev, count))
  {
    assert |s.log.entries[prev..prev + count]| == count;
  }

  lemma SendStretchKeepsCommits(c: Cluster, id: Id, to: Id, prev: nat, count: nat)
    requires SafetyInv(c) && id in c.nodes && c.nodes[id].role == Leader
    requires prev + count <= |c.nodes[id].log.entries| && c.nodes[id].commitIndex <= prev + count
    ensures CommitInv(DoSendStretch(c, id, to, prev, count))
  {
    NodeFacts(c, id);
    StretchCommitOk(c, c.nodes[id], prev, count);
    RequestKeepsCommits(c, AppendMsg(to, StretchReq(c.nodes[id], prev, count)));
  }

  lemma RequestKeepsCommits(c: Cluster, m: AppendMsg)
    requires CommitInv(c) && RequestCommitOk(c, m.req)
    ensures CommitInv(c.(net := c.net.(appendReqs := c.net.appendReqs + {m})))
  {
    var c' := c.(net := c.net.(appendReqs := c.net.appendReqs + {m}));
    assert Onward(c, c');
    QuietChoices(c, c');
    CommitsStayAll(c, c');
    forall m' | m' in c'.net.appendReqs ensures RequestCommitOk(c', m'.req) {
      assert m' != m ==> RequestCommitOk(c, m'.req);
      RequestCommitStays(c, c', m'.req);
    }
  }

  lemma CommitsStayAll(c: Cluster, c': Cluster)
    requires Onward(c, c') && CommitsOk(c) && c'.nodes == c.nodes
    ensures CommitsOk(c')
  {
    forall i | i in c'.nodes
      ensures CommitSafe(c', c'.nodes[i].log.entries, c'.nodes[i].commitIndex, c'.nodes[i].term)
    {
      var n := c.nodes[i];
      assert CommitSafe(c, n.log.entries, n.commitIndex, n.term);
      CommitSafeStays(c, c', n.log.entries, n.commitIndex, n.term, n.term);
    }
  }

  // ----- request_vote: voting

  /** A first grant records a log that holds every choosable prefix its giver confirmed. */
  lemma GrantChoices(c: Cluster, c': Cluster, voter: Id, t: nat)
    requires Onward(c, c') && ChoicesKept(c) && voter in c.members
    requires c'.hist.reigns == c.hist.reigns && c'.hist.acked == c.hist.acked
    requires forall i | i in c.nodes :: c'.nodes[i].log == c.nodes[i].log
    requires forall key | key in c'.hist.grants ::
               if key in c.hist.grants then c'.hist.grants[key] == c.hist.grants[key]
               else key.0 == voter && c'.hist.grants[key].log == c.nodes[voter].log.entries
    ensures ChoicesKept(c')
  {
    forall t, k | Choosable(c', t, k) ensures Kept(c', t, k) {
      ChoosableBefore(c, c', t, k);
      assert Kept(c, t, k);
    }
  }

  lemma DeliverVoteKeepsCommits(c: Cluster, m: VoteMsg)
    requires SafetyInv(c) && m in c.net.voteReqs && m.to in c.nodes
    ensures CommitInv(DoDeliverVote(c, m))
  {
    NodeFacts(c, m.to);
    DeliverVoteSpoken(c, m);
    DeliverVoteRest(c, m);
    assert SuccessesOk(DoDeliverVote(c, m).hist, c.net.appendReplies) by {
      forall r | r in c.net.appendReplies ensures SuccessOk(DoDeliverVote(c, m).hist, r) { ReplyFacts(c, r); }
    }
  }

  lemma DeliverVoteRest(c: Cluster, m: VoteMsg)
    requires CommitInv(c) && m.to in c.nodes && c.nodes[m.to].id == m.to
    requires var s := c.nodes[m.to];
             LeaderKnows(c.hist, s) && CommitSafe(c, s.log.entries, s.commitIndex, s.term)
    ensures var c' := DoDeliverVote(c, m);
            && c'.nodes.Keys == c'.members
            && AcksOk(c'.nodes, c'.hist.reigns, c'.hist.acked) && LeadersKnow(c'.nodes, c'.hist)
            && ChoicesKept(c') && CommitsOk(c') && RequestCommitsOk(c')
  {
    var s := c.nodes[m.to];
    var s' := OnVoteRequest(s, m.req).0;
    var c' := DoDeliverVote(c, m);
    VotedNode(s, m.req);
    VoteOnward(c, s', c');
    GrantChoices(c, c', m.to, m.req.term);
    VotedKnows(c, s', c');
    AcksAdvance(c.nodes, c'.nodes, c.hist.reigns, c.hist.acked);
    RequestCommitsStay(c, c');
  }

  lemma VotedKnows(c: Cluster, s': Node, c': Cluster)
    requires LeadersKnow(c.nodes, c.hist) && CommitsOk(c) && s'.id in c.nodes
    requires var s := c.nodes[s'.id];
             && s' == s.(role := s'.role, term := s'.term, votedFor := s'.votedFor) && s.term <= s'.term
             && (s'.role == Follower || (s'.role == s.role && s'.term == s.term))
    requires Onward(c, c') && c'.nodes == c.nodes[s'.id := s'] && c'.hist.acked == c.hist.acked
    ensures LeadersKnow(c'.nodes, c'.hist) && CommitsOk(c')
  {
    var s := c.nodes[s'.id];
    assert LeaderKnows(c.hist, s);
    forall i | i in c'.nodes ensures LeaderKnows(c'.hist, c'.nodes[i]) {
      assert LeaderKnows(c.hist, c.nodes[i]);
    }
    assert CommitSafe(c, s.log.entries, s.commitIndex, s.term);
    CommitSafeStays(c, c', s.log.entries, s.commitIndex, s.term, s'.term);
    CommitsStay(c, c', s');
  }

  lemma VoteOnward(c: Cluster, s': Node, c': Cluster)
    requires c.nodes.Keys == c.members && s'.id in c.nodes && s'.term >= c.nodes[s'.id].term
    requires c'.members == c.members && c'.nodes == c.nodes[s'.id := s']
    requires c'.hist.reigns == c.hist.reigns && c'.hist.acked == c.hist.acked
    ensures Onward(c, c')
  {
  }

  lemma DeliverVoteSpoken(c: Cluster, m: VoteMsg)
    requires SafetyInv(c) && m in c.net.voteReqs && m.to in c.nodes
    ensures var c' := DoDeliverVote(c, m);
            GrantLogsOk(c'.nodes, c'.hist.reigns, c'.hist.grants) && VoteReqLogsOk(c'.nodes, c'.net.voteReqs)
  {
    NodeFacts(c, m.to);
    assert m.to != m.req.candidate;
    VoteSpoken(c, m);
  }

  lemma VoteSpoken(c: Cluster, m: VoteMsg)
    requires GrantLogsOk(c.nodes, c.hist.reigns, c.hist.grants) && VoteReqLogsOk(c.nodes, c.net.voteReqs)
    requires m in c.net.voteReqs && m.to in c.nodes && m.to != m.req.candidate
    requires NodeOk(c.members, c.hist.reigns, m.to, c.nodes[m.to])
    ensures var c' := DoDeliverVote(c, m);
            GrantLogsOk(c'.nodes, c'.hist.reigns, c'.hist.grants) && VoteReqLogsOk(c'.nodes, c'.net.voteReqs)
  {
    var s := c.nodes[m.to];
    var s' := OnVoteRequest(s, m.req).0;
    VotedNode(s, m.req);
    SpokenStays(c.nodes, s', c.hist.reigns, c.hist.grants, c.net.voteReqs);
    assert VoteReqLogOk(c.nodes[m.to := s'], m.req);
  }
}
