/** Every step keeps the invariant of module `Invariants`. */
module Preservation {
  import opened RaftLog
  import opened Server
  import opened Protocol
  import opened Invariants

  // ----- What one server's change must respect

  ghost predicate NodesAdvance(nodes: Nodes, nodes': Nodes) {
    && nodes'.Keys == nodes.Keys
    && forall i | i in nodes :: nodes'[i].term >= nodes[i].term
  }

  lemma TimelyAdvances(nodes: Nodes, nodes': Nodes, reqs: set<VoteMsg>, replies: set<VoteReply>, grants: Grants,
                       ballots: BallotBox)
    requires TimelyOk(nodes, reqs, replies, grants, ballots) && NodesAdvance(nodes, nodes')
    ensures TimelyOk(nodes', reqs, replies, grants, ballots)
  {
    forall m | m in reqs ensures Reached(nodes', m.req.candidate, m.req.term) {
      assert Reached(nodes, m.req.candidate, m.req.term);
    }
    forall r | r in replies ensures Reached(nodes', r.req.candidate, r.req.term) {
      assert Reached(nodes, r.req.candidate, r.req.term);
    }
    forall key | key in grants ensures Reached(nodes', grants[key].candidate, key.1) {
      assert Reached(nodes, grants[key].candidate, key.1);
    }
    forall key | key in ballots ensures Reached(nodes', key.0, key.1) {
      assert Reached(nodes, key.0, key.1);
    }
  }

  lemma OwnersAdvance(nodes: Nodes, s': Node, reigns: Reigns)
    requires OwnersOk(nodes, reigns) && s'.id in nodes
    requires var s := nodes[s'.id];
             s'.term > s.term || (s'.term == s.term && (s'.role == Candidate ==> s.role == Candidate))
    ensures OwnersOk(nodes[s'.id := s'], reigns)
  {
    forall t | t in reigns && t > 1 ensures CandidacyOver(nodes[s'.id := s'], reigns[t].owner, t) {
      assert CandidacyOver(nodes, reigns[t].owner, t);
    }
  }

  lemma SlotsAdvance(nodes: Nodes, s': Node, grants: Grants)
    requires SlotsOk(nodes, grants) && s'.id in nodes
    requires var s := nodes[s'.id]; s'.term > s.term || (s'.term == s.term && s'.votedFor == s.votedFor)
    ensures SlotsOk(nodes[s'.id := s'], grants)
  {
    forall key | key in grants ensures Bound(nodes[s'.id := s'], key.0, key.1, grants[key].candidate) {
      assert Bound(nodes, key.0, key.1, grants[key].candidate);
    }
  }

  lemma CandidatesAdvance(nodes: Nodes, s': Node, ballots: BallotBox)
    requires CandidatesOk(nodes, ballots) && s'.id in nodes && CandidateOk(ballots, s'.id, s')
    ensures CandidatesOk(nodes[s'.id := s'], ballots)
  {
    var nodes' := nodes[s'.id := s'];
    forall i | i in nodes' ensures CandidateOk(ballots, i, nodes'[i]) {
      assert CandidateOk(ballots, i, nodes[i]);
    }
  }

  lemma NodesUpdate(members: set<Id>, nodes: Nodes, reigns: Reigns, s': Node)
    requires NodesOk(members, nodes, reigns) && s'.id in members && NodeOk(members, reigns, s'.id, s')
    ensures NodesOk(members, nodes[s'.id := s'], reigns)
  {
    forall i | i in members ensures NodeOk(members, reigns, i, nodes[s'.id := s'][i]) {
      assert NodeOk(members, reigns, i, nodes[i]);
    }
  }

  // ----- Steps that leave the history of votes alone

  /** A change of one server with no vote given and no office gained. */
  ghost predicate Steady(s: Node, s': Node) {
    && s'.id == s.id
    && (s'.term > s.term || (s'.term == s.term && s'.votedFor == s.votedFor))
    && (s'.role == Candidate ==> s.role == Candidate && s'.term == s.term && s'.votes == s.votes)
  }

  lemma SteadyKeepsVotes(c: Cluster, s': Node)
    requires VoteInv(c) && s'.id in c.nodes && Steady(c.nodes[s'.id], s')
    ensures VoteInv(Put(c, s'))
  {
    OwnersAdvance(c.nodes, s', c.hist.reigns);
    SlotsAdvance(c.nodes, s', c.hist.grants);
    TimelyAdvances(c.nodes, c.nodes[s'.id := s'], c.net.voteReqs, c.net.voteReplies, c.hist.grants, c.hist.ballots);
    assert CandidateOk(c.hist.ballots, s'.id, c.nodes[s'.id]);
    CandidatesAdvance(c.nodes, s', c.hist.ballots);
  }

  lemma SteadyKeepsInv(c: Cluster, s': Node)
    requires Inv(c) && s'.id in c.nodes && Steady(c.nodes[s'.id], s')
    requires NodeOk(c.members, c.hist.reigns, s'.id, s')
    ensures Inv(Put(c, s'))
  {
    SteadyKeepsVotes(c, s');
    NodesUpdate(c.members, c.nodes, c.hist.reigns, s');
  }

  lemma YieldKeepsInv(c: Cluster, id: Id)
    requires Inv(c) && id in c.nodes
    ensures Inv(Put(c, c.nodes[id].(role := Follower)))
  {
    assert NodeOk(c.members, c.hist.reigns, id, c.nodes[id]);
    SteadyKeepsInv(c, c.nodes[id].(role := Follower));
  }

  lemma RebootKeepsInv(c: Cluster, id: Id, commit: nat)
    requires Inv(c) && id in c.nodes
    ensures Inv(Put(c, Rebooted(c.nodes[id], commit)))
  {
    assert NodeOk(c.members, c.hist.reigns, id, c.nodes[id]);
    SteadyKeepsInv(c, Rebooted(c.nodes[id], commit));
  }

  lemma CommitAloneKeepsInv(c: Cluster, id: Id, commit: nat)
    requires Inv(c) && id in c.nodes
    ensures Inv(Put(c, c.nodes[id].(commitIndex := commit)))
  {
    assert NodeOk(c.members, c.hist.reigns, id, c.nodes[id]);
    SteadyKeepsInv(c, c.nodes[id].(commitIndex := commit));
  }

  lemma OutcomeNode(members: set<Id>, reigns: Reigns, s: Node, r: AppendReply, commit: nat, s': Node)
    requires NodeOk(members, reigns, s.id, s) && r.from in members && ReplyOutcome(s, r, commit, s')
    ensures NodeOk(members, reigns, s.id, s') && Steady(s, s')
  {
    if s.role == Leader && r.res.success {
      RecordedNode(members, reigns, s, r.from, r.res.matchIndex);
    } else {
      RefusedReplyNode(members, reigns, s, r.from, r.res);
    }
  }

  lemma RecordedNode(members: set<Id>, reigns: Reigns, s: Node, from: Id, matchIndex: nat)
    requires NodeOk(members, reigns, s.id, s) && from in members && s.role == Leader
    ensures var s1 := RecordMatch(s, from, matchIndex); NodeOk(members, reigns, s.id, s1) && Steady(s, s1)
  {
  }

  lemma RefusedReplyNode(members: set<Id>, reigns: Reigns, s: Node, from: Id, res: AppendRes)
    requires NodeOk(members, reigns, s.id, s) && from in members
    ensures NodeOk(members, reigns, s.id, OnAppendRefusal(s, from, res)) && Steady(s, OnAppendRefusal(s, from, res))
  {
    if s.role == Leader && res.term <= s.term {
      var next := ResumedAt(s, from, res);
    }
  }

  /** A refused leader goes on sending from within its log. */
  lemma ResumedAt(s: Node, p: Id, res: AppendRes) returns (next: nat)
    requires s.role == Leader && res.term <= s.term
    ensures 1 <= next <= s.log.LastIndex() + 1
    ensures OnAppendRefusal(s, p, res) == s.(nextIndex := s.nextIndex[p := next])
  {
    next := if s.log.Lookup(res.matchIndex + 1).None? then s.log.LastIndex() + 1 else res.matchIndex + 1;
  }

  lemma HandleReplyKeepsInv(c: Cluster, r: AppendReply, commit: nat, s': Node)
    requires Inv(c) && r in c.net.appendReplies && r.req.leader in c.nodes
    requires ReplyOutcome(c.nodes[r.req.leader], r, commit, s')
    ensures Inv(Put(c, s'))
  {
    assert NodeOk(c.members, c.hist.reigns, r.req.leader, c.nodes[r.req.leader]);
    assert ReplyOk(c.members, c.hist.reigns, r);
    OutcomeNode(c.members, c.hist.reigns, c.nodes[r.req.leader], r, commit, s');
    SteadyKeepsInv(c, s');
  }

  // ----- append_entries: the follower's side

  lemma MergedNode(members: set<Id>, reigns: Reigns, s: Node, to: Id, req: AppendReq)
    requires NodeOk(members, reigns, to, s) && ReignsOk(reigns) && AppendReqOk(reigns, to, req)
    requires req.term >= s.term && s.log.HasEntry(req.prevIndex, req.prevTerm)
    ensures !s.log.ChopFails(req.entries)
    ensures var log := s.log.Merge(req.entries);
            log == Full(log.entries) && Woven(reigns, log.entries) && TermOfLast(log.entries) <= req.term
  {
    assert ReignOk(reigns, req.term);
    var leader := reigns[req.term].log;
    MergeStretch(reigns, s.log.entries, leader, req);
    var n := req.prevIndex + |req.entries|;
    if n > 0 {
      WovenPrefix(reigns, leader, n);
      assert leader[n - 1].term <= leader[|leader| - 1].term;
    }
  }

  lemma AppendedNode(members: set<Id>, reigns: Reigns, s: Node, to: Id, req: AppendReq)
    requires NodeOk(members, reigns, to, s) && ReignsOk(reigns) && AppendReqOk(reigns, to, req)
    ensures NodeOk(members, reigns, to, OnAppendRequest(s, req).0)
    ensures Steady(s, OnAppendRequest(s, req).0)
  {
    if req.term >= s.term && s.log.HasEntry(req.prevIndex, req.prevTerm) {
      MergedNode(members, reigns, s, to, req);
    }
  }

  lemma RecordReplyKeepsInv(c: Cluster, reply: AppendReply, h: History)
    requires Inv(c) && ReplyOk(c.members, c.hist.reigns, reply) && h == c.hist.(acked := h.acked)
    ensures Inv(c.(net := c.net.(appendReplies := c.net.appendReplies + {reply}), hist := h))
  {
  }

  lemma DeliverAppendKeepsInv(c: Cluster, m: AppendMsg)
    requires Inv(c) && m in c.net.appendReqs && m.to in c.nodes
    ensures Inv(DoDeliverAppend(c, m))
  {
    var (s', res) := OnAppendRequest(c.nodes[m.to], m.req);
    assert NodeOk(c.members, c.hist.reigns, m.to, c.nodes[m.to]);
    assert AppendReqOk(c.hist.reigns, m.to, m.req);
    AppendedNode(c.members, c.hist.reigns, c.nodes[m.to], m.to, m.req);
    SteadyKeepsInv(c, s');
    RecordReplyKeepsInv(Put(c, s'), AppendReply(m.to, m.req, res, s'.log.entries), DoDeliverAppend(c, m).hist);
  }

  // ----- append_entries: the leader's side

  lemma RefusedSteady(members: set<Id>, reigns: Reigns, s: Node, to: Id, req: AppendReq)
    requires NodeOk(members, reigns, to, s) && AppendReqOk(reigns, to, req)
    ensures NodeOk(members, reigns, to, RefuseAppend(s, req).0) && Steady(s, RefuseAppend(s, req).0)
  {
  }

  lemma RefuseKeepsInv(c: Cluster, m: AppendMsg)
    requires Inv(c) && m in c.net.appendReqs && m.to in c.nodes
    ensures Inv(DoRefuse(c, m))
  {
    var (s', res) := RefuseAppend(c.nodes[m.to], m.req);
    assert NodeOk(c.members, c.hist.reigns, m.to, c.nodes[m.to]);
    assert AppendReqOk(c.hist.reigns, m.to, m.req);
    RefusedSteady(c.members, c.hist.reigns, c.nodes[m.to], m.to, m.req);
    SteadyKeepsInv(c, s');
    RecordReplyKeepsInv(Put(c, s'), AppendReply(m.to, m.req, res, s'.log.entries), c.hist);
  }

  lemma RequestKeepsInv(c: Cluster, m: AppendMsg)
    requires Inv(c) && AppendReqOk(c.hist.reigns, m.to, m.req)
    ensures Inv(c.(net := c.net.(appendReqs := c.net.appendReqs + {m})))
  {
  }

  lemma StretchOk(members: set<Id>, reigns: Reigns, s: Node, to: Id, prev: nat, count: nat)
    requires NodeOk(members, reigns, s.id, s) && s.role == Leader && to != s.id && prev + count <= |s.log.entries|
    ensures AppendReqOk(reigns, to, StretchReq(s, prev, count))
  {
  }

  lemma SendStretchKeepsInv(c: Cluster, id: Id, to: Id, prev: nat, count: nat)
    requires Inv(c) && id in c.nodes && c.nodes[id].role == Leader && to != id
    requires prev + count <= |c.nodes[id].log.entries|
    ensures Inv(DoSendStretch(c, id, to, prev, count))
  {
    assert NodeOk(c.members, c.hist.reigns, id, c.nodes[id]);
    StretchOk(c.members, c.hist.reigns, c.nodes[id], to, prev, count);
    RequestKeepsInv(c, AppendMsg(to, StretchReq(c.nodes[id], prev, count)));
  }

  /** A leader with its whole log sends a stretch of it, whatever `next` is. */
  lemma RequestIsStretch(s: Node, next: nat)
    requires s.log == Full(s.log.entries) && Numbered(0, s.log.entries) && next >= 1
    ensures Stretch(s.log.entries, BuildAppendReq(s, next))
  {
    var req := BuildAppendReq(s, next);
    var log := s.log.entries;
    if next > |log| {
      assert req.entries == log[req.prevIndex..req.prevIndex];
    } else {
      assert req.prevIndex == next - 1;
      assert req.entries == log[next - 1..];
    }
  }

  lemma SendAppendKeepsInv(c: Cluster, id: Id, to: Id)
    requires Inv(c) && id in c.nodes && c.nodes[id].role == Leader && to != id && to in c.nodes[id].nextIndex
    ensures Inv(DoSendAppend(c, id, to))
  {
    var s := c.nodes[id];
    assert NodeOk(c.members, c.hist.reigns, id, s);
    RequestIsStretch(s, s.nextIndex[to]);
    RequestKeepsInv(c, AppendMsg(to, BuildAppendReq(s, s.nextIndex[to])));
  }

  // ----- append: the leader extends its reign's log

  lemma ReignsExtend(reigns: Reigns, t: nat, e: Entry)
    requires ReignsOk(reigns) && t in reigns && e.term == t && e.index == |reigns[t].log| + 1
    ensures var reigns' := reigns[t := reigns[t].(log := reigns[t].log + [e])];
            ReignsGrow(reigns, reigns') && ReignsOk(reigns')
  {
    var log' := reigns[t].log + [e];
    var reigns' := reigns[t := reigns[t].(log := log')];
    assert ReignOk(reigns, t);
    forall u | u in reigns' ensures ReignOk(reigns', u) {
      assert ReignOk(reigns, u);
      WovenGrows(reigns, reigns', reigns[u].log);
      if u == t {
        ExtendWoven(reigns', reigns[t].log, e);
      }
    }
  }

  lemma ExtendWoven(reigns: Reigns, log: seq<Entry>, e: Entry)
    requires Woven(reigns, log) && TermOfLast(log) <= e.term && e.index == |log| + 1
    requires e.term in reigns && reigns[e.term].log == log + [e]
    ensures Woven(reigns, log + [e])
  {
    var log' := log + [e];
    forall k | 0 <= k < |log'| ensures Traced(reigns, log', k) {
      if k < |log| {
        assert Traced(reigns, log, k);
        assert log'[..k + 1] == log[..k + 1];
      }
    }
  }

  lemma NodesGrow(members: set<Id>, nodes: Nodes, reigns: Reigns, reigns': Reigns, s': Node)
    requires NodesOk(members, nodes, reigns) && s'.id in members && NodeOk(members, reigns', s'.id, s')
    requires ReignsGrow(reigns, reigns')
    requires forall t | t in reigns && t != s'.term :: reigns'[t] == reigns[t]
    requires s'.term in reigns ==> reigns[s'.term].owner == s'.id
    ensures NodesOk(members, nodes[s'.id := s'], reigns')
  {
    var nodes' := nodes[s'.id := s'];
    forall i | i in members ensures NodeOk(members, reigns', i, nodes'[i]) {
      assert NodeOk(members, reigns, i, nodes[i]);
      WovenGrows(reigns, reigns', nodes[i].log.entries);
    }
  }

  lemma RequestsGrow(members: set<Id>, reigns: Reigns, reigns': Reigns, reqs: set<AppendMsg>, replies: set<AppendReply>)
    requires RequestsOk(members, reigns, reqs, replies) && ReignsGrow(reigns, reigns')
    ensures RequestsOk(members, reigns', reqs, replies)
  {
    forall m | m in reqs ensures AppendReqOk(reigns', m.to, m.req) {
      assert AppendReqOk(reigns, m.to, m.req);
      StretchGrows(reigns[m.req.term].log, reigns'[m.req.term].log, m.req);
    }
    forall r | r in replies ensures ReplyOk(members, reigns', r) {
      assert ReplyOk(members, reigns, r);
      StretchGrows(reigns[r.req.term].log, reigns'[r.req.term].log, r.req);
      WovenGrows(reigns, reigns', r.log);
    }
  }

  lemma StretchGrows(log: seq<Entry>, log': seq<Entry>, req: AppendReq)
    requires Stretch(log, req) && log <= log'
    ensures Stretch(log', req)
  {
    assert log'[..req.prevIndex] == log[..req.prevIndex];
  }

  lemma ElectionsGrow(members: set<Id>, reigns: Reigns, reigns': Reigns, grants: Grants)
    requires ElectionsOk(members, reigns, grants) && ReignsGrow(reigns, reigns') && reigns'.Keys == reigns.Keys
    ensures ElectionsOk(members, reigns', grants)
  {
    forall t | t in reigns' && t > 1 ensures Elected(members, grants, reigns'[t], t) {
      assert Elected(members, grants, reigns[t], t);
    }
  }

  /** The new leader log is sound, and the leader still holds exactly its reign's log. */
  lemma ProposedNode(members: set<Id>, reigns: Reigns, s: Node, data: Bytes)
    requires NodeOk(members, reigns, s.id, s) && s.role == Leader && ReignsOk(reigns)
    ensures var s' := ClientAppend(s, data);
            var reigns' := reigns[s.term := reigns[s.term].(log := s'.log.entries)];
            ReignsGrow(reigns, reigns') && ReignsOk(reigns') && NodeOk(members, reigns', s.id, s')
  {
    var s' := ClientAppend(s, data);
    var reigns' := reigns[s.term := reigns[s.term].(log := s'.log.entries)];
    ReignsExtend(reigns, s.term, Entry(s.term, s.log.LastIndex() + 1, data, false));
    assert ReignOk(reigns', s.term);
  }

  lemma ProposeKeepsInv(c: Cluster, id: Id, data: Bytes)
    requires Inv(c) && id in c.nodes
    ensures Inv(DoPropose(c, id, data))
  {
    assert NodeOk(c.members, c.hist.reigns, id, c.nodes[id]);
    if c.nodes[id].role == Leader {
      ProposeKeepsLogs(c, id, data);
      ProposeKeepsVotes(c, id, data);
    } else {
      SteadyKeepsInv(c, c.nodes[id]);
    }
  }

  lemma ProposeKeepsLogs(c: Cluster, id: Id, data: Bytes)
    requires LogInv(c) && id in c.nodes && c.nodes[id].role == Leader
    ensures LogInv(DoPropose(c, id, data)) && ReignsGrow(c.hist.reigns, DoPropose(c, id, data).hist.reigns)
  {
    assert NodeOk(c.members, c.hist.reigns, id, c.nodes[id]);
    ProposedNode(c.members, c.hist.reigns, c.nodes[id], data);
    var s' := ClientAppend(c.nodes[id], data);
    ProposedNodes(c, s', c.hist.reigns[s'.term := c.hist.reigns[s'.term].(log := s'.log.entries)]);
  }

  lemma ProposedNodes(c: Cluster, s': Node, reigns': Reigns)
    requires LogInv(c) && s'.id in c.nodes && NodeOk(c.members, reigns', s'.id, s')
    requires s'.term in c.hist.reigns && c.hist.reigns[s'.term].owner == s'.id
    requires reigns' == c.hist.reigns[s'.term := c.hist.reigns[s'.term].(log := s'.log.entries)]
    requires ReignsGrow(c.hist.reigns, reigns')
    ensures NodesOk(c.members, c.nodes[s'.id := s'], reigns')
    ensures RequestsOk(c.members, reigns', c.net.appendReqs, c.net.appendReplies)
  {
    NodesGrow(c.members, c.nodes, c.hist.reigns, reigns', s');
    RequestsGrow(c.members, c.hist.reigns, reigns', c.net.appendReqs, c.net.appendReplies);
  }

  lemma ProposeKeepsVotes(c: Cluster, id: Id, data: Bytes)
    requires VoteInv(c) && id in c.nodes && c.nodes[id].role == Leader
    requires c.nodes[id].id == id && c.nodes[id].term in c.hist.reigns
    requires ReignsGrow(c.hist.reigns, DoPropose(c, id, data).hist.reigns)
    ensures VoteInv(DoPropose(c, id, data))
  {
    var c' := DoPropose(c, id, data);
    SteadyKeepsVotes(c, c'.nodes[id]);
    VotesUnderGrowth(Put(c, c'.nodes[id]), c'.hist);
  }

  lemma VotesUnderGrowth(c: Cluster, h: History)
    requires VoteInv(c) && h == c.hist.(reigns := h.reigns, acked := h.acked)
    requires ReignsGrow(c.hist.reigns, h.reigns) && h.reigns.Keys == c.hist.reigns.Keys
    ensures VoteInv(c.(hist := h))
  {
    ElectionsGrow(c.members, c.hist.reigns, h.reigns, c.hist.grants);
    OwnersGrow(c.nodes, c.hist.reigns, h.reigns);
  }

  lemma OwnersGrow(nodes: Nodes, reigns: Reigns, reigns': Reigns)
    requires OwnersOk(nodes, reigns) && ReignsGrow(reigns, reigns') && reigns'.Keys == reigns.Keys
    ensures OwnersOk(nodes, reigns')
  {
    forall t | t in reigns' && t > 1 ensures CandidacyOver(nodes, reigns'[t].owner, t) {
      assert CandidacyOver(nodes, reigns[t].owner, t);
    }
  }

  // ----- request_vote: the voter's side

  ghost predicate GrantsGrow(g: Grants, g': Grants) {
    forall key | key in g :: key in g' && g'[key] == g[key]
  }

  lemma ElectionsKeep(members: set<Id>, reigns: Reigns, g: Grants, g': Grants)
    requires ElectionsOk(members, reigns, g) && GrantsGrow(g, g')
    ensures ElectionsOk(members, reigns, g')
  {
    forall t | t in reigns && t > 1 ensures Elected(members, g', reigns[t], t) {
      assert Elected(members, g, reigns[t], t);
      forall v | v in reigns[t].electors ensures VotedFor(g', v, t, reigns[t].owner) {
        assert VotedFor(g, v, t, reigns[t].owner);
      }
    }
  }

  lemma BallotsKeep(members: set<Id>, handled: set<VoteTask>, g: Grants, g': Grants, ballots: BallotBox)
    requires BallotsOk(members, handled, g, ballots) && GrantsGrow(g, g')
    ensures BallotsOk(members, handled, g', ballots)
  {
    forall key | key in ballots ensures BallotOk(members, handled, g', key.0, key.1, ballots[key]) {
      assert BallotOk(members, handled, g, key.0, key.1, ballots[key]);
      forall v | v in ballots[key] ensures VotedFor(g', v, key.1, key.0) {
        assert VotedFor(g, v, key.1, key.0);
      }
    }
  }

  lemma RepliesKeep(members: set<Id>, reqs: set<VoteMsg>, replies: set<VoteReply>, g: Grants, g': Grants)
    requires VoteMsgsOk(members, reqs, replies, g) && GrantsGrow(g, g')
    ensures VoteMsgsOk(members, reqs, replies, g')
  {
    forall r | r in replies ensures VoteReplyOk(members, g', r) {
      assert VoteReplyOk(members, g, r);
    }
  }

  /** The voter after the request: a slot already used in this term keeps its content. */
  lemma VotedNode(s: Node, req: VoteReq)
    ensures var (s', res) := OnVoteRequest(s, req);
            && s' == s.(role := s'.role, term := s'.term, votedFor := s'.votedFor)
            && (s'.term > s.term || (s'.term == s.term && (s.votedFor != NoVote ==> s'.votedFor == s.votedFor)))
            && (s'.role == Follower || (s'.role == s.role && s'.term == s.term))
            && (res.granted ==> res.term == req.term == s'.term && s'.votedFor == req.candidate
                                && AcceptsLog(s.log, req.lastIndex, req.lastTerm))
  {
  }

  lemma VotedSlots(nodes: Nodes, s': Node, grants: Grants)
    requires SlotsOk(nodes, grants) && s'.id in nodes && NoVote !in nodes
    requires forall key | key in grants :: Reached(nodes, grants[key].candidate, key.1)
    requires var s := nodes[s'.id];
             s'.term > s.term || (s'.term == s.term && (s.votedFor != NoVote ==> s'.votedFor == s.votedFor))
    ensures SlotsOk(nodes[s'.id := s'], grants)
  {
    forall key | key in grants ensures Bound(nodes[s'.id := s'], key.0, key.1, grants[key].candidate) {
      assert Bound(nodes, key.0, key.1, grants[key].candidate);
      assert Reached(nodes, grants[key].candidate, key.1);
    }
  }

  /** A grant the history already has for this voter and term names the same candidate. */
  lemma SecondGrantAgrees(nodes: Nodes, grants: Grants, s': Node, t: nat)
    requires SlotsOk(nodes, grants) && s'.id in nodes && s' == nodes[s'.id] && s'.term == t
    requires (s'.id, t) in grants
    ensures VotedFor(grants, s'.id, t, s'.votedFor)
  {
    var key := (s'.id, t);
    assert Bound(nodes, key.0, key.1, grants[key].candidate);
  }

  lemma DeliverVoteKeepsInv(c: Cluster, m: VoteMsg)
    requires Inv(c) && m in c.net.voteReqs && m.to in c.nodes
    ensures Inv(DoDeliverVote(c, m))
  {
    var s := c.nodes[m.to];
    var (s', res) := OnVoteRequest(s, m.req);
    VotedNode(s, m.req);
    assert NodeOk(c.members, c.hist.reigns, m.to, s);
    VoteSwapKeepsInv(c, s');
    GrantKeepsInv(Put(c, s'), m, res);
  }

  lemma VoteSwapKeepsInv(c: Cluster, s': Node)
    requires Inv(c) && s'.id in c.nodes
    requires var s := c.nodes[s'.id];
             && s' == s.(role := s'.role, term := s'.term, votedFor := s'.votedFor)
             && (s'.term > s.term || (s'.term == s.term && (s.votedFor != NoVote ==> s'.votedFor == s.votedFor)))
             && (s'.role == Follower || (s'.role == s.role && s'.term == s.term))
    ensures Inv(Put(c, s'))
  {
    assert NodeOk(c.members, c.hist.reigns, s'.id, c.nodes[s'.id]);
    assert CandidateOk(c.hist.ballots, s'.id, c.nodes[s'.id]);
    NodesUpdate(c.members, c.nodes, c.hist.reigns, s');
    OwnersAdvance(c.nodes, s', c.hist.reigns);
    VotedSlots(c.nodes, s', c.hist.grants);
    TimelyAdvances(c.nodes, c.nodes[s'.id := s'], c.net.voteReqs, c.net.voteReplies, c.hist.grants, c.hist.ballots);
    CandidatesAdvance(c.nodes, s', c.hist.ballots);
  }

  /** Recording the reply, and the grant if it is the voter's first of the term. */
  lemma GrantKeepsInv(c: Cluster, m: VoteMsg, res: VoteRes)
    requires Inv(c) && m in c.net.voteReqs && m.to in c.nodes
    requires var s := c.nodes[m.to];
             s.id == m.to && (res.granted ==> res.term == m.req.term == s.term && s.votedFor == m.req.candidate)
    ensures Inv(c.(net := c.net.(voteReplies := c.net.voteReplies + {VoteReply(m.to, m.req, res)}),
                   hist := RecordGrant(c.hist, c.nodes[m.to], m.req, res)))
  {
    var s := c.nodes[m.to];
    var g, g' := c.hist.grants, RecordGrant(c.hist, s, m.req, res).grants;
    assert Reached(c.nodes, m.req.candidate, m.req.term);
    if res.granted && (m.to, m.req.term) in g {
      SecondGrantAgrees(c.nodes, g, s, m.req.term);
    }
    assert GrantsGrow(g, g');
    ElectionsKeep(c.members, c.hist.reigns, g, g');
    BallotsKeep(c.members, c.net.handled, g, g', c.hist.ballots);
    RepliesKeep(c.members, c.net.voteReqs, c.net.voteReplies, g, g');
    assert VoteReplyOk(c.members, g', VoteReply(m.to, m.req, res));
  }

  // ----- leader_election and on_request_vote: gaining office

  /** Two majorities of the same members share one. */
  lemma MajoritiesMeet(members: set<Id>, a: set<Id>, b: set<Id>) returns (x: Id)
    requires a <= members && b <= members && Majority(members, a) && Majority(members, b)
    ensures x in a && x in b
  {
    Overlap(a, b, members);
    x :| x in a * b;
  }

  /** Two candidates with a majority of the votes of one term are the same. */
  lemma OneWinner(members: set<Id>, grants: Grants, t: nat, a: Id, votersA: set<Id>, b: Id, votersB: set<Id>)
    requires votersA <= members && Majority(members, votersA) && votersB <= members && Majority(members, votersB)
    requires forall v | v in votersA :: VotedFor(grants, v, t, a)
    requires forall v | v in votersB :: VotedFor(grants, v, t, b)
    ensures a == b
  {
    var v := MajoritiesMeet(members, votersA, votersB);
    assert VotedFor(grants, v, t, a) && VotedFor(grants, v, t, b);
  }

  /** A candidate with a majority of counted votes finds its term without a leader so far. */
  lemma OfficeIsVacant(c: Cluster, id: Id, voters: set<Id>)
    requires Inv(c) && id in c.nodes && c.nodes[id].role == Candidate
    requires voters <= c.members && Majority(c.members, voters)
    requires forall v | v in voters :: VotedFor(c.hist.grants, v, c.nodes[id].term, id)
    ensures c.nodes[id].term !in c.hist.reigns
  {
    var t := c.nodes[id].term;
    assert NodeOk(c.members, c.hist.reigns, id, c.nodes[id]);
    if t in c.hist.reigns {
      var reign := c.hist.reigns[t];
      assert Elected(c.members, c.hist.grants, reign, t);
      OneWinner(c.members, c.hist.grants, t, id, voters, reign.owner, reign.electors);
    }
  }

  /** Opening the reign of `s` on a vacant term. */
  lemma OpenReign(reigns: Reigns, t: nat, reign: Reign)
    requires ReignsOk(reigns) && t !in reigns && t > 1 && reign.owner != NoVote
    requires Woven(reigns, reign.log) && TermOfLast(reign.log) <= t
    ensures ReignsGrow(reigns, reigns[t := reign]) && ReignsOk(reigns[t := reign])
  {
    var reigns' := reigns[t := reign];
    forall u | u in reigns' ensures ReignOk(reigns', u) {
      if u == t {
        WovenGrows(reigns, reigns', reign.log);
      } else {
        assert ReignOk(reigns, u);
        WovenGrows(reigns, reigns', reigns[u].log);
      }
    }
  }

  /** From a candidate whose counted votes are a majority to a leader. */
  lemma InaugurationKeepsInv(c: Cluster, id: Id)
    requires Inv(c) && id in c.nodes && c.nodes[id].role == Candidate
    requires Majority(c.members, Ballots(c.hist, id, c.nodes[id].term))
    ensures c.nodes[id].term !in c.hist.reigns
    ensures ReignsGrow(c.hist.reigns, TakeOffice(c, id).hist.reigns)
    ensures Inv(TakeOffice(c, id))
  {
    var s, s' := c.nodes[id], StepUp(c.nodes[id]);
    var h := Inaugurate(c.hist, s');
    var t := s.term;
    assert NodeOk(c.members, c.hist.reigns, id, s);
    assert CandidateOk(c.hist.ballots, id, s);
    var key := (id, t);
    assert BallotOk(c.members, c.net.handled, c.hist.grants, key.0, key.1, c.hist.ballots[key]);
    OfficeIsVacant(c, id, c.hist.ballots[key]);
    var reign := Reign(id, c.hist.ballots[key], s.log.entries);
    OpenReign(c.hist.reigns, t, reign);
    InaugurationLogs(c, id, h.reigns);
    InaugurationVotes(c, s', h);
  }

  lemma InaugurationLogs(c: Cluster, id: Id, reigns': Reigns)
    requires LogInv(c) && id in c.nodes && c.nodes[id].role == Candidate
    requires ReignsGrow(c.hist.reigns, reigns') && ReignsOk(reigns')
    requires var s := c.nodes[id];
             && s.term !in c.hist.reigns && s.term in reigns'
             && reigns' == c.hist.reigns[s.term := reigns'[s.term]]
             && reigns'[s.term].owner == id && reigns'[s.term].log == s.log.entries
    ensures NodesOk(c.members, c.nodes[id := StepUp(c.nodes[id])], reigns')
    ensures RequestsOk(c.members, reigns', c.net.appendReqs, c.net.appendReplies)
  {
    assert NodeOk(c.members, c.hist.reigns, id, c.nodes[id]);
    WovenGrows(c.hist.reigns, reigns', c.nodes[id].log.entries);
    NodesGrow(c.members, c.nodes, c.hist.reigns, reigns', StepUp(c.nodes[id]));
    RequestsGrow(c.members, c.hist.reigns, reigns', c.net.appendReqs, c.net.appendReplies);
  }

  lemma InaugurationVotes(c: Cluster, s': Node, h: History)
    requires VoteInv(c) && s'.id in c.nodes && Steady(c.nodes[s'.id], s') && s'.role == Leader
    requires h == c.hist.(reigns := h.reigns, acked := h.acked) && s'.term in h.reigns
    requires h.reigns == c.hist.reigns[s'.term := h.reigns[s'.term]]
    requires h.reigns[s'.term].owner == s'.id && Elected(c.members, c.hist.grants, h.reigns[s'.term], s'.term)
    ensures VoteInv(Put(c, s').(hist := h))
  {
    SteadyKeepsVotes(c, s');
    var nodes' := c.nodes[s'.id := s'];
    forall t | t in h.reigns && t > 1 ensures CandidacyOver(nodes', h.reigns[t].owner, t) {
      if t != s'.term { assert CandidacyOver(nodes', c.hist.reigns[t].owner, t); }
    }
    forall t | t in h.reigns && t > 1 ensures Elected(c.members, h.grants, h.reigns[t], t) {
      if t != s'.term { assert Elected(c.members, c.hist.grants, c.hist.reigns[t], t); }
    }
  }

  /** The state of `leader_election` before a lone member takes office. */
  function OpenCandidacy(c: Cluster, id: Id): Cluster
    requires id in c.nodes
  {
    var s := c.nodes[id];
    var s1 := s.(role := Candidate, term := s.term + 1, votedFor := s.id, votes := 1);
    Put(c, s1).(
      net := DoElect(c, id).net,
      hist := c.hist.(grants := c.hist.grants[(s.id, s1.term) := Grant(s.id, s.log.entries)],
                      ballots := c.hist.ballots[(s.id, s1.term) := {s.id}]))
  }

  function TakeOffice(c: Cluster, id: Id): Cluster
    requires id in c.nodes
  {
    var s := StepUp(c.nodes[id]);
    Put(c, s).(hist := Inaugurate(c.hist, s))
  }

  lemma ElectDecomposes(c: Cluster, id: Id)
    requires id in c.nodes && c.nodes[id].id == id && id in c.nodes[id].cluster
    ensures var mid := OpenCandidacy(c, id);
            DoElect(c, id) == if |c.nodes[id].cluster| == 1 then TakeOffice(mid, id) else mid
  {
    var s := c.nodes[id];
    var s1 := s.(role := Candidate, term := s.term + 1, votedFor := s.id, votes := 1);
    if |s.cluster| == 1 {
      assert c.nodes[id := s1][id := StepUp(s1)] == c.nodes[id := StepUp(s1)];
    }
  }

  /** The server becomes a candidate of a fresh term, with its own vote recorded and counted. */
  lemma CandidacyKeepsInv(c: Cluster, id: Id)
    requires Inv(c) && id in c.nodes && c.nodes[id].id == id
    ensures Inv(OpenCandidacy(c, id))
  {
    var c' := OpenCandidacy(c, id);
    CandidacyKeepsNodes(c, id);
    CandidacyKeepsVotes(c, id);
    CandidacyKeepsMsgs(c, id);
    CandidacyBallots(c, c'.nodes[id], c');
  }

  lemma CandidacyKeepsNodes(c: Cluster, id: Id)
    requires NodesOk(c.members, c.nodes, c.hist.reigns) && OwnersOk(c.nodes, c.hist.reigns) && id in c.nodes
    ensures var c' := OpenCandidacy(c, id);
            NodesOk(c.members, c'.nodes, c.hist.reigns) && OwnersOk(c'.nodes, c.hist.reigns)
  {
    var s' := OpenCandidacy(c, id).nodes[id];
    assert NodeOk(c.members, c.hist.reigns, id, c.nodes[id]);
    NodesUpdate(c.members, c.nodes, c.hist.reigns, s');
    OwnersAdvance(c.nodes, s', c.hist.reigns);
  }

  lemma FreshGrant(c: Cluster, id: Id)
    requires SlotsOk(c.nodes, c.hist.grants) && id in c.nodes && c.nodes[id].id == id
    ensures (id, c.nodes[id].term + 1) !in c.hist.grants
    ensures GrantsGrow(c.hist.grants, OpenCandidacy(c, id).hist.grants)
  {
  }

  lemma CandidacyKeepsVotes(c: Cluster, id: Id)
    requires VoteInv(c) && id in c.nodes && c.nodes[id].id == id
    ensures var c' := OpenCandidacy(c, id);
            && ElectionsOk(c.members, c.hist.reigns, c'.hist.grants)
            && BallotsOk(c.members, c.net.handled, c'.hist.grants, c.hist.ballots)
            && SlotsOk(c'.nodes, c'.hist.grants)
  {
    var c' := OpenCandidacy(c, id);
    FreshGrant(c, id);
    ElectionsKeep(c.members, c.hist.reigns, c.hist.grants, c'.hist.grants);
    BallotsKeep(c.members, c.net.handled, c.hist.grants, c'.hist.grants, c.hist.ballots);
    SlotsAdvance(c.nodes, c'.nodes[id], c.hist.grants);
  }

  lemma CandidacyKeepsMsgs(c: Cluster, id: Id)
    requires VoteInv(c) && id in c.nodes && c.nodes[id].id == id
    ensures var c' := OpenCandidacy(c, id);
            && VoteMsgsOk(c.members, c'.net.voteReqs, c'.net.voteReplies, c'.hist.grants)
            && TimelyOk(c'.nodes, c'.net.voteReqs, c'.net.voteReplies, c'.hist.grants, c'.hist.ballots)
  {
    var c' := OpenCandidacy(c, id);
    FreshGrant(c, id);
    RepliesKeep(c.members, c.net.voteReqs, c.net.voteReplies, c.hist.grants, c'.hist.grants);
    TimelyAdvances(c.nodes, c'.nodes, c.net.voteReqs, c.net.voteReplies, c.hist.grants, c.hist.ballots);
    assert forall m | m in c'.net.voteReqs - c.net.voteReqs ::
        m.to != id && m.req.candidate == id && m.req.term == c'.nodes[id].term;
  }

  lemma CandidacyBallots(c: Cluster, s': Node, c': Cluster)
    requires CandidatesOk(c.nodes, c.hist.ballots) && s'.id in c.nodes && s'.id in c.members
    requires c'.nodes == c.nodes[s'.id := s'] && s'.term > c.nodes[s'.id].term && s'.votes == 1
    requires c'.hist.ballots == c.hist.ballots[(s'.id, s'.term) := {s'.id}]
    requires c'.members == c.members && VotedFor(c'.hist.grants, s'.id, s'.term, s'.id)
    requires BallotsOk(c.members, c'.net.handled, c'.hist.grants, c.hist.ballots)
    ensures CandidatesOk(c'.nodes, c'.hist.ballots)
    ensures BallotsOk(c'.members, c'.net.handled, c'.hist.grants, c'.hist.ballots)
  {
    forall i | i in c'.nodes ensures CandidateOk(c'.hist.ballots, i, c'.nodes[i]) {
      if i != s'.id { assert CandidateOk(c.hist.ballots, i, c.nodes[i]); }
    }
  }

  lemma ElectKeepsInv(c: Cluster, id: Id)
    requires Inv(c) && id in c.nodes
    ensures Inv(DoElect(c, id))
    ensures ReignsGrow(c.hist.reigns, DoElect(c, id).hist.reigns)
  {
    assert NodeOk(c.members, c.hist.reigns, id, c.nodes[id]);
    var mid := OpenCandidacy(c, id);
    ElectDecomposes(c, id);
    CandidacyKeepsInv(c, id);
    if |c.nodes[id].cluster| == 1 {
      InaugurationKeepsInv(mid, id);
    }
  }

  // ----- on_request_vote

  /** The state of `on_request_vote` after one more grant is counted. */
  function CountBallot(c: Cluster, r: VoteReply): Cluster
    requires r.req.candidate in c.nodes
  {
    var s := c.nodes[r.req.candidate];
    Put(c, s.(votes := s.votes + 1)).(
      net := c.net.(handled := c.net.handled + {TaskOf(r)}), hist := RecordBallot(c.hist, s, r))
  }

  lemma CountVoteDecomposes(c: Cluster, r: VoteReply)
    requires r.req.candidate in c.nodes && c.nodes[r.req.candidate].id == r.req.candidate
    ensures var id := r.req.candidate;
            var s := c.nodes[id];
            DoCountVote(c, r) ==
            if !Counts(s, r.res) then
              Put(c, OnVoteReply(s, r.res)).(net := c.net.(handled := c.net.handled + {TaskOf(r)}))
            else if s.votes + 1 > |s.cluster| / 2 then TakeOffice(CountBallot(c, r), id)
            else CountBallot(c, r)
  {
    var id := r.req.candidate;
    var s := c.nodes[id];
    var s1 := s.(votes := s.votes + 1);
    assert c.nodes[id := s1][id := StepUp(s1)] == c.nodes[id := StepUp(s1)];
  }

  /** A counted grant belongs to the candidate's present term and comes from another member that voted for it. */
  lemma CountedReply(c: Cluster, r: VoteReply)
    requires Inv(c) && r in c.net.voteReplies && r.req.candidate in c.nodes
    requires Counts(c.nodes[r.req.candidate], r.res)
    ensures var s, id := c.nodes[r.req.candidate], r.req.candidate;
            && s.id == id && s.term == r.req.term && r.voter in c.members && r.voter != id
            && VotedFor(c.hist.grants, r.voter, s.term, id)
            && (id, s.term) in c.hist.ballots
  {
    var s := c.nodes[r.req.candidate];
    assert NodeOk(c.members, c.hist.reigns, r.req.candidate, s);
    assert VoteReplyOk(c.members, c.hist.grants, r);
    assert Reached(c.nodes, r.req.candidate, r.req.term);
    assert CandidateOk(c.hist.ballots, r.req.candidate, s);
  }

  /** A grant counted by a callback that had not run comes from a voter not counted before. */
  lemma CountKeepsInv(c: Cluster, r: VoteReply)
    requires Inv(c) && r in c.net.voteReplies && TaskOf(r) !in c.net.handled && r.req.candidate in c.nodes
    requires Counts(c.nodes[r.req.candidate], r.res)
    ensures Inv(CountBallot(c, r))
  {
    CountedReply(c, r);
    CountKeepsLogs(c, r);
    CountKeepsVotes(c, r);
  }

  lemma CountKeepsLogs(c: Cluster, r: VoteReply)
    requires LogInv(c) && r.req.candidate in c.nodes && c.nodes[r.req.candidate].id == r.req.candidate
    ensures LogInv(CountBallot(c, r))
  {
    var s' := CountBallot(c, r).nodes[r.req.candidate];
    assert NodeOk(c.members, c.hist.reigns, s'.id, c.nodes[s'.id]);
    NodesUpdate(c.members, c.nodes, c.hist.reigns, s');
  }

  lemma CountKeepsVotes(c: Cluster, r: VoteReply)
    requires VoteInv(c) && TaskOf(r) !in c.net.handled && r.req.candidate in c.nodes
    requires Counts(c.nodes[r.req.candidate], r.res)
    requires var s, id := c.nodes[r.req.candidate], r.req.candidate;
             && s.id == id && s.term == r.req.term && r.voter in c.members && r.voter != id
             && VotedFor(c.hist.grants, r.voter, s.term, id)
    ensures VoteInv(CountBallot(c, r))
  {
    var c' := CountBallot(c, r);
    OwnersAdvance(c.nodes, c'.nodes[r.req.candidate], c.hist.reigns);
    SlotsAdvance(c.nodes, c'.nodes[r.req.candidate], c.hist.grants);
    CountKeepsTimely(c, r);
    CountedBallots(c, r, c');
  }

  lemma CountKeepsTimely(c: Cluster, r: VoteReply)
    requires TimelyOk(c.nodes, c.net.voteReqs, c.net.voteReplies, c.hist.grants, c.hist.ballots)
    requires r.req.candidate in c.nodes && c.nodes[r.req.candidate].id == r.req.candidate
    ensures var c' := CountBallot(c, r);
            TimelyOk(c'.nodes, c.net.voteReqs, c.net.voteReplies, c.hist.grants, c'.hist.ballots)
  {
    var c' := CountBallot(c, r);
    TimelyAdvances(c.nodes, c'.nodes, c.net.voteReqs, c.net.voteReplies, c.hist.grants, c.hist.ballots);
  }

  lemma CountedBallots(c: Cluster, r: VoteReply, c': Cluster)
    requires r.req.candidate in c.nodes && TaskOf(r) !in c.net.handled
    requires CandidatesOk(c.nodes, c.hist.ballots)
    requires BallotsOk(c.members, c.net.handled, c.hist.grants, c.hist.ballots)
    requires var s, id := c.nodes[r.req.candidate], r.req.candidate;
             && s.id == id && s.role == Candidate && s.term == r.req.term && r.voter in c.members && r.voter != id
             && VotedFor(c.hist.grants, r.voter, s.term, id)
             && c'.members == c.members && c'.hist.grants == c.hist.grants
             && c'.nodes == c.nodes[id := s.(votes := s.votes + 1)]
             && c'.net.handled == c.net.handled + {TaskOf(r)}
             && c'.hist.ballots == c.hist.ballots[(id, s.term) := Ballots(c.hist, id, s.term) + {r.voter}]
    ensures CandidatesOk(c'.nodes, c'.hist.ballots)
    ensures BallotsOk(c'.members, c'.net.handled, c'.hist.grants, c'.hist.ballots)
  {
    var id := r.req.candidate;
    var s := c.nodes[id];
    var key := (id, s.term);
    assert CandidateOk(c.hist.ballots, id, s);
    assert BallotOk(c.members, c.net.handled, c.hist.grants, key.0, key.1, c.hist.ballots[key]);
    assert r.voter !in c.hist.ballots[key];
    forall i | i in c'.nodes ensures CandidateOk(c'.hist.ballots, i, c'.nodes[i]) {
      if i != id { assert CandidateOk(c.hist.ballots, i, c.nodes[i]); }
    }
    forall k | k in c'.hist.ballots
      ensures BallotOk(c'.members, c'.net.handled, c'.hist.grants, k.0, k.1, c'.hist.ballots[k])
    {
      assert k in c.hist.ballots ==>
          BallotOk(c.members, c.net.handled, c.hist.grants, k.0, k.1, c.hist.ballots[k]);
    }
  }

  lemma CountVoteKeepsInv(c: Cluster, r: VoteReply)
    requires Inv(c) && r in c.net.voteReplies && TaskOf(r) !in c.net.handled && r.req.candidate in c.nodes
    ensures Inv(DoCountVote(c, r))
    ensures ReignsGrow(c.hist.reigns, DoCountVote(c, r).hist.reigns)
  {
    var id := r.req.candidate;
    var s := c.nodes[id];
    assert NodeOk(c.members, c.hist.reigns, id, s);
    CountVoteDecomposes(c, r);
    if Counts(s, r.res) {
      var mid := CountBallot(c, r);
      CountKeepsInv(c, r);
      if s.votes + 1 > |s.cluster| / 2 {
        assert CandidateOk(mid.hist.ballots, id, mid.nodes[id]);
        InaugurationKeepsInv(mid, id);
      }
    } else {
      SteadyKeepsInv(c, OnVoteReply(s, r.res));
      HandledKeepsInv(Put(c, OnVoteReply(s, r.res)), TaskOf(r));
    }
  }

  lemma HandledKeepsInv(c: Cluster, task: VoteTask)
    requires Inv(c)
    ensures Inv(c.(net := c.net.(handled := c.net.handled + {task})))
  {
    forall key | key in c.hist.ballots
      ensures BallotOk(c.members, c.net.handled + {task}, c.hist.grants, key.0, key.1, c.hist.ballots[key])
    {
      assert BallotOk(c.members, c.net.handled, c.hist.grants, key.0, key.1, c.hist.ballots[key]);
    }
  }

  // ----- All steps together

  ghost predicate Grows(c: Cluster, c': Cluster) {
    c'.members == c.members && ReignsGrow(c.hist.reigns, c'.hist.reigns)
  }

  lemma StepKeepsInv(c: Cluster, c': Cluster, step: Step)
    requires Inv(c) && NextStep(c, c', step)
    ensures Inv(c') && Grows(c, c')
  {
    if step.Elect? || step.CountVote? || step.Propose? {
      HistoryStepKeepsInv(c, c', step);
    } else if step.HandleReply? {
      ReplyStepKeepsInv(c, c', step);
    } else if step.Yield? || step.CommitAlone? || step.Reboot? {
      OwnStepKeepsInv(c, c', step);
    } else {
      MessageStepKeepsInv(c, c', step);
    }
  }

  lemma HistoryStepKeepsInv(c: Cluster, c': Cluster, step: Step)
    requires Inv(c) && NextStep(c, c', step)
    requires step.Elect? || step.CountVote? || step.Propose?
    ensures Inv(c') && Grows(c, c')
  {
    if step.Elect? {
      ElectKeepsInv(c, step.id);
    } else if step.CountVote? {
      CountVoteKeepsInv(c, step.ballot);
    } else {
      ProposeKeepsInv(c, step.id, step.data);
      ProposeGrows(c, step.id, step.data);
    }
  }

  lemma ReplyStepKeepsInv(c: Cluster, c': Cluster, step: Step)
    requires Inv(c) && NextStep(c, c', step) && step.HandleReply?
    ensures Inv(c') && c'.members == c.members && c'.hist.reigns == c.hist.reigns
  {
    var s' :| ReplyOutcome(c.nodes[step.reply.req.leader], step.reply, step.commit, s') && c' == Put(c, s');
    HandleReplyKeepsInv(c, step.reply, step.commit, s');
  }

  lemma OwnStepKeepsInv(c: Cluster, c': Cluster, step: Step)
    requires Inv(c) && NextStep(c, c', step) && (step.Yield? || step.CommitAlone? || step.Reboot?)
    ensures Inv(c') && c'.members == c.members && c'.hist.reigns == c.hist.reigns
  {
    match step
    case Yield(id) => YieldKeepsInv(c, id);
    case CommitAlone(id) => CommitAloneKeepsInv(c, id, c.nodes[id].log.LastIndex());
    case Reboot(id, commit) => RebootKeepsInv(c, id, commit);
  }

  lemma MessageStepKeepsInv(c: Cluster, c': Cluster, step: Step)
    requires Inv(c) && NextStep(c, c', step)
    requires step.DeliverVote? || step.SendAppend? || step.SendStretch? || step.DeliverAppend? || step.Refuse?
    ensures Inv(c') && c'.members == c.members && c'.hist.reigns == c.hist.reigns
  {
    match step
    case DeliverVote(m) => DeliverVoteKeepsInv(c, m);
    case SendAppend(id, to) => SendAppendKeepsInv(c, id, to);
    case SendStretch(id, to, prev, count) => SendStretchKeepsInv(c, id, to, prev, count);
    case DeliverAppend(m) => DeliverAppendKeepsInv(c, m);
    case Refuse(m) => RefuseKeepsInv(c, m);
  }

  lemma ProposeGrows(c: Cluster, id: Id, data: Bytes)
    requires Inv(c) && id in c.nodes
    ensures Grows(c, DoPropose(c, id, data))
  {
    assert NodeOk(c.members, c.hist.reigns, id, c.nodes[id]);
    if c.nodes[id].role == Leader {
      ProposeKeepsLogs(c, id, data);
    }
  }

  lemma GrowsTransitive(a: Reigns, b: Reigns, c: Reigns)
    requires ReignsGrow(a, b) && ReignsGrow(b, c)
    ensures ReignsGrow(a, c)
  {
    forall t | t in a ensures t in c && a[t].log <= c[t].log {
      assert t in b;
    }
  }

  lemma InitHasInv(c: Cluster)
    requires Init(c)
    ensures Inv(c)
  {
    var boot: Entry :| Bootstrapped(c, boot);
    assert Traced(c.hist.reigns, [boot], 0);
    assert Woven(c.hist.reigns, [boot]);
    forall i | i in c.members ensures NodeOk(c.members, c.hist.reigns, i, c.nodes[i]) {
      assert InitialNode(c.members, i, boot, c.nodes[i]);
    }
  }

  /** The invariant holds in every state of every run, and history only grows along it. */
  lemma {:induction false} RunInv(run: seq<Cluster>, i: nat)
    requires Run(run) && i < |run|
    ensures Inv(run[i])
    decreases i
  {
    if i == 0 {
      InitHasInv(run[0]);
    } else {
      RunInv(run, i - 1);
      assert NextAt(run, i - 1);
      var step :| NextStep(run[i - 1], run[i], step);
      StepKeepsInv(run[i - 1], run[i], step);
    }
  }

  lemma RunStepGrows(run: seq<Cluster>, i: nat)
    requires Run(run) && i < |run| - 1
    ensures Grows(run[i], run[i + 1])
  {
    RunInv(run, i);
    assert NextAt(run, i);
    var step :| NextStep(run[i], run[i + 1], step);
    StepKeepsInv(run[i], run[i + 1], step);
  }

  lemma {:induction false} RunGrows(run: seq<Cluster>, i: nat, j: nat)
    requires Run(run) && i <= j < |run|
    ensures Grows(run[i], run[j])
    decreases j
  {
    if i < j {
      RunGrows(run, i, j - 1);
      RunStepGrows(run, j - 1);
      GrowsTransitive(run[i].hist.reigns, run[j - 1].hist.reigns, run[j].hist.reigns);
    }
  }
}
