/** Replication steps keep the invariant of module `CommitInvariants`: a leader appends, a follower confirms. */
module CommitAppend {
  import opened RaftLog
  import opened Server
  import opened Protocol
  import opened Invariants
  import opened CommitInvariants
  import opened Preservation
  import opened CommitPreservation

  // ----- append_entries: the follower's side

  /** `log'` is the outcome of merging the leader's first `n` entries into `log`. */
  predicate MergedFrom(log: seq<Entry>, leader: seq<Entry>, n: nat, log': seq<Entry>) {
    && n <= |leader|
    && leader[..n] <= log'
    && log' == (if leader[..n] <= log then log else leader[..n])
  }

  /** The conflict-only chop: what the follower already shares with the leader survives the merge. */
  lemma MergeKeepsShared(log: seq<Entry>, leader: seq<Entry>, n: nat, log': seq<Entry>, head: seq<Entry>)
    requires MergedFrom(log, leader, n, log') && head <= log && head <= leader
    ensures head <= log'
  {
    assert |head| > n ==> leader[..n] == head[..n];
  }

  /** The part of the follower's new log that a success confirms. */
  function Shared(reigns: Reigns, s': Node, req: AppendReq): nat {
    var whole := if req.term in reigns && s'.log.entries <= reigns[req.term].log then |s'.log.entries| else 0;
    Max(req.prevIndex + |req.entries|, whole)
  }

  lemma RequestFacts(c: Cluster, m: AppendMsg)
    requires SafetyInv(c) && m in c.net.appendReqs
    ensures AppendReqOk(c.hist.reigns, m.to, m.req) && RequestCommitOk(c, m.req)
    ensures ReignsOk(c.hist.reigns) && ReignOk(c.hist.reigns, m.req.term)
  {
    assert AppendReqOk(c.hist.reigns, m.to, m.req);
  }

  /** A follower that reports success has merged the request, and follows the announced commit index as it is. */
  lemma SuccessNode(members: set<Id>, reigns: Reigns, s: Node, req: AppendReq)
    requires NodeOk(members, reigns, s.id, s) && AppendReqOk(reigns, s.id, req) && ReignOk(reigns, req.term)
    requires req.leaderCommit <= req.prevIndex + |req.entries| && OnAppendRequest(s, req).1.success
    ensures var (s', res) := OnAppendRequest(s, req);
            && s.term <= req.term == s'.term == res.term && s'.role == Follower && s'.id == s.id
            && MergedFrom(s.log.entries, reigns[req.term].log, req.prevIndex + |req.entries|, s'.log.entries)
            && s'.log == Full(s'.log.entries) && res.matchIndex == |s'.log.entries|
            && s'.commitIndex == Max(req.leaderCommit, s.commitIndex)
  {
    MergeStretch(reigns, s.log.entries, reigns[req.term].log, req);
  }

  lemma SharedIsShared(reigns: Reigns, log: seq<Entry>, s': Node, req: AppendReq)
    requires req.term in reigns
    requires MergedFrom(log, reigns[req.term].log, req.prevIndex + |req.entries|, s'.log.entries)
    ensures Shared(reigns, s', req) <= |reigns[req.term].log|
    ensures reigns[req.term].log[..Shared(reigns, s', req)] <= s'.log.entries
  {
  }

  // ----- Preservation of the kept choices

  /** One server moves to term `t`, merging the reign's log, and confirms the part it shares. */
  ghost predicate Confirms(c: Cluster, c': Cluster, s': Node, t: nat, n: nat, shared: nat) {
    && s'.id in c.nodes && c.nodes[s'.id].term <= t == s'.term && t in c.hist.reigns
    && MergedFrom(c.nodes[s'.id].log.entries, c.hist.reigns[t].log, n, s'.log.entries)
    && shared <= |c.hist.reigns[t].log| && c.hist.reigns[t].log[..shared] <= s'.log.entries
    && c'.members == c.members && c'.nodes == c.nodes[s'.id := s']
    && c'.hist == WithAck(c.hist, s'.id, t, Max(Acked(c.hist, s'.id, t), shared))
  }

  lemma ConfirmsOnward(c: Cluster, c': Cluster, s': Node, t: nat, n: nat, shared: nat)
    requires c.nodes.Keys == c.members && Confirms(c, c', s', t, n, shared)
    ensures Onward(c, c')
  {
  }

  lemma ConfirmsChoice(c: Cluster, c': Cluster, s': Node, t: nat, n: nat, shared: nat, u: nat, k: nat)
    requires c.nodes.Keys == c.members && Confirms(c, c', s', t, n, shared)
    requires Eligible(c.members, c.hist.reigns, u, k) && Kept(c, u, k)
    requires AcksOk(c.nodes, c.hist.reigns, c.hist.acked) && SlotsOk(c.nodes, c.hist.grants)
    ensures Kept(c', u, k)
  {
    var head := Head(c.hist.reigns, u, k);
    forall q | q in c'.members && Acked(c'.hist, q, u) >= k ensures head <= c'.nodes[q].log.entries {
      if q == s'.id {
        ConfirmsInLog(c, c', s', t, n, shared, u, k);
      }
    }
    forall key | key in c'.hist.grants && u < key.1 && Acked(c'.hist, key.0, u) >= k
      ensures head <= c'.hist.grants[key].log
    {
      assert Bound(c.nodes, key.0, key.1, c.hist.grants[key].candidate);
    }
  }

  lemma ConfirmsInLog(c: Cluster, c': Cluster, s': Node, t: nat, n: nat, shared: nat, u: nat, k: nat)
    requires c.nodes.Keys == c.members && Confirms(c, c', s', t, n, shared)
    requires Eligible(c.members, c.hist.reigns, u, k) && Kept(c, u, k)
    requires AcksOk(c.nodes, c.hist.reigns, c.hist.acked) && Acked(c'.hist, s'.id, u) >= k
    ensures Head(c.hist.reigns, u, k) <= s'.log.entries
  {
    var head := Head(c.hist.reigns, u, k);
    if Acked(c.hist, s'.id, u) >= k {
      var key := (s'.id, u);
      assert AckOk(c.nodes, c.hist.reigns, key.0, key.1, c.hist.acked[key]);
      MergeKeepsShared(c.nodes[s'.id].log.entries, c.hist.reigns[t].log, n, s'.log.entries, head);
    } else {
      assert head == c.hist.reigns[t].log[..shared][..k];
    }
  }

  lemma ConfirmsChoices(c: Cluster, c': Cluster, s': Node, t: nat, n: nat, shared: nat)
    requires c.nodes.Keys == c.members && Confirms(c, c', s', t, n, shared) && ChoicesKept(c)
    requires AcksOk(c.nodes, c.hist.reigns, c.hist.acked) && SlotsOk(c.nodes, c.hist.grants)
    ensures ChoicesKept(c')
  {
    ConfirmsOnward(c, c', s', t, n, shared);
    forall u, k | Choosable(c', u, k) ensures Kept(c', u, k) {
      ChoosableBefore(c, c', u, k);
      ConfirmsChoice(c, c', s', t, n, shared, u, k);
    }
  }

  // ----- Preservation of the rest

  lemma ConfirmsAcks(c: Cluster, c': Cluster, s': Node, t: nat, n: nat, shared: nat)
    requires AcksOk(c.nodes, c.hist.reigns, c.hist.acked) && Confirms(c, c', s', t, n, shared)
    ensures AcksOk(c'.nodes, c'.hist.reigns, c'.hist.acked)
  {
    forall key | key in c'.hist.acked ensures AckOk(c'.nodes, c'.hist.reigns, key.0, key.1, c'.hist.acked[key]) {
      assert key in c.hist.acked ==> AckOk(c.nodes, c.hist.reigns, key.0, key.1, c.hist.acked[key]);
    }
  }

  lemma ConfirmsLeaders(c: Cluster, c': Cluster, s': Node, t: nat, n: nat, shared: nat)
    requires LeadersKnow(c.nodes, c.hist) && Confirms(c, c', s', t, n, shared) && s'.role == Follower
    requires NodesOk(c.members, c.nodes, c.hist.reigns)
    ensures LeadersKnow(c'.nodes, c'.hist)
  {
    forall i | i in c'.nodes ensures LeaderKnows(c'.hist, c'.nodes[i]) {
      assert LeaderKnows(c.hist, c.nodes[i]) && NodeOk(c.members, c.hist.reigns, i, c.nodes[i]);
    }
  }

  lemma ConfirmsReplies(c: Cluster, c': Cluster, s': Node, t: nat, n: nat, shared: nat)
    requires SuccessesOk(c.hist, c.net.appendReplies) && Confirms(c, c', s', t, n, shared)
    ensures SuccessesOk(c'.hist, c.net.appendReplies)
  {
    forall r | r in c.net.appendReplies ensures SuccessOk(c'.hist, r) {
      assert SuccessOk(c.hist, r);
    }
  }

  /** The follower's commit index afterwards is its old one, or the one announced by the leader. */
  lemma ConfirmsCommits(c: Cluster, c': Cluster, s': Node, req: AppendReq, shared: nat)
    requires CommitInv(c) && RequestCommitOk(c, req)
    requires Confirms(c, c', s', req.term, req.prevIndex + |req.entries|, shared)
    requires s'.commitIndex == Max(req.leaderCommit, c.nodes[s'.id].commitIndex)
    ensures CommitSafe(c, s'.log.entries, s'.commitIndex, s'.term)
  {
    if s'.commitIndex == req.leaderCommit {
      AnnouncedCommit(c, s', req);
    } else {
      KeptCommit(c, s', req.term, req.prevIndex + |req.entries|);
    }
  }

  lemma AnnouncedCommit(c: Cluster, s': Node, req: AppendReq)
    requires RequestCommitOk(c, req) && s'.term == req.term && s'.commitIndex == req.leaderCommit
    requires var n := req.prevIndex + |req.entries|;
             n <= |c.hist.reigns[req.term].log| && c.hist.reigns[req.term].log[..n] <= s'.log.entries
    ensures CommitSafe(c, s'.log.entries, s'.commitIndex, s'.term)
  {
    var n, leader := req.prevIndex + |req.entries|, c.hist.reigns[req.term].log;
    assert s'.log.entries[..req.leaderCommit] == leader[..n][..req.leaderCommit];
    CommitSafeMoves(c, leader, s'.log.entries, req.leaderCommit, req.leaderCommit, req.term);
  }

  lemma KeptCommit(c: Cluster, s': Node, t: nat, n: nat)
    requires c.nodes.Keys == c.members && ChoicesKept(c) && CommitsOk(c)
    requires s'.id in c.nodes && c.nodes[s'.id].term <= t == s'.term && t in c.hist.reigns
    requires MergedFrom(c.nodes[s'.id].log.entries, c.hist.reigns[t].log, n, s'.log.entries)
    requires s'.commitIndex == c.nodes[s'.id].commitIndex
    ensures CommitSafe(c, s'.log.entries, s'.commitIndex, s'.term)
  {
    var s := c.nodes[s'.id];
    assert CommitSafe(c, s.log.entries, s.commitIndex, s.term);
    CommittedSurvives(c, s, c.hist.reigns[t].log, t, n, s'.log.entries);
    CommitSafeMoves(c, s.log.entries, s'.log.entries, s.commitIndex, s.commitIndex, s.term);
    SafeLater(c, s'.log.entries, s.commitIndex, s.term, t);
  }

  lemma SafeLater(c: Cluster, log: seq<Entry>, commit: nat, t: nat, t': nat)
    requires CommitSafe(c, log, commit, t) && t <= t'
    ensures CommitSafe(c, log, commit, t')
  {
    if commit > 0 {
      var u, k :| CommitWitness(c, log, commit, t, u, k);
      assert CommitWitness(c, log, commit, t', u, k);
    }
  }

  /** Committed entries are in the log of every leader of the same or a later term. */
  lemma LeaderHasCommitted(c: Cluster, log: seq<Entry>, commit: nat, t: nat, u: nat)
    requires c.nodes.Keys == c.members && ChoicesKept(c) && CommitSafe(c, log, commit, t)
    requires u in c.hist.reigns && t <= u
    ensures commit <= |log| && log[..commit] <= c.hist.reigns[u].log
  {
    if commit > 0 {
      var v, k :| CommitWitness(c, log, commit, t, v, k);
      SubsetSize(Holding(c, v, k), Able(c, v, k));
      assert Choosable(c, v, k);
      HeadInReign(c, v, k, u);
      assert Head(c.hist.reigns, v, commit) == Head(c.hist.reigns, v, k)[..commit];
    }
  }

  lemma HeadInReign(c: Cluster, t: nat, k: nat, u: nat)
    requires c.nodes.Keys == c.members && ChoicesKept(c) && Choosable(c, t, k)
    requires u in c.hist.reigns && t <= u
    ensures Head(c.hist.reigns, t, k) <= c.hist.reigns[u].log
  {
    assert Kept(c, t, k);
  }

  /** A merge never removes a committed entry. */
  lemma CommittedSurvives(c: Cluster, s: Node, leader: seq<Entry>, t: nat, n: nat, log': seq<Entry>)
    requires c.nodes.Keys == c.members && ChoicesKept(c)
    requires CommitSafe(c, s.log.entries, s.commitIndex, s.term)
    requires t in c.hist.reigns && leader == c.hist.reigns[t].log && s.term <= t
    requires MergedFrom(s.log.entries, leader, n, log')
    ensures s.commitIndex <= |log'| && log'[..s.commitIndex] == s.log.entries[..s.commitIndex]
  {
    LeaderHasCommitted(c, s.log.entries, s.commitIndex, s.term, t);
    MergeKeepsShared(s.log.entries, leader, n, log', s.log.entries[..s.commitIndex]);
  }

  /** What delivering an accepted request does, given only facts about the follower and the request. */
  lemma ConfirmShape(c: Cluster, m: AppendMsg)
    requires m.to in c.nodes && NodeOk(c.members, c.hist.reigns, m.to, c.nodes[m.to])
    requires AppendReqOk(c.hist.reigns, m.to, m.req) && ReignOk(c.hist.reigns, m.req.term)
    requires m.req.leaderCommit <= m.req.prevIndex + |m.req.entries|
    requires OnAppendRequest(c.nodes[m.to], m.req).1.success
    ensures var s' := OnAppendRequest(c.nodes[m.to], m.req).0;
            var shared := Shared(c.hist.reigns, s', m.req);
            && Confirms(c, DoDeliverAppend(c, m), s', m.req.term, m.req.prevIndex + |m.req.entries|, shared)
            && s'.role == Follower && s'.commitIndex == Max(m.req.leaderCommit, c.nodes[m.to].commitIndex)
            && s'.id == m.to
  {
    SuccessNode(c.members, c.hist.reigns, c.nodes[m.to], m.req);
    SharedIsShared(c.hist.reigns, c.nodes[m.to].log.entries, OnAppendRequest(c.nodes[m.to], m.req).0, m.req);
  }

  lemma ConfirmSetup(c: Cluster, m: AppendMsg)
    requires SafetyInv(c) && m in c.net.appendReqs && m.to in c.nodes
    requires OnAppendRequest(c.nodes[m.to], m.req).1.success
    ensures var s' := OnAppendRequest(c.nodes[m.to], m.req).0;
            var shared := Shared(c.hist.reigns, s', m.req);
            && m.req.term in c.hist.reigns
            && Confirms(c, DoDeliverAppend(c, m), s', m.req.term, m.req.prevIndex + |m.req.entries|, shared)
            && s'.role == Follower && s'.commitIndex == Max(m.req.leaderCommit, c.nodes[m.to].commitIndex)
            && RequestCommitOk(c, m.req) && c.nodes[m.to].id == m.to == s'.id
  {
    NodeFacts(c, m.to);
    RequestFacts(c, m);
    ConfirmShape(c, m);
  }

  lemma ConfirmReply(c: Cluster, m: AppendMsg)
    requires SafetyInv(c) && m in c.net.appendReqs && m.to in c.nodes
    requires OnAppendRequest(c.nodes[m.to], m.req).1.success
    ensures var (s', res) := OnAppendRequest(c.nodes[m.to], m.req);
            SuccessOk(DoDeliverAppend(c, m).hist, AppendReply(m.to, m.req, res, s'.log.entries))
  {
    NodeFacts(c, m.to);
    RequestFacts(c, m);
    SuccessNode(c.members, c.hist.reigns, c.nodes[m.to], m.req);
  }

  lemma ConfirmKeepsCommits(c: Cluster, m: AppendMsg)
    requires SafetyInv(c) && m in c.net.appendReqs && m.to in c.nodes
    requires OnAppendRequest(c.nodes[m.to], m.req).1.success
    ensures CommitInv(DoDeliverAppend(c, m))
  {
    var (s', res) := OnAppendRequest(c.nodes[m.to], m.req);
    ConfirmSetup(c, m);
    ConfirmReply(c, m);
    ConfirmAll(c, DoDeliverAppend(c, m), s', m.req, Shared(c.hist.reigns, s', m.req),
               AppendReply(m.to, m.req, res, s'.log.entries));
  }

  lemma ConfirmAll(c: Cluster, c': Cluster, s': Node, req: AppendReq, shared: nat, reply: AppendReply)
    requires CommitInv(c) && NodesOk(c.members, c.nodes, c.hist.reigns) && SlotsOk(c.nodes, c.hist.grants)
    requires Confirms(c, c', s', req.term, req.prevIndex + |req.entries|, shared)
    requires s'.role == Follower && s'.commitIndex == Max(req.leaderCommit, c.nodes[s'.id].commitIndex)
    requires RequestCommitOk(c, req) && c.nodes[s'.id].id == s'.id && SuccessOk(c'.hist, reply)
    requires c'.net == c.net.(appendReplies := c.net.appendReplies + {reply})
    ensures CommitInv(c')
  {
    var n := req.prevIndex + |req.entries|;
    ConfirmsOnward(c, c', s', req.term, n, shared);
    ConfirmsChoices(c, c', s', req.term, n, shared);
    ConfirmsAcks(c, c', s', req.term, n, shared);
    ConfirmsLeaders(c, c', s', req.term, n, shared);
    ConfirmsReplies(c, c', s', req.term, n, shared);
    ConfirmAllCommits(c, c', s', req, shared);
  }

  lemma ConfirmAllCommits(c: Cluster, c': Cluster, s': Node, req: AppendReq, shared: nat)
    requires CommitInv(c) && RequestCommitOk(c, req) && Onward(c, c')
    requires Confirms(c, c', s', req.term, req.prevIndex + |req.entries|, shared)
    requires s'.role == Follower && s'.commitIndex == Max(req.leaderCommit, c.nodes[s'.id].commitIndex)
    requires c.nodes[s'.id].id == s'.id && c'.net == c.net.(appendReplies := c'.net.appendReplies)
    ensures CommitsOk(c') && RequestCommitsOk(c')
    ensures GrantLogsOk(c'.nodes, c'.hist.reigns, c'.hist.grants) && VoteReqLogsOk(c'.nodes, c'.net.voteReqs)
  {
    ConfirmsCommits(c, c', s', req, shared);
    CommitSafeStays(c, c', s'.log.entries, s'.commitIndex, s'.term, s'.term);
    ConfirmClosing(c, c', s');
  }

  lemma ConfirmClosing(c: Cluster, c': Cluster, s': Node)
    requires CommitInv(c) && Onward(c, c') && s'.id in c.nodes && c'.nodes == c.nodes[s'.id := s']
    requires c.nodes[s'.id].id == s'.id && s'.role == Follower && c'.hist == c.hist.(acked := c'.hist.acked)
    requires c'.net == c.net.(appendReplies := c'.net.appendReplies)
    requires CommitSafe(c', s'.log.entries, s'.commitIndex, s'.term)
    ensures CommitsOk(c') && RequestCommitsOk(c')
    ensures GrantLogsOk(c'.nodes, c'.hist.reigns, c'.hist.grants) && VoteReqLogsOk(c'.nodes, c'.net.voteReqs)
  {
    SpokenStays(c.nodes, s', c.hist.reigns, c.hist.grants, c.net.voteReqs);
    CommitsStay(c, c', s');
    RequestCommitsStay(c, c');
  }

  lemma RefuseKeepsCommits(c: Cluster, m: AppendMsg)
    requires SafetyInv(c) && m.to in c.nodes
    ensures CommitInv(DoRefuse(c, m))
  {
    var s := c.nodes[m.to];
    var (s', res) := RefuseAppend(s, m.req);
    NodeFacts(c, m.to);
    RefusedQuiet(c, s, m.req);
    QuietKeepsCommitInv(c, s');
    ReplyKeepsCommits(Put(c, s'), AppendReply(m.to, m.req, res, s'.log.entries));
  }

  lemma RefusedQuiet(c: Cluster, s: Node, req: AppendReq)
    requires c.nodes.Keys == c.members && LeaderKnows(c.hist, s) && CommitSafe(c, s.log.entries, s.commitIndex, s.term)
    ensures var s' := RefuseAppend(s, req).0;
            && s'.id == s.id && Quiet(s, s') && LeaderKnows(c.hist, s')
            && CommitSafe(c, s'.log.entries, s'.commitIndex, s'.term)
  {
    CommitSafeStays(c, c, s.log.entries, s.commitIndex, s.term, RefuseAppend(s, req).0.term);
  }

  /** A request that is not merged is answered like one that is refused. */
  lemma UnmergedIsRefused(c: Cluster, m: AppendMsg)
    requires m.to in c.nodes && !OnAppendRequest(c.nodes[m.to], m.req).1.success
    ensures DoDeliverAppend(c, m) == DoRefuse(c, m)
  {
  }

  lemma ReplyKeepsCommits(c: Cluster, r: AppendReply)
    requires CommitInv(c) && !r.res.success
    ensures CommitInv(c.(net := c.net.(appendReplies := c.net.appendReplies + {r})))
  {
    var c' := c.(net := c.net.(appendReplies := c.net.appendReplies + {r}));
    assert Onward(c, c');
    QuietChoices(c, c');
    CommitsStayAll(c, c');
    RequestCommitsStay(c, c');
  }

  // ----- append: the leader's side

  /** The leader `s'.id` extended its reign's log by one entry of its term and confirms it itself. */
  ghost predicate Extends(c: Cluster, c': Cluster, s': Node, e: Entry) {
    && s'.id in c.nodes && s'.term in c.hist.reigns && e.term == s'.term
    && c.nodes[s'.id].term == s'.term
    && c.hist.reigns[s'.term].log == c.nodes[s'.id].log.entries
    && Acked(c.hist, s'.id, s'.term) == |c.nodes[s'.id].log.entries|
    && s' == c.nodes[s'.id].(log := Full(c.nodes[s'.id].log.entries + [e]))
    && c'.members == c.members && c'.nodes == c.nodes[s'.id := s']
    && c'.hist == WithAck(c.hist.(reigns := c.hist.reigns[s'.term := c.hist.reigns[s'.term].(log := s'.log.entries)]),
                          s'.id, s'.term, |s'.log.entries|)
  }

  lemma ExtendsOnward(c: Cluster, c': Cluster, s': Node, e: Entry)
    requires c.nodes.Keys == c.members && Extends(c, c', s', e)
    ensures Onward(c, c')
  {
  }

  lemma ExtendsOldChoice(c: Cluster, c': Cluster, s': Node, e: Entry, u: nat, k: nat)
    requires c.nodes.Keys == c.members && Extends(c, c', s', e)
    requires Eligible(c.members, c.hist.reigns, u, k) && Kept(c, u, k)
    ensures Eligible(c'.members, c'.hist.reigns, u, k) && Kept(c', u, k)
  {
    var head := Head(c.hist.reigns, u, k);
    assert Head(c'.hist.reigns, u, k) == head;
    forall q | q in c'.members && Acked(c'.hist, q, u) >= k ensures head <= c'.nodes[q].log.entries {
      assert Acked(c.hist, q, u) >= k;
    }
    forall key | key in c'.hist.grants && u < key.1 && Acked(c'.hist, key.0, u) >= k
      ensures head <= c'.hist.grants[key].log
    {
      assert Acked(c.hist, key.0, u) >= k;
    }
    forall v | v in c'.hist.reigns && u < v ensures head <= c'.hist.reigns[v].log {
      assert head <= c.hist.reigns[v].log;
    }
  }

  /** Who voted in a later term can no longer confirm a fresh entry. */
  lemma LaterVoterNotAble(c: Cluster, c': Cluster, s': Node, e: Entry, q: Id, v: nat)
    requires SlotsOk(c.nodes, c.hist.grants) && Extends(c, c', s', e) && c.nodes.Keys == c.members
    requires AcksOk(c.nodes, c.hist.reigns, c.hist.acked)
    requires (q, v) in c.hist.grants && s'.term < v
    ensures q !in Able(c', s'.term, |s'.log.entries|) && Acked(c'.hist, q, s'.term) < |s'.log.entries|
  {
    var vote, ack := (q, v), (q, s'.term);
    assert Bound(c.nodes, vote.0, vote.1, c.hist.grants[vote].candidate);
    assert ack in c.hist.acked ==> AckOk(c.nodes, c.hist.reigns, ack.0, ack.1, c.hist.acked[ack]);
  }

  /** A fresh entry of a leader that already has a successor can no longer be chosen. */
  lemma FreshHasNoSuccessor(c: Cluster, c': Cluster, s': Node, e: Entry, v: nat)
    requires VoteInv(c) && Extends(c, c', s', e) && c.nodes.Keys == c.members && s'.term >= 1
    requires AcksOk(c.nodes, c.hist.reigns, c.hist.acked)
    requires v in c.hist.reigns && Choosable(c', s'.term, |s'.log.entries|)
    ensures v <= s'.term
  {
    var able := Able(c', s'.term, |s'.log.entries|);
    if s'.term < v {
      assert Elected(c.members, c.hist.grants, c.hist.reigns[v], v);
      var q := MajoritiesMeet(c.members, able, c.hist.reigns[v].electors);
      assert VotedFor(c.hist.grants, q, v, c.hist.reigns[v].owner);
      LaterVoterNotAble(c, c', s', e, q, v);
    }
  }

  lemma ExtendsNewChoice(c: Cluster, c': Cluster, s': Node, e: Entry)
    requires VoteInv(c) && Extends(c, c', s', e) && c.nodes.Keys == c.members && s'.term >= 1
    requires AcksOk(c.nodes, c.hist.reigns, c.hist.acked)
    requires Choosable(c', s'.term, |s'.log.entries|)
    ensures Kept(c', s'.term, |s'.log.entries|)
  {
    var t, k := s'.term, |s'.log.entries|;
    var head := Head(c'.hist.reigns, t, k);
    assert head == s'.log.entries;
    forall q | q in c'.members && Acked(c'.hist, q, t) >= k ensures head <= c'.nodes[q].log.entries {
      OnlyLeaderAcks(c, c', s', e, q);
    }
    forall key | key in c'.hist.grants && t < key.1 ensures Acked(c'.hist, key.0, t) < k {
      LaterVoterNotAble(c, c', s', e, key.0, key.1);
    }
    forall v | v in c'.hist.reigns ensures v <= t {
      FreshHasNoSuccessor(c, c', s', e, v);
    }
  }

  lemma OnlyLeaderAcks(c: Cluster, c': Cluster, s': Node, e: Entry, q: Id)
    requires Extends(c, c', s', e) && AcksOk(c.nodes, c.hist.reigns, c.hist.acked)
    requires Acked(c'.hist, q, s'.term) >= |s'.log.entries|
    ensures q == s'.id
  {
    var ack := (q, s'.term);
    assert ack in c.hist.acked ==> AckOk(c.nodes, c.hist.reigns, ack.0, ack.1, c.hist.acked[ack]);
  }

  lemma ExtendsChoices(c: Cluster, c': Cluster, s': Node, e: Entry)
    requires VoteInv(c) && CommitInv(c) && Extends(c, c', s', e) && s'.term >= 1
    ensures ChoicesKept(c')
  {
    ExtendsOnward(c, c', s', e);
    forall u, k | Choosable(c', u, k) ensures Kept(c', u, k) {
      if u == s'.term && k == |s'.log.entries| {
        ExtendsNewChoice(c, c', s', e);
      } else {
        ChoosableBefore(c, c', u, k);
        ExtendsOldChoice(c, c', s', e, u, k);
      }
    }
  }

  /** No reply in flight already carries the fresh entry. */
  lemma ExtendsReplies(c: Cluster, c': Cluster, s': Node, e: Entry)
    requires Extends(c, c', s', e) && SuccessesOk(c.hist, c.net.appendReplies)
    requires RequestsOk(c.members, c.hist.reigns, c.net.appendReqs, c.net.appendReplies)
    ensures SuccessesOk(c'.hist, c.net.appendReplies)
  {
    var log := c.nodes[s'.id].log.entries;
    forall r | r in c.net.appendReplies ensures SuccessOk(c'.hist, r) {
      assert SuccessOk(c.hist, r) && ReplyOk(c.members, c.hist.reigns, r);
      if r.req.term == s'.term && |r.log| > |log| {
        assert Traced(c.hist.reigns, r.log, |log|);
      }
    }
  }

  lemma ExtendsAcks(c: Cluster, c': Cluster, s': Node, e: Entry)
    requires CommitInv(c) && Extends(c, c', s', e)
    ensures AcksOk(c'.nodes, c'.hist.reigns, c'.hist.acked)
  {
    forall key | key in c'.hist.acked ensures AckOk(c'.nodes, c'.hist.reigns, key.0, key.1, c'.hist.acked[key]) {
      assert key in c.hist.acked ==> AckOk(c.nodes, c.hist.reigns, key.0, key.1, c.hist.acked[key]);
    }
  }

  lemma ExtendsLeaders(c: Cluster, c': Cluster, s': Node, e: Entry)
    requires LeadersKnow(c.nodes, c.hist) && Extends(c, c', s', e) && s'.role == Leader
    requires NodesOk(c.members, c.nodes, c.hist.reigns)
    ensures LeadersKnow(c'.nodes, c'.hist)
  {
    forall i | i in c'.nodes ensures LeaderKnows(c'.hist, c'.nodes[i]) {
      assert LeaderKnows(c.hist, c.nodes[i]) && NodeOk(c.members, c.hist.reigns, i, c.nodes[i]);
    }
  }

  lemma ExtendsSpoken(c: Cluster, c': Cluster, s': Node, e: Entry)
    requires CommitInv(c) && Extends(c, c', s', e) && s'.role == Leader && c.nodes[s'.id].id == s'.id
    ensures GrantLogsOk(c'.nodes, c'.hist.reigns, c'.hist.grants) && VoteReqLogsOk(c'.nodes, c.net.voteReqs)
  {
    SpokenStays(c.nodes, s', c.hist.reigns, c.hist.grants, c.net.voteReqs);
    WovenGrants(c.hist.reigns, c'.hist.reigns, c'.nodes, c.hist.grants);
  }

  lemma ExtendsKeepsCommits(c: Cluster, c': Cluster, s': Node, e: Entry)
    requires SafetyInv(c) && Extends(c, c', s', e) && s'.role == Leader && c'.net == c.net
    ensures CommitInv(c')
  {
    var s := c.nodes[s'.id];
    NodeFacts(c, s'.id);
    ExtendsOnward(c, c', s', e);
    ExtendsChoices(c, c', s', e);
    ExtendsReplies(c, c', s', e);
    ExtendsAcks(c, c', s', e);
    ExtendsLeaders(c, c', s', e);
    ExtendsSpoken(c, c', s', e);
    ExtendsCommits(c, c', s');
  }

  lemma ExtendsCommits(c: Cluster, c': Cluster, s': Node)
    requires Onward(c, c') && CommitInv(c) && s'.id in c.nodes && c'.nodes == c.nodes[s'.id := s']
    requires c'.net == c.net && s' == c.nodes[s'.id].(log := s'.log)
    requires c.nodes[s'.id].log.entries <= s'.log.entries
    ensures CommitsOk(c') && RequestCommitsOk(c')
  {
    var s := c.nodes[s'.id];
    assert CommitSafe(c, s.log.entries, s.commitIndex, s.term);
    CommitSafeMoves(c, s.log.entries, s'.log.entries, s.commitIndex, s.commitIndex, s.term);
    CommitSafeStays(c, c', s'.log.entries, s.commitIndex, s.term, s.term);
    CommitsStay(c, c', s');
    RequestCommitsStay(c, c');
  }

  lemma ProposeKeepsCommits(c: Cluster, id: Id, data: Bytes)
    requires SafetyInv(c) && id in c.nodes
    ensures CommitInv(DoPropose(c, id, data))
  {
    NodeFacts(c, id);
    var s := c.nodes[id];
    if s.role == Leader {
      ExtendsKeepsCommits(c, DoPropose(c, id, data), ClientAppend(s, data),
                          Entry(s.term, s.log.LastIndex() + 1, data, false));
    } else {
      assert Put(c, s) == c;
    }
  }
}
