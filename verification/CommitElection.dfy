/** Elections keep the invariant of module `CommitInvariants`: a new leader has everything that can still be chosen. */
module CommitElection {
  import opened RaftLog
  import opened Server
  import opened Protocol
  import opened Invariants
  import opened CommitInvariants
  import opened Preservation
  import opened CommitPreservation

  // ----- Becoming a candidate

  lemma CandidacySpoken(nodes: Nodes, s': Node, reigns: Reigns, grants: Grants, reqs: set<VoteMsg>, reqs': set<VoteMsg>)
    requires GrantLogsOk(nodes, reigns, grants) && VoteReqLogsOk(nodes, reqs)
    requires forall m | m in reqs :: Reached(nodes, m.req.candidate, m.req.term)
    requires forall key | key in grants :: Reached(nodes, grants[key].candidate, key.1)
    requires s'.id in nodes && s'.term > nodes[s'.id].term && Woven(reigns, s'.log.entries)
    requires forall m | m in reqs' - reqs ::
               && m.req.lastIndex == |s'.log.entries| && m.req.lastTerm == TermOfLast(s'.log.entries)
               && m.req.candidate == s'.id
    ensures GrantLogsOk(nodes[s'.id := s'], reigns, grants[(s'.id, s'.term) := Grant(s'.id, s'.log.entries)])
    ensures VoteReqLogsOk(nodes[s'.id := s'], reqs')
  {
    var nodes', grants' := nodes[s'.id := s'], grants[(s'.id, s'.term) := Grant(s'.id, s'.log.entries)];
    forall key | key in grants' ensures GrantLogOk(nodes', key.0, key.1, grants'[key]) {
      if key != (s'.id, s'.term) {
        assert GrantLogOk(nodes, key.0, key.1, grants[key]);
        assert Reached(nodes, grants[key].candidate, key.1);
      }
    }
    forall m | m in reqs' ensures VoteReqLogOk(nodes', m.req) {
      if m in reqs {
        assert VoteReqLogOk(nodes, m.req);
        assert Reached(nodes, m.req.candidate, m.req.term);
      }
    }
  }

  lemma CandidacyRest(c: Cluster, id: Id)
    requires CommitInv(c) && id in c.nodes && NodeOk(c.members, c.hist.reigns, id, c.nodes[id])
    ensures var c' := OpenCandidacy(c, id);
            Onward(c, c') && AcksOk(c'.nodes, c'.hist.reigns, c'.hist.acked) && LeadersKnow(c'.nodes, c'.hist)
  {
    var c' := OpenCandidacy(c, id);
    AcksAdvance(c.nodes, c'.nodes, c.hist.reigns, c.hist.acked);
    LeadersStay(c.nodes, c.hist, c'.nodes[id]);
    forall i | i in c'.nodes ensures LeaderKnows(c'.hist, c'.nodes[i]) {
      assert LeaderKnows(c.hist, c'.nodes[i]);
    }
  }

  lemma CandidacyKeepsCommits(c: Cluster, id: Id)
    requires SafetyInv(c) && id in c.nodes
    ensures CommitInv(OpenCandidacy(c, id))
  {
    var c' := OpenCandidacy(c, id);
    NodeFacts(c, id);
    CandidacyReqs(c, id);
    CandidacySpoken(c.nodes, c'.nodes[id], c.hist.reigns, c.hist.grants, c.net.voteReqs, c'.net.voteReqs);
    CandidacyRest(c, id);
    CandidacyChoices(c, id);
    CandidacyCommits(c, c', c'.nodes[id]);
  }

  lemma CandidacyReqs(c: Cluster, id: Id)
    requires id in c.nodes && c.nodes[id].id == id && c.nodes[id].log == Full(c.nodes[id].log.entries)
    ensures var c' := OpenCandidacy(c, id);
            var log := c.nodes[id].log.entries;
            forall m | m in c'.net.voteReqs - c.net.voteReqs ::
              m.req.lastIndex == |log| && m.req.lastTerm == TermOfLast(log) && m.req.candidate == id
  {
  }

  lemma CandidacyChoices(c: Cluster, id: Id)
    requires CommitInv(c) && SlotsOk(c.nodes, c.hist.grants) && id in c.nodes && c.nodes[id].id == id
    requires Onward(c, OpenCandidacy(c, id))
    ensures ChoicesKept(OpenCandidacy(c, id))
  {
    FreshGrant(c, id);
    GrantChoices(c, OpenCandidacy(c, id), id, c.nodes[id].term + 1);
  }

  lemma CandidacyCommits(c: Cluster, c': Cluster, s': Node)
    requires CommitInv(c) && Onward(c, c') && s'.id in c.nodes && c'.nodes == c.nodes[s'.id := s']
    requires var s := c.nodes[s'.id]; s'.log == s.log && s'.commitIndex == s.commitIndex && s.term <= s'.term
    requires c'.hist.reigns == c.hist.reigns && c'.hist.acked == c.hist.acked
    requires c'.net == c.net.(voteReqs := c'.net.voteReqs)
    ensures CommitsOk(c') && RequestCommitsOk(c') && SuccessesOk(c'.hist, c'.net.appendReplies)
  {
    var s := c.nodes[s'.id];
    assert CommitSafe(c, s.log.entries, s.commitIndex, s.term);
    CommitSafeStays(c, c', s.log.entries, s.commitIndex, s.term, s'.term);
    CommitsStay(c, c', s');
    RequestCommitsStay(c, c');
    forall r | r in c'.net.appendReplies ensures SuccessOk(c'.hist, r) {
      assert SuccessOk(c.hist, r);
    }
  }

  // ----- Counting a vote

  lemma CountKeepsCommits(c: Cluster, r: VoteReply)
    requires SafetyInv(c) && r.req.candidate in c.nodes && c.nodes[r.req.candidate].role == Candidate
    ensures CommitInv(CountBallot(c, r))
  {
    NodeFacts(c, r.req.candidate);
    CountKeepsCommitInv(c, r);
  }

  lemma CountKeepsCommitInv(c: Cluster, r: VoteReply)
    requires CommitInv(c) && r.req.candidate in c.nodes && c.nodes[r.req.candidate].role == Candidate
    requires var s := c.nodes[r.req.candidate];
             s.id == r.req.candidate && CommitSafe(c, s.log.entries, s.commitIndex, s.term)
    ensures CommitInv(CountBallot(c, r))
  {
    var s := c.nodes[r.req.candidate];
    var s' := s.(votes := s.votes + 1);
    CountQuiet(c, s, s');
    QuietKeepsCommitInv(c, s');
    TallyKeepsCommits(Put(c, s'), CountBallot(c, r));
  }

  lemma CountQuiet(c: Cluster, s: Node, s': Node)
    requires s' == s.(votes := s'.votes) && s.role == Candidate
    ensures Quiet(s, s') && LeaderKnows(c.hist, s')
  {
  }

  /** Ballots and finished callbacks are no part of what is committed. */
  lemma TallyKeepsCommits(c: Cluster, c': Cluster)
    requires CommitInv(c) && c'.members == c.members && c'.nodes == c.nodes
    requires c'.hist == c.hist.(ballots := c'.hist.ballots) && c'.net == c.net.(handled := c'.net.handled)
    ensures CommitInv(c')
  {
    assert Onward(c, c');
    QuietChoices(c, c');
    CommitsStayAll(c, c');
    RequestCommitsStay(c, c');
    TallyRecords(c, c');
  }

  lemma TallyRecords(c: Cluster, c': Cluster)
    requires CommitInv(c) && c'.nodes == c.nodes && c'.hist == c.hist.(ballots := c'.hist.ballots)
    requires c'.net == c.net.(handled := c'.net.handled)
    ensures LeadersKnow(c'.nodes, c'.hist) && SuccessesOk(c'.hist, c'.net.appendReplies)
  {
    forall i | i in c'.nodes ensures LeaderKnows(c'.hist, c'.nodes[i]) {
      assert LeaderKnows(c.hist, c.nodes[i]);
    }
    forall r | r in c'.net.appendReplies ensures SuccessOk(c'.hist, r) {
      assert SuccessOk(c.hist, r);
    }
  }

  // ----- Taking office

  /**
   A log no older than a voter's holds what the voter holds of an earlier reign: its last entry is of that reign
   or a later one, and it is at least as long.
   */
  lemma NewerLogHasHead(reigns: Reigns, u: nat, k: nat, voter: seq<Entry>, log: seq<Entry>)
    requires u in reigns && 0 < k <= |reigns[u].log| && reigns[u].log[k - 1].term == u
    requires InReigns(reigns, u, Head(reigns, u, k)) && Head(reigns, u, k) <= voter
    requires Woven(reigns, voter) && Woven(reigns, log) && NoNewer(voter, log)
    ensures Head(reigns, u, k) <= log
  {
    var head, w := Head(reigns, u, k), TermOfLast(log);
    assert voter[k - 1] == head[k - 1];
    assert voter[k - 1].term <= voter[|voter| - 1].term;
    assert Traced(reigns, log, |log| - 1);
    assert log == reigns[w].log[..|log|];
    assert head <= reigns[w].log;
  }

  /** One elector of the new leader who confirmed the prefix passes it on. */
  lemma ElectorPassesHead(c: Cluster, id: Id, u: nat, k: nat, q: Id)
    requires CommitInv(c) && SlotsOk(c.nodes, c.hist.grants)
    requires id in c.nodes && NodeOk(c.members, c.hist.reigns, id, c.nodes[id]) && c.nodes[id].role == Candidate
    requires u < c.nodes[id].term && VotedFor(c.hist.grants, q, c.nodes[id].term, id)
    requires Eligible(c.members, c.hist.reigns, u, k) && Kept(c, u, k) && q in Able(c, u, k)
    ensures Head(c.hist.reigns, u, k) <= c.nodes[id].log.entries
  {
    var s, vote := c.nodes[id], (q, c.nodes[id].term);
    assert Bound(c.nodes, vote.0, vote.1, c.hist.grants[vote].candidate);
    assert Acked(c.hist, q, u) >= k;
    assert GrantLogOk(c.nodes, vote.0, vote.1, c.hist.grants[vote]);
    if |c.members| == 1 {
      OnlyMember(c.members, q);
      OnlyMember(c.members, id);
    } else {
      NewerLogHasHead(c.hist.reigns, u, k, c.hist.grants[vote].log, s.log.entries);
    }
  }

  ghost predicate WinsOffice(c: Cluster, id: Id) {
    && id in c.nodes && NodeOk(c.members, c.hist.reigns, id, c.nodes[id]) && c.nodes[id].role == Candidate
    && c.nodes[id].term !in c.hist.reigns
    && var voters := Ballots(c.hist, id, c.nodes[id].term);
    && voters <= c.members && Majority(c.members, voters)
    && forall v | v in voters :: VotedFor(c.hist.grants, v, c.nodes[id].term, id)
  }

  /** `c'` is `c` with the winner `id` in office. */
  ghost predicate InOffice(c: Cluster, c': Cluster, id: Id) {
    && id in c.nodes && id in c'.nodes
    && c'.members == c.members && c'.nodes == c.nodes[id := c'.nodes[id]]
    && var s, s' := c.nodes[id], c'.nodes[id];
    && s' == s.(role := Leader, nextIndex := s'.nextIndex, matchIndex := s'.matchIndex)
    && c'.hist.grants == c.hist.grants && c'.net == c.net
    && s.term in c'.hist.reigns && c'.hist.reigns[s.term].log == s.log.entries
    && c'.hist.reigns == c.hist.reigns[s.term := c'.hist.reigns[s.term]]
    && c'.hist.acked == c.hist.acked[(id, s.term) := |s.log.entries|]
  }

  lemma TakeOfficeShape(c: Cluster, id: Id)
    requires id in c.nodes && c.nodes[id].id == id
    ensures InOffice(c, TakeOffice(c, id), id)
  {
  }

  lemma OfficeOnward(c: Cluster, c': Cluster, id: Id)
    requires CommitInv(c) && WinsOffice(c, id) && InOffice(c, c', id)
    ensures Onward(c, c')
  {
    NoAckBeforeOffice(c, id);
  }

  lemma NoAckBeforeOffice(c: Cluster, id: Id)
    requires AcksOk(c.nodes, c.hist.reigns, c.hist.acked) && id in c.nodes && c.nodes[id].term !in c.hist.reigns
    ensures (id, c.nodes[id].term) !in c.hist.acked
  {
    forall key | key in c.hist.acked ensures key.1 != c.nodes[id].term {
      assert AckOk(c.nodes, c.hist.reigns, key.0, key.1, c.hist.acked[key]);
    }
  }

  /** What was choosable of an earlier reign is in the winner's log: the elections' core. */
  lemma WinnerHasHead(c: Cluster, id: Id, u: nat, k: nat)
    requires CommitInv(c) && SlotsOk(c.nodes, c.hist.grants) && WinsOffice(c, id)
    requires u < c.nodes[id].term && Choosable(c, u, k)
    ensures Head(c.hist.reigns, u, k) <= c.nodes[id].log.entries
  {
    assert Kept(c, u, k);
    var q := MajoritiesMeet(c.members, Able(c, u, k), Ballots(c.hist, id, c.nodes[id].term));
    ElectorPassesHead(c, id, u, k, q);
  }

  lemma OldChoiceAfterOffice(c: Cluster, c': Cluster, id: Id, u: nat, k: nat)
    requires CommitInv(c) && SlotsOk(c.nodes, c.hist.grants) && WinsOffice(c, id) && InOffice(c, c', id)
    requires u in c.hist.reigns && Choosable(c, u, k)
    ensures c'.nodes.Keys == c'.members && Eligible(c'.members, c'.hist.reigns, u, k) && Kept(c', u, k)
  {
    assert Kept(c, u, k);
    if u < c.nodes[id].term { WinnerHasHead(c, id, u, k); }
    KeptAfterOffice(c, c', id, u, k);
  }

  lemma KeptAfterOffice(c: Cluster, c': Cluster, id: Id, u: nat, k: nat)
    requires c.nodes.Keys == c.members && InOffice(c, c', id) && u != c.nodes[id].term
    requires c.nodes[id].term !in c.hist.reigns
    requires Eligible(c.members, c.hist.reigns, u, k) && Kept(c, u, k)
    requires u < c.nodes[id].term ==> Head(c.hist.reigns, u, k) <= c.nodes[id].log.entries
    ensures c'.nodes.Keys == c'.members && Eligible(c'.members, c'.hist.reigns, u, k) && Kept(c', u, k)
  {
    var head := Head(c.hist.reigns, u, k);
    assert Head(c'.hist.reigns, u, k) == head;
    forall q | q in c'.members && Acked(c'.hist, q, u) >= k ensures head <= c'.nodes[q].log.entries {
      assert Acked(c.hist, q, u) >= k;
    }
    forall key | key in c'.hist.grants && u < key.1 && Acked(c'.hist, key.0, u) >= k
      ensures head <= c'.hist.grants[key].log
    {
      assert Acked(c.hist, key.0, u) >= k;
    }
    forall v | v in c'.hist.reigns && u < v ensures head <= c'.hist.reigns[v].log {
      assert v != c.nodes[id].term ==> head <= c.hist.reigns[v].log;
    }
  }

  /** A new leader's log has no entry of its own term yet, so only a lone member can choose from its reign. */
  lemma NewReignChoosesNothing(c: Cluster, c': Cluster, id: Id, k: nat)
    requires WinsOffice(c, id) && InOffice(c, c', id) && Eligible(c.members, c'.hist.reigns, c.nodes[id].term, k)
    ensures |c.members| == 1
  {
    assert Traced(c.hist.reigns, c.nodes[id].log.entries, k - 1);
  }

  lemma NewChoiceAfterOffice(c: Cluster, c': Cluster, id: Id, k: nat)
    requires CommitInv(c) && WinsOffice(c, id) && InOffice(c, c', id) && |c.members| == 1
    requires OwnersOk(c.nodes, c.hist.reigns) && SlotsOk(c.nodes, c.hist.grants)
    requires Eligible(c.members, c'.hist.reigns, c.nodes[id].term, k)
    ensures c'.nodes.Keys == c'.members && Kept(c', c.nodes[id].term, k)
  {
    var t := c.nodes[id].term;
    forall q | q in c'.members ensures q == id {
      OnlyMember(c.members, q);
      OnlyMember(c.members, id);
    }
    forall key | key in c'.hist.grants ensures key.1 <= t {
      assert Bound(c.nodes, key.0, key.1, c.hist.grants[key].candidate);
    }
    forall v | v in c'.hist.reigns ensures v <= t {
      if v > 1 && v != t {
        assert CandidacyOver(c.nodes, c.hist.reigns[v].owner, v);
      }
    }
  }

  lemma OfficeChoices(c: Cluster, c': Cluster, id: Id)
    requires CommitInv(c) && WinsOffice(c, id) && InOffice(c, c', id)
    requires OwnersOk(c.nodes, c.hist.reigns) && SlotsOk(c.nodes, c.hist.grants)
    ensures c'.nodes.Keys == c'.members && ChoicesKept(c')
  {
    OfficeOnward(c, c', id);
    forall u, k | Choosable(c', u, k) ensures Kept(c', u, k) {
      if u == c.nodes[id].term {
        NewReignChoosesNothing(c, c', id, k);
        NewChoiceAfterOffice(c, c', id, k);
      } else {
        ChoosableBefore(c, c', u, k);
        OldChoiceAfterOffice(c, c', id, u, k);
      }
    }
  }

  lemma OfficeAcks(c: Cluster, c': Cluster, id: Id)
    requires CommitInv(c) && WinsOffice(c, id) && InOffice(c, c', id)
    ensures AcksOk(c'.nodes, c'.hist.reigns, c'.hist.acked)
  {
    forall key | key in c'.hist.acked ensures AckOk(c'.nodes, c'.hist.reigns, key.0, key.1, c'.hist.acked[key]) {
      assert key in c.hist.acked ==> AckOk(c.nodes, c.hist.reigns, key.0, key.1, c.hist.acked[key]);
    }
  }

  lemma OfficeLeader(c: Cluster, c': Cluster, id: Id, n: Node)
    requires InOffice(c, c', id) && LeaderKnows(c.hist, n) && n.id != id
    requires n.role == Leader ==> n.term in c.hist.reigns
    requires c.nodes[id].term !in c.hist.reigns
    ensures LeaderKnows(c'.hist, n)
  {
  }

  lemma OfficeLeaders(c: Cluster, c': Cluster, id: Id)
    requires LeadersKnow(c.nodes, c.hist) && InOffice(c, c', id) && c.nodes[id].term !in c.hist.reigns
    requires NodesOk(c.members, c.nodes, c.hist.reigns) && LeaderKnows(c'.hist, c'.nodes[id])
    ensures LeadersKnow(c'.nodes, c'.hist)
  {
    forall i | i in c'.nodes ensures LeaderKnows(c'.hist, c'.nodes[i]) {
      if i != id {
        assert NodeOk(c.members, c.hist.reigns, i, c.nodes[i]);
        OfficeLeader(c, c', id, c.nodes[i]);
      }
    }
  }

  lemma OfficeReplies(c: Cluster, c': Cluster, id: Id)
    requires CommitInv(c) && WinsOffice(c, id) && InOffice(c, c', id)
    requires RequestsOk(c.members, c.hist.reigns, c.net.appendReqs, c.net.appendReplies)
    ensures SuccessesOk(c'.hist, c'.net.appendReplies)
  {
    forall r | r in c'.net.appendReplies ensures SuccessOk(c'.hist, r) {
      assert SuccessOk(c.hist, r) && ReplyOk(c.members, c.hist.reigns, r);
    }
  }

  lemma OfficeSpoken(c: Cluster, c': Cluster, id: Id)
    requires CommitInv(c) && WinsOffice(c, id) && InOffice(c, c', id)
    ensures GrantLogsOk(c'.nodes, c'.hist.reigns, c'.hist.grants) && VoteReqLogsOk(c'.nodes, c'.net.voteReqs)
  {
    SpokenStays(c.nodes, c'.nodes[id], c.hist.reigns, c.hist.grants, c.net.voteReqs);
    WovenGrants(c.hist.reigns, c'.hist.reigns, c'.nodes, c.hist.grants);
  }

  lemma OfficeKeepsCommits(c: Cluster, c': Cluster, id: Id)
    requires SafetyInv(c) && WinsOffice(c, id) && InOffice(c, c', id) && LeaderKnows(c'.hist, c'.nodes[id])
    ensures CommitInv(c')
  {
    OfficeOnward(c, c', id);
    OfficeChoices(c, c', id);
    OfficeAcks(c, c', id);
    OfficeLeaders(c, c', id);
    OfficeReplies(c, c', id);
    OfficeSpoken(c, c', id);
    OfficeCommits(c, c', id);
  }

  lemma OfficeCommits(c: Cluster, c': Cluster, id: Id)
    requires CommitInv(c) && Onward(c, c') && InOffice(c, c', id) && c.nodes[id].id == id
    ensures CommitsOk(c') && RequestCommitsOk(c')
  {
    var s := c.nodes[id];
    assert CommitSafe(c, s.log.entries, s.commitIndex, s.term);
    CommitSafeStays(c, c', s.log.entries, s.commitIndex, s.term, s.term);
    CommitsStay(c, c', c'.nodes[id]);
    RequestCommitsStay(c, c');
  }

  lemma BallotsWinOffice(c: Cluster, id: Id)
    requires Inv(c) && id in c.nodes && c.nodes[id].role == Candidate
    requires Majority(c.members, Ballots(c.hist, id, c.nodes[id].term))
    ensures WinsOffice(c, id)
  {
    var key := (id, c.nodes[id].term);
    assert NodeOk(c.members, c.hist.reigns, id, c.nodes[id]);
    assert CandidateOk(c.hist.ballots, id, c.nodes[id]);
    assert BallotOk(c.members, c.net.handled, c.hist.grants, key.0, key.1, c.hist.ballots[key]);
    OfficeIsVacant(c, id, c.hist.ballots[key]);
  }

  lemma TakeOfficeKeepsCommits(c: Cluster, id: Id)
    requires SafetyInv(c) && id in c.nodes && c.nodes[id].role == Candidate
    requires Majority(c.members, Ballots(c.hist, id, c.nodes[id].term))
    ensures CommitInv(TakeOffice(c, id))
  {
    BallotsWinOffice(c, id);
    TakeOfficeShape(c, id);
    OfficeKeepsCommits(c, TakeOffice(c, id), id);
  }

  // ----- The two steps that may end in office

  lemma ElectKeepsCommits(c: Cluster, id: Id)
    requires SafetyInv(c) && id in c.nodes
    ensures CommitInv(DoElect(c, id))
  {
    NodeFacts(c, id);
    ElectDecomposes(c, id);
    CandidacyKeepsInv(c, id);
    CandidacyKeepsCommits(c, id);
    if |c.nodes[id].cluster| == 1 {
      TakeOfficeKeepsCommits(OpenCandidacy(c, id), id);
    }
  }

  lemma CountVoteKeepsCommits(c: Cluster, r: VoteReply)
    requires SafetyInv(c) && r in c.net.voteReplies && TaskOf(r) !in c.net.handled && r.req.candidate in c.nodes
    ensures CommitInv(DoCountVote(c, r))
  {
    var id := r.req.candidate;
    NodeFacts(c, id);
    CountVoteDecomposes(c, r);
    if Counts(c.nodes[id], r.res) {
      CountKeepsInv(c, r);
      CountKeepsCommits(c, r);
      if c.nodes[id].votes + 1 > |c.nodes[id].cluster| / 2 {
        CountedMajority(c, r);
        TakeOfficeKeepsCommits(CountBallot(c, r), id);
      }
    } else {
      UncountedKeepsCommits(c, r);
    }
  }

  lemma CountedMajority(c: Cluster, r: VoteReply)
    requires r.req.candidate in c.nodes && Inv(CountBallot(c, r)) && c.nodes[r.req.candidate].id == r.req.candidate
    requires var s := c.nodes[r.req.candidate];
             s.role == Candidate && s.cluster == c.members && s.votes + 1 > |s.cluster| / 2
    ensures var mid := CountBallot(c, r);
            Majority(mid.members, Ballots(mid.hist, r.req.candidate, mid.nodes[r.req.candidate].term))
  {
    var mid := CountBallot(c, r);
    assert CandidateOk(mid.hist.ballots, r.req.candidate, mid.nodes[r.req.candidate]);
  }

  lemma UncountedQuiet(c: Cluster, r: VoteReply)
    requires SafetyInv(c) && r.req.candidate in c.nodes && !Counts(c.nodes[r.req.candidate], r.res)
    ensures var s := c.nodes[r.req.candidate];
            var s' := OnVoteReply(s, r.res);
            && s'.id == s.id == r.req.candidate && Quiet(s, s') && LeaderKnows(c.hist, s')
            && CommitSafe(c, s'.log.entries, s'.commitIndex, s'.term)
  {
    var s := c.nodes[r.req.candidate];
    NodeFacts(c, r.req.candidate);
    CommitSafeStays(c, c, s.log.entries, s.commitIndex, s.term, OnVoteReply(s, r.res).term);
  }

  lemma UncountedKeepsCommits(c: Cluster, r: VoteReply)
    requires SafetyInv(c) && r.req.candidate in c.nodes && !Counts(c.nodes[r.req.candidate], r.res)
    ensures CommitInv(Put(c, OnVoteReply(c.nodes[r.req.candidate], r.res)).(
                        net := c.net.(handled := c.net.handled + {TaskOf(r)})))
  {
    UncountedQuiet(c, r);
    HandledKeepsCommits(c, OnVoteReply(c.nodes[r.req.candidate], r.res), TaskOf(r));
  }

  /** A quiet change of one server, with one more callback handled. */
  lemma HandledKeepsCommits(c: Cluster, s': Node, task: VoteTask)
    requires CommitInv(c) && s'.id in c.nodes && Quiet(c.nodes[s'.id], s') && LeaderKnows(c.hist, s')
    requires CommitSafe(c, s'.log.entries, s'.commitIndex, s'.term)
    ensures CommitInv(Put(c, s').(net := c.net.(handled := c.net.handled + {task})))
  {
    QuietKeepsCommitInv(c, s');
    var mid := Put(c, s');
    TallyKeepsCommits(mid, mid.(net := c.net.(handled := c.net.handled + {task})));
  }
}
