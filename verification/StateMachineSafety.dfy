/** State Machine Safety (section 5.4.3 of the Raft paper) over runs of honest steps, and what it rests on. */
module StateMachineSafety {
  import opened RaftLog
  import opened Server
  import opened Protocol
  import opened Invariants
  import opened CommitInvariants
  import opened Preservation
  import opened CommitPreservation
  import opened CommitAppend
  import opened CommitElection

  ghost predicate HonestNext(c: Cluster, c': Cluster) {
    exists step :: HonestStep(c, c', step)
  }

  ghost predicate HonestNextAt(run: seq<Cluster>, i: nat)
    requires i < |run| - 1
  {
    HonestNext(run[i], run[i + 1])
  }

  /** A run in which leaders act only on honest success replies. */
  ghost predicate HonestRun(run: seq<Cluster>) {
    && run != []
    && Init(run[0])
    && forall i: nat | i < |run| - 1 :: HonestNextAt(run, i)
  }

  // ----- The invariant over a run

  lemma ReplyStepKeepsCommits(c: Cluster, c': Cluster, step: Step)
    requires SafetyInv(c) && HonestStep(c, c', step) && step.HandleReply?
    ensures CommitInv(c')
  {
    var r := step.reply;
    var s' :| ReplyOutcome(c.nodes[r.req.leader], r, step.commit, s') && c' == Put(c, s');
    if c.nodes[r.req.leader].role == Leader && r.res.success {
      SuccessKeepsCommits(c, r, step.commit, s');
    } else {
      RefusalKeepsCommits(c, r);
    }
  }

  lemma DeliverAppendKeepsCommits(c: Cluster, m: AppendMsg)
    requires SafetyInv(c) && m in c.net.appendReqs && m.to in c.nodes
    ensures CommitInv(DoDeliverAppend(c, m))
  {
    if OnAppendRequest(c.nodes[m.to], m.req).1.success {
      ConfirmKeepsCommits(c, m);
    } else {
      UnmergedIsRefused(c, m);
      RefuseKeepsCommits(c, m);
    }
  }

  lemma YieldStepKeepsCommits(c: Cluster, c': Cluster, id: Id)
    requires SafetyInv(c) && HonestStep(c, c', Yield(id))
    ensures CommitInv(c')
  {
    YieldKeepsCommits(c, id);
  }

  lemma CommitAloneStepKeepsCommits(c: Cluster, c': Cluster, id: Id)
    requires SafetyInv(c) && HonestStep(c, c', CommitAlone(id))
    ensures CommitInv(c')
  {
    CommitAloneKeepsCommits(c, id);
  }

  lemma RebootStepKeepsCommits(c: Cluster, c': Cluster, id: Id, commit: nat)
    requires SafetyInv(c) && HonestStep(c, c', Reboot(id, commit))
    ensures CommitInv(c')
  {
    RebootKeepsCommits(c, id, commit);
  }

  lemma OwnStepKeepsCommits(c: Cluster, c': Cluster, step: Step)
    requires SafetyInv(c) && HonestStep(c, c', step) && (step.Yield? || step.CommitAlone? || step.Reboot?)
    ensures CommitInv(c')
  {
    match step
    case Yield(id) => YieldStepKeepsCommits(c, c', id);
    case CommitAlone(id) => CommitAloneStepKeepsCommits(c, c', id);
    case Reboot(id, commit) => RebootStepKeepsCommits(c, c', id, commit);
  }

  lemma HistoryStepKeepsCommits(c: Cluster, c': Cluster, step: Step)
    requires SafetyInv(c) && HonestStep(c, c', step) && (step.Elect? || step.Propose? || step.CountVote?)
    ensures CommitInv(c')
  {
    match step
    case Elect(id) => ElectKeepsCommits(c, id);
    case Propose(id, data) => ProposeKeepsCommits(c, id, data);
    case CountVote(r) => CountVoteKeepsCommits(c, r);
  }

  lemma DeliveryKeepsCommits(c: Cluster, c': Cluster, step: Step)
    requires SafetyInv(c) && HonestStep(c, c', step) && (step.DeliverVote? || step.DeliverAppend? || step.Refuse?)
    ensures CommitInv(c')
  {
    match step
    case DeliverVote(m) => DeliverVoteKeepsCommits(c, m);
    case DeliverAppend(m) => DeliverAppendKeepsCommits(c, m);
    case Refuse(m) => RefuseKeepsCommits(c, m);
  }

  lemma SendingKeepsCommits(c: Cluster, c': Cluster, step: Step)
    requires SafetyInv(c) && HonestStep(c, c', step) && (step.SendAppend? || step.SendStretch?)
    ensures CommitInv(c')
  {
    match step
    case SendAppend(id, to) => SendAppendKeepsCommits(c, id, to);
    case SendStretch(id, to, prev, count) => SendStretchKeepsCommits(c, id, to, prev, count);
  }

  lemma StepKeepsCommits(c: Cluster, c': Cluster, step: Step)
    requires SafetyInv(c) && HonestStep(c, c', step)
    ensures CommitInv(c')
  {
    if step.HandleReply? {
      ReplyStepKeepsCommits(c, c', step);
    } else if step.Yield? || step.CommitAlone? || step.Reboot? {
      OwnStepKeepsCommits(c, c', step);
    } else if step.Elect? || step.Propose? || step.CountVote? {
      HistoryStepKeepsCommits(c, c', step);
    } else if step.SendAppend? || step.SendStretch? {
      SendingKeepsCommits(c, c', step);
    } else {
      DeliveryKeepsCommits(c, c', step);
    }
  }

  lemma BootCommits(c: Cluster, boot: Entry)
    requires c.nodes.Keys == c.members && c.members != {} && Bootstrapped(c, boot)
    ensures CommitsOk(c)
  {
    assert Holding(c, 1, 1) == c.members;
    forall i | i in c.nodes
      ensures CommitSafe(c, c.nodes[i].log.entries, c.nodes[i].commitIndex, c.nodes[i].term)
    {
      var n := c.nodes[i];
      assert InitialNode(c.members, i, boot, n);
      assert n.commitIndex > 0 ==> CommitWitness(c, n.log.entries, n.commitIndex, n.term, 1, 1);
    }
  }

  lemma BootChoices(c: Cluster, boot: Entry)
    requires c.nodes.Keys == c.members && Bootstrapped(c, boot)
    ensures ChoicesKept(c)
  {
    forall t, k | Choosable(c, t, k) ensures Kept(c, t, k) {
      assert Head(c.hist.reigns, t, k) == [boot];
      forall q | q in c.members ensures c.nodes[q].log.entries == [boot] {
        assert InitialNode(c.members, q, boot, c.nodes[q]);
      }
    }
  }

  lemma InitHasCommits(c: Cluster)
    requires Init(c)
    ensures CommitInv(c)
  {
    var boot: Entry :| Bootstrapped(c, boot);
    BootCommits(c, boot);
    BootChoices(c, boot);
    forall i | i in c.nodes ensures LeaderKnows(c.hist, c.nodes[i]) {
      assert InitialNode(c.members, i, boot, c.nodes[i]);
    }
    forall key | key in c.hist.acked ensures AckOk(c.nodes, c.hist.reigns, key.0, key.1, c.hist.acked[key]) {
      assert InitialNode(c.members, key.0, boot, c.nodes[key.0]);
    }
  }

  lemma HonestRunIsRun(run: seq<Cluster>)
    requires HonestRun(run)
    ensures Run(run)
  {
    forall i: nat | i < |run| - 1 ensures NextAt(run, i) {
      assert HonestNextAt(run, i);
      var step :| HonestStep(run[i], run[i + 1], step);
      assert NextStep(run[i], run[i + 1], step);
    }
  }

  lemma HonestRunInv(run: seq<Cluster>, i: nat)
    requires HonestRun(run) && i < |run|
    ensures Inv(run[i])
  {
    HonestRunIsRun(run);
    RunInv(run, i);
  }

  lemma NextIsSafe(run: seq<Cluster>, i: nat)
    requires HonestRun(run) && i < |run| - 1 && SafetyInv(run[i])
    ensures SafetyInv(run[i + 1])
  {
    HonestRunInv(run, i + 1);
    var step := RunStep(run, i);
    StepKeepsCommits(run[i], run[i + 1], step);
  }

  lemma FirstIsSafe(run: seq<Cluster>)
    requires HonestRun(run)
    ensures SafetyInv(run[0])
  {
    HonestRunInv(run, 0);
    InitHasCommits(run[0]);
  }

  lemma {:induction false} RunIsSafe(run: seq<Cluster>, i: nat)
    requires HonestRun(run) && i < |run|
    ensures SafetyInv(run[i])
    decreases i
  {
    if i == 0 {
      FirstIsSafe(run);
    } else {
      RunIsSafe(run, i - 1);
      NextIsSafe(run, i - 1);
    }
  }

  lemma RunNodeFacts(run: seq<Cluster>, i: nat, a: Id)
    requires HonestRun(run) && i < |run| && a in run[i].nodes
    ensures var c := run[i];
            && NodeOk(c.members, c.hist.reigns, a, c.nodes[a]) && LeaderKnows(c.hist, c.nodes[a])
            && CommitSafe(c, c.nodes[a].log.entries, c.nodes[a].commitIndex, c.nodes[a].term)
  {
    RunIsSafe(run, i);
    NodeFacts(run[i], a);
  }

  lemma RunReplyFacts(run: seq<Cluster>, i: nat, r: AppendReply)
    requires HonestRun(run) && i < |run| && r in run[i].net.appendReplies
    ensures ReplyOk(run[i].members, run[i].hist.reigns, r) && SuccessOk(run[i].hist, r)
  {
    RunIsSafe(run, i);
    ReplyFacts(run[i], r);
  }

  lemma RunChoices(run: seq<Cluster>, i: nat)
    requires HonestRun(run) && i < |run|
    ensures run[i].nodes.Keys == run[i].members && ChoicesKept(run[i])
  {
    RunIsSafe(run, i);
  }

  lemma RunStep(run: seq<Cluster>, i: nat) returns (step: Step)
    requires HonestRun(run) && i < |run| - 1
    ensures HonestStep(run[i], run[i + 1], step)
  {
    assert HonestNextAt(run, i);
    step :| HonestStep(run[i], run[i + 1], step);
  }

  // ----- What is committed stays so

  /** A justified commit index stays justified for the same log through any step. */
  lemma CommitSafeLasts(c: Cluster, c': Cluster, step: Step, log: seq<Entry>, commit: nat, t: nat)
    requires SafetyInv(c) && NextStep(c, c', step) && CommitSafe(c, log, commit, t)
    ensures CommitSafe(c', log, commit, t)
  {
    if step.Elect? {
      LastsElect(c, step.id, log, commit, t);
    } else if step.CountVote? {
      LastsCount(c, step.ballot, log, commit, t);
    } else {
      StepOnward(c, c', step);
      CommitSafeStays(c, c', log, commit, t, t);
    }
  }

  lemma LastsElect(c: Cluster, id: Id, log: seq<Entry>, commit: nat, t: nat)
    requires SafetyInv(c) && id in c.nodes && CommitSafe(c, log, commit, t)
    ensures CommitSafe(DoElect(c, id), log, commit, t)
  {
    var mid := OpenCandidacy(c, id);
    NodeFacts(c, id);
    ElectDecomposes(c, id);
    CandidacyRest(c, id);
    CommitSafeStays(c, mid, log, commit, t, t);
    if |c.nodes[id].cluster| == 1 {
      CandidacyKeepsInv(c, id);
      CandidacyKeepsCommits(c, id);
      LastsOffice(mid, id, log, commit, t);
    }
  }

  lemma LastsOffice(c: Cluster, id: Id, log: seq<Entry>, commit: nat, t: nat)
    requires SafetyInv(c) && id in c.nodes && c.nodes[id].role == Candidate && CommitSafe(c, log, commit, t)
    requires Majority(c.members, Ballots(c.hist, id, c.nodes[id].term))
    ensures CommitSafe(TakeOffice(c, id), log, commit, t)
  {
    BallotsWinOffice(c, id);
    TakeOfficeShape(c, id);
    OfficeOnward(c, TakeOffice(c, id), id);
    CommitSafeStays(c, TakeOffice(c, id), log, commit, t, t);
  }

  lemma LastsCount(c: Cluster, r: VoteReply, log: seq<Entry>, commit: nat, t: nat)
    requires SafetyInv(c) && r in c.net.voteReplies && TaskOf(r) !in c.net.handled && r.req.candidate in c.nodes
    requires CommitSafe(c, log, commit, t)
    ensures CommitSafe(DoCountVote(c, r), log, commit, t)
  {
    var s := c.nodes[r.req.candidate];
    NodeFacts(c, r.req.candidate);
    CountVoteDecomposes(c, r);
    LastsTally(c, r, log, commit, t);
    if Counts(s, r.res) && s.votes + 1 > |s.cluster| / 2 {
      LastsMajority(c, r, log, commit, t);
    }
  }

  /** Counting alone, or dropping the reply, confirms nothing. */
  lemma LastsTally(c: Cluster, r: VoteReply, log: seq<Entry>, commit: nat, t: nat)
    requires c.nodes.Keys == c.members && r.req.candidate in c.nodes && c.nodes[r.req.candidate].id == r.req.candidate
    requires CommitSafe(c, log, commit, t)
    ensures CommitSafe(CountBallot(c, r), log, commit, t)
    ensures var s := c.nodes[r.req.candidate];
            !Counts(s, r.res) ==>
              CommitSafe(Put(c, OnVoteReply(s, r.res)).(net := c.net.(handled := c.net.handled + {TaskOf(r)})),
                         log, commit, t)
  {
    var s := c.nodes[r.req.candidate];
    PutOnward(c, CountBallot(c, r), s.(votes := s.votes + 1));
    CommitSafeStays(c, CountBallot(c, r), log, commit, t, t);
    if !Counts(s, r.res) {
      var c' := Put(c, OnVoteReply(s, r.res)).(net := c.net.(handled := c.net.handled + {TaskOf(r)}));
      PutOnward(c, c', OnVoteReply(s, r.res));
      CommitSafeStays(c, c', log, commit, t, t);
    }
  }

  lemma LastsMajority(c: Cluster, r: VoteReply, log: seq<Entry>, commit: nat, t: nat)
    requires SafetyInv(c) && r in c.net.voteReplies && TaskOf(r) !in c.net.handled && r.req.candidate in c.nodes
    requires Counts(c.nodes[r.req.candidate], r.res) && CommitSafe(CountBallot(c, r), log, commit, t)
    requires c.nodes[r.req.candidate].votes + 1 > |c.nodes[r.req.candidate].cluster| / 2
    ensures CommitSafe(TakeOffice(CountBallot(c, r), r.req.candidate), log, commit, t)
  {
    NodeFacts(c, r.req.candidate);
    CountKeepsInv(c, r);
    CountKeepsCommits(c, r);
    CountedMajority(c, r);
    LastsOffice(CountBallot(c, r), r.req.candidate, log, commit, t);
  }

  /** A step of one server that records no confirmation. */
  lemma PutOnward(c: Cluster, c': Cluster, s': Node)
    requires c.nodes.Keys == c.members && s'.id in c.nodes && s'.term >= c.nodes[s'.id].term
    requires c'.members == c.members && c'.nodes == c.nodes[s'.id := s']
    requires c'.hist.reigns == c.hist.reigns && c'.hist.acked == c.hist.acked
    ensures Onward(c, c')
  {
  }

  lemma StepOnward(c: Cluster, c': Cluster, step: Step)
    requires SafetyInv(c) && NextStep(c, c', step) && !step.Elect? && !step.CountVote?
    ensures Onward(c, c')
  {
    if step.DeliverVote? {
      DeliverVoteOnward(c, step.vote);
    } else if step.Propose? {
      ProposeOnward(c, step.id, step.data);
    } else if step.DeliverAppend? {
      DeliverAppendOnward(c, step.request);
    } else if step.HandleReply? {
      ReplyOnward(c, c', step);
    } else if step.Refuse? {
      RefusedOnward(c, step.request);
    } else if step.SendAppend? || step.SendStretch? {
      assert Onward(c, c');
    } else {
      NodeFacts(c, step.id);
      PutOnward(c, c', c'.nodes[step.id]);
    }
  }

  lemma DeliverVoteOnward(c: Cluster, m: VoteMsg)
    requires SafetyInv(c) && m.to in c.nodes
    ensures Onward(c, DoDeliverVote(c, m))
  {
    NodeFacts(c, m.to);
    VotedNode(c.nodes[m.to], m.req);
    PutOnward(c, DoDeliverVote(c, m), OnVoteRequest(c.nodes[m.to], m.req).0);
  }

  lemma ReplyOnward(c: Cluster, c': Cluster, step: Step)
    requires SafetyInv(c) && NextStep(c, c', step) && step.HandleReply?
    ensures Onward(c, c')
  {
    var r := step.reply;
    var s' :| ReplyOutcome(c.nodes[r.req.leader], r, step.commit, s') && c' == Put(c, s');
    NodeFacts(c, r.req.leader);
    ReplyFacts(c, r);
    OutcomeNode(c.members, c.hist.reigns, c.nodes[r.req.leader], r, step.commit, s');
    PutOnward(c, c', s');
  }

  lemma ProposeOnward(c: Cluster, id: Id, data: Bytes)
    requires SafetyInv(c) && id in c.nodes
    ensures Onward(c, DoPropose(c, id, data))
  {
    NodeFacts(c, id);
    var s := c.nodes[id];
    if s.role == Leader {
      ExtendsOnward(c, DoPropose(c, id, data), ClientAppend(s, data),
                    Entry(s.term, s.log.LastIndex() + 1, data, false));
    } else {
      assert Put(c, s) == c;
    }
  }

  lemma DeliverAppendOnward(c: Cluster, m: AppendMsg)
    requires SafetyInv(c) && m in c.net.appendReqs && m.to in c.nodes
    ensures Onward(c, DoDeliverAppend(c, m))
  {
    if OnAppendRequest(c.nodes[m.to], m.req).1.success {
      ConfirmedOnward(c, m);
    } else {
      UnmergedIsRefused(c, m);
      RefusedOnward(c, m);
    }
  }

  lemma ConfirmedOnward(c: Cluster, m: AppendMsg)
    requires SafetyInv(c) && m in c.net.appendReqs && m.to in c.nodes
    requires OnAppendRequest(c.nodes[m.to], m.req).1.success
    ensures Onward(c, DoDeliverAppend(c, m))
  {
    var s' := OnAppendRequest(c.nodes[m.to], m.req).0;
    ConfirmSetup(c, m);
    ConfirmsOnward(c, DoDeliverAppend(c, m), s', m.req.term, m.req.prevIndex + |m.req.entries|,
                   Shared(c.hist.reigns, s', m.req));
  }

  lemma RefusedOnward(c: Cluster, m: AppendMsg)
    requires SafetyInv(c) && m.to in c.nodes
    ensures Onward(c, DoRefuse(c, m))
  {
    NodeFacts(c, m.to);
    PutOnward(c, DoRefuse(c, m), RefuseAppend(c.nodes[m.to], m.req).0);
  }

  // ----- Main results

  lemma RunKeepsCommitSafe(run: seq<Cluster>, i: nat, log: seq<Entry>, commit: nat, t: nat)
    requires HonestRun(run) && i < |run| - 1 && CommitSafe(run[i], log, commit, t)
    ensures CommitSafe(run[i + 1], log, commit, t)
  {
    var step := RunStep(run, i);
    RunIsSafe(run, i);
    CommitSafeLasts(run[i], run[i + 1], step, log, commit, t);
  }

  /** What a server has committed at one moment of a run is justified at every later moment. */
  lemma {:induction false} CommitLastsThroughRun(run: seq<Cluster>, i: nat, j: nat, a: Id)
    requires HonestRun(run) && i <= j < |run| && a in run[i].nodes
    ensures var n := run[i].nodes[a]; CommitSafe(run[j], n.log.entries, n.commitIndex, n.term)
    decreases j
  {
    if j == i {
      RunNodeFacts(run, i, a);
    } else {
      CommitLastsThroughRun(run, i, j - 1, a);
      var n := run[i].nodes[a];
      RunKeepsCommitSafe(run, j - 1, n.log.entries, n.commitIndex, n.term);
    }
  }

  /** Two justified prefixes agree where both reach. */
  lemma SafePrefixesAgree(c: Cluster, x: seq<Entry>, m: nat, t: nat, y: seq<Entry>, n: nat, u: nat, index: nat)
    requires c.nodes.Keys == c.members && ChoicesKept(c) && CommitSafe(c, x, m, t) && CommitSafe(c, y, n, u)
    requires 1 <= index <= m && index <= n
    ensures x[index - 1] == y[index - 1]
  {
    var t1, k1 :| CommitWitness(c, x, m, t, t1, k1);
    var t2, k2 :| CommitWitness(c, y, n, u, t2, k2);
    if t1 <= t2 {
      LeaderHasCommitted(c, x, m, t1, t2) by { assert CommitWitness(c, x, m, t1, t1, k1); }
      SameEntry(x, m, y, n, c.hist.reigns[t2].log, index);
    } else {
      LeaderHasCommitted(c, y, n, t2, t1) by { assert CommitWitness(c, y, n, t2, t2, k2); }
      SameEntry(y, n, x, m, c.hist.reigns[t1].log, index);
    }
  }

  lemma SameEntry(x: seq<Entry>, m: nat, y: seq<Entry>, n: nat, log: seq<Entry>, index: nat)
    requires m <= |x| && x[..m] <= log && n <= |y| && n <= |log| && y[..n] == log[..n]
    requires 1 <= index <= m && index <= n
    ensures x[index - 1] == y[index - 1]
  {
    assert x[index - 1] == x[..m][index - 1] == log[index - 1];
    assert y[index - 1] == y[..n][index - 1] == log[..n][index - 1];
  }

  /**
   State Machine Safety: whatever two servers ever commit at one index, at whatever two moments, is the same entry.
   */
  lemma StateMachineSafety(run: seq<Cluster>, i: nat, j: nat, a: Id, b: Id, index: nat)
    requires HonestRun(run) && i < |run| && j < |run| && a in run[i].nodes && b in run[j].nodes
    requires 1 <= index <= run[i].nodes[a].commitIndex && index <= run[j].nodes[b].commitIndex
    ensures index <= |run[i].nodes[a].log.entries| && index <= |run[j].nodes[b].log.entries|
    ensures run[i].nodes[a].log.entries[index - 1] == run[j].nodes[b].log.entries[index - 1]
  {
    var last := if i <= j then j else i;
    var x, y := run[i].nodes[a], run[j].nodes[b];
    CommitLastsThroughRun(run, i, last, a);
    CommitLastsThroughRun(run, j, last, b);
    RunChoices(run, last);
    SafePrefixesAgree(run[last], x.log.entries, x.commitIndex, x.term, y.log.entries, y.commitIndex, y.term, index);
  }

  /** Leader Completeness: a leader's log has everything any server committed earlier in a term not after its own. */
  lemma LeaderCompleteness(run: seq<Cluster>, i: nat, j: nat, a: Id, leader: Id)
    requires HonestRun(run) && i <= j < |run| && a in run[i].nodes && leader in run[j].nodes
    requires run[j].nodes[leader].role == Leader && run[i].nodes[a].term <= run[j].nodes[leader].term
    ensures run[i].nodes[a].commitIndex <= |run[i].nodes[a].log.entries|
    ensures run[i].nodes[a].log.entries[..run[i].nodes[a].commitIndex] <= run[j].nodes[leader].log.entries
  {
    var n := run[i].nodes[a];
    CommitLastsThroughRun(run, i, j, a);
    RunChoices(run, j);
    RunNodeFacts(run, j, leader);
    LeaderHasCommitted(run[j], n.log.entries, n.commitIndex, n.term, run[j].nodes[leader].term);
  }

  /**
   What an honest reply is in terms a leader can check: in the term of the request, a report no longer than what
   the request carried is honest; and as long as the leader's log ends where the request ended, no other is.
   */
  lemma HonestWhenExact(run: seq<Cluster>, i: nat, r: AppendReply)
    requires HonestRun(run) && i < |run| && r in run[i].net.appendReplies && r.req.leader in run[i].nodes
    requires var s := run[i].nodes[r.req.leader]; s.role == Leader && r.res.success && r.res.term == s.term
    ensures var s, sent := run[i].nodes[r.req.leader], r.req.prevIndex + |r.req.entries|;
            && (r.res.matchIndex <= sent ==> Honest(s, r))
            && (|s.log.entries| == sent ==> (Honest(s, r) <==> r.res.matchIndex <= sent))
  {
    RunNodeFacts(run, i, r.req.leader);
    RunReplyFacts(run, i, r);
  }

  lemma RunAcks(run: seq<Cluster>, i: nat)
    requires HonestRun(run) && i < |run|
    ensures AcksOk(run[i].nodes, run[i].hist.reigns, run[i].hist.acked)
  {
    RunIsSafe(run, i);
  }

  /** Acting on an honest reply never looks up an entry the leader does not have. */
  lemma HonestNeverFaults(run: seq<Cluster>, i: nat, r: AppendReply)
    requires HonestRun(run) && i < |run| && r in run[i].net.appendReplies && r.req.leader in run[i].nodes
    requires var s := run[i].nodes[r.req.leader]; s.role == Leader && r.res.success && Honest(s, r)
    ensures !CommitFaults(RecordMatch(run[i].nodes[r.req.leader], r.from, r.res.matchIndex))
  {
    var s := run[i].nodes[r.req.leader];
    RunNodeFacts(run, i, r.req.leader);
    RunReplyFacts(run, i, r);
    RunAcks(run, i);
    HonestMatch(run[i], s, r);
    NoStrays(run[i], RecordMatch(s, r.from, r.res.matchIndex));
  }

  // ----- Committed entries are never removed

  lemma ReplyKeepsLog(c: Cluster, c': Cluster, step: Step, a: Id)
    requires NextStep(c, c', step) && step.HandleReply? && a in c.nodes
    requires c.nodes[step.reply.req.leader].id == step.reply.req.leader && c.nodes[a].id == a
    ensures a in c'.nodes && LongerNode(c.nodes[a], c'.nodes[a])
  {
    var r := step.reply;
    var s' :| ReplyOutcome(c.nodes[r.req.leader], r, step.commit, s') && c' == Put(c, s');
    OutcomeKeepsLog(c.nodes[r.req.leader], r, step.commit, s');
  }

  lemma OutcomeKeepsLog(s: Node, r: AppendReply, commit: nat, s': Node)
    requires ReplyOutcome(s, r, commit, s')
    ensures s'.id == s.id && s'.log == s.log && s.term <= s'.term
  {
  }

  predicate LongerNode(s: Node, s': Node) {
    s'.id == s.id && s.term <= s'.term && s.log.entries <= s'.log.entries
  }

  lemma OtherGrowsLog(c: Cluster, c': Cluster, step: Step, a: Id)
    requires SafetyInv(c) && NextStep(c, c', step) && !step.DeliverAppend? && !step.HandleReply? && a in c.nodes
    ensures a in c'.nodes && LongerNode(c.nodes[a], c'.nodes[a])
  {
    KnownIds(c);
    if step.DeliverVote? || step.CountVote? || step.Refuse? {
      MessageLonger(c, c', step, a);
    } else if !step.SendAppend? && !step.SendStretch? {
      OwnStepLonger(c, c', step, a);
    }
  }

  lemma KnownIds(c: Cluster)
    requires SafetyInv(c)
    ensures forall i | i in c.nodes :: c.nodes[i].id == i
  {
    forall i | i in c.nodes ensures c.nodes[i].id == i { NodeFacts(c, i); }
  }

  lemma MessageLonger(c: Cluster, c': Cluster, step: Step, a: Id)
    requires NextStep(c, c', step) && a in c.nodes && forall i | i in c.nodes :: c.nodes[i].id == i
    requires step.DeliverVote? || step.CountVote? || step.Refuse?
    ensures a in c'.nodes && LongerNode(c.nodes[a], c'.nodes[a])
  {
    match step
    case DeliverVote(m) => VoteLonger(c.nodes[m.to], m.req);
    case CountVote(r) => CountLonger(c.nodes[r.req.candidate], r.res);
    case Refuse(m) => RefusedLonger(c.nodes[m.to], m.req);
  }

  lemma VoteLonger(s: Node, req: VoteReq)
    ensures LongerNode(s, OnVoteRequest(s, req).0)
  {
  }

  lemma RefusedLonger(s: Node, req: AppendReq)
    ensures LongerNode(s, RefuseAppend(s, req).0)
  {
  }

  lemma OwnStepLonger(c: Cluster, c': Cluster, step: Step, a: Id)
    requires NextStep(c, c', step) && a in c.nodes
    requires step.Yield? || step.Elect? || step.Propose? || step.CommitAlone? || step.Reboot?
    requires forall i | i in c.nodes :: c.nodes[i].id == i
    ensures a in c'.nodes && LongerNode(c.nodes[a], c'.nodes[a])
  {
    ElectLonger(c.nodes[step.id]);
  }

  lemma CountLonger(s: Node, res: VoteRes)
    ensures LongerNode(s, OnVoteReply(s, res))
  {
  }

  lemma ElectLonger(s: Node)
    ensures LongerNode(s, StartElection(s))
  {
  }

  lemma RefusedKeepsLog(c: Cluster, m: AppendMsg)
    requires m.to in c.nodes && c.nodes[m.to].id == m.to && !OnAppendRequest(c.nodes[m.to], m.req).1.success
    ensures var s' := OnAppendRequest(c.nodes[m.to], m.req).0;
            s'.id == m.to && s'.log == c.nodes[m.to].log && c.nodes[m.to].term <= s'.term
  {
  }

  lemma ConfirmKeepsPrefix(c: Cluster, c': Cluster, s': Node, t: nat, n: nat, shared: nat, a: Id, prefix: seq<Entry>,
                           u: nat)
    requires c.nodes.Keys == c.members && ChoicesKept(c) && Confirms(c, c', s', t, n, shared)
    requires a in c.nodes && u <= c.nodes[a].term
    requires CommitSafe(c, prefix, |prefix|, u) && prefix <= c.nodes[a].log.entries
    ensures a in c'.nodes && u <= c'.nodes[a].term && prefix <= c'.nodes[a].log.entries
  {
    if a == s'.id {
      LeaderHasCommitted(c, prefix, |prefix|, u, t);
      MergeKeepsShared(c.nodes[a].log.entries, c.hist.reigns[t].log, n, s'.log.entries, prefix);
    }
  }

  lemma RunConfirms(run: seq<Cluster>, i: nat, m: AppendMsg)
    requires HonestRun(run) && i < |run| && m in run[i].net.appendReqs && m.to in run[i].nodes
    requires OnAppendRequest(run[i].nodes[m.to], m.req).1.success
    ensures var c := run[i];
            var s' := OnAppendRequest(c.nodes[m.to], m.req).0;
            && m.req.term in c.hist.reigns
            && Confirms(c, DoDeliverAppend(c, m), s', m.req.term, m.req.prevIndex + |m.req.entries|,
                        Shared(c.hist.reigns, s', m.req))
  {
    RunIsSafe(run, i);
    ConfirmSetup(run[i], m);
  }

  /** A merge never takes a justified prefix out of a server's log. */
  lemma MergeKeepsPrefix(run: seq<Cluster>, i: nat, m: AppendMsg, a: Id, prefix: seq<Entry>, t: nat)
    requires HonestRun(run) && i < |run| && m in run[i].net.appendReqs && m.to in run[i].nodes
    requires a in run[i].nodes && t <= run[i].nodes[a].term
    requires CommitSafe(run[i], prefix, |prefix|, t) && prefix <= run[i].nodes[a].log.entries
    ensures var c' := DoDeliverAppend(run[i], m);
            a in c'.nodes && t <= c'.nodes[a].term && prefix <= c'.nodes[a].log.entries
  {
    var c := run[i];
    if OnAppendRequest(c.nodes[m.to], m.req).1.success {
      RunConfirms(run, i, m);
      RunChoices(run, i);
      ConfirmKeepsPrefix(c, DoDeliverAppend(c, m), OnAppendRequest(c.nodes[m.to], m.req).0, m.req.term,
                         m.req.prevIndex + |m.req.entries|,
                         Shared(c.hist.reigns, OnAppendRequest(c.nodes[m.to], m.req).0, m.req), a, prefix, t);
    } else {
      RunNodeFacts(run, i, m.to);
      RefusedKeepsLog(c, m);
    }
  }

  lemma RunGrowsLog(run: seq<Cluster>, i: nat, step: Step, a: Id)
    requires HonestRun(run) && i < |run| - 1 && a in run[i].nodes
    requires NextStep(run[i], run[i + 1], step) && !step.DeliverAppend?
    ensures a in run[i + 1].nodes && LongerNode(run[i].nodes[a], run[i + 1].nodes[a])
  {
    if step.HandleReply? {
      RunNodeFacts(run, i, step.reply.req.leader);
      RunNodeFacts(run, i, a);
      ReplyKeepsLog(run[i], run[i + 1], step, a);
    } else {
      RunIsSafe(run, i);
      OtherGrowsLog(run[i], run[i + 1], step, a);
    }
  }

  /** No step takes a justified prefix out of a server's log. */
  lemma RunKeepsPrefix(run: seq<Cluster>, i: nat, a: Id, prefix: seq<Entry>, t: nat)
    requires HonestRun(run) && i < |run| - 1 && a in run[i].nodes && t <= run[i].nodes[a].term
    requires CommitSafe(run[i], prefix, |prefix|, t) && prefix <= run[i].nodes[a].log.entries
    ensures a in run[i + 1].nodes && t <= run[i + 1].nodes[a].term && prefix <= run[i + 1].nodes[a].log.entries
  {
    var step := RunStep(run, i);
    if step.DeliverAppend? {
      MergeKeepsPrefix(run, i, step.request, a, prefix, t);
    } else {
      RunGrowsLog(run, i, step, a);
    }
  }

  lemma PrefixLasts(run: seq<Cluster>, i: nat, j: nat, a: Id, prefix: seq<Entry>)
    requires HonestRun(run) && i <= j < |run| && a in run[i].nodes
    requires var n := run[i].nodes[a]; n.commitIndex <= |n.log.entries| && prefix == n.log.entries[..n.commitIndex]
    ensures CommitSafe(run[j], prefix, |prefix|, run[i].nodes[a].term)
  {
    var n := run[i].nodes[a];
    CommitLastsThroughRun(run, i, j, a);
    CommitSafeMoves(run[j], n.log.entries, prefix, n.commitIndex, n.commitIndex, n.term);
  }

  /** What a server has once committed stays in its log for the rest of the run, restarts included. */
  lemma {:induction false} CommittedNeverRemoved(run: seq<Cluster>, i: nat, j: nat, a: Id)
    requires HonestRun(run) && i <= j < |run| && a in run[i].nodes
    ensures a in run[j].nodes && run[i].nodes[a].term <= run[j].nodes[a].term
    ensures run[i].nodes[a].commitIndex <= |run[i].nodes[a].log.entries|
    ensures run[i].nodes[a].log.entries[..run[i].nodes[a].commitIndex] <= run[j].nodes[a].log.entries
    decreases j
  {
    var n := run[i].nodes[a];
    RunNodeFacts(run, i, a);
    if i < j {
      var prefix := n.log.entries[..n.commitIndex];
      CommittedNeverRemoved(run, i, j - 1, a);
      PrefixLasts(run, i, j - 1, a, prefix);
      RunKeepsPrefix(run, j - 1, a, prefix, n.term);
    }
  }
}
