/**
 What steps keep when leaders act on honest success replies only: whatever a majority of a term has confirmed,
 or still can confirm, is in every later leader's log. The vote restriction, the current-term commit rule and the
 conflict-only chop meet here.
 */
module CommitInvariants {
  import opened RaftLog
  import opened Server
  import opened Protocol
  import opened Invariants

  /**
   A success reply handled in the term that sent it, whose match index covers only log shared with the leader.
   The follower reports the index of its last entry, so the shared part must be its whole log.
   */
  predicate Honest(s: Node, r: AppendReply) {
    s.role == Leader && r.res.success ==> r.res.term == s.term && r.log <= s.log.entries
  }

  ghost predicate HonestStep(c: Cluster, c': Cluster, step: Step) {
    NextStep(c, c', step) && (step.HandleReply? ==> Honest(c.nodes[step.reply.req.leader], step.reply))
  }

  // ----- Confirmation

  function Holding(c: Cluster, t: nat, k: nat): set<Id> {
    set q | q in c.members && Acked(c.hist, q, t) >= k
  }

  /** Those who confirmed the first `k` entries of reign `t`, and those whose term still lets them. */
  function Able(c: Cluster, t: nat, k: nat): set<Id>
    requires c.nodes.Keys == c.members
  {
    set q | q in c.members && (Acked(c.hist, q, t) >= k || c.nodes[q].term <= t)
  }

  /** The first `k` entries of reign `t` end in an entry of that term; a lone member may also commit older ones. */
  predicate Eligible(members: set<Id>, reigns: Reigns, t: nat, k: nat) {
    t in reigns && 0 < k <= |reigns[t].log| && (reigns[t].log[k - 1].term == t || |members| == 1)
  }

  predicate Committed(c: Cluster, t: nat, k: nat) {
    Eligible(c.members, c.hist.reigns, t, k) && Majority(c.members, Holding(c, t, k))
  }

  predicate Choosable(c: Cluster, t: nat, k: nat)
    requires c.nodes.Keys == c.members
  {
    Eligible(c.members, c.hist.reigns, t, k) && Majority(c.members, Able(c, t, k))
  }

  // ----- Where a choosable prefix is found

  function Head(reigns: Reigns, t: nat, k: nat): seq<Entry>
    requires t in reigns && k <= |reigns[t].log|
  {
    reigns[t].log[..k]
  }

  ghost predicate InLogs(c: Cluster, t: nat, k: nat, head: seq<Entry>)
    requires c.nodes.Keys == c.members
  {
    forall q | q in c.members && Acked(c.hist, q, t) >= k :: head <= c.nodes[q].log.entries
  }

  ghost predicate InVotes(h: History, t: nat, k: nat, head: seq<Entry>) {
    forall key | key in h.grants && t < key.1 && Acked(h, key.0, t) >= k :: head <= h.grants[key].log
  }

  ghost predicate InReigns(reigns: Reigns, t: nat, head: seq<Entry>) {
    forall u | u in reigns && t < u :: head <= reigns[u].log
  }

  ghost predicate Kept(c: Cluster, t: nat, k: nat)
    requires c.nodes.Keys == c.members && Eligible(c.members, c.hist.reigns, t, k)
  {
    var head := Head(c.hist.reigns, t, k);
    InLogs(c, t, k, head) && InVotes(c.hist, t, k, head) && InReigns(c.hist.reigns, t, head)
  }

  ghost predicate ChoicesKept(c: Cluster)
    requires c.nodes.Keys == c.members
  {
    forall t, k | Choosable(c, t, k) :: Kept(c, t, k)
  }

  // ----- Acknowledgements, votes and offices

  predicate AckOk(nodes: Nodes, reigns: Reigns, id: Id, t: nat, length: nat) {
    id in nodes && t in reigns && length <= |reigns[t].log| && t <= nodes[id].term
  }

  ghost predicate AcksOk(nodes: Nodes, reigns: Reigns, acked: map<(Id, nat), nat>) {
    forall key | key in acked :: AckOk(nodes, reigns, key.0, key.1, acked[key])
  }

  predicate NoNewer(voter: seq<Entry>, candidate: seq<Entry>) {
    TermOfLast(voter) <= TermOfLast(candidate) && |voter| <= |candidate|
  }

  /** While a candidacy lasts its votes come from logs no newer than the candidate's. */
  predicate GrantLogOk(nodes: Nodes, voter: Id, t: nat, grant: Grant) {
    grant.candidate in nodes && nodes[grant.candidate].term == t && nodes[grant.candidate].role == Candidate ==>
      var log := nodes[grant.candidate].log.entries;
      NoNewer(grant.log, log) && (voter == grant.candidate ==> grant.log == log)
  }

  ghost predicate GrantLogsOk(nodes: Nodes, reigns: Reigns, grants: Grants) {
    forall key | key in grants :: Woven(reigns, grants[key].log) && GrantLogOk(nodes, key.0, key.1, grants[key])
  }

  predicate VoteReqLogOk(nodes: Nodes, req: VoteReq) {
    req.candidate in nodes && nodes[req.candidate].term == req.term && nodes[req.candidate].role == Candidate ==>
      var log := nodes[req.candidate].log.entries;
      req.lastIndex == |log| && req.lastTerm == TermOfLast(log)
  }

  ghost predicate VoteReqLogsOk(nodes: Nodes, reqs: set<VoteMsg>) {
    forall m | m in reqs :: VoteReqLogOk(nodes, m.req)
  }

  /** A leader knows of its peers no more than they confirmed, and sends from within its log. */
  ghost predicate LeaderKnows(h: History, n: Node) {
    n.role == Leader ==>
      && Acked(h, n.id, n.term) == |n.log.entries|
      && (forall p | p in n.matchIndex && p != n.id :: n.matchIndex[p] <= Acked(h, p, n.term))
      && (forall p | p in n.nextIndex :: n.nextIndex[p] <= |n.log.entries| + 1)
  }

  ghost predicate LeadersKnow(nodes: Nodes, h: History) {
    forall i {:trigger LeaderKnows(h, nodes[i])} | i in nodes :: LeaderKnows(h, nodes[i])
  }

  /** The follower's log had what the request carried. */
  predicate Carried(reigns: Reigns, r: AppendReply) {
    var sent := r.req.prevIndex + |r.req.entries|;
    r.req.term in reigns && sent <= |reigns[r.req.term].log| && Head(reigns, r.req.term, sent) <= r.log
  }

  predicate SuccessOk(h: History, r: AppendReply) {
    r.res.success ==>
      && Carried(h.reigns, r)
      && r.res.term == r.req.term && r.res.matchIndex == |r.log|
      && (r.req.term in h.reigns && r.log <= h.reigns[r.req.term].log ==> Acked(h, r.from, r.req.term) >= |r.log|)
  }

  ghost predicate SuccessesOk(h: History, replies: set<AppendReply>) {
    forall r {:trigger SuccessOk(h, r)} | r in replies :: SuccessOk(h, r)
  }

  // ----- Commit indices

  /** Every entry of `log` up to the commit index was confirmed by a majority in a term no later than `t`. */
  ghost predicate CommitSafe(c: Cluster, log: seq<Entry>, commit: nat, t: nat) {
    && commit <= |log|
    && (commit > 0 ==> exists u, k :: CommitWitness(c, log, commit, t, u, k))
  }

  ghost predicate CommitWitness(c: Cluster, log: seq<Entry>, commit: nat, t: nat, u: nat, k: nat) {
    u <= t && Committed(c, u, k) && commit <= k && commit <= |log| && log[..commit] == Head(c.hist.reigns, u, commit)
  }

  ghost predicate CommitsOk(c: Cluster) {
    forall i {:trigger CommitSafe(c, c.nodes[i].log.entries, c.nodes[i].commitIndex, c.nodes[i].term)} | i in c.nodes ::
      CommitSafe(c, c.nodes[i].log.entries, c.nodes[i].commitIndex, c.nodes[i].term)
  }

  ghost predicate RequestCommitOk(c: Cluster, req: AppendReq) {
    && req.term in c.hist.reigns
    && req.leaderCommit <= req.prevIndex + |req.entries|
    && CommitSafe(c, c.hist.reigns[req.term].log, req.leaderCommit, req.term)
  }

  ghost predicate RequestCommitsOk(c: Cluster) {
    forall m {:trigger RequestCommitOk(c, m.req)} | m in c.net.appendReqs :: RequestCommitOk(c, m.req)
  }

  ghost predicate CommitInv(c: Cluster) {
    && c.nodes.Keys == c.members
    && AcksOk(c.nodes, c.hist.reigns, c.hist.acked)
    && GrantLogsOk(c.nodes, c.hist.reigns, c.hist.grants)
    && VoteReqLogsOk(c.nodes, c.net.voteReqs)
    && LeadersKnow(c.nodes, c.hist)
    && SuccessesOk(c.hist, c.net.appendReplies)
    && ChoicesKept(c)
    && CommitsOk(c)
    && RequestCommitsOk(c)
  }

  ghost predicate SafetyInv(c: Cluster) {
    Inv(c) && CommitInv(c)
  }
}
