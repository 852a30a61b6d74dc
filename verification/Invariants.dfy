/**
 What every step of the protocol keeps, with no assumption on the replies handled: the vote slot, the counted
 ballots, one leadership per term, and every log being made of prefixes of leaders' logs.
 */
module Invariants {
  import opened RaftLog
  import opened Server
  import opened Protocol
  import Merging = FollowerMerge

  // ----- Logs are woven from the logs of reigns

  /** The log up to `k` is what the leader of the term of entry `k` held. */
  predicate Traced(reigns: Reigns, log: seq<Entry>, k: nat)
    requires k < |log|
  {
    log[k].term in reigns && k < |reigns[log[k].term].log| && log[..k + 1] == reigns[log[k].term].log[..k + 1]
  }

  ghost predicate Woven(reigns: Reigns, log: seq<Entry>) {
    && log != []
    && Numbered(0, log)
    && SortedTerms(log)
    && forall k | 0 <= k < |log| :: Traced(reigns, log, k)
  }

  ghost predicate ReignsGrow(r: Reigns, r': Reigns) {
    forall t | t in r ::
      t in r' && r[t].owner == r'[t].owner && r[t].electors == r'[t].electors && r[t].log <= r'[t].log
  }

  lemma WovenGrows(r: Reigns, r': Reigns, log: seq<Entry>)
    requires Woven(r, log) && ReignsGrow(r, r')
    ensures Woven(r', log)
  {
    forall k | 0 <= k < |log| ensures Traced(r', log, k) {
      assert Traced(r, log, k);
    }
  }

  /** Two woven logs with the same term at a position agree up to it. */
  lemma SameTermSamePrefix(r: Reigns, a: seq<Entry>, b: seq<Entry>, k: nat)
    requires Woven(r, a) && Woven(r, b) && k < |a| && k < |b| && a[k].term == b[k].term
    ensures a[..k + 1] == b[..k + 1]
  {
    assert Traced(r, a, k) && Traced(r, b, k);
  }

  lemma WovenPrefix(r: Reigns, log: seq<Entry>, n: nat)
    requires Woven(r, log) && 0 < n <= |log|
    ensures Woven(r, log[..n])
  {
    forall k | 0 <= k < n ensures Traced(r, log[..n], k) {
      assert Traced(r, log, k);
      assert log[..n][..k + 1] == log[..k + 1];
    }
  }

  /** A request carries a stretch of the log of its term's leader. */
  predicate Stretch(log: seq<Entry>, req: AppendReq) {
    && req.prevIndex + |req.entries| <= |log|
    && req.entries == log[req.prevIndex..req.prevIndex + |req.entries|]
    && req.prevTerm == TermOfLast(log[..req.prevIndex])
  }

  /** Where the preceding entry matches, the follower shares everything before it. */
  lemma PrevMeansPrefix(r: Reigns, log: seq<Entry>, leader: seq<Entry>, req: AppendReq)
    requires Woven(r, log) && Woven(r, leader) && Stretch(leader, req)
    requires Full(log).HasEntry(req.prevIndex, req.prevTerm)
    ensures req.prevIndex <= |log| && log[..req.prevIndex] == leader[..req.prevIndex]
  {
    if req.prevIndex > 0 {
      SameTermSamePrefix(r, log, leader, req.prevIndex - 1);
    }
  }

  lemma MergedStretch(r: Reigns, log: seq<Entry>, leader: seq<Entry>, req: AppendReq)
    requires Woven(r, log) && Woven(r, leader) && Stretch(leader, req)
    requires req.prevIndex <= |log| && log[..req.prevIndex] == leader[..req.prevIndex]
    ensures !Full(log).ChopFails(req.entries)
    ensures var sent := leader[..req.prevIndex + |req.entries|];
            Full(log).Merge(req.entries) == Full(if sent <= log then log else sent)
  {
    StretchNumbered(leader, req);
    var j := Merging.FirstDifferenceExists(Full(log), req.entries);
    MergeSplices(log, req.prevIndex, req.entries, j);
    AgreedPrefix(r, log, leader, req, j);
    MergedAfter(log, leader, req, j);
  }

  lemma MergeSplices(log: seq<Entry>, prev: nat, es: seq<Entry>, j: nat)
    requires Numbered(0, log) && Numbered(prev, es) && prev <= |log| && Merging.FirstDifference(Full(log), es, j)
    ensures !Full(log).ChopFails(es) && j <= |es| && prev + j <= |log|
    ensures Full(log).Merge(es) == Merging.Spliced(Full(log), prev, es, j)
  {
    Merging.MergeShape(Full(log), prev, es, j);
  }

  lemma MergedAfter(log: seq<Entry>, leader: seq<Entry>, req: AppendReq, j: nat)
    requires Stretch(leader, req) && Numbered(req.prevIndex, req.entries)
    requires Merging.FirstDifference(Full(log), req.entries, j) && req.prevIndex + j <= |log|
    requires log[..req.prevIndex + j] == leader[..req.prevIndex + j]
    ensures var sent := leader[..req.prevIndex + |req.entries|];
            Merging.Spliced(Full(log), req.prevIndex, req.entries, j) == Full(if sent <= log then log else sent)
  {
    StretchSplice(log, leader, req.prevIndex, req.entries, j);
  }

  /**
   Merging a stretch of a leader's log ends with that stretch in place: either the log had it already and is
   unchanged, or the result is exactly the leader's log up to the end of the stretch.
   */
  lemma MergeStretch(r: Reigns, log: seq<Entry>, leader: seq<Entry>, req: AppendReq)
    requires Woven(r, log) && Woven(r, leader) && Stretch(leader, req)
    requires Full(log).HasEntry(req.prevIndex, req.prevTerm)
    ensures !Full(log).ChopFails(req.entries)
    ensures var sent := leader[..req.prevIndex + |req.entries|];
            var merged := Full(log).Merge(req.entries);
            && sent <= merged.entries
            && merged == Full(if sent <= log then log else sent)
  {
    PrevMeansPrefix(r, log, leader, req);
    MergedStretch(r, log, leader, req);
  }

  lemma StretchNumbered(leader: seq<Entry>, req: AppendReq)
    requires Numbered(0, leader) && Stretch(leader, req)
    ensures Numbered(req.prevIndex, req.entries)
  {
  }

  lemma AgreedPrefix(r: Reigns, log: seq<Entry>, leader: seq<Entry>, req: AppendReq, j: nat)
    requires Woven(r, log) && Woven(r, leader) && Stretch(leader, req)
    requires req.prevIndex <= |log| && log[..req.prevIndex] == leader[..req.prevIndex]
    requires Merging.FirstDifference(Full(log), req.entries, j) && req.prevIndex + j <= |log|
    ensures log[..req.prevIndex + j] == leader[..req.prevIndex + j]
  {
    if j > 0 {
      assert Merging.Agrees(Full(log), req.entries[j - 1]);
      SameTermSamePrefix(r, log, leader, req.prevIndex + j - 1);
    }
  }

  lemma StretchSplice(log: seq<Entry>, leader: seq<Entry>, prev: nat, es: seq<Entry>, j: nat)
    requires prev + |es| <= |leader| && es == leader[prev..prev + |es|] && j <= |es| && Numbered(prev, es)
    requires prev + j <= |log| && log[..prev + j] == leader[..prev + j]
    requires j < |es| ==> !Merging.Agrees(Full(log), es[j])
    ensures var sent := leader[..prev + |es|];
            Merging.Spliced(Full(log), prev, es, j) == Full(if sent <= log then log else sent)
  {
    var sent := leader[..prev + |es|];
    if j == |es| {
      assert sent <= log;
    } else {
      assert log[..prev + j] + es[j..] == sent;
      assert es[j] == sent[prev + j];
    }
  }

  // ----- Per-node, per-reign and per-message facts

  type Nodes = map<Id, Node>
  type Grants = map<(Id, nat), Grant>
  type BallotBox = map<(Id, nat), set<Id>>

  ghost predicate LeaderOk(members: set<Id>, reigns: Reigns, n: Node) {
    && n.term in reigns && reigns[n.term].owner == n.id && reigns[n.term].log == n.log.entries
    && n.nextIndex.Keys == members && n.matchIndex.Keys == members
    && forall p | p in n.nextIndex :: n.nextIndex[p] >= 1
  }

  ghost predicate NodeOk(members: set<Id>, reigns: Reigns, id: Id, n: Node) {
    && n.id == id && n.cluster == members && n.term >= 1
    && n.log == Full(n.log.entries)
    && Woven(reigns, n.log.entries) && TermOfLast(n.log.entries) <= n.term
    && (n.role != Follower ==> n.term >= 2)
    && (n.role == Leader ==> LeaderOk(members, reigns, n))
  }

  ghost predicate NodesOk(members: set<Id>, nodes: Nodes, reigns: Reigns) {
    && NoVote !in members
    && nodes.Keys == members
    && forall i {:trigger NodeOk(members, reigns, i, nodes[i])} | i in members ::
         NodeOk(members, reigns, i, nodes[i])
  }

  /** Leaders' logs are themselves woven; term 1 is the bootstrap, nobody's reign. */
  ghost predicate ReignOk(reigns: Reigns, t: nat)
    requires t in reigns
  {
    && t >= 1 && Woven(reigns, reigns[t].log) && TermOfLast(reigns[t].log) <= t
    && (t == 1 <==> reigns[t].owner == NoVote)
  }

  ghost predicate ReignsOk(reigns: Reigns) {
    1 in reigns && forall t {:trigger ReignOk(reigns, t)} | t in reigns :: ReignOk(reigns, t)
  }

  predicate VotedFor(grants: Grants, voter: Id, term: nat, candidate: Id) {
    (voter, term) in grants && grants[(voter, term)].candidate == candidate
  }

  ghost predicate Elected(members: set<Id>, grants: Grants, reign: Reign, t: nat) {
    && reign.electors <= members && Majority(members, reign.electors)
    && forall v | v in reign.electors :: VotedFor(grants, v, t, reign.owner)
  }

  /** Every reign but the bootstrap was elected by a majority of single votes. */
  ghost predicate ElectionsOk(members: set<Id>, reigns: Reigns, grants: Grants) {
    forall t {:trigger Elected(members, grants, reigns[t], t)} | t in reigns && t > 1 ::
      Elected(members, grants, reigns[t], t)
  }

  /** The server's candidacy in term `t` is over. */
  predicate CandidacyOver(nodes: Nodes, id: Id, t: nat) {
    id in nodes && (nodes[id].term > t || (nodes[id].term == t && nodes[id].role != Candidate))
  }

  ghost predicate OwnersOk(nodes: Nodes, reigns: Reigns) {
    forall t | t in reigns && t > 1 :: CandidacyOver(nodes, reigns[t].owner, t)
  }

  /** A vote binds its giver for the rest of the term. */
  predicate Bound(nodes: Nodes, voter: Id, t: nat, candidate: Id) {
    && voter in nodes && t <= nodes[voter].term
    && (t == nodes[voter].term ==> nodes[voter].votedFor == candidate)
  }

  ghost predicate SlotsOk(nodes: Nodes, grants: Grants) {
    forall key | key in grants :: Bound(nodes, key.0, key.1, grants[key].candidate)
  }

  /** The server has reached term `t`. */
  predicate Reached(nodes: Nodes, id: Id, t: nat) {
    id in nodes && t <= nodes[id].term
  }

  ghost predicate TimelyOk(nodes: Nodes, reqs: set<VoteMsg>, replies: set<VoteReply>, grants: Grants,
                           ballots: BallotBox) {
    && (forall m | m in reqs :: Reached(nodes, m.req.candidate, m.req.term))
    && (forall r | r in replies :: Reached(nodes, r.req.candidate, r.req.term))
    && (forall key | key in grants :: Reached(nodes, grants[key].candidate, key.1))
    && (forall key | key in ballots :: Reached(nodes, key.0, key.1))
  }

  predicate VoteReplyOk(members: set<Id>, grants: Grants, r: VoteReply) {
    && r.voter in members && r.voter != r.req.candidate
    && (r.res.granted ==> r.res.term == r.req.term && VotedFor(grants, r.voter, r.req.term, r.req.candidate))
  }

  ghost predicate VoteMsgsOk(members: set<Id>, reqs: set<VoteMsg>, replies: set<VoteReply>, grants: Grants) {
    && (forall m | m in reqs :: m.to != m.req.candidate)
    && (forall r | r in replies :: VoteReplyOk(members, grants, r))
  }

  /** Counted voters voted for the candidate, and each was counted by a callback of its own. */
  ghost predicate BallotOk(members: set<Id>, handled: set<VoteTask>, grants: Grants, id: Id, t: nat, voters: set<Id>) {
    && voters <= members
    && forall v | v in voters :: VotedFor(grants, v, t, id) && (v == id || VoteTask(v, id, t) in handled)
  }

  ghost predicate BallotsOk(members: set<Id>, handled: set<VoteTask>, grants: Grants, ballots: BallotBox) {
    forall key {:trigger BallotOk(members, handled, grants, key.0, key.1, ballots[key])} | key in ballots ::
      BallotOk(members, handled, grants, key.0, key.1, ballots[key])
  }

  predicate CandidateOk(ballots: BallotBox, id: Id, n: Node) {
    n.role == Candidate ==> (id, n.term) in ballots && n.votes == |ballots[(id, n.term)]|
  }

  ghost predicate CandidatesOk(nodes: Nodes, ballots: BallotBox) {
    forall i {:trigger CandidateOk(ballots, i, nodes[i])} | i in nodes :: CandidateOk(ballots, i, nodes[i])
  }

  predicate AppendReqOk(reigns: Reigns, to: Id, req: AppendReq) {
    req.term in reigns && reigns[req.term].owner == req.leader && to != req.leader && Stretch(reigns[req.term].log, req)
  }

  ghost predicate ReplyOk(members: set<Id>, reigns: Reigns, r: AppendReply) {
    AppendReqOk(reigns, r.from, r.req) && r.from in members && Woven(reigns, r.log)
  }

  ghost predicate RequestsOk(members: set<Id>, reigns: Reigns, reqs: set<AppendMsg>, replies: set<AppendReply>) {
    && (forall m {:trigger AppendReqOk(reigns, m.to, m.req)} | m in reqs :: AppendReqOk(reigns, m.to, m.req))
    && (forall r {:trigger ReplyOk(members, reigns, r)} | r in replies :: ReplyOk(members, reigns, r))
  }

  ghost predicate LogInv(c: Cluster) {
    && NodesOk(c.members, c.nodes, c.hist.reigns)
    && ReignsOk(c.hist.reigns)
    && RequestsOk(c.members, c.hist.reigns, c.net.appendReqs, c.net.appendReplies)
  }

  ghost predicate VoteInv(c: Cluster) {
    && ElectionsOk(c.members, c.hist.reigns, c.hist.grants)
    && OwnersOk(c.nodes, c.hist.reigns)
    && SlotsOk(c.nodes, c.hist.grants)
    && TimelyOk(c.nodes, c.net.voteReqs, c.net.voteReplies, c.hist.grants, c.hist.ballots)
    && VoteMsgsOk(c.members, c.net.voteReqs, c.net.voteReplies, c.hist.grants)
    && BallotsOk(c.members, c.net.handled, c.hist.grants, c.hist.ballots)
    && CandidatesOk(c.nodes, c.hist.ballots)
  }

  ghost predicate Inv(c: Cluster) {
    LogInv(c) && VoteInv(c)
  }
}
