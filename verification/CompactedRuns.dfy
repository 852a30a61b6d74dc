/**
 Runs in which servers compact their logs. Every such run is matched by a run of `Protocol` on complete logs, so what
 was proved there holds of the entries above the servers' bases.
 */
module CompactedRuns {
  import opened RaftLog
  import opened Server
  import opened Protocol
  import opened Invariants
  import opened CommitInvariants
  import opened CommitPreservation
  import opened StateMachineSafety
  import CommitIndex
  import ExactReplies
  import ElectionSafety
  import FollowerMerge
  import Preservation
  import ReplicatedStore

  // ----- The cluster without history variables

  datatype Response = Response(from: Id, req: AppendReq, res: AppendRes)

  datatype Wires = Wires(
    voteReqs: set<VoteMsg>,
    voteReplies: set<VoteReply>,
    handled: set<VoteTask>,
    appendReqs: set<AppendMsg>,
    appendReplies: set<Response>)

  datatype Machines = Machines(members: set<Id>, nodes: map<Id, Node>, net: Wires)

  datatype Move =
    | Yields(id: Id)
    | Elects(id: Id)
    | Votes(vote: VoteMsg)
    | Counts(ballot: VoteReply)
    | Proposes(id: Id, data: Bytes)
    | Sends(id: Id, to: Id)
    | Receives(request: AppendMsg)
    | Handles(reply: Response, commit: nat)
    | CommitsAlone(id: Id)
    | Restarts(id: Id)              // the commit index is the base again
    | Compacts(id: Id, index: nat)  // drop of committed entries
    | Idles                         // a turn that neither peers nor the log can see

  function Update(k: Machines, s: Node): Machines {
    k.(nodes := k.nodes[s.id := s])
  }

  ghost predicate Starts(k: Machines) {
    && NoVote !in k.members && k.members != {} && k.nodes.Keys == k.members
    && k.net == Wires({}, {}, {}, {}, {})
    && exists boot: Entry :: StartsWith(k, boot)
  }

  predicate StartsWith(k: Machines, boot: Entry)
    requires k.nodes.Keys == k.members
  {
    boot.term == 1 && boot.index == 1 && forall i | i in k.members :: InitialNode(k.members, i, boot, k.nodes[i])
  }

  /** The commit index a leader announces is accounted for by the request. */
  predicate Covered(req: AppendReq) {
    req.leaderCommit <= req.prevIndex + |req.entries|
  }

  /** A request that is accepted leaves the log numbered. */
  predicate StaysNumbered(s: Node, req: AppendReq) {
    s.log.HasEntry(req.prevIndex, req.prevTerm) ==> FollowerMerge.Placed(s.log, req.prevIndex, req.entries)
  }

  function Receipt(k: Machines, m: AppendMsg): Machines
    requires m.to in k.nodes
  {
    var (s, res) := OnAppendRequest(k.nodes[m.to], m.req);
    Update(k, s).(net := k.net.(appendReplies := k.net.appendReplies + {Response(m.to, m.req, res)}))
  }

  ghost predicate ReplyHandled(s: Node, r: Response, commit: nat, s': Node) {
    if s.role == Leader && r.res.success then
      var s1 := RecordMatch(s, r.from, r.res.matchIndex);
      if CommitFaults(s1) then s' == Rebooted(s, s.log.baseIndex)
      else CommitRule(s1, commit) && s' == s1.(commitIndex := commit)
    else s' == OnAppendRefusal(s, r.from, r.res)
  }

  /** What the code does in a move. */
  ghost predicate CanMove(k: Machines, k': Machines, move: Move) {
    match move
    case Yields(id) => id in k.nodes && k' == Update(k, k.nodes[id].(role := Follower))
    case Elects(id) =>
      && id in k.nodes
      && var s := StartElection(k.nodes[id]);
         var requests := set n | n in k.members && n != id :: VoteMsg(n, BuildVoteReq(s));
         k' == Update(k, s).(net := k.net.(voteReqs := k.net.voteReqs + requests))
    case Votes(m) =>
      && m in k.net.voteReqs && m.to in k.nodes
      && var (s, res) := OnVoteRequest(k.nodes[m.to], m.req);
         k' == Update(k, s).(net := k.net.(voteReplies := k.net.voteReplies + {VoteReply(m.to, m.req, res)}))
    case Counts(r) =>
      && r in k.net.voteReplies && TaskOf(r) !in k.net.handled && r.req.candidate in k.nodes
      && k' == Update(k, OnVoteReply(k.nodes[r.req.candidate], r.res)).(
                 net := k.net.(handled := k.net.handled + {TaskOf(r)}))
    case Proposes(id, data) => id in k.nodes && k' == Update(k, ClientAppend(k.nodes[id], data))
    case Sends(id, to) =>
      && id in k.nodes && k.nodes[id].role == Leader && to != id && to in k.nodes[id].nextIndex
      && var req := BuildAppendReq(k.nodes[id], k.nodes[id].nextIndex[to]);
         k' == k.(net := k.net.(appendReqs := k.net.appendReqs + {AppendMsg(to, req)}))
    case Receives(m) => m in k.net.appendReqs && m.to in k.nodes && k' == Receipt(k, m)
    case Handles(r, commit) =>
      && r in k.net.appendReplies && r.req.leader in k.nodes
      && exists s' :: ReplyHandled(k.nodes[r.req.leader], r, commit, s') && k' == Update(k, s')
    case CommitsAlone(id) =>
      && id in k.nodes && k.nodes[id].role == Leader && Alone(k.nodes[id])
      && k' == Update(k, k.nodes[id].(commitIndex := k.nodes[id].log.LastIndex()))
    case Restarts(id) => id in k.nodes && k' == Update(k, Rebooted(k.nodes[id], k.nodes[id].log.baseIndex))
    case Idles => k' == k
    case Compacts(id, index) =>
      && id in k.nodes && k.nodes[id].log.Present(index) && index <= k.nodes[id].commitIndex
      && k' == Update(k, k.nodes[id].(log := k.nodes[id].log.Drop(index)))
  }

  /** Requests are covered, and leaders make the check of `ExactReplies`. */
  predicate Careful(k: Machines, move: Move) {
    match move
    case Sends(id, to) =>
      id in k.nodes && to in k.nodes[id].nextIndex ==> Covered(BuildAppendReq(k.nodes[id], k.nodes[id].nextIndex[to]))
    case Handles(r, _) => r.req.leader in k.nodes ==> ExactReplies.ExactReply(k.nodes[r.req.leader], r.req, r.res)
    case _ => true
  }

  ghost predicate MoveTo(k: Machines, k': Machines, move: Move) {
    CanMove(k, k', move) && Careful(k, move)
  }

  ghost predicate Moves(k: Machines, k': Machines) {
    exists move :: MoveTo(k, k', move)
  }

  ghost predicate MovesAt(run: seq<Machines>, i: nat)
    requires i < |run| - 1
  {
    Moves(run[i], run[i + 1])
  }

  ghost predicate CompactedRun(run: seq<Machines>) {
    run != [] && Starts(run[0]) && forall i: nat | i < |run| - 1 :: MovesAt(run, i)
  }

  // ----- A server and its counterpart with the complete log

  /** A leader sends from index 2 up: what every log starts with is never sent. */
  predicate InReach(s: Node) {
    s.role == Leader ==> forall p | p in s.nextIndex :: 2 <= s.nextIndex[p] <= s.log.LastIndex() + 1
  }

  predicate Shadows(n: Node, f: Node) {
    && n.log.baseIndex <= f.commitIndex && n.log.baseIndex <= |f.log.entries| && f.log.entries != []
    && f.log == Full(f.log.entries) && n.log == Compacted(f.log.entries, n.log.baseIndex)
    && n == f.(log := n.log, nextIndex := n.nextIndex) && n.nextIndex.Keys == f.nextIndex.Keys
    && InReach(n)
  }

  lemma SameEnds(n: Node, f: Node)
    requires Shadows(n, f)
    ensures n.log.LastIndex() == f.log.LastIndex() && n.log.LastTerm() == f.log.LastTerm()
  {
  }

  lemma OfficeShadows(n: Node, f: Node)
    requires Shadows(n, f)
    ensures Shadows(StepUp(n), StepUp(f))
  {
    SameEnds(n, f);
  }

  function Campaigning(s: Node, votes: nat): Node {
    s.(role := Candidate, term := s.term + 1, votedFor := s.id, votes := votes)
  }

  lemma ElectionShadows(n: Node, f: Node)
    requires Shadows(n, f)
    ensures Shadows(StartElection(n), StartElection(f))
    ensures BuildVoteReq(StartElection(n)) == BuildVoteReq(StartElection(f))
  {
    var votes := if n.id in n.cluster then 1 else 0;
    var lone := |n.cluster| == 1 && votes == 1;
    assert StartElection(n) == if lone then StepUp(Campaigning(n, votes)) else Campaigning(n, votes);
    assert StartElection(f) == if lone then StepUp(Campaigning(f, votes)) else Campaigning(f, votes);
    OfficeShadows(Campaigning(n, votes), Campaigning(f, votes));
    SameEnds(n, f);
  }

  lemma VoteShadows(n: Node, f: Node, req: VoteReq)
    requires Shadows(n, f)
    ensures Shadows(OnVoteRequest(n, req).0, OnVoteRequest(f, req).0)
    ensures OnVoteRequest(n, req).1 == OnVoteRequest(f, req).1
  {
    SameEnds(n, f);
  }

  lemma CountShadows(n: Node, f: Node, res: VoteRes)
    requires Shadows(n, f)
    ensures Shadows(OnVoteReply(n, res), OnVoteReply(f, res))
  {
    SameEnds(n, f);
  }

  lemma ProposeShadows(n: Node, f: Node, data: Bytes)
    requires Shadows(n, f)
    ensures Shadows(ClientAppend(n, data), ClientAppend(f, data))
  {
    SameEnds(n, f);
    if n.role == Leader {
      var log, e, base := f.log.entries, Entry(f.term, f.log.LastIndex() + 1, data, false), n.log.baseIndex;
      assert (log + [e])[..base] == log[..base] && (log + [e])[base..] == log[base..] + [e];
    }
  }

  lemma RestartShadows(n: Node, f: Node)
    requires Shadows(n, f)
    ensures Shadows(Rebooted(n, n.log.baseIndex), Rebooted(f, n.log.baseIndex))
  {
    SameEnds(n, f);
  }

  lemma CompactShadows(n: Node, f: Node, index: nat)
    requires Shadows(n, f) && n.log.Present(index) && index <= f.commitIndex
    ensures Shadows(n.(log := n.log.Drop(index)), f)
  {
    var log, base := f.log.entries, n.log.baseIndex;
    assert log[base..][index - base..] == log[index..];
    assert log[..index][index - 1] == log[base..][index - base - 1];
  }

  // ----- Requests

  /** What a compacted leader sends is a stretch of its complete log. */
  lemma SentIsStretch(n: Node, f: Node, next: nat)
    requires Shadows(n, f) && Numbered(0, f.log.entries) && 2 <= next <= n.log.LastIndex() + 1
    ensures var req := BuildAppendReq(n, next);
            && req.prevIndex + |req.entries| <= |f.log.entries|
            && req == StretchReq(f, req.prevIndex, |req.entries|)
            && req.prevIndex >= 1
  {
    var req := BuildAppendReq(n, next);
    SentPrevIs(n, f, next);
    SentEntriesAre(n, f, next);
    if !n.log.Present(next) {
      assert f.log.entries[req.prevIndex..req.prevIndex] == [];
    }
  }

  lemma SentEntriesAre(n: Node, f: Node, next: nat)
    requires Shadows(n, f) && 2 <= next <= n.log.LastIndex() + 1
    ensures var es, log := SentEntries(n.log, next), f.log.entries;
            if n.log.Present(next) then next - 1 + |es| == |log| && es == log[next - 1..next - 1 + |es|] else es == []
  {
    var log, base := f.log.entries, n.log.baseIndex;
    if n.log.Present(next) {
      assert log[base..][next - base - 1..] == log[next - 1..];
    }
  }

  lemma SentPrevIs(n: Node, f: Node, next: nat)
    requires Shadows(n, f) && Numbered(0, f.log.entries) && 2 <= next <= n.log.LastIndex() + 1
    ensures var (prev, term) := SentPrev(n.log, next);
            && 1 <= prev <= |f.log.entries| && term == TermOfLast(f.log.entries[..prev])
            && (next > n.log.baseIndex ==> prev == next - 1)
  {
    var log, base := f.log.entries, n.log.baseIndex;
    if n.log.Present(next - 1) {
      assert log[base..][next - 1 - base - 1] == log[next - 2] == log[..next - 1][next - 2];
    }
  }

  lemma RefusalShadows(n: Node, f: Node, req: AppendReq)
    requires Shadows(n, f)
    ensures Shadows(RefuseAppend(n, req).0, RefuseAppend(f, req).0) && RefuseAppend(n, req).1 == RefuseAppend(f, req).1
  {
    SameEnds(n, f);
  }

  /** From its base up a compacted log accepts what the complete one accepts; below, from 1 up, nothing. */
  lemma AcceptsAlike(n: Node, f: Node, index: nat, term: nat)
    requires Shadows(n, f) && Numbered(0, f.log.entries) && index >= 1
    ensures index >= n.log.baseIndex ==> n.log.HasEntry(index, term) == f.log.HasEntry(index, term)
    ensures index < n.log.baseIndex ==> !n.log.HasEntry(index, term)
  {
    if index >= n.log.baseIndex {
      FollowerMerge.CompactionInvisible(f.log.entries, n.log.baseIndex, index, term);
    }
  }

  /** Merges from the base up commute with compaction. */
  lemma MergeShadows(n: Node, f: Node, prev: nat, term: nat, es: seq<Entry>)
    requires Shadows(n, f) && Numbered(0, f.log.entries) && Numbered(prev, es) && f.log.HasEntry(prev, term)
    requires prev >= 1 && prev >= n.log.baseIndex
    ensures !f.log.ChopFails(es) && !n.log.ChopFails(es) && n.log.baseIndex <= |f.log.Merge(es).entries|
    ensures f.log.Merge(es) == Full(f.log.Merge(es).entries) && f.log.Merge(es).entries != []
    ensures n.log.Merge(es) == Compacted(f.log.Merge(es).entries, n.log.baseIndex)
  {
    FollowerMerge.MergeUnderCompaction(f.log.entries, n.log.baseIndex, prev, es);
    var j := FollowerMerge.FirstDifferenceExists(f.log, es);
    FollowerMerge.MergeShape(f.log, prev, es, j);
  }

  function Merged(s: Node, log: LogView, leaderCommit: nat): Node {
    s.(log := log, role := Follower,
       commitIndex := if leaderCommit > s.commitIndex then Min(leaderCommit, log.LastIndex()) else s.commitIndex)
  }

  lemma MergedShadows(n: Node, f: Node, full: LogView, leaderCommit: nat)
    requires Shadows(n, f) && full == Full(full.entries) && n.log.baseIndex <= |full.entries| && full.entries != []
    ensures var log := Compacted(full.entries, n.log.baseIndex);
            && log.LastIndex() == full.LastIndex()
            && Shadows(Merged(n, log, leaderCommit), Merged(f, full, leaderCommit))
  {
  }

  lemma AcceptedIs(s: Node, req: AppendReq)
    requires req.term >= s.term && s.log.HasEntry(req.prevIndex, req.prevTerm) && !s.log.ChopFails(req.entries)
    ensures OnAppendRequest(s, req).0 == Merged(AdoptTerm(s, req.term), s.log.Merge(req.entries), req.leaderCommit)
    ensures OnAppendRequest(s, req).1 == AppendRes(req.term, true, s.log.Merge(req.entries).LastIndex())
  {
  }

  lemma RefusedIs(s: Node, req: AppendReq)
    requires req.term < s.term || !s.log.HasEntry(req.prevIndex, req.prevTerm)
    ensures OnAppendRequest(s, req) == RefuseAppend(s, req)
  {
  }

  lemma AdoptShadows(n: Node, f: Node, term: nat)
    requires Shadows(n, f)
    ensures Shadows(AdoptTerm(n, term), AdoptTerm(f, term))
  {
    SameEnds(n, f);
  }

  /** From the base up both servers merge alike. */
  lemma AppendShadows(n: Node, f: Node, req: AppendReq)
    requires Shadows(n, f) && Numbered(0, f.log.entries) && Numbered(req.prevIndex, req.entries)
    requires req.prevIndex >= 1 && req.prevIndex >= n.log.baseIndex
    ensures Shadows(OnAppendRequest(n, req).0, OnAppendRequest(f, req).0)
    ensures OnAppendRequest(n, req).1 == OnAppendRequest(f, req).1
  {
    AcceptsAlike(n, f, req.prevIndex, req.prevTerm);
    if req.term >= f.term && f.log.HasEntry(req.prevIndex, req.prevTerm) {
      MergeShadows(n, f, req.prevIndex, req.prevTerm, req.entries);
      AcceptedIs(n, req);
      AcceptedIs(f, req);
      AdoptShadows(n, f, req.term);
      MergedShadows(AdoptTerm(n, req.term), AdoptTerm(f, req.term), f.log.Merge(req.entries), req.leaderCommit);
    } else {
      RefusedIs(n, req);
      RefusedIs(f, req);
      RefusalShadows(n, f, req);
    }
  }

  /** Below its base a compacted server refuses. */
  lemma BelowBaseRefused(n: Node, f: Node, req: AppendReq)
    requires Shadows(n, f) && Numbered(0, f.log.entries) && 1 <= req.prevIndex < n.log.baseIndex
    ensures OnAppendRequest(n, req) == RefuseAppend(n, req)
  {
    AcceptsAlike(n, f, req.prevIndex, req.prevTerm);
  }

  // ----- Replies

  lemma PresentAlike(n: Node, f: Node, index: nat)
    requires Shadows(n, f) && index > f.commitIndex
    ensures n.log.Present(index) == f.log.Present(index)
    ensures n.log.Present(index) ==> n.log.entries[index - n.log.baseIndex - 1] == f.log.entries[index - 1]
  {
  }

  /** The scan of the match indices and the commit rule see only what is above the commit index. */
  lemma ScanShadows(n: Node, f: Node, commit: nat)
    requires Shadows(n, f)
    ensures CommitFaults(n) == CommitFaults(f) && CommitRule(n, commit) == CommitRule(f, commit)
  {
    SameEnds(n, f);
    forall x: Id ensures Stray(n, x) == Stray(f, x) {
      if MatchOf(n, x) > f.commitIndex { PresentAlike(n, f, MatchOf(n, x)); }
    }
    forall i: nat ensures Committable(n, i) == Committable(f, i) {
      if i > f.commitIndex { PresentAlike(n, f, i); }
      assert Holders(n, i) == Holders(f, i);
    }
  }

  lemma RecordShadows(n: Node, f: Node, p: Id, index: nat)
    requires Shadows(n, f) && 1 <= index <= f.log.LastIndex()
    ensures Shadows(RecordMatch(n, p, index), RecordMatch(f, p, index))
  {
    SameEnds(n, f);
  }

  lemma RefusedReplyShadows(n: Node, f: Node, p: Id, res: AppendRes)
    requires Shadows(n, f) && res.matchIndex >= 1
    ensures Shadows(OnAppendRefusal(n, p, res), OnAppendRefusal(f, p, res))
  {
    if n.role == Leader && res.term <= n.term {
      var next := Preservation.ResumedAt(n, p, res);
      var next' := Preservation.ResumedAt(f, p, res);
    }
  }

  lemma CommitShadows(n: Node, f: Node, commit: nat)
    requires Shadows(n, f) && f.commitIndex <= f.log.LastIndex() && CommitRule(f, commit)
    ensures Shadows(n.(commitIndex := commit), f.(commitIndex := commit))
  {
  }

  // ----- A cluster and its counterpart

  ghost predicate NodesShadow(k: map<Id, Node>, c: map<Id, Node>) {
    k.Keys == c.Keys && forall i | i in k :: Shadows(k[i], c[i])
  }

  ghost predicate Seen(replies: set<AppendReply>, r: Response) {
    exists log: seq<Entry> :: AppendReply(r.from, r.req, r.res, log) in replies
  }

  /** Requests follow an entry, and replies report one. */
  predicate PastStart(k: Wires) {
    && (forall m | m in k.appendReqs :: m.req.prevIndex >= 1)
    && forall r | r in k.appendReplies :: r.res.matchIndex >= 1
  }

  ghost predicate WiresAlike(k: Wires, net: Network) {
    && k.voteReqs == net.voteReqs && k.voteReplies == net.voteReplies && k.handled == net.handled
    && k.appendReqs == net.appendReqs && PastStart(k)
    && forall r | r in k.appendReplies :: Seen(net.appendReplies, r)
  }

  ghost predicate Mirrors(k: Machines, c: Cluster) {
    k.members == c.members && NodesShadow(k.nodes, c.nodes) && WiresAlike(k.net, c.net)
  }

  lemma UpdateShadows(k: map<Id, Node>, c: map<Id, Node>, n: Node, f: Node)
    requires NodesShadow(k, c) && Shadows(n, f)
    ensures NodesShadow(k[n.id := n], c[f.id := f])
  {
  }

  lemma ReplySeen(k: Wires, net: Network, r: AppendReply)
    requires WiresAlike(k, net) && r.res.matchIndex >= 1
    ensures WiresAlike(k.(appendReplies := k.appendReplies + {Response(r.from, r.req, r.res)}),
                       net.(appendReplies := net.appendReplies + {r}))
  {
    var replies := net.appendReplies + {r};
    forall x | x in k.appendReplies + {Response(r.from, r.req, r.res)} ensures Seen(replies, x) {
      if x in k.appendReplies {
        assert Seen(net.appendReplies, x);
        var log :| AppendReply(x.from, x.req, x.res, log) in net.appendReplies;
        assert AppendReply(x.from, x.req, x.res, log) in replies;
      } else {
        assert AppendReply(x.from, x.req, x.res, r.log) in replies;
      }
    }
  }

  /** What the invariant of complete runs says of a server and its counterpart. */
  ghost predicate Paired(k: Machines, c: Cluster, id: Id) {
    && id in k.nodes && id in c.nodes && k.nodes[id].id == c.nodes[id].id == id && Shadows(k.nodes[id], c.nodes[id])
    && Numbered(0, c.nodes[id].log.entries) && c.nodes[id].commitIndex <= |c.nodes[id].log.entries|
  }

  lemma Counterpart(k: Machines, c: Cluster, id: Id)
    requires NodesShadow(k.nodes, c.nodes) && SafetyInv(c) && id in k.nodes
    ensures Paired(k, c, id)
  {
    NodeFacts(c, id);
  }

  predicate HonestIfExact(s: Node, r: AppendReply) {
    s.role == Leader && r.res.success && ExactReplies.ExactReply(s, r.req, r.res) ==>
      Honest(s, r) && r.res.matchIndex <= s.log.LastIndex()
  }

  /** What the moves need of the invariant of complete runs. */
  ghost predicate Grounds(k: Machines, c: Cluster) {
    && (forall id | id in k.nodes :: Paired(k, c, id))
    && (forall m | m in c.net.appendReqs :: Numbered(m.req.prevIndex, m.req.entries))
    && (forall r | r in c.net.appendReplies && r.req.leader in c.nodes :: HonestIfExact(c.nodes[r.req.leader], r))
  }

  lemma GroundsHold(k: Machines, c: Cluster)
    requires Mirrors(k, c) && SafetyInv(c)
    ensures Grounds(k, c)
  {
    forall id | id in k.nodes ensures Paired(k, c, id) { Counterpart(k, c, id); }
    forall m | m in c.net.appendReqs ensures Numbered(m.req.prevIndex, m.req.entries) { SentNumbered(c, m); }
    forall r | r in c.net.appendReplies && r.req.leader in c.nodes
      ensures HonestIfExact(c.nodes[r.req.leader], r)
    {
      NodeFacts(c, r.req.leader);
      ReplyFacts(c, r);
      ExactIsHonest(c.members, c.hist, c.nodes[r.req.leader], r);
    }
  }

  lemma ExactIsHonest(members: set<Id>, h: History, s: Node, r: AppendReply)
    requires NodeOk(members, h.reigns, r.req.leader, s) && ReplyOk(members, h.reigns, r) && SuccessOk(h, r)
    ensures HonestIfExact(s, r)
  {
  }

  ghost predicate Simulated(c: Cluster, k': Machines, c': Cluster, step: Protocol.Step) {
    Mirrors(k', c') && (c' == c || HonestStep(c, c', step))
  }

  lemma UpdateSimulates(k: Machines, c: Cluster, n: Node, f: Node)
    requires Mirrors(k, c) && Shadows(n, f)
    ensures Mirrors(Update(k, n), Put(c, f))
  {
    UpdateShadows(k.nodes, c.nodes, n, f);
  }

  lemma OwnStepSimulated(k: Machines, c: Cluster, n: Node, f: Node, step: Protocol.Step)
    requires Mirrors(k, c) && Shadows(n, f) && NextStep(c, Put(c, f), step) && !step.HandleReply?
    ensures Simulated(c, Update(k, n), Put(c, f), step)
  {
    UpdateSimulates(k, c, n, f);
  }

  lemma YieldsSimulated(k: Machines, k': Machines, id: Id, c: Cluster)
    requires Mirrors(k, c) && Paired(k, c, id) && MoveTo(k, k', Yields(id))
    ensures Simulated(c, k', Put(c, c.nodes[id].(role := Follower)), Yield(id))
  {
    OwnStepSimulated(k, c, k.nodes[id].(role := Follower), c.nodes[id].(role := Follower), Yield(id));
  }

  lemma AloneShadows(n: Node, f: Node)
    requires Shadows(n, f)
    ensures Shadows(n.(commitIndex := n.log.LastIndex()), f.(commitIndex := f.log.LastIndex()))
  {
    SameEnds(n, f);
  }

  lemma CommitsAloneSimulated(k: Machines, k': Machines, id: Id, c: Cluster)
    requires Mirrors(k, c) && Paired(k, c, id) && MoveTo(k, k', CommitsAlone(id))
    ensures Simulated(c, k', Put(c, c.nodes[id].(commitIndex := c.nodes[id].log.LastIndex())), CommitAlone(id))
  {
    var n, f := k.nodes[id], c.nodes[id];
    AloneShadows(n, f);
    OwnStepSimulated(k, c, n.(commitIndex := n.log.LastIndex()), f.(commitIndex := f.log.LastIndex()), CommitAlone(id));
  }

  lemma RebootSimulated(k: Machines, c: Cluster, id: Id)
    requires Mirrors(k, c) && Paired(k, c, id)
    ensures var base := k.nodes[id].log.baseIndex;
            Simulated(c, Update(k, Rebooted(k.nodes[id], base)), Put(c, Rebooted(c.nodes[id], base)), Reboot(id, base))
  {
    var n, f := k.nodes[id], c.nodes[id];
    var base := n.log.baseIndex;
    RestartShadows(n, f);
    OwnStepSimulated(k, c, Rebooted(n, base), Rebooted(f, base), Reboot(id, base));
  }

  lemma ElectsSimulated(k: Machines, k': Machines, id: Id, c: Cluster)
    requires Mirrors(k, c) && Paired(k, c, id) && MoveTo(k, k', Elects(id))
    ensures Simulated(c, k', DoElect(c, id), Elect(id))
  {
    ElectionShadows(k.nodes[id], c.nodes[id]);
    UpdateShadows(k.nodes, c.nodes, StartElection(k.nodes[id]), StartElection(c.nodes[id]));
  }

  lemma VotesSimulated(k: Machines, k': Machines, m: VoteMsg, c: Cluster)
    requires Mirrors(k, c) && Paired(k, c, m.to) && MoveTo(k, k', Votes(m))
    ensures Simulated(c, k', DoDeliverVote(c, m), DeliverVote(m))
  {
    VoteShadows(k.nodes[m.to], c.nodes[m.to], m.req);
    UpdateShadows(k.nodes, c.nodes, OnVoteRequest(k.nodes[m.to], m.req).0, OnVoteRequest(c.nodes[m.to], m.req).0);
  }

  lemma CountsSimulated(k: Machines, k': Machines, r: VoteReply, c: Cluster)
    requires Mirrors(k, c) && Paired(k, c, r.req.candidate) && MoveTo(k, k', Move.Counts(r))
    ensures Simulated(c, k', DoCountVote(c, r), CountVote(r))
  {
    var id := r.req.candidate;
    CountShadows(k.nodes[id], c.nodes[id], r.res);
    UpdateShadows(k.nodes, c.nodes, OnVoteReply(k.nodes[id], r.res), OnVoteReply(c.nodes[id], r.res));
  }

  lemma ProposesSimulated(k: Machines, id: Id, data: Bytes, c: Cluster)
    requires Mirrors(k, c) && Paired(k, c, id)
    ensures Mirrors(Update(k, ClientAppend(k.nodes[id], data)), DoPropose(c, id, data))
  {
    ProposeShadows(k.nodes[id], c.nodes[id], data);
    UpdateShadows(k.nodes, c.nodes, ClientAppend(k.nodes[id], data), ClientAppend(c.nodes[id], data));
  }

  lemma ProposeStep(c: Cluster, id: Id, data: Bytes)
    requires id in c.nodes
    ensures HonestStep(c, DoPropose(c, id, data), Propose(id, data))
  {
  }

  lemma ProposeMoveSimulated(k: Machines, k': Machines, id: Id, data: Bytes, c: Cluster)
    requires Mirrors(k, c) && Paired(k, c, id) && MoveTo(k, k', Proposes(id, data))
    ensures Simulated(c, k', DoPropose(c, id, data), Propose(id, data))
  {
    ProposesSimulated(k, id, data, c);
    ProposeStep(c, id, data);
  }

  lemma SendStep(c: Cluster, id: Id, to: Id, req: AppendReq)
    requires id in c.nodes && c.nodes[id].role == Leader && to != id
    requires req.prevIndex + |req.entries| <= |c.nodes[id].log.entries| && Covered(req)
    requires req == StretchReq(c.nodes[id], req.prevIndex, |req.entries|)
    ensures var c' := c.(net := c.net.(appendReqs := c.net.appendReqs + {AppendMsg(to, req)}));
            HonestStep(c, c', SendStretch(id, to, req.prevIndex, |req.entries|))
  {
  }

  /** A covered request is one that the complete log may send. */
  lemma SendsSimulated(k: Machines, k': Machines, id: Id, to: Id, c: Cluster)
    returns (c': Cluster, step: Protocol.Step)
    requires Mirrors(k, c) && Paired(k, c, id) && MoveTo(k, k', Sends(id, to))
    ensures Simulated(c, k', c', step)
  {
    var n, f := k.nodes[id], c.nodes[id];
    var req := BuildAppendReq(n, n.nextIndex[to]);
    SentIsStretch(n, f, n.nextIndex[to]);
    SendStep(c, id, to, req);
    c' := c.(net := c.net.(appendReqs := c.net.appendReqs + {AppendMsg(to, req)}));
    step := SendStretch(id, to, req.prevIndex, |req.entries|);
  }

  lemma SentNumbered(c: Cluster, m: AppendMsg)
    requires SafetyInv(c) && m in c.net.appendReqs
    ensures Numbered(m.req.prevIndex, m.req.entries)
  {
    assert AppendReqOk(c.hist.reigns, m.to, m.req) && ReignOk(c.hist.reigns, m.req.term);
    StretchNumbered(c.hist.reigns[m.req.term].log, m.req);
  }

  lemma AnswerSimulates(k: Machines, c: Cluster, n: Node, f: Node, m: AppendMsg, res: AppendRes, h: History)
    requires Mirrors(k, c) && Shadows(n, f) && res.matchIndex >= 1
    ensures Mirrors(Update(k, n).(net := k.net.(appendReplies := k.net.appendReplies + {Response(m.to, m.req, res)})),
                      Put(c, f).(net := c.net.(appendReplies := c.net.appendReplies
                                                               + {AppendReply(m.to, m.req, res, f.log.entries)}),
                                 hist := h))
  {
    UpdateShadows(k.nodes, c.nodes, n, f);
    ReplySeen(k.net, c.net, AppendReply(m.to, m.req, res, f.log.entries));
  }

  lemma MergesSimulated(k: Machines, m: AppendMsg, c: Cluster)
    requires Mirrors(k, c) && Paired(k, c, m.to) && Numbered(m.req.prevIndex, m.req.entries)
    requires m.req.prevIndex >= 1 && m.req.prevIndex >= k.nodes[m.to].log.baseIndex
    ensures Mirrors(Receipt(k, m), DoDeliverAppend(c, m))
  {
    var n, f := k.nodes[m.to], c.nodes[m.to];
    AppendShadows(n, f, m.req);
    AnswerSimulates(k, c, OnAppendRequest(n, m.req).0, OnAppendRequest(f, m.req).0, m, OnAppendRequest(f, m.req).1,
                    DoDeliverAppend(c, m).hist);
  }

  lemma MergeStep(c: Cluster, m: AppendMsg)
    requires m in c.net.appendReqs && m.to in c.nodes
    ensures HonestStep(c, DoDeliverAppend(c, m), DeliverAppend(m))
  {
  }

  lemma MergeMoveSimulated(k: Machines, k': Machines, m: AppendMsg, c: Cluster)
    requires Mirrors(k, c) && Paired(k, c, m.to) && Numbered(m.req.prevIndex, m.req.entries)
    requires MoveTo(k, k', Receives(m)) && m.req.prevIndex >= 1 && m.req.prevIndex >= k.nodes[m.to].log.baseIndex
    ensures Simulated(c, k', DoDeliverAppend(c, m), DeliverAppend(m))
  {
    MergesSimulated(k, m, c);
    MergeStep(c, m);
  }

  lemma RefusesSimulated(k: Machines, m: AppendMsg, c: Cluster)
    requires Mirrors(k, c) && Paired(k, c, m.to) && 1 <= m.req.prevIndex < k.nodes[m.to].log.baseIndex
    ensures Mirrors(Receipt(k, m), DoRefuse(c, m))
  {
    var n, f := k.nodes[m.to], c.nodes[m.to];
    BelowBaseRefused(n, f, m.req);
    RefusalShadows(n, f, m.req);
    AnswerSimulates(k, c, RefuseAppend(n, m.req).0, RefuseAppend(f, m.req).0, m, RefuseAppend(f, m.req).1, c.hist);
  }

  lemma RefuseStep(c: Cluster, m: AppendMsg)
    requires m in c.net.appendReqs && m.to in c.nodes
    ensures HonestStep(c, DoRefuse(c, m), Refuse(m))
  {
  }

  lemma RefuseMoveSimulated(k: Machines, k': Machines, m: AppendMsg, c: Cluster)
    requires Mirrors(k, c) && Paired(k, c, m.to) && MoveTo(k, k', Receives(m))
    requires 1 <= m.req.prevIndex < k.nodes[m.to].log.baseIndex
    ensures Simulated(c, k', DoRefuse(c, m), Refuse(m))
  {
    RefusesSimulated(k, m, c);
    RefuseStep(c, m);
  }

  lemma ReceivesSimulated(k: Machines, k': Machines, m: AppendMsg, c: Cluster)
    returns (c': Cluster, step: Protocol.Step)
    requires Mirrors(k, c) && Paired(k, c, m.to) && MoveTo(k, k', Receives(m))
    requires Numbered(m.req.prevIndex, m.req.entries) && m.req.prevIndex >= 1
    ensures Simulated(c, k', c', step)
  {
    if m.req.prevIndex < k.nodes[m.to].log.baseIndex {
      RefuseMoveSimulated(k, k', m, c);
      c', step := DoRefuse(c, m), Refuse(m);
    } else {
      MergeMoveSimulated(k, k', m, c);
      c', step := DoDeliverAppend(c, m), DeliverAppend(m);
    }
  }

  lemma CompactsSimulated(k: Machines, k': Machines, id: Id, index: nat, c: Cluster)
    requires Mirrors(k, c) && Paired(k, c, id) && MoveTo(k, k', Compacts(id, index))
    ensures Mirrors(k', c)
  {
    CompactShadows(k.nodes[id], c.nodes[id], index);
    UpdateShadows(k.nodes, c.nodes, k.nodes[id].(log := k.nodes[id].log.Drop(index)), c.nodes[id]);
    assert c.nodes[id := c.nodes[id]] == c.nodes;
  }

  lemma OutcomeShadows(n: Node, f: Node, r: Response, log: seq<Entry>, commit: nat, n': Node)
    returns (f': Node, index: nat)
    requires Shadows(n, f) && f.commitIndex <= f.log.LastIndex() && ReplyHandled(n, r, commit, n')
    requires r.res.matchIndex >= 1 && (f.role == Leader && r.res.success ==> r.res.matchIndex <= f.log.LastIndex())
    ensures Shadows(n', f') && ReplyOutcome(f, AppendReply(r.from, r.req, r.res, log), index, f')
    ensures n'.id == n.id && f'.id == f.id
  {
    index := commit;
    if n.role == Leader && r.res.success {
      var n1, f1 := RecordMatch(n, r.from, r.res.matchIndex), RecordMatch(f, r.from, r.res.matchIndex);
      RecordShadows(n, f, r.from, r.res.matchIndex);
      ScanShadows(n1, f1, commit);
      if CommitFaults(n1) {
        index := n.log.baseIndex;
        RestartShadows(n, f);
        f' := Rebooted(f, index);
      } else {
        CommitShadows(n1, f1, commit);
        f' := f1.(commitIndex := commit);
      }
    } else {
      RefusedReplyShadows(n, f, r.from, r.res);
      f' := OnAppendRefusal(f, r.from, r.res);
    }
  }

  lemma ReplyFound(k: Wires, net: Network, r: Response) returns (full: AppendReply)
    requires WiresAlike(k, net) && r in k.appendReplies
    ensures full in net.appendReplies && full.from == r.from && full.req == r.req && full.res == r.res
  {
    assert Seen(net.appendReplies, r);
    var log: seq<Entry> :| AppendReply(r.from, r.req, r.res, log) in net.appendReplies;
    full := AppendReply(r.from, r.req, r.res, log);
  }

  lemma HandledStep(c: Cluster, r: AppendReply, commit: nat, f: Node)
    requires r in c.net.appendReplies && r.req.leader in c.nodes && Honest(c.nodes[r.req.leader], r)
    requires ReplyOutcome(c.nodes[r.req.leader], r, commit, f)
    ensures HonestStep(c, Put(c, f), HandleReply(r, commit))
  {
  }

  lemma OutcomeSimulated(k: Machines, r: Response, commit: nat, n': Node, c: Cluster)
    returns (c': Cluster, step: Protocol.Step)
    requires Mirrors(k, c) && Grounds(k, c) && r in k.net.appendReplies && r.req.leader in k.nodes
    requires ExactReplies.ExactReply(k.nodes[r.req.leader], r.req, r.res)
    requires ReplyHandled(k.nodes[r.req.leader], r, commit, n')
    ensures Simulated(c, Update(k, n'), c', step)
  {
    var full := ReplyFound(k.net, c.net, r);
    assert Paired(k, c, r.req.leader);
    var n, f := k.nodes[r.req.leader], c.nodes[r.req.leader];
    assert HonestIfExact(f, full);
    var f', index := OutcomeShadows(n, f, r, full.log, commit, n');
    UpdateSimulates(k, c, n', f');
    HandledStep(c, full, index, f');
    c', step := Put(c, f'), HandleReply(full, index);
  }

  lemma HandlesSimulated(k: Machines, k': Machines, r: Response, commit: nat, c: Cluster)
    returns (c': Cluster, step: Protocol.Step)
    requires Mirrors(k, c) && Grounds(k, c) && MoveTo(k, k', Handles(r, commit))
    ensures Simulated(c, k', c', step)
  {
    var n' :| ReplyHandled(k.nodes[r.req.leader], r, commit, n') && k' == Update(k, n');
    c', step := OutcomeSimulated(k, r, commit, n', c);
  }

  /** The server a move is about. */
  function Actor(move: Move): Id
    requires !move.Idles?
  {
    match move
    case Yields(id) => id
    case Elects(id) => id
    case Votes(m) => m.to
    case Counts(r) => r.req.candidate
    case Proposes(id, _) => id
    case Sends(id, _) => id
    case Receives(m) => m.to
    case Handles(r, _) => r.req.leader
    case CommitsAlone(id) => id
    case Restarts(id) => id
    case Compacts(id, _) => id
  }

  lemma ActorKnown(k: Machines, k': Machines, move: Move)
    requires MoveTo(k, k', move) && !move.Idles?
    ensures Actor(move) in k.nodes && (move.Receives? ==> move.request in k.net.appendReqs)
  {
  }

  lemma ActorPaired(k: Machines, c: Cluster, id: Id)
    requires Grounds(k, c) && id in k.nodes
    ensures Paired(k, c, id)
  {
  }

  lemma RequestGrounds(k: Machines, c: Cluster, m: AppendMsg)
    requires Mirrors(k, c) && Grounds(k, c) && m in k.net.appendReqs
    ensures m.req.prevIndex >= 1 && Numbered(m.req.prevIndex, m.req.entries)
  {
  }

  /** Every move of the compacted cluster is an honest step of the complete one, or leaves that as it was. */
  lemma MoveSimulated(k: Machines, k': Machines, move: Move, c: Cluster)
    returns (c': Cluster, step: Protocol.Step)
    requires Mirrors(k, c) && Grounds(k, c) && MoveTo(k, k', move)
    ensures Simulated(c, k', c', step)
  {
    if move.Idles? { return c, Yield(NoVote); }
    ActorKnown(k, k', move);
    ActorPaired(k, c, Actor(move));
    if move.Handles? {
      c', step := HandlesSimulated(k, k', move.reply, move.commit, c);
    } else if move.Receives? {
      RequestGrounds(k, c, move.request);
      c', step := ReceivesSimulated(k, k', move.request, c);
    } else {
      c', step := PairedMoveSimulated(k, k', move, c);
    }
  }

  lemma PairedMoveSimulated(k: Machines, k': Machines, move: Move, c: Cluster)
    returns (c': Cluster, step: Protocol.Step)
    requires !move.Idles? && Mirrors(k, c) && Paired(k, c, Actor(move)) && MoveTo(k, k', move)
    requires !move.Handles? && !move.Receives?
    ensures Simulated(c, k', c', step)
  {
    if move.Elects? || move.Votes? || move.Counts? {
      c', step := ElectionMoveSimulated(k, k', move, c);
    } else if move.Sends? {
      c', step := SendsSimulated(k, k', move.id, move.to, c);
    } else if move.Proposes? || move.Compacts? {
      c', step := LogMoveSimulated(k, k', move, c);
    } else {
      c', step := OwnMoveSimulated(k, k', move, c);
    }
  }

  lemma ElectionMoveSimulated(k: Machines, k': Machines, move: Move, c: Cluster)
    returns (c': Cluster, step: Protocol.Step)
    requires !move.Idles? && Mirrors(k, c) && Paired(k, c, Actor(move)) && MoveTo(k, k', move)
    requires move.Elects? || move.Votes? || move.Counts?
    ensures Simulated(c, k', c', step)
  {
    match move
    case Elects(id) =>
      ElectsSimulated(k, k', id, c);
      c', step := DoElect(c, id), Elect(id);
    case Votes(m) =>
      VotesSimulated(k, k', m, c);
      c', step := DoDeliverVote(c, m), DeliverVote(m);
    case Counts(r) =>
      CountsSimulated(k, k', r, c);
      c', step := DoCountVote(c, r), CountVote(r);
  }

  lemma LogMoveSimulated(k: Machines, k': Machines, move: Move, c: Cluster)
    returns (c': Cluster, step: Protocol.Step)
    requires !move.Idles? && Mirrors(k, c) && Paired(k, c, Actor(move)) && MoveTo(k, k', move)
    requires move.Proposes? || move.Compacts?
    ensures Simulated(c, k', c', step)
  {
    match move
    case Proposes(id, data) =>
      ProposeMoveSimulated(k, k', id, data, c);
      c', step := DoPropose(c, id, data), Propose(id, data);
    case Compacts(id, index) =>
      CompactsSimulated(k, k', id, index, c);
      c', step := c, Yield(id);
  }

  lemma OwnMoveSimulated(k: Machines, k': Machines, move: Move, c: Cluster)
    returns (c': Cluster, step: Protocol.Step)
    requires !move.Idles? && Mirrors(k, c) && Paired(k, c, Actor(move)) && MoveTo(k, k', move)
    requires move.Yields? || move.CommitsAlone? || move.Restarts?
    ensures Simulated(c, k', c', step)
  {
    var f, base := c.nodes[move.id], k.nodes[move.id].log.baseIndex;
    match move
    case Yields(id) =>
      YieldsSimulated(k, k', id, c);
      c', step := Put(c, f.(role := Follower)), Yield(id);
    case CommitsAlone(id) =>
      CommitsAloneSimulated(k, k', id, c);
      c', step := Put(c, f.(commitIndex := f.log.LastIndex())), CommitAlone(id);
    case Restarts(id) =>
      RebootSimulated(k, c, id);
      c', step := Put(c, Rebooted(f, base)), Reboot(id, base);
  }

  // ----- Runs

  lemma StartSimulated(k: Machines) returns (c: Cluster)
    requires Starts(k)
    ensures Init(c) && Mirrors(k, c)
  {
    var boot: Entry :| StartsWith(k, boot);
    var h := History(map[1 := Reign(NoVote, {}, [boot])], map[], map[], map i | i in k.members :: (i, 1) := 1);
    c := Cluster(k.members, k.nodes, Network({}, {}, {}, {}, {}), h);
    assert Bootstrapped(c, boot);
    forall i | i in k.nodes ensures Shadows(k.nodes[i], k.nodes[i]) {
      assert InitialNode(k.members, i, boot, k.nodes[i]);
      StartShadows(k.nodes[i], boot);
    }
  }

  lemma StartShadows(n: Node, boot: Entry)
    requires n.log == Full([boot]) && n.role == Follower
    ensures Shadows(n, n)
  {
  }

  /** `at[i]` is the moment of the complete run that the moment `i` of the compacted one matches. */
  ghost predicate MatchedBy(compacted: seq<Machines>, run: seq<Cluster>, at: seq<nat>) {
    && |at| == |compacted|
    && (forall i | 0 <= i < |at| :: at[i] < |run| && Mirrors(compacted[i], run[at[i]]))
    && forall i, j | 0 <= i <= j < |at| :: at[i] <= at[j]
  }

  lemma CompactedPrefix(compacted: seq<Machines>, n: nat)
    requires CompactedRun(compacted) && 0 < n <= |compacted|
    ensures CompactedRun(compacted[..n])
  {
    forall i: nat | i < n - 1 ensures MovesAt(compacted[..n], i) {
      assert MovesAt(compacted, i);
    }
  }

  /** Every run with compaction is matched by an honest run on complete logs. */
  lemma {:induction false} CompactedRunMatched(compacted: seq<Machines>) returns (run: seq<Cluster>, at: seq<nat>)
    requires CompactedRun(compacted)
    ensures HonestRun(run) && MatchedBy(compacted, run, at) && at[|at| - 1] == |run| - 1
    decreases |compacted|
  {
    var last := |compacted| - 1;
    if last == 0 {
      var c := StartSimulated(compacted[0]);
      run, at := [c], [0];
    } else {
      CompactedPrefix(compacted, last);
      run, at := CompactedRunMatched(compacted[..last]);
      run, at := MatchedOnward(compacted, run, at);
    }
  }

  lemma MatchedOnward(compacted: seq<Machines>, run0: seq<Cluster>, at0: seq<nat>)
    returns (run: seq<Cluster>, at: seq<nat>)
    requires CompactedRun(compacted) && |compacted| > 1 && HonestRun(run0)
    requires MatchedBy(compacted[..|compacted| - 1], run0, at0) && at0[|at0| - 1] == |run0| - 1
    ensures HonestRun(run) && MatchedBy(compacted, run, at) && at[|at| - 1] == |run| - 1
  {
    var last := |compacted| - 1;
    assert MovesAt(compacted, last - 1);
    assert compacted[last - 1] == compacted[..last][last - 1];
    run := RunOnward(compacted[last - 1], compacted[last], run0);
    at := at0 + [|run| - 1];
    MatchesOnward(compacted, run0, at0, run);
  }

  lemma RunOnward(k: Machines, k': Machines, run0: seq<Cluster>) returns (run: seq<Cluster>)
    requires HonestRun(run0) && Mirrors(k, run0[|run0| - 1]) && Moves(k, k')
    ensures HonestRun(run) && run0 <= run && Mirrors(k', run[|run| - 1])
  {
    var move :| MoveTo(k, k', move);
    RunGrounds(k, run0);
    var c', step := MoveSimulated(k, k', move, run0[|run0| - 1]);
    run := SimulatedRun(run0, k', c', step);
  }

  lemma RunGrounds(k: Machines, run: seq<Cluster>)
    requires HonestRun(run) && Mirrors(k, run[|run| - 1])
    ensures Grounds(k, run[|run| - 1])
  {
    RunIsSafe(run, |run| - 1);
    GroundsHold(k, run[|run| - 1]);
  }

  lemma SimulatedRun(run0: seq<Cluster>, k': Machines, c': Cluster, step: Protocol.Step) returns (run: seq<Cluster>)
    requires HonestRun(run0) && Simulated(run0[|run0| - 1], k', c', step)
    ensures HonestRun(run) && run0 <= run && Mirrors(k', run[|run| - 1])
  {
    if c' == run0[|run0| - 1] {
      run := run0;
    } else {
      ReplicatedStore.ExtendedRun(run0, c', step);
      run := run0 + [c'];
    }
  }

  lemma MatchesOnward(compacted: seq<Machines>, run0: seq<Cluster>, at0: seq<nat>, run: seq<Cluster>)
    requires compacted != [] && MatchedBy(compacted[..|compacted| - 1], run0, at0)
    requires run0 <= run && run != [] && Mirrors(compacted[|compacted| - 1], run[|run| - 1])
    ensures MatchedBy(compacted, run, at0 + [|run| - 1])
  {
    var at := at0 + [|run| - 1];
    forall i | 0 <= i < |at| ensures at[i] < |run| && Mirrors(compacted[i], run[at[i]]) {
      if i < |at0| {
        assert compacted[i] == compacted[..|compacted| - 1][i] && run[at0[i]] == run0[at0[i]];
      }
    }
  }

  // ----- Main result

  /** Both logs still have the index and agree there. */
  predicate SameAt(v: LogView, w: LogView, index: nat) {
    && v.Present(index) && w.Present(index)
    && v.entries[index - v.baseIndex - 1] == w.entries[index - w.baseIndex - 1]
  }

  lemma KeptAgree(n: Node, f: Node, n': Node, f': Node, index: nat)
    requires Shadows(n, f) && n.log.baseIndex < index <= |f.log.entries|
    requires Shadows(n', f') && n'.log.baseIndex < index <= |f'.log.entries|
    requires f.log.entries[index - 1] == f'.log.entries[index - 1]
    ensures SameAt(n.log, n'.log, index)
  {
  }

  lemma MatchedNode(run: seq<Machines>, full: seq<Cluster>, at: seq<nat>, i: nat, a: Id)
    requires MatchedBy(run, full, at) && i < |run| && a in run[i].nodes
    ensures at[i] < |full| && a in full[at[i]].nodes && Shadows(run[i].nodes[a], full[at[i]].nodes[a])
  {
    assert Mirrors(run[i], full[at[i]]);
  }

  /**
   State Machine Safety when logs are compacted: two servers that still keep an index they have committed, at
   whatever two moments, keep the same entry there.
   */
  lemma CompactedSafety(run: seq<Machines>, i: nat, j: nat, a: Id, b: Id, index: nat)
    requires CompactedRun(run) && i < |run| && j < |run| && a in run[i].nodes && b in run[j].nodes
    requires run[i].nodes[a].log.baseIndex < index <= run[i].nodes[a].commitIndex
    requires run[j].nodes[b].log.baseIndex < index <= run[j].nodes[b].commitIndex
    ensures SameAt(run[i].nodes[a].log, run[j].nodes[b].log, index)
  {
    var full, at := CompactedRunMatched(run);
    MatchedNode(run, full, at, i, a);
    MatchedNode(run, full, at, j, b);
    StateMachineSafety.StateMachineSafety(full, at[i], at[j], a, b, index);
    KeptAgree(run[i].nodes[a], full[at[i]].nodes[a], run[j].nodes[b], full[at[j]].nodes[b], index);
  }

  /** A leader that still keeps an index committed earlier, in a term not after its own, has the committed entry. */
  lemma CompactedLeaderCompleteness(run: seq<Machines>, i: nat, j: nat, a: Id, leader: Id, index: nat)
    requires CompactedRun(run) && i <= j < |run| && a in run[i].nodes && leader in run[j].nodes
    requires run[j].nodes[leader].role == Leader && run[i].nodes[a].term <= run[j].nodes[leader].term
    requires run[i].nodes[a].log.baseIndex < index <= run[i].nodes[a].commitIndex
    requires run[j].nodes[leader].log.baseIndex < index
    ensures SameAt(run[i].nodes[a].log, run[j].nodes[leader].log, index)
  {
    var full, at := CompactedRunMatched(run);
    MatchedNode(run, full, at, i, a);
    MatchedNode(run, full, at, j, leader);
    var x, y := full[at[i]].nodes[a], full[at[j]].nodes[leader];
    StateMachineSafety.LeaderCompleteness(full, at[i], at[j], a, leader);
    assert x.log.entries[..x.commitIndex][index - 1] == y.log.entries[index - 1];
    KeptAgree(run[i].nodes[a], x, run[j].nodes[leader], y, index);
  }

  /** One leader per term, whatever is compacted when. */
  lemma CompactedElectionSafety(run: seq<Machines>, i: nat, j: nat, a: Id, b: Id)
    requires CompactedRun(run) && i < |run| && j < |run| && a in run[i].nodes && b in run[j].nodes
    requires run[i].nodes[a].role == Leader && run[j].nodes[b].role == Leader
    requires run[i].nodes[a].term == run[j].nodes[b].term
    ensures a == b
  {
    var full, at := CompactedRunMatched(run);
    MatchedNode(run, full, at, i, a);
    MatchedNode(run, full, at, j, b);
    HonestRunIsRun(full);
    ElectionSafety.AtMostOneLeaderPerTerm(full, at[i], at[j], a, b, run[i].nodes[a].term);
  }

  /** Nor does a leader that makes the check ever look up an entry it does not have. */
  lemma CompactedNeverFaults(run: seq<Machines>, i: nat, r: Response)
    requires CompactedRun(run) && i < |run| && r in run[i].net.appendReplies && r.req.leader in run[i].nodes
    requires var s := run[i].nodes[r.req.leader];
             s.role == Leader && r.res.success && ExactReplies.ExactReply(s, r.req, r.res)
    ensures !CommitFaults(RecordMatch(run[i].nodes[r.req.leader], r.from, r.res.matchIndex))
  {
    var full, at := CompactedRunMatched(run);
    var id := r.req.leader;
    assert Mirrors(run[i], full[at[i]]);
    var answer := ReplyFound(run[i].net, full[at[i]].net, r);
    MatchedNode(run, full, at, i, id);
    NeverFaults(full, at[i], answer);
    RecordShadows(run[i].nodes[id], full[at[i]].nodes[id], r.from, r.res.matchIndex);
    ScanShadows(RecordMatch(run[i].nodes[id], r.from, r.res.matchIndex),
                RecordMatch(full[at[i]].nodes[id], r.from, r.res.matchIndex), 0);
  }

  lemma NeverFaults(full: seq<Cluster>, i: nat, r: AppendReply)
    requires HonestRun(full) && i < |full| && r in full[i].net.appendReplies && r.req.leader in full[i].nodes
    requires var s := full[i].nodes[r.req.leader];
             s.role == Leader && r.res.success && ExactReplies.ExactReply(s, r.req, r.res)
    ensures r.res.matchIndex <= full[i].nodes[r.req.leader].log.LastIndex()
    ensures !CommitFaults(RecordMatch(full[i].nodes[r.req.leader], r.from, r.res.matchIndex))
  {
    RunNodeFacts(full, i, r.req.leader);
    RunReplyFacts(full, i, r);
    ExactIsHonest(full[i].members, full[i].hist, full[i].nodes[r.req.leader], r);
    HonestNeverFaults(full, i, r);
  }

  lemma ShadowOrderly(n: Node, f: Node)
    requires Shadows(n, f) && f.log.entries != [] && f.commitIndex <= |f.log.entries|
    requires SortedTerms(f.log.entries) && TermOfLast(f.log.entries) <= f.term
    ensures CommitIndex.Orderly(n)
  {
    SameEnds(n, f);
    assert n.log.entries == f.log.entries[n.log.baseIndex..];
  }

  /** Whoever has the entry a request follows stays numbered. */
  lemma FollowsEntry(s: Node, req: AppendReq)
    requires req.prevIndex >= 1
    ensures StaysNumbered(s, req)
  {
  }

  /**
   What the handlers require holds at every moment: the commit scan's order of every server, and of every request
   that its entries are numbered and that whoever accepts it stays numbered.
   */
  lemma AlwaysReady(run: seq<Machines>, i: nat)
    requires CompactedRun(run) && i < |run|
    ensures forall a | a in run[i].nodes :: CommitIndex.Orderly(run[i].nodes[a])
    ensures forall m | m in run[i].net.appendReqs :: Numbered(m.req.prevIndex, m.req.entries)
    ensures forall m, a | m in run[i].net.appendReqs && a in run[i].nodes :: StaysNumbered(run[i].nodes[a], m.req)
  {
    var full, at := CompactedRunMatched(run);
    assert Mirrors(run[i], full[at[i]]);
    forall a | a in run[i].nodes ensures CommitIndex.Orderly(run[i].nodes[a]) {
      MatchedNode(run, full, at, i, a);
      RunNodeFacts(full, at[i], a);
      ShadowOrderly(run[i].nodes[a], full[at[i]].nodes[a]);
    }
    forall m | m in run[i].net.appendReqs ensures Numbered(m.req.prevIndex, m.req.entries) {
      ReplicatedStore.RequestNumbered(full, at[i], m);
    }
    forall m, a | m in run[i].net.appendReqs && a in run[i].nodes ensures StaysNumbered(run[i].nodes[a], m.req) {
      FollowsEntry(run[i].nodes[a], m.req);
    }
  }
}
