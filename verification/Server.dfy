/**
 The handlers of one server as functions from its state and a message to its new state and reply:
 `raft/raft_rpc.hpp` for the receiving side, `raft/raft_impl.hpp` for the sending side.
 */
module Server {
  import opened RaftLog

  /** Server ids are numbered; 0 stands for the empty string of an unused vote slot. */
  type Id = nat
  const NoVote: Id := 0

  datatype Role = Leader | Candidate | Follower

  datatype VoteReq = VoteReq(term: nat, candidate: Id, lastIndex: nat, lastTerm: nat)
  datatype VoteRes = VoteRes(term: nat, granted: bool)

  datatype AppendReq = AppendReq(term: nat, leader: Id, prevIndex: nat, prevTerm: nat,
                                 entries: seq<Entry>, leaderCommit: nat)
  datatype AppendRes = AppendRes(term: nat, success: bool, matchIndex: nat)

  datatype Node = Node(
    id: Id,
    cluster: set<Id>,
    term: nat,
    votedFor: Id,
    role: Role,
    votes: nat,
    log: LogView,
    commitIndex: nat,
    nextIndex: map<Id, nat>,
    matchIndex: map<Id, nat>)

  function StepDown(s: Node, term: nat): Node {
    s.(role := Follower, term := term)
  }

  /** Every peer's indices are reset when leadership is taken. */
  function StepUp(s: Node): Node {
    s.(role := Leader,
       matchIndex := map n | n in s.cluster :: 0,
       nextIndex := map n | n in s.cluster :: s.log.LastIndex() + 1)
  }

  /** The state a process has after reading its vote file and log file again. */
  function Rebooted(s: Node, commitIndex: nat): Node {
    StepUp(s).(role := Follower, votes := 0, commitIndex := commitIndex)
  }

  /** `leader_election`: a new term, a vote for itself; a lone member takes leadership at once. */
  function StartElection(s: Node): Node {
    var votes := if s.id in s.cluster then 1 else 0;
    var s1 := s.(role := Candidate, term := s.term + 1, votedFor := s.id, votes := votes);
    if |s.cluster| == 1 && votes == 1 then StepUp(s1) else s1
  }

  function BuildVoteReq(s: Node): VoteReq {
    VoteReq(s.term, s.id, s.log.LastIndex(), s.log.LastTerm())
  }

  /** A request with a higher term clears the vote slot before the term moves. */
  function AdoptTerm(s: Node, term: nat): Node {
    if term > s.term then StepDown(s.(votedFor := NoVote), term) else s
  }

  /** The voter's own log is no newer than the candidate's, by last term and by last index. */
  predicate AcceptsLog(log: LogView, lastIndex: nat, lastTerm: nat) {
    log.LastTerm() <= lastTerm && log.LastIndex() <= lastIndex
  }

  function OnVoteRequest(s: Node, req: VoteReq): (Node, VoteRes) {
    var s1 := AdoptTerm(s, req.term);
    if req.term < s1.term then (s1, VoteRes(s1.term, false))
    else if s1.votedFor != NoVote && s1.votedFor != req.candidate then (s1, VoteRes(s1.term, false))
    else if !AcceptsLog(s1.log, req.lastIndex, req.lastTerm) then (s1, VoteRes(s1.term, false))
    else (s1.(votedFor := req.candidate), VoteRes(req.term, true))
  }

  function OnVoteReply(s: Node, res: VoteRes): Node {
    if s.role != Candidate then s
    else if res.granted then
      if res.term < s.term then s
      else
        var s1 := s.(votes := s.votes + 1);
        if s1.votes > |s.cluster| / 2 then StepUp(s1) else s1
    else if res.term > s.term then StepDown(s, res.term)
    else s
  }

  function ClientAppend(s: Node, data: Bytes): Node {
    if s.role != Leader then s
    else s.(log := s.log.Append([Entry(s.term, s.log.LastIndex() + 1, data, false)]))
  }

  /** The entries a leader sends from `next` on; none when `next` itself is not in its log. */
  function SentEntries(log: LogView, next: nat): seq<Entry> {
    if log.Present(next) then log.entries[next - log.baseIndex - 1..] else []
  }

  /** The (index, term) a leader announces as preceding `next`; the compaction base when it is not in the log. */
  function SentPrev(log: LogView, next: nat): (nat, nat) {
    match if next == 0 then None else log.Lookup(next - 1)
    case Some(e) => (e.index, e.term)
    case None => (log.baseIndex, log.baseTerm)
  }

  function BuildAppendReq(s: Node, next: nat): AppendReq {
    var prev := SentPrev(s.log, next);
    AppendReq(s.term, s.id, prev.0, prev.1, SentEntries(s.log, next), s.commitIndex)
  }

  function OnAppendRequest(s: Node, req: AppendReq): (Node, AppendRes) {
    if req.term < s.term then (s, AppendRes(s.term, false, s.log.LastIndex()))
    else
      var s1 := AdoptTerm(s, req.term).(role := Follower);
      if !s1.log.HasEntry(req.prevIndex, req.prevTerm) then
        (s1, AppendRes(s1.term, false, s1.log.LastIndex()))
      else if s1.log.ChopFails(req.entries) then
        (s1, AppendRes(s1.term, false, s1.log.LastIndex()))
      else
        var log := s1.log.Merge(req.entries);
        var commitIndex := if req.leaderCommit > s1.commitIndex then Min(req.leaderCommit, log.LastIndex())
                           else s1.commitIndex;
        (s1.(log := log, commitIndex := commitIndex), AppendRes(s1.term, true, log.LastIndex()))
  }

  /** The answer to a request whose entries are not merged: its term is settled, the log stays. */
  function RefuseAppend(s: Node, req: AppendReq): (Node, AppendRes) {
    if req.term < s.term then (s, AppendRes(s.term, false, s.log.LastIndex()))
    else
      var s1 := AdoptTerm(s, req.term).(role := Follower);
      (s1, AppendRes(s1.term, false, s1.log.LastIndex()))
  }

  function MatchOf(s: Node, n: Id): nat {
    if n in s.matchIndex then s.matchIndex[n] else 0
  }

  /** Members known to hold the log up to `index`: the server itself if a member, and peers by match index. */
  function Holders(s: Node, index: nat): set<Id> {
    set n | n in s.cluster && (n == s.id || MatchOf(s, n) >= index)
  }

  predicate Majority(cluster: set<Id>, group: set<Id>) {
    |group| > |cluster| / 2
  }

  /** An index the leader may newly commit. */
  predicate Committable(s: Node, index: nat) {
    && s.commitIndex < index
    && s.log.Present(index)
    && s.log.entries[index - s.log.baseIndex - 1].term == s.term
    && Majority(s.cluster, Holders(s, index))
  }

  predicate Alone(s: Node) {
    s.cluster == {s.id}
  }

  /** What `adjust_commit_index` leaves: the largest committable index, or no change when there is none. */
  ghost predicate CommitRule(s: Node, commit: nat) {
    if Alone(s) then commit == s.log.LastIndex()
    else if exists n: nat :: Committable(s, n) then
      Committable(s, commit) && forall n: nat | Committable(s, n) :: n <= commit
    else commit == s.commitIndex
  }

  /** A peer's match index above the commit index that is not in the log: `adjust_commit_index` dereferences null. */
  predicate Stray(s: Node, n: Id) {
    n in s.cluster && n != s.id && MatchOf(s, n) > s.commitIndex && !s.log.Present(MatchOf(s, n))
  }

  ghost predicate CommitFaults(s: Node) {
    exists n :: Stray(s, n)
  }

  /** The state before `adjust_commit_index` runs on a success reply. */
  function RecordMatch(s: Node, n: Id, matchIndex: nat): Node {
    s.(matchIndex := s.matchIndex[n := matchIndex], nextIndex := s.nextIndex[n := matchIndex + 1])
  }

  /** A reply that is not a success: a newer term, or the follower's last index to retry from
      (beyond the leader's own log a data transfer starts and sending resumes at the log's end). */
  function OnAppendRefusal(s: Node, n: Id, res: AppendRes): Node {
    if s.role != Leader then s
    else if res.term > s.term then StepDown(s, res.term)
    else if s.log.Lookup(res.matchIndex + 1).None? then s.(nextIndex := s.nextIndex[n := s.log.LastIndex() + 1])
    else s.(nextIndex := s.nextIndex[n := res.matchIndex + 1])
  }
}
