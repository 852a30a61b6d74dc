/**
 One server as an object: the handlers of `raft_rpc.hpp` and `raft_impl.hpp` over the persistent log, each proved to
 act on the server's state as module `Server` says.
 */
module RaftNode {
  import opened RaftLog
  import opened Codec
  import opened Store
  import opened Server
  import CommitIndex
  import FollowerMerge
  import Log = EntryLogger

  /** Entries that `make_entry` turns into records of the log's format. */
  predicate Storable(es: seq<Entry>) {
    forall k | 0 <= k < |es| ::
      es[k].index < WordLimit && es[k].term < WordLimit && HeaderSize + WordSize + |es[k].data| <= LargestSize
  }

  predicate Deliverable(req: AppendReq) {
    Numbered(req.prevIndex, req.entries) && Storable(req.entries)
  }

  /** The request is accepted and misnumbers the log. */
  predicate Misplaces(s: Node, req: AppendReq) {
    && req.term >= s.term && s.log.HasEntry(req.prevIndex, req.prevTerm)
    && !FollowerMerge.Placed(s.log, req.prevIndex, req.entries)
  }

  /** What is left then: the entries at the end of the log, and the index of the last one reported. */
  function Misplaced(s: Node, req: AppendReq): (Node, AppendRes)
    requires Misplaces(s, req)
  {
    var s1, last := AdoptTerm(s, req.term).(role := Follower), req.entries[|req.entries| - 1].index;
    (s1.(log := s.log.Append(req.entries),
         commitIndex := if req.leaderCommit > s.commitIndex then Min(req.leaderCommit, last) else s.commitIndex),
     AppendRes(s1.term, true, last))
  }

  /** What an accepted request leaves when the log file cannot grow: the unmatched part is chopped, not replaced. */
  function Failed(s: Node, req: AppendReq): Node {
    var s1 := AdoptTerm(s, req.term).(role := Follower);
    var i := s.log.FirstNew(req.entries, 0);
    if i == |req.entries| then s1 else s1.(log := FollowerMerge.Cut(s.log, req.entries[i]))
  }

  /** An accepted request with `last` the index of the log's last entry afterwards. */
  function Concluded(s: Node, req: AppendReq, last: nat): (Node, AppendRes)
    requires !s.log.ChopFails(req.entries)
  {
    (s.(log := s.log.Merge(req.entries),
        commitIndex := if req.leaderCommit > s.commitIndex then Min(req.leaderCommit, last) else s.commitIndex),
     AppendRes(s.term, true, last))
  }

  lemma RestStorable(prev: nat, es: seq<Entry>, i: nat)
    requires Numbered(prev, es) && Storable(es) && i <= |es|
    ensures Storable(es[i..]) && Numbered(prev + i, es[i..])
    ensures forall k | 0 <= k < |es| - i :: es[i..][k].index != 0
  {
  }

  /** The index stored in the last record of a log, the base's when there is none. */
  function LastIn(v: LogView): nat {
    if v.entries == [] then v.baseIndex else v.entries[|v.entries| - 1].index
  }

  /** What the handler makes of a request; `failed` when the log file cannot grow. */
  predicate HandledAs(s: Node, req: AppendReq, res: AppendRes, failed: bool, s': Node) {
    if failed then s' == Failed(s, req) && res == AppendRes(s'.term, false, s'.log.LastIndex())
    else (s', res) == if Misplaces(s, req) then Misplaced(s, req) else OnAppendRequest(s, req)
  }

  /** A failed request leaves a follower of its term, with the committed index as it was and a prefix of its log. */
  lemma FailedFollows(s: Node, req: AppendReq)
    requires req.term >= s.term
    ensures var s' := Failed(s, req);
            && s'.role == Follower && s'.term == req.term && s'.commitIndex == s.commitIndex
            && s'.log.baseIndex == s.log.baseIndex && s'.log.entries <= s.log.entries
            && s'.votedFor == (if req.term > s.term then NoVote else s.votedFor)
  {
  }

  lemma UnknownHandled(s: Node, req: AppendReq)
    requires req.term == s.term && s.role == Follower && !s.log.HasEntry(req.prevIndex, req.prevTerm)
    ensures HandledAs(s, req, AppendRes(s.term, false, s.log.LastIndex()), false, s)
  {
  }

  lemma CutHandled(s: Node, req: AppendReq, i: nat)
    requires req.term == s.term && s.role == Follower && i == s.log.FirstNew(req.entries, 0) < |req.entries|
    ensures var s' := s.(log := FollowerMerge.Cut(s.log, req.entries[i]));
            HandledAs(s, req, AppendRes(s.term, false, s'.log.LastIndex()), true, s')
  {
  }

  lemma ConcludedHandled(s: Node, req: AppendReq)
    requires s.log.Valid() && req.term == s.term && s.role == Follower && Numbered(req.prevIndex, req.entries)
    requires s.log.HasEntry(req.prevIndex, req.prevTerm) && !s.log.ChopFails(req.entries)
    ensures var (s', res) := Concluded(s, req, LastIn(s.log.Merge(req.entries))); HandledAs(s, req, res, false, s')
  {
    FollowerMerge.MergeKeepsNumbering(s.log, req.prevIndex, req.prevTerm, req.entries);
    if Misplaces(s, req) { FollowerMerge.MisplacedShape(s.log, req.entries); }
  }

  class RaftNode {
    const id: Id
    const log: Log.EntryLogger
    var cluster: set<Id>
    var term: nat
    var votedFor: Id
    var role: Role
    var votes: nat
    var commitIndex: nat
    var lastApplied: nat
    var nextIndex: map<Id, nat>
    var matchIndex: map<Id, nat>

    ghost predicate Valid()
      reads this, log, log.file
    {
      log.Valid()
    }

    /** The server's state as the protocol sees it. */
    ghost function State(): Node
      reads this, log, log.file
    {
      Node(id, cluster, term, votedFor, role, votes, log.Abs().View(), commitIndex, nextIndex, matchIndex)
    }

    constructor (id: Id, log: Log.EntryLogger, cluster: set<Id>, term: nat, votedFor: Id)
      requires log.Valid()
      ensures Valid() && this.id == id && this.log == log && this.cluster == cluster
      ensures this.term == term && this.votedFor == votedFor && role == Follower
      ensures commitIndex == lastApplied == log.states.lastIndex
    {
      this.id, this.log, this.cluster, this.term, this.votedFor := id, log, cluster, term, votedFor;
      role, votes := Follower, 0;
      commitIndex, lastApplied := log.states.lastIndex, log.states.lastIndex;
      nextIndex, matchIndex := map[], map[];
    }

    // ----- Elections

    method StepDown(newTerm: nat)
      requires Valid()
      modifies `role, `term
      ensures Valid() && State() == Server.StepDown(old(State()), newTerm)
    {
      role := Follower;
      term := newTerm;
    }

    method RequestVote(req: VoteReq) returns (res: VoteRes)
      requires Valid()
      modifies `role, `term, `votedFor
      ensures Valid() && (State(), res) == OnVoteRequest(old(State()), req)
    {
      if req.term > term {
        votedFor := NoVote;
        StepDown(req.term);
      }
      var lastTerm := log.LastEntryTerm();
      var lastIndex := log.LastEntryIndex();
      if req.term < term {
        res := VoteRes(term, false);
      } else if votedFor != NoVote && req.candidate != votedFor {
        res := VoteRes(term, false);
      } else if lastTerm > req.lastTerm || lastIndex > req.lastIndex {
        res := VoteRes(term, false);
      } else {
        if req.candidate != votedFor {
          term := req.term;
          votedFor := req.candidate;
        }
        res := VoteRes(req.term, true);
      }
    }

    method LeaderElection()
      requires Valid()
      modifies `role, `term, `votedFor, `votes, `nextIndex, `matchIndex
      ensures Valid() && State() == StartElection(old(State()))
    {
      role := Candidate;
      term := term + 1;
      votedFor := id;
      votes := if id in cluster then 1 else 0;
      if |cluster| == 1 && votes == 1 {
        StepUp();
      }
    }

    method StepUp()
      requires Valid()
      modifies `role, `nextIndex, `matchIndex
      ensures Valid() && State() == Server.StepUp(old(State()))
    {
      role := Leader;
      var last := log.LastEntryIndex();
      ghost var v := State().log;
      ResetPeers(last + 1);
      assert State().log == v;
    }

    /** The loop of `step_up` over the cluster. */
    method ResetPeers(next: nat)
      modifies `nextIndex, `matchIndex
      ensures matchIndex == (map n | n in cluster :: 0) && nextIndex == (map n | n in cluster :: next)
    {
      nextIndex, matchIndex := map[], map[];
      var rest := cluster;
      while rest != {}
        invariant rest <= cluster
        invariant matchIndex == map n | n in cluster - rest :: 0
        invariant nextIndex == map n | n in cluster - rest :: next
        decreases rest
      {
        var n :| n in rest;
        matchIndex := matchIndex[n := 0];
        nextIndex := nextIndex[n := next];
        rest := rest - {n};
      }
    }

    method HandleVoteReply(res: VoteRes)
      requires Valid()
      modifies `role, `term, `votes, `nextIndex, `matchIndex
      ensures Valid() && State() == OnVoteReply(old(State()), res)
    {
      if role != Candidate { return; }
      if res.granted {
        if res.term < term { return; }
        votes := votes + 1;
        if votes > |cluster| / 2 {
          StepUp();
        }
      } else if res.term > term {
        StepDown(res.term);
      }
    }

    // ----- The commit index

    /** `(*log)[match_index]->term`, none where the look-up is null. */
    method TermAtMatch(index: nat) returns (t: Option<nat>)
      requires Valid() && index > 0
      ensures t == if State().log.Present(index) then Some(CommitIndex.TermAt(State().log, index)) else None
    {
      var e := EntryAt(index);
      t := if e == None then None else Some(e.value.term);
    }

    /** `fault` is the look-up of a match index that is not in the log, where the process ends. */
    method AdjustCommitIndex() returns (fault: bool)
      requires Valid() && CommitIndex.Orderly(State())
      modifies `commitIndex
      ensures Valid() && State() == old(State()).(commitIndex := commitIndex)
      ensures fault <==> CommitFaults(old(State()))
      ensures fault ==> commitIndex == old(commitIndex)
      ensures !fault ==> CommitRule(old(State()), commitIndex)
      ensures old(commitIndex) <= commitIndex <= State().log.LastIndex()
    {
      ghost var s := State();
      var last := log.LastEntryIndex();
      var min, max;
      fault, min, max := MatchRange(last);
      if fault { return; }
      CommitHighest(min, max, last, s);
    }

    /** What follows the first loop. */
    method CommitHighest(min: nat, max: nat, last: nat, ghost s: Node)
      requires Valid() && s == State() && last == s.log.LastIndex()
      requires CommitIndex.Scannable(s) && CommitIndex.Bounds(s, s.cluster, min, max)
      modifies `commitIndex
      ensures CommitRule(s, commitIndex) && s.commitIndex <= commitIndex <= last
    {
      CommitIndex.BoundsPositive(s, cluster, min, max);
      var found, index := HighestMajority(min, max, s);
      ghost var commit := RuleCommit(s, min, max, found, index);
      SetCommit(if found then index else commitIndex, last);
      assert commitIndex == commit;
    }

    static lemma RuleCommit(s: Node, min: nat, max: nat, found: bool, index: nat) returns (commit: nat)
      requires CommitIndex.Scannable(s) && CommitIndex.Bounds(s, s.cluster, min, max)
      requires found ==> min <= index <= max && Majority(s.cluster, Holders(s, index))
      requires CommitIndex.NoneAbove(s, if found then index + 1 else min, max)
      ensures commit == if |s.cluster| == 1 && s.id in s.cluster then s.log.LastIndex()
                        else if found then index else s.commitIndex
      ensures CommitRule(s, commit) && s.commitIndex <= commit <= s.log.LastIndex()
    {
      OnlyMember(s.cluster, s.id);
      commit := if Alone(s) then s.log.LastIndex() else if found then index else s.commitIndex;
      CommitIndex.ScanIsRule(s, min, max, found, index);
      CommitIndex.CommitRuleIsFunctional(s, commit, commit);
    }

    /** A lone member commits its whole log. */
    method SetCommit(index: nat, last: nat)
      modifies `commitIndex
      ensures commitIndex == if |cluster| == 1 && id in cluster then last else index
    {
      commitIndex := index;
      if |cluster| == 1 && id in cluster {
        commitIndex := last;
      }
    }

    /** The second loop, from the largest match index down; the counter never passes below zero. */
    method HighestMajority(min: nat, max: nat, ghost s: Node) returns (found: bool, index: nat)
      requires Valid() && min >= 1 && s == State()
      ensures found ==> min <= index <= max && Majority(s.cluster, Holders(s, index))
      ensures CommitIndex.NoneAbove(s, if found then index + 1 else min, max)
    {
      var i := max;
      while i >= min
        invariant 0 <= i <= max && CommitIndex.NoneAbove(s, i + 1, max)
        decreases i
      {
        var count := CountHolders(i);
        if count > |cluster| / 2 {
          return true, i;
        }
        i := i - 1;
      }
      found, index := false, 0;
    }

    /** The first loop: the smallest and largest match index above the commit index with an entry of this term. */
    method MatchRange(last: nat) returns (fault: bool, min: nat, max: nat)
      requires Valid() && CommitIndex.Orderly(State()) && last == State().log.LastIndex()
      ensures fault <==> CommitFaults(State())
      ensures !fault ==> CommitIndex.Bounds(State(), cluster, min, max)
    {
      ghost var s := State();
      fault, min, max := false, last, 0;
      var rest := cluster;
      ghost var seen := {};
      CommitIndex.BoundsFirst(s);
      while rest != {}
        invariant seen + rest == cluster && !fault && CommitIndex.Bounds(s, seen, min, max)
        invariant forall n | n in seen :: !Stray(s, n)
        decreases rest
      {
        var n :| n in rest;
        var m := if n in matchIndex then matchIndex[n] else 0;
        CommitIndex.BoundsNext(s, seen, min, max, n);
        if n != id && m > commitIndex {
          var t := TermAtMatch(m);
          if t == None {
            assert Stray(s, n);
            fault := true;
            return;
          }
          if t.value == term {
            min := Min(min, m);
            max := Max(max, m);
          }
        }
        rest, seen := rest - {n}, seen + {n};
      }
    }

    /** The inner loop: the server itself if a member, and the peers that match. */
    method CountHolders(index: nat) returns (count: nat)
      requires Valid()
      ensures count == |Holders(State(), index)|
    {
      ghost var s := State();
      count := if id in cluster then 1 else 0;
      var rest := cluster;
      CommitIndex.HoldersFirst(s, index);
      while rest != {}
        invariant rest <= cluster && count == |CommitIndex.HoldersBut(s, index, rest)|
        decreases rest
      {
        var n :| n in rest;
        var m := if n in matchIndex then matchIndex[n] else 0;
        CommitIndex.HoldersNext(s, index, rest, n);
        if n != id && m >= index {
          count := count + 1;
        }
        rest := rest - {n};
      }
      assert CommitIndex.HoldersBut(s, index, {}) == Holders(s, index);
    }

    // ----- Making entries

    /** `make_entry`: the record for an entry, a configuration linked to the present chain head. */
    method MakeEntry(e: Entry) returns (r: Record)
      requires Valid()
      ensures r == log.Abs().Make(e.data, e.index, e.term, e.config)
    {
      r := Record(e.index, e.term, e.config, if e.config then NetWord(log.cfgIndex) + e.data else e.data);
    }

    method MakeEntries(es: seq<Entry>) returns (rs: seq<Record>)
      requires Valid()
      ensures rs == Made(log.Abs(), es)
    {
      rs := [];
      for k := 0 to |es|
        invariant rs == Made(log.Abs(), es[..k])
      {
        var r := MakeEntry(es[k]);
        assert es[..k + 1] == es[..k] + [es[k]];
        rs := rs + [r];
      }
      assert es[..|es|] == es;
    }

    /** `append` on the leader: the entry takes the next index and the present term. */
    method Append(data: Bytes) returns (index: Option<nat>)
      requires Valid()
      requires HeaderSize + WordSize + |data| <= LargestSize
      requires State().log.LastIndex() + 1 < WordLimit && term < WordLimit
      modifies log, log.file
      ensures Valid() && (log.file == old(log.file) || fresh(log.file))
      ensures State() == if index.Some? then ClientAppend(old(State()), data) else old(State())
      ensures index.Some? ==> role == Leader && index.value == State().log.LastIndex()
      ensures index == None ==> role != Leader || Log.Grown(log.file.Length) > log.limit
    {
      if role != Leader { return None; }
      var last := log.LastEntryIndex();
      var ok := StoreNext(Entry(term, last + 1, data, false));
      index := if ok then Some(last + 1) else None;
    }

    /** One entry at the next index. */
    method StoreNext(e: Entry) returns (ok: bool)
      requires Valid() && Storable([e]) && e.index == State().log.LastIndex() + 1
      modifies log, log.file
      ensures Valid() && (log.file == old(log.file) || fresh(log.file))
      ensures State() == if ok then old(State()).(log := old(State()).log.Append([e])) else old(State())
      ensures !ok ==> Log.Grown(log.file.Length) > log.limit
    {
      assert Numbered(State().log.LastIndex(), [e]);
      ok := StoreEntries([e]);
    }

    /** Entries are made into records and appended. */
    method StoreEntries(es: seq<Entry>) returns (ok: bool)
      requires Valid() && Storable(es) && forall k | 0 <= k < |es| :: es[k].index != 0
      modifies log, log.file
      ensures log.Standing() && (log.file == old(log.file) || fresh(log.file))
      ensures !ok || Numbered(old(State()).log.LastIndex(), es) ==> Valid()
      ensures State() == if ok then old(State()).(log := old(State()).log.Append(es)) else old(State())
      ensures !ok ==> Log.Grown(log.file.Length) > log.limit
    {
      var rs := MakeEntries(es);
      MadeFits(log.Abs(), es);
      if Numbered(State().log.LastIndex(), es) { MadeFollow(log.Abs(), es); }
      EntriesConcat(log.Abs().recs, rs);
      var rc := log.Append(rs);
      ok := rc == Log.Good;
    }

    /** `drop`: the entries up to `index` are folded into the base. */
    method Drop(index: nat) returns (rc: Log.Rc)
      requires Valid()
      modifies log, log.file
      ensures log.file == old(log.file)
      ensures rc == Log.OutOfRange <==> !old(State()).log.Present(index)
      ensures rc == Log.OutOfRange ==> Valid() && State() == old(State())
      ensures rc == Log.Good ==> Valid() && State() == old(State()).(log := old(State()).log.Drop(index))
      ensures rc == Log.MapError ==> log.Unsettled(old(log.Abs()), index) && Log.Grown(log.statSize) > log.limit
    {
      ghost var before := log.Abs();
      if before.Present(index) { DropKeepsSound(before, index); }
      rc := log.Drop(index);
    }

    // ----- append_entries: the follower's side

    /** The handler; `failed` is the internal error of a log file that cannot grow. */
    method AppendEntries(req: AppendReq) returns (res: AppendRes, failed: bool)
      requires Valid() && Deliverable(req)
      modifies `role, `term, `votedFor, `commitIndex, log, log.file
      ensures log.Standing() && (log.file == old(log.file) || fresh(log.file))
      ensures failed || !Misplaces(old(State()), req) ==> Valid()
      ensures HandledAs(old(State()), req, res, failed, State())
      ensures failed ==> Log.Grown(log.file.Length) > log.limit
    {
      failed := false;
      if req.term >= term { TermSettled(State(), req); }
      if req.term < term {
        res := SetResult(false);
        return;
      } else if req.term > term {
        votedFor := NoVote;
        StepDown(req.term);
      } else {
        role := Follower;
      }
      res, failed := Accept(req);
    }

    /** The part of the handler after the term is settled. */
    method Accept(req: AppendReq) returns (res: AppendRes, failed: bool)
      requires Valid() && Deliverable(req) && term == req.term && role == Follower
      modifies `commitIndex, log, log.file
      ensures log.Standing() && (log.file == old(log.file) || fresh(log.file))
      ensures failed || !Misplaces(old(State()), req) ==> Valid()
      ensures HandledAs(old(State()), req, res, failed, State())
      ensures failed ==> Log.Grown(log.file.Length) > log.limit
    {
      failed := false;
      var known := log.HasEntry(req.prevIndex, req.prevTerm);
      if known {
        res, failed := MergeKnown(req);
      } else {
        UnknownHandled(State(), req);
        res := SetResult(false);
      }
    }

    /** The part for a request whose preceding entry is known. */
    method MergeKnown(req: AppendReq) returns (res: AppendRes, failed: bool)
      requires Valid() && Deliverable(req) && term == req.term && role == Follower
      requires State().log.HasEntry(req.prevIndex, req.prevTerm)
      modifies `commitIndex, log, log.file
      ensures log.Standing() && (log.file == old(log.file) || fresh(log.file))
      ensures failed || !Misplaces(old(State()), req) ==> Valid()
      ensures HandledAs(old(State()), req, res, failed, State())
      ensures failed ==> Log.Grown(log.file.Length) > log.limit
    {
      ghost var s := State();
      failed := MergeEntries(req.prevIndex, req.entries);
      if failed {
        res := GiveUp(req, s);
      } else {
        res := Finish(req, s);
      }
    }

    /** The end of the handler when the entries do not fit the file. */
    method GiveUp(req: AppendReq, ghost s: Node) returns (res: AppendRes)
      requires Valid() && req.term == s.term && s.role == Follower && s.log.FirstNew(req.entries, 0) < |req.entries|
      requires State() == s.(log := FollowerMerge.Cut(s.log, req.entries[s.log.FirstNew(req.entries, 0)]))
      ensures HandledAs(s, req, res, true, State())
    {
      CutHandled(s, req, s.log.FirstNew(req.entries, 0));
      res := SetResult(false);
    }

    /** The end of the handler, once the entries are merged. */
    method Finish(req: AppendReq, ghost s: Node) returns (res: AppendRes)
      requires s.log.Valid() && req.term == s.term && s.role == Follower && Numbered(req.prevIndex, req.entries)
      requires s.log.HasEntry(req.prevIndex, req.prevTerm) && !s.log.ChopFails(req.entries)
      requires log.Standing() && State() == s.(log := s.log.Merge(req.entries))
      modifies `commitIndex
      ensures HandledAs(s, req, res, false, State())
    {
      ConcludedHandled(s, req);
      FollowCommit(req.leaderCommit);
      res := SetResult(true);
      assert (State(), res) == Concluded(s, req, LastIn(s.log.Merge(req.entries)));
    }

    method FollowCommit(leaderCommit: nat)
      requires log.Standing()
      modifies `commitIndex
      ensures commitIndex == if leaderCommit > old(commitIndex) then Min(leaderCommit, LastIn(State().log))
                             else old(commitIndex)
    {
      if leaderCommit > commitIndex {
        var last := log.LastEntryIndex();
        commitIndex := Min(leaderCommit, last);
      }
    }

    /** `set_result`: the reply reports the index of the last entry of the whole log. */
    method SetResult(success: bool) returns (res: AppendRes)
      requires log.Standing()
      ensures res == AppendRes(term, success, LastIn(State().log))
      ensures Valid() ==> res.matchIndex == State().log.LastIndex()
    {
      var last := log.LastEntryIndex();
      res := AppendRes(term, success, last);
    }

    method MergeEntries(ghost prev: nat, es: seq<Entry>) returns (failed: bool)
      requires Valid() && Numbered(prev, es) && Storable(es)
      requires FollowerMerge.Placed(State().log, prev, es) || prev == 0
      modifies log, log.file
      ensures log.Standing() && (log.file == old(log.file) || fresh(log.file))
      ensures failed || FollowerMerge.Placed(old(State()).log, prev, es) ==> Valid()
      ensures !old(State()).log.ChopFails(es)
      ensures State() == old(State()).(log := State().log)
      ensures !failed ==> State().log == old(State()).log.Merge(es)
      ensures failed ==>
                var i := old(State()).log.FirstNew(es, 0);
                && i < |es| && State().log == FollowerMerge.Cut(old(State()).log, es[i])
                && Log.Grown(log.file.Length) > log.limit
    {
      if es == [] { return false; }
      ghost var v := State().log;
      var i := SkipKnown(prev, es);
      var rest := es[i..];
      if rest == [] { return false; }
      RestStorable(prev, es, i);
      var ok := StoreEntries(rest);
      failed := !ok;
    }

    /** The first loop: known entries are skipped, a conflicting one is chopped with all that follows. */
    method SkipKnown(ghost prev: nat, es: seq<Entry>) returns (i: nat)
      requires Valid() && Numbered(prev, es) && es != []
      requires FollowerMerge.Placed(State().log, prev, es) || prev == 0
      modifies log, log.file
      ensures Valid() && log.file == old(log.file)
      ensures !old(State()).log.ChopFails(es) && i == old(State()).log.FirstNew(es, 0)
      ensures i < |es| ==>
                && State().log == FollowerMerge.Cut(old(State()).log, es[i])
                && old(State()).log.Merge(es) == State().log.Append(es[i..])
      ensures i == |es| ==> State().log == old(State()).log == old(State()).log.Merge(es)
      ensures i < |es| && FollowerMerge.Placed(old(State()).log, prev, es) ==> State().log.LastIndex() == prev + i
    {
      if FollowerMerge.Placed(State().log, prev, es) {
        FollowerMerge.CutEndsBeforePlaced(State().log, prev, es);
      } else {
        FollowerMerge.MisplacedShape(State().log, es);
      }
      i := KnownCount(es);
      if i < |es| {
        ChopConflict(es[i]);
      }
    }

    method KnownCount(es: seq<Entry>) returns (i: nat)
      requires Valid()
      ensures i == State().log.FirstNew(es, 0)
    {
      i := 0;
      while i < |es|
        invariant i <= |es| && State().log.FirstNew(es, i) == State().log.FirstNew(es, 0)
      {
        var conflict := log.EntryConflicted(es[i].index, es[i].term);
        if conflict { return; }
        var known := log.HasEntry(es[i].index, es[i].term);
        if !known { return; }
        i := i + 1;
      }
    }

    method ChopConflict(e: Entry)
      requires Valid()
      modifies log, log.file
      ensures Valid() && log.file == old(log.file)
      ensures State().log == FollowerMerge.Cut(old(State()).log, e)
    {
      var conflict := log.EntryConflicted(e.index, e.term);
      if conflict {
        if log.Abs().Present(e.index) { ChopKeepsSound(log.Abs(), e.index); }
        var rc := log.Chop(e.index);
      }
    }

    // ----- append_entries: the leader's side

    method EntryAt(index: nat) returns (e: Option<Entry>)
      requires Valid()
      ensures e == State().log.Lookup(index)
    {
      Log.FoundIsLookup(log.Abs(), index);
      var r := log.ReadRecord(index);
      e := if r == None then None else Some(EntryOf(r.value));
    }

    /** The request to one peer: the loop over the entries it lacks, then `fill`. */
    method BuildRequest(n: Id) returns (req: AppendReq)
      requires Valid() && n in nextIndex && nextIndex[n] >= 1
      ensures req == BuildAppendReq(State(), nextIndex[n])
    {
      var next := nextIndex[n];
      var entries := EntriesFrom(next);
      var prevIndex, prevTerm := PrevOf(next);
      req := AppendReq(term, id, prevIndex, prevTerm, entries, commitIndex);
    }

    method PrevOf(next: nat) returns (prevIndex: nat, prevTerm: nat)
      requires Valid() && next >= 1
      ensures (prevIndex, prevTerm) == SentPrev(State().log, next)
    {
      var prev := EntryAt(next - 1);
      match prev
      case Some(e) => prevIndex, prevTerm := e.index, e.term;
      case None => prevIndex, prevTerm := log.states.lastIndex, log.states.lastTerm;
    }

    method EntriesFrom(next: nat) returns (entries: seq<Entry>)
      requires Valid() && next >= 1
      ensures entries == SentEntries(State().log, next)
    {
      ghost var v := State().log;
      var last := log.LastEntryIndex();
      var i := next;
      entries := [];
      while i <= last
        invariant Collected(v, next, i, entries)
        decreases last as int + 1 - i as int
      {
        NextCollected(v, next, i, entries);
        var e := EntryAt(i);
        if e == None { return; }
        entries := entries + [e.value];
        i := i + 1;
      }
      NextCollected(v, next, i, entries);
    }

    /** A reply to a request of this server: `on_append_entries`. */
    method HandleAppendReply(n: Id, res: AppendRes) returns (fault: bool)
      requires Valid()
      requires role == Leader && res.success ==> CommitIndex.Orderly(RecordMatch(State(), n, res.matchIndex))
      modifies `role, `term, `commitIndex, `nextIndex, `matchIndex
      ensures Valid()
      ensures !(old(role) == Leader && res.success) ==> !fault && State() == OnAppendRefusal(old(State()), n, res)
      ensures old(role) == Leader && res.success ==> Recorded(old(State()), n, res.matchIndex, fault, State())
      ensures old(role) == Leader && res.success ==>
                State() == RecordMatch(old(State()), n, res.matchIndex).(commitIndex := commitIndex)
      ensures fault ==> commitIndex == old(commitIndex)
    {
      fault := false;
      if role != Leader { return; }
      if res.success {
        fault := HandleSuccess(n, res.matchIndex);
      } else {
        HandleRefusal(n, res);
      }
    }

    method HandleSuccess(n: Id, index: nat) returns (fault: bool)
      requires Valid() && CommitIndex.Orderly(RecordMatch(State(), n, index))
      modifies `commitIndex, `nextIndex, `matchIndex
      ensures Valid() && Recorded(old(State()), n, index, fault, State())
    {
      matchIndex := matchIndex[n := index];
      nextIndex := nextIndex[n := index + 1];
      fault := AdjustCommitIndex();
    }

    method HandleRefusal(n: Id, res: AppendRes)
      requires Valid() && role == Leader
      modifies `role, `term, `nextIndex
      ensures Valid() && State() == OnAppendRefusal(old(State()), n, res)
    {
      if res.term > term {
        StepDown(res.term);
      } else {
        var e := EntryAt(res.matchIndex + 1);
        var last := log.LastEntryIndex();
        nextIndex := nextIndex[n := if e == None then last + 1 else res.matchIndex + 1];
      }
    }
  }

  /** The state after a success reply: the index is recorded, then the commit rule applies unless the scan faults. */
  ghost predicate Recorded(s: Node, n: Id, index: nat, fault: bool, s': Node) {
    var s1 := RecordMatch(s, n, index);
    && (fault <==> CommitFaults(s1))
    && (if fault then s' == s1 else CommitRule(s1, s'.commitIndex) && s' == s1.(commitIndex := s'.commitIndex))
  }

  /** The handler's work after the term is settled is the handler's work. */
  lemma TermSettled(s: Node, req: AppendReq)
    requires req.term >= s.term
    ensures OnAppendRequest(AdoptTerm(s, req.term).(role := Follower), req) == OnAppendRequest(s, req)
  {
  }

  /** The entries collected so far, from `next` up to `i`. */
  predicate Collected(v: LogView, next: nat, i: nat, entries: seq<Entry>) {
    if v.Present(next) then
      next <= i <= v.LastIndex() + 1 && entries == v.entries[next - v.baseIndex - 1..i - v.baseIndex - 1]
    else i == next && entries == []
  }

  lemma NextCollected(v: LogView, next: nat, i: nat, entries: seq<Entry>)
    requires next >= 1 && Collected(v, next, i, entries)
    ensures v.Lookup(i).Some? ==> Collected(v, next, i + 1, entries + [v.Lookup(i).value])
    ensures i > v.LastIndex() || v.Lookup(i).None? ==> entries == SentEntries(v, next)
  {
  }

  function Made(c: Contents, es: seq<Entry>): (rs: seq<Record>)
    ensures |rs| == |es|
    ensures forall k | 0 <= k < |es| :: rs[k] == c.Make(es[k].data, es[k].index, es[k].term, es[k].config)
  {
    seq(|es|, k requires 0 <= k < |es| => c.Make(es[k].data, es[k].index, es[k].term, es[k].config))
  }

  /** Records made for entries that follow the log extend it by exactly those entries. */
  lemma MadeFollow(c: Contents, es: seq<Entry>)
    requires c.Sound() && Storable(es) && Numbered(c.states.lastIndex + |c.recs|, es)
    ensures Follows(c, Made(c, es)) && Entries(Made(c, es)) == es
  {
    MadeFits(c, es);
  }

  lemma MadeFits(c: Contents, es: seq<Entry>)
    requires c.Sound() && Storable(es)
    ensures AllFit(Made(c, es)) && Entries(Made(c, es)) == es
    ensures forall k | 0 <= k < |es| :: Made(c, es)[k].index == es[k].index
    ensures forall k | 0 <= k < |es| && Made(c, es)[k].cfg :: Back(Made(c, es)[k]) == c.cfgIndex
  {
    forall k | 0 <= k < |es|
      ensures var r := Made(c, es)[k]; Fits(r) && EntryOf(r) == es[k] && (r.cfg ==> Back(r) == c.cfgIndex)
    {
      MadeReadsBack(c, es[k].data, es[k].index, es[k].term, es[k].config);
    }
  }
}
