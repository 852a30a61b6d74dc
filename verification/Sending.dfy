/** What a leader puts into a request, over every position of `next` relative to its base and its log's end. */
module Sending {
  import opened RaftLog
  import opened Server
  import FollowerMerge

  /** A store that was never compacted has base term 0. */
  predicate Based(v: LogView) {
    v.Valid() && (v.baseIndex == 0 ==> v.baseTerm == 0)
  }

  /**
   Entries are sent exactly when `next` is in the log; then they are consecutive up to the log's end and the preceding
   pair is that of the entry just before them. A request without entries still names a pair of the leader's own log.
   */
  lemma SenderWellFormed(s: Node, next: nat)
    requires Based(s.log) && next >= 1
    ensures var req := BuildAppendReq(s, next);
            && Numbered(req.prevIndex, req.entries) && s.log.HasEntry(req.prevIndex, req.prevTerm)
            && (req.entries != [] <==> s.log.Present(next))
            && (req.entries != [] ==>
                 && req.prevIndex == next - 1 && req.prevIndex >= s.log.baseIndex
                 && req.prevIndex + |req.entries| == s.log.LastIndex()
                 && forall k | 0 <= k < |req.entries| :: s.log.Lookup(next + k) == Some(req.entries[k]))
  {
  }

  /** Above its base a compacted leader sends what it would have sent with its whole log. */
  lemma SenderCompactionInvisible(s: Node, log: seq<Entry>, base: nat, next: nat)
    requires Numbered(0, log) && base <= |log| && base < next
    requires next <= |log| + 1
    ensures BuildAppendReq(s.(log := Compacted(log, base)), next) == BuildAppendReq(s.(log := Full(log)), next)
  {
    var v := Compacted(log, base);
    if next <= |log| {
      assert v.entries[next - base - 1..] == log[next - 1..];
      assert SentEntries(v, next) == SentEntries(Full(log), next);
    }
    if next - 1 > base {
      assert v.Lookup(next - 1) == Full(log).Lookup(next - 1);
    } else if base > 0 {
      assert Full(log).Lookup(base) == Some(log[base - 1]) && log[..base][base - 1] == log[base - 1];
    }
    assert SentPrev(v, next) == SentPrev(Full(log), next);
  }

  /** A follower that accepts the request holds, from `next` on, everything the leader had. */
  lemma AcceptedMeansHeld(s: Node, next: nat, v: LogView)
    requires Based(s.log) && s.log.Present(next) && next >= 1 && v.Valid()
    requires v.baseIndex < next <= v.LastIndex() + 1
    ensures var req := BuildAppendReq(s, next);
            && !v.ChopFails(req.entries) && v.Merge(req.entries).LastIndex() >= s.log.LastIndex()
            && forall i | next <= i <= s.log.LastIndex() ::
                 && v.Merge(req.entries).Lookup(i).Some?
                 && v.Merge(req.entries).Lookup(i).value.term == s.log.Lookup(i).value.term
  {
    SenderWellFormed(s, next);
    var req := BuildAppendReq(s, next);
    FollowerMerge.MergeHolds(v, next - 1, req.entries);
    var m := v.Merge(req.entries);
    forall i | next <= i <= s.log.LastIndex()
      ensures m.Lookup(i).Some? && m.Lookup(i).value.term == s.log.Lookup(i).value.term
    {
      assert FollowerMerge.Agrees(m, req.entries[i - next]);
    }
  }

  /**
   The announced commit index stays within what the request accounts for exactly when `next` is above the base or
   nothing above the announced pair is committed.
   */
  lemma AnnouncedCommitCovered(s: Node, next: nat)
    requires Based(s.log) && s.commitIndex <= s.log.LastIndex() && 1 <= next <= s.log.LastIndex() + 1
    ensures var req := BuildAppendReq(s, next);
            req.leaderCommit <= req.prevIndex + |req.entries| <==>
            next > s.log.baseIndex || s.commitIndex <= if next == 1 then 0 else s.log.baseIndex
  {
  }

  /** Where it is not covered, a follower commits an entry of its own that the leader's log contradicts. */
  lemma CompactedHeartbeatOvercommits()
    ensures exists leader: Node, follower: Node ::
              && Based(leader.log) && leader.role == Leader && leader.commitIndex == 3 == leader.log.LastIndex()
              && follower.log.Valid() && follower.commitIndex == 2
              && var (after, res) := OnAppendRequest(follower, BuildAppendReq(leader, 2));
                 && res.success && after.commitIndex == 3
                 && after.log.Lookup(3) != leader.log.Lookup(3)
  {
    var e1, e2 := Entry(1, 1, [], true), Entry(1, 2, [], false);
    var lead := LogView(2, 1, [Entry(3, 3, [], false)]);
    var leader := Node(1, {1, 2, 3}, 3, 1, Leader, 2, lead, 3, map[], map[]);
    var follower := Node(2, {1, 2, 3}, 3, NoVote, Follower, 0, Full([e1, e2, Entry(2, 3, [], false)]), 2, map[], map[]);
    assert leader.log.Lookup(1) == None && SentEntries(leader.log, 2) == [];
    var req := BuildAppendReq(leader, 2);
    assert req == AppendReq(3, 1, 2, 1, [], 3);
    assert follower.log.HasEntry(2, 1);
    assert follower.log.FirstNew([], 0) == 0;
    var (after, res) := OnAppendRequest(follower, req);
    assert res.success && after.commitIndex == 3;
  }

  // ----- Retrying after a refusal

  /** The follower has refused in the leader's term, and the leader has the entry after the follower's last one. */
  predicate Refusing(s: Node, p: Id, f: Node) {
    && s.role == Leader && Based(s.log) && Based(f.log) && f.role == Follower && f.term == s.term
    && s.log.Present(f.log.LastIndex() + 1) && p in s.nextIndex && s.nextIndex[p] == f.log.LastIndex() + 1
  }

  /** After a success reply the peer is sent what follows its last index, and nothing else. */
  lemma SuccessMovesNext(s: Node, p: Id, f: Node)
    requires Based(s.log) && s.log.baseIndex < f.log.LastIndex() <= s.log.LastIndex()
    ensures var last := f.log.LastIndex();
            var s' := RecordMatch(s, p, last);
            && p in s'.nextIndex
            && var req := BuildAppendReq(s', s'.nextIndex[p]);
               req.prevIndex == last && req.entries == s.log.entries[last - s.log.baseIndex..]
    ensures forall q | q in s.nextIndex && q != p ::
              && q in RecordMatch(s, p, f.log.LastIndex()).nextIndex
              && RecordMatch(s, p, f.log.LastIndex()).nextIndex[q] == s.nextIndex[q]
  {
    if f.log.LastIndex() == s.log.LastIndex() { assert s.log.entries[|s.log.entries|..] == []; }
  }

  /** One round: the leader sends from `next`, the follower answers, the leader records it. */
  function Round(s: Node, p: Id, f: Node): (Node, Node)
    requires p in s.nextIndex
  {
    var (f', res) := OnAppendRequest(f, BuildAppendReq(s, s.nextIndex[p]));
    (if res.success then RecordMatch(s, p, res.matchIndex) else OnAppendRefusal(s, p, res), f')
  }

  function Rounds(s: Node, p: Id, f: Node, n: nat): (Node, Node)
    requires p in s.nextIndex
    decreases n
  {
    if n == 0 then (s, f)
    else
      var (s', f') := Round(s, p, f);
      if p in s'.nextIndex then Rounds(s', p, f', n - 1) else (s', f')
  }

  /** The leader's term at the follower's last index. */
  function TermBehind(s: Node, index: nat): nat {
    SentPrev(s.log, index + 1).1
  }

  /** Any refusal of a follower in the leader's term that reports a shorter log leads there. */
  lemma RefusalLeadsToRetry(s: Node, p: Id, f: Node)
    requires s.role == Leader && Based(s.log) && Based(f.log) && f.role == Follower && f.term == s.term
    requires s.log.Present(f.log.LastIndex() + 1)
    ensures Refusing(OnAppendRefusal(s, p, AppendRes(s.term, false, f.log.LastIndex())), p, f)
  {
  }

  /** One round brings the follower to the leader's end; the leader then knows, and has nothing more to send. */
  predicate Repaired(s: Node, p: Id, f: Node)
    requires p in s.nextIndex
  {
    var (s', f') := Round(s, p, f);
    && f'.log.LastIndex() == s.log.LastIndex() && MatchOf(s', p) == s.log.LastIndex()
    && p in s'.nextIndex && BuildAppendReq(s', s'.nextIndex[p]).entries == []
  }

  lemma OneRound(s: Node, p: Id, f: Node)
    requires Refusing(s, p, f)
    ensures if TermBehind(s, f.log.LastIndex()) == f.log.LastTerm()
            then Repaired(s, p, f)
            else Round(s, p, f) == (s, f)
  {
    var req := BuildAppendReq(s, s.nextIndex[p]);
    assert req.prevIndex == f.log.LastIndex() && req.entries != [];
    assert f.log.HasEntry(req.prevIndex, req.prevTerm) <==> req.prevTerm == f.log.LastTerm();
    if req.prevTerm == f.log.LastTerm() {
      assert f.log.FirstNew(req.entries, 0) == 0;
    } else {
      assert s.nextIndex[p := f.log.LastIndex() + 1] == s.nextIndex;
    }
  }

  /**
   Does retrying repair a follower whose log is shorter than the leader's? If the terms at the follower's last index
   agree, one round brings it to the leader's end; otherwise no number of rounds changes anything at either.
   */
  lemma {:induction false} RetryRepairsIff(s: Node, p: Id, f: Node, n: nat)
    requires Refusing(s, p, f) && n >= 1
    ensures TermBehind(s, f.log.LastIndex()) == f.log.LastTerm() ==> Repaired(s, p, f)
    ensures TermBehind(s, f.log.LastIndex()) != f.log.LastTerm() ==> Rounds(s, p, f, n) == (s, f)
    decreases n
  {
    OneRound(s, p, f);
    if n > 1 { RetryRepairsIff(s, p, f, n - 1); }
  }
}
