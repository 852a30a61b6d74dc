/**
 What a successful append request does to a follower's log, stated without the handler's two loops,
 and that compaction of the follower's log does not show in the outcome.
 */
module FollowerMerge {
  import opened RaftLog

  /** The log already holds, by term, the entry a request numbers `index`. */
  predicate Agrees(v: LogView, e: Entry) {
    v.Present(e.index) && v.entries[e.index - v.baseIndex - 1].term == e.term
  }

  /** The first `j` entries of the request are in the log and the next one, if any, is missing or differs. */
  predicate FirstDifference(v: LogView, es: seq<Entry>, j: nat) {
    && j <= |es|
    && (forall k | 0 <= k < j :: Agrees(v, es[k]))
    && (j < |es| ==> !Agrees(v, es[j]))
  }

  /** The log cut after the request's first `j` entries, followed by the others; the log itself if there are none. */
  function Spliced(v: LogView, prev: nat, es: seq<Entry>, j: nat): LogView
    requires v.baseIndex <= prev && j <= |es| && prev + j <= v.LastIndex()
  {
    if j == |es| then v else v.(entries := v.entries[..prev - v.baseIndex + j] + es[j..])
  }

  /**
   For entries numbered consecutively after a `prev` at or above the base: the old log is kept when every
   entry is already there, otherwise it is cut at the first difference and the rest of the request follows.
   */
  lemma MergeShape(v: LogView, prev: nat, es: seq<Entry>, j: nat)
    requires v.Valid() && Numbered(prev, es) && v.baseIndex <= prev <= v.LastIndex()
    requires FirstDifference(v, es, j)
    ensures !v.ChopFails(es) && prev + j <= v.LastIndex()
    ensures v.Merge(es) == Spliced(v, prev, es, j)
    ensures v.Merge(es).Valid()
  {
    var i := v.FirstNew(es, 0);
    forall k | 0 <= k < |es|
      ensures Agrees(v, es[k]) <==> v.HasEntry(es[k].index, es[k].term) && !v.Conflicted(es[k].index, es[k].term)
    {
      assert es[k].index == prev + k + 1;
    }
    assert i == j;
    if j > 0 { assert Agrees(v, es[j - 1]); }
    if j < |es| {
      assert es[j].index == prev + j + 1;
      if !v.Conflicted(es[j].index, es[j].term) {
        assert !v.Present(es[j].index);
        assert v.entries[..prev - v.baseIndex + j] == v.entries;
      }
    }
  }

  /** A first difference always exists, so `MergeShape` covers every request. */
  lemma {:induction false} FirstDifferenceExists(v: LogView, es: seq<Entry>) returns (j: nat)
    ensures FirstDifference(v, es, j)
  {
    j := 0;
    while j < |es| && Agrees(v, es[j])
      invariant j <= |es|
      invariant forall k | 0 <= k < j :: Agrees(v, es[k])
    {
      j := j + 1;
    }
  }

  /** After a merge the log holds every entry of the request. */
  lemma MergeHolds(v: LogView, prev: nat, es: seq<Entry>)
    requires v.Valid() && Numbered(prev, es) && v.baseIndex <= prev <= v.LastIndex()
    ensures !v.ChopFails(es) && v.Merge(es).Valid()
    ensures v.Merge(es).LastIndex() >= prev + |es|
    ensures forall k | 0 <= k < |es| :: Agrees(v.Merge(es), es[k])
  {
    var j := FirstDifferenceExists(v, es);
    MergeShape(v, prev, es, j);
    if j > 0 { assert Agrees(v, es[j - 1]); }
    forall k | 0 <= k < |es| ensures Agrees(v.Merge(es), es[k]) {
      if k < j { assert Agrees(v, es[k]); }
    }
  }

  /** Delivering the same request again, or one carrying a prefix of its entries, changes nothing. */
  lemma ReplayChangesNothing(v: LogView, prev: nat, es: seq<Entry>, n: nat)
    requires v.Valid() && Numbered(prev, es) && v.baseIndex <= prev <= v.LastIndex() && n <= |es|
    ensures !v.ChopFails(es) && !v.Merge(es).ChopFails(es[..n])
    ensures v.Merge(es).Merge(es[..n]) == v.Merge(es)
  {
    MergeHolds(v, prev, es);
    var m := v.Merge(es);
    forall k | 0 <= k < n ensures Agrees(m, es[..n][k]) {
      assert Agrees(m, es[k]);
    }
    MergeShape(m, prev, es[..n], n);
  }

  /** An accepted request after which the log is still numbered. */
  predicate Placed(v: LogView, prev: nat, es: seq<Entry>) {
    || es == [] || v.baseIndex <= prev <= v.LastIndex()
    || (prev == 0 && v.baseIndex == 1 && v.baseTerm == es[0].term)
  }

  /**
   When does an accepted request leave the log numbered? Below the base only index 0 is accepted (through
   the sentry); its entries are then appended after the log's end unless the base is exactly 1 and matches.
   */
  lemma MergeKeepsNumbering(v: LogView, prev: nat, term: nat, es: seq<Entry>)
    requires v.Valid() && Numbered(prev, es) && v.HasEntry(prev, term)
    ensures !v.ChopFails(es)
    ensures v.Merge(es).Valid() <==> Placed(v, prev, es)
  {
    if prev >= v.baseIndex {
      MergeHolds(v, prev, es);
    } else if es != [] {
      assert prev == 0 && es[0].index == 1;
      if v.baseIndex == 1 && v.baseTerm == es[0].term {
        SkipBaseEntry(v, es);
      } else {
        var m := v.Merge(es);
        assert m.entries[|v.entries|] == es[0];
      }
    }
  }

  /** With base 1, a matching first entry is skipped and the request acts as one that follows index 1. */
  lemma SkipBaseEntry(v: LogView, es: seq<Entry>)
    requires v.Valid() && Numbered(0, es) && es != [] && v.baseIndex == 1 && v.baseTerm == es[0].term
    ensures !v.ChopFails(es) && v.Merge(es).Valid()
  {
    var rest := es[1..];
    FirstNewTail(v, es, 1);
    MergeHolds(v, 1, rest);
    var i := v.FirstNew(es, 0);
    assert i < |es| ==> es[i..] == rest[i - 1..];
    assert i < |es| ==> es[i] == rest[i - 1];
  }

  lemma FirstNewTail(v: LogView, es: seq<Entry>, i: nat)
    requires 1 <= i <= |es|
    ensures v.FirstNew(es, i) == v.FirstNew(es[1..], i - 1) + 1
    decreases |es| - i
  {
    if i < |es| {
      assert es[1..][i - 1] == es[i];
      FirstNewTail(v, es, i + 1);
    }
  }

  /** At every non-zero index from the base up, a compacted log answers as the complete one. */
  lemma CompactionInvisible(log: seq<Entry>, base: nat, index: nat, term: nat)
    requires Numbered(0, log) && base <= |log| && base <= index && 0 < index
    ensures Compacted(log, base).Valid()
    ensures Compacted(log, base).HasEntry(index, term) == Full(log).HasEntry(index, term)
    ensures index > base ==> Compacted(log, base).Lookup(index) == Full(log).Lookup(index)
    ensures Compacted(log, base).LastIndex() == Full(log).LastIndex()
    ensures Compacted(log, base).LastTerm() == Full(log).LastTerm()
  {
  }

  /** Merging commutes with compaction for a request that starts at or above the base. */
  lemma MergeUnderCompaction(log: seq<Entry>, base: nat, prev: nat, es: seq<Entry>)
    requires Numbered(0, log) && base <= prev <= |log| && Numbered(prev, es)
    ensures !Full(log).ChopFails(es) && !Compacted(log, base).ChopFails(es)
    ensures base <= |Full(log).Merge(es).entries|
    ensures Compacted(log, base).Merge(es) == Compacted(Full(log).Merge(es).entries, base)
  {
    var full, view := Full(log), Compacted(log, base);
    var j := FirstDifferenceExists(full, es);
    CompactedDifference(log, base, prev, es, j);
    MergeShape(full, prev, es, j);
    MergeShape(view, prev, es, j);
    SplicedUnderCompaction(log, base, prev, es, j);
  }

  lemma CompactedDifference(log: seq<Entry>, base: nat, prev: nat, es: seq<Entry>, j: nat)
    requires Numbered(0, log) && base <= prev <= |log| && Numbered(prev, es)
    requires FirstDifference(Full(log), es, j)
    ensures FirstDifference(Compacted(log, base), es, j)
  {
    forall k | 0 <= k < |es| ensures Agrees(Full(log), es[k]) <==> Agrees(Compacted(log, base), es[k]) {
      assert es[k].index == prev + k + 1;
    }
  }

  lemma SplicedUnderCompaction(log: seq<Entry>, base: nat, prev: nat, es: seq<Entry>, j: nat)
    requires base <= prev && j <= |es| && prev + j <= |log|
    ensures Spliced(Compacted(log, base), prev, es, j) == Compacted(Spliced(Full(log), prev, es, j).entries, base)
  {
    if j < |es| {
      var spliced := log[..prev + j] + es[j..];
      assert spliced[..base] == log[..base];
      assert spliced[base..] == log[base..][..prev + j - base] + es[j..];
    }
  }

  /** The log before the unmatched part `e, ...` of a request is appended. */
  function Cut(v: LogView, e: Entry): LogView {
    if v.Conflicted(e.index, e.term) && v.Present(e.index) then v.Chop(e.index) else v
  }

  /** After the known entries were skipped and a conflict was chopped, the log ends just before the rest. */
  lemma CutEndsBefore(v: LogView, prev: nat, es: seq<Entry>)
    requires v.Valid() && Numbered(prev, es) && v.baseIndex <= prev <= v.LastIndex()
    ensures !v.ChopFails(es)
    ensures var i := v.FirstNew(es, 0);
            && (i < |es| ==> Cut(v, es[i]).LastIndex() == prev + i && v.Merge(es) == Cut(v, es[i]).Append(es[i..]))
            && (i == |es| ==> v.Merge(es) == v)
  {
    var i := v.FirstNew(es, 0);
    var j := FirstDifferenceExists(v, es);
    MergeShape(v, prev, es, j);
    if i > 0 { assert v.HasEntry(es[i - 1].index, es[i - 1].term) && es[i - 1].index == prev + i; }
    if i < |es| { assert es[i].index == prev + i + 1; }
  }

  /** The same for every request that leaves the log numbered. */
  /** An accepted request that misnumbers the log starts at index 0 below the base and is appended whole. */
  lemma MisplacedShape(v: LogView, es: seq<Entry>)
    requires v.Valid() && Numbered(0, es) && !Placed(v, 0, es)
    ensures v.FirstNew(es, 0) == 0 && es != [] && Cut(v, es[0]) == v && !v.ChopFails(es) && v.Merge(es) == v.Append(es)
  {
  }

  lemma CutEndsBeforePlaced(v: LogView, prev: nat, es: seq<Entry>)
    requires v.Valid() && Numbered(prev, es) && es != [] && Placed(v, prev, es)
    ensures !v.ChopFails(es)
    ensures var i := v.FirstNew(es, 0);
            && (i < |es| ==> Cut(v, es[i]).LastIndex() == prev + i && v.Merge(es) == Cut(v, es[i]).Append(es[i..]))
            && (i == |es| ==> v.Merge(es) == v)
  {
    if v.baseIndex <= prev {
      CutEndsBefore(v, prev, es);
    } else {
      var rest := es[1..];
      FirstNewTail(v, es, 1);
      assert v.HasEntry(es[0].index, es[0].term) && !v.Conflicted(es[0].index, es[0].term);
      CutEndsBefore(v, 1, rest);
      var i := v.FirstNew(es, 0);
      assert i < |es| ==> es[i] == rest[i - 1] && es[i..] == rest[i - 1..];
    }
  }
}
