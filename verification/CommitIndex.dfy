/**
 Why the scan of `adjust_commit_index` finds the largest committable index: it looks only between the smallest and
 the largest qualifying match index, from above.
 */
module CommitIndex {
  import opened RaftLog
  import opened Server

  function TermAt(v: LogView, index: nat): nat
    requires v.Present(index)
  {
    v.entries[index - v.baseIndex - 1].term
  }

  /** What the scan relies on: sorted terms up to the present one, and a commit index within a log that is not empty. */
  predicate Orderly(s: Node) {
    && s.log.baseIndex <= s.commitIndex <= s.log.LastIndex() && 1 <= s.log.LastIndex()
    && SortedTerms(s.log.entries) && (forall k | 0 <= k < |s.log.entries| :: s.log.entries[k].term <= s.term)
  }

  /** Besides, no peer's match index is missing from the log. */
  ghost predicate Scannable(s: Node) {
    Orderly(s) && !CommitFaults(s)
  }

  /** A peer whose match index the first loop takes into account. */
  predicate Qualifies(s: Node, n: Id) {
    && n in s.cluster && n != s.id && MatchOf(s, n) > s.commitIndex
    && s.log.Present(MatchOf(s, n)) && TermAt(s.log, MatchOf(s, n)) == s.term
  }

  /** `min` and `max` after the peers in `seen` were looked at. */
  ghost predicate Bounds(s: Node, seen: set<Id>, min: nat, max: nat) {
    && min <= s.log.LastIndex()
    && (forall n | n in seen && Qualifies(s, n) :: min <= MatchOf(s, n) <= max)
    && (if max == 0 then min == s.log.LastIndex() else exists n :: n in seen && Qualifies(s, n) && MatchOf(s, n) == min)
    && (max > 0 ==> exists n :: n in seen && Qualifies(s, n) && MatchOf(s, n) == max)
  }

  lemma BoundsFirst(s: Node)
    ensures Bounds(s, {}, s.log.LastIndex(), 0)
  {
  }

  lemma BoundsNext(s: Node, seen: set<Id>, min: nat, max: nat, n: Id)
    requires Orderly(s) && Bounds(s, seen, min, max) && n in s.cluster
    ensures !Qualifies(s, n) ==> Bounds(s, seen + {n}, min, max)
    ensures Qualifies(s, n) ==> Bounds(s, seen + {n}, Min(min, MatchOf(s, n)), Max(max, MatchOf(s, n)))
  {
    var m := MatchOf(s, n);
    if Qualifies(s, n) {
      var min', max' := Min(min, m), Max(max, m);
      if max > 0 {
        var a :| a in seen && Qualifies(s, a) && MatchOf(s, a) == min;
        var b :| b in seen && Qualifies(s, b) && MatchOf(s, b) == max;
        assert exists x :: x in seen + {n} && Qualifies(s, x) && MatchOf(s, x) == min' by {
          assert (if min <= m then a else n) in seen + {n};
        }
        assert exists x :: x in seen + {n} && Qualifies(s, x) && MatchOf(s, x) == max' by {
          assert (if max <= m then n else b) in seen + {n};
        }
      } else {
        assert n in seen + {n};
      }
    } else if max > 0 {
      var a :| a in seen && Qualifies(s, a) && MatchOf(s, a) == min;
      var b :| b in seen && Qualifies(s, b) && MatchOf(s, b) == max;
      assert a in seen + {n} && b in seen + {n};
    }
  }

  /** From the smallest qualifying match index on, every entry up to the log's end is of the present term. */
  lemma TermsFromMin(s: Node, min: nat, max: nat, index: nat)
    requires Scannable(s) && Bounds(s, s.cluster, min, max) && max > 0 && min <= index <= max
    ensures s.commitIndex < index && s.log.Present(index) && TermAt(s.log, index) == s.term
  {
    var a :| a in s.cluster && Qualifies(s, a) && MatchOf(s, a) == min;
    var b :| b in s.cluster && Qualifies(s, b) && MatchOf(s, b) == max;
    assert s.log.entries[min - s.log.baseIndex - 1].term <= s.log.entries[index - s.log.baseIndex - 1].term;
  }

  /** Besides the server itself some peer holds a committable index, and qualifies. */
  lemma HolderQualifies(s: Node, index: nat, p: Id)
    requires Scannable(s) && Committable(s, index) && p in Holders(s, index) && p != s.id
    ensures Qualifies(s, p) && MatchOf(s, p) >= index
  {
    var m := MatchOf(s, p);
    assert !Stray(s, p);
    assert s.log.entries[index - s.log.baseIndex - 1].term <= s.log.entries[m - s.log.baseIndex - 1].term;
  }

  lemma SomePeerHolds(s: Node, index: nat) returns (p: Id)
    requires !Alone(s) && Majority(s.cluster, Holders(s, index))
    ensures p in Holders(s, index) && p != s.id
  {
    var h := Holders(s, index);
    if h <= {s.id} {
      SubsetSize(h, {s.id});
      OnlyMember(s.cluster, s.id);
    }
    p :| p in h && p != s.id;
  }

  /** A committable index lies below `max`, and if it lies below `min` then `min` is held by a majority as well. */
  lemma CommittableInRange(s: Node, min: nat, max: nat, index: nat)
    requires Scannable(s) && !Alone(s) && Bounds(s, s.cluster, min, max) && Committable(s, index)
    ensures 0 < index <= max && min <= max
    ensures index < min ==> Majority(s.cluster, Holders(s, min))
  {
    var p := SomePeerHolds(s, index);
    HolderQualifies(s, index, p);
    if index < min {
      forall q | q in Holders(s, index) ensures q in Holders(s, min) {
        if q != s.id { HolderQualifies(s, index, q); }
      }
      SubsetSize(Holders(s, index), Holders(s, min));
    }
  }

  /** No index of this range is held by a majority. */
  ghost predicate NoneAbove(s: Node, from: nat, max: nat) {
    forall j | from <= j <= max :: !Majority(s.cluster, Holders(s, j))
  }

  /** Stopping at the first majority from above is the commit rule. */
  lemma FoundIsRule(s: Node, min: nat, max: nat, index: nat)
    requires Scannable(s) && !Alone(s) && Bounds(s, s.cluster, min, max) && max > 0 && min <= index <= max
    requires Majority(s.cluster, Holders(s, index))
    requires NoneAbove(s, index + 1, max)
    ensures CommitRule(s, index)
  {
    TermsFromMin(s, min, max, index);
    assert Committable(s, index);
    forall n: nat | Committable(s, n) ensures n <= index {
      CommittableInRange(s, min, max, n);
    }
  }

  /** Without a majority in the range nothing is committable. */
  lemma NoneIsRule(s: Node, min: nat, max: nat)
    requires Scannable(s) && !Alone(s) && Bounds(s, s.cluster, min, max)
    requires NoneAbove(s, min, max)
    ensures CommitRule(s, s.commitIndex)
  {
    forall n: nat ensures !Committable(s, n) {
      if Committable(s, n) { CommittableInRange(s, min, max, n); }
    }
  }

  /** The range starts above zero, so counting down through it cannot wrap. */
  lemma BoundsPositive(s: Node, seen: set<Id>, min: nat, max: nat)
    requires Scannable(s) && Bounds(s, seen, min, max)
    ensures min >= 1
  {
  }

  /** The two outcomes of the scan, and the rule. */
  lemma ScanIsRule(s: Node, min: nat, max: nat, found: bool, index: nat)
    requires Scannable(s) && Bounds(s, s.cluster, min, max)
    requires found ==> min <= index <= max && Majority(s.cluster, Holders(s, index))
    requires NoneAbove(s, if found then index + 1 else min, max)
    ensures CommitRule(s, if Alone(s) then s.log.LastIndex() else if found then index else s.commitIndex)
  {
    if !Alone(s) {
      if found {
        BoundsPositive(s, s.cluster, min, max);
        FoundIsRule(s, min, max, index);
      } else {
        NoneIsRule(s, min, max);
      }
    }
  }

  /** The rule leaves no choice, never lowers the commit index, and stays within the log. */
  lemma CommitRuleIsFunctional(s: Node, a: nat, b: nat)
    requires CommitRule(s, a) && CommitRule(s, b) && s.commitIndex <= s.log.LastIndex()
    ensures a == b && s.commitIndex <= a <= s.log.LastIndex()
  {
  }

  // ----- The inner loop: counting over the configuration

  /** The holders found when the peers in `rest` are still to be looked at. */
  function HoldersBut(s: Node, index: nat, rest: set<Id>): set<Id> {
    set n | n in s.cluster && (n == s.id || (n !in rest && MatchOf(s, n) >= index))
  }

  lemma HoldersFirst(s: Node, index: nat)
    ensures HoldersBut(s, index, s.cluster) == if s.id in s.cluster then {s.id} else {}
  {
  }

  lemma HoldersNext(s: Node, index: nat, rest: set<Id>, n: Id)
    requires rest <= s.cluster && n in rest
    ensures var found := HoldersBut(s, index, rest);
            var counts := n != s.id && MatchOf(s, n) >= index;
            && HoldersBut(s, index, rest - {n}) == (if counts then found + {n} else found)
            && (counts ==> n !in found)
  {
  }
}
