/**
 The replicated log as the protocol handlers see it: the entries above a compaction base,
 the look-ups of `entry_logger`, and the merge a follower performs on an append request.
 */
module RaftLog {

  type Byte = b: int | 0 <= b < 256
  type Bytes = seq<Byte>

  /** A log entry as it travels in an append request (message `LogEntry` of raft.proto). */
  datatype Entry = Entry(term: nat, index: nat, data: Bytes, config: bool)

  datatype Option<+T> = None | Some(value: T)

  /** The entry `log_entry_sentry` that occupies index 0 of every store. */
  const Sentry := Entry(0, 0, [], false)

  function Min(a: nat, b: nat): nat {
    if a <= b then a else b
  }

  function Max(a: nat, b: nat): nat {
    if a <= b then b else a
  }

  lemma SubsetSize<T>(a: set<T>, b: set<T>)
    requires a <= b
    ensures |a| <= |b|
  {
    assert b == a + (b - a);
  }

  lemma OnlyMember<T>(group: set<T>, x: T)
    ensures x in group && |group| <= 1 ==> group == {x}
  {
    if x in group && |group| <= 1 {
      assert |group - {x}| == 0;
    }
  }

  /** Two parts of a whole that together outnumber it have a member in common. */
  lemma Overlap<T>(a: set<T>, b: set<T>, all: set<T>)
    requires a <= all && b <= all && |a| + |b| > |all|
    ensures a * b != {}
  {
    if a * b == {} {
      assert |a + b| == |a| + |b|;
      SubsetSize(a + b, all);
    }
  }

  /** The term of the last entry of a complete log, 0 for the empty one. */
  function TermOfLast(log: seq<Entry>): nat {
    if log == [] then 0 else log[|log| - 1].term
  }

  /** Entries numbered consecutively after `base`. */
  predicate Numbered(base: nat, entries: seq<Entry>) {
    forall k | 0 <= k < |entries| :: entries[k].index == base + k + 1
  }

  predicate SortedTerms(log: seq<Entry>) {
    forall j, k | 0 <= j <= k < |log| :: log[j].term <= log[k].term
  }

  /** What the handlers can observe of a store whose indices up to `baseIndex` were compacted away. */
  datatype LogView = LogView(baseIndex: nat, baseTerm: nat, entries: seq<Entry>) {

    predicate Valid() {
      Numbered(baseIndex, entries)
    }

    function LastIndex(): nat {
      baseIndex + |entries|
    }

    function LastTerm(): nat {
      if entries == [] then baseTerm else entries[|entries| - 1].term
    }

    predicate Present(index: nat) {
      baseIndex < index <= LastIndex()
    }

    /** `operator[]`: the sentry at 0, the entry where present, null elsewhere. */
    function Lookup(index: nat): Option<Entry> {
      if index == 0 then Some(Sentry)
      else if Present(index) then Some(entries[index - baseIndex - 1])
      else None
    }

    predicate HasEntry(index: nat, term: nat) {
      match Lookup(index)
      case None => baseIndex == index && baseTerm == term
      case Some(e) => e.index == index && e.term == term
    }

    predicate Conflicted(index: nat, term: nat) {
      Lookup(index).Some? && Lookup(index).value.term != term
    }

    /** Entries from `index` on removed. */
    function Chop(index: nat): LogView
      requires Present(index)
    {
      this.(entries := entries[..index - baseIndex - 1])
    }

    /** Entries up to and including `index` folded into the base. */
    function Drop(index: nat): LogView
      requires Present(index)
    {
      LogView(index, entries[index - baseIndex - 1].term, entries[index - baseIndex..])
    }

    function Append(es: seq<Entry>): LogView {
      this.(entries := entries + es)
    }

    /** Where the first loop of the append handler stops: a conflict, a missing index, or the end. */
    function FirstNew(es: seq<Entry>, i: nat): (r: nat)
      requires i <= |es|
      ensures i <= r <= |es|
      ensures forall k | i <= k < r :: HasEntry(es[k].index, es[k].term) && !Conflicted(es[k].index, es[k].term)
      ensures r < |es| ==> Conflicted(es[r].index, es[r].term) || !HasEntry(es[r].index, es[r].term)
      decreases |es| - i
    {
      if i == |es| then i
      else if Conflicted(es[i].index, es[i].term) then i
      else if HasEntry(es[i].index, es[i].term) then FirstNew(es, i + 1)
      else i
    }

    /** The conflict found is at an index `chop` refuses (only the sentry's), so the handler reports an error. */
    predicate ChopFails(es: seq<Entry>) {
      var i := FirstNew(es, 0);
      i < |es| && Conflicted(es[i].index, es[i].term) && !Present(es[i].index)
    }

    /** The log after the append handler processed `es`: conflict-only chop, then the unmatched rest. */
    function Merge(es: seq<Entry>): LogView
      requires !ChopFails(es)
    {
      var i := FirstNew(es, 0);
      if i == |es| then this
      else if Conflicted(es[i].index, es[i].term) then Chop(es[i].index).Append(es[i..])
      else Append(es[i..])
    }
  }

  /** An uncompacted log. */
  function Full(log: seq<Entry>): LogView {
    LogView(0, 0, log)
  }

  /** The same log with everything up to `index` compacted. */
  function Compacted(log: seq<Entry>, index: nat): LogView
    requires index <= |log|
  {
    LogView(index, TermOfLast(log[..index]), log[index..])
  }
}
