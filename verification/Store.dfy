/**
 The contents of the persistent log as a value: the compaction states, the records above the base, and the head of
 the backward-linked chain of configuration records, with the effect of each operation of `entry_logger`.
 */
module Store {
  import opened RaftLog
  import opened Codec

  /** The states file: the compaction base and the configuration in force there. */
  datatype States = States(lastIndex: nat, lastTerm: nat, lastConfig: Bytes)

  /** Index of the previous configuration entry, stored in front of a configuration's text. */
  function Back(r: Record): nat {
    if |r.data| >= WordSize then DecodeNet(r.data, WordSize) else 0
  }

  /** `log_entry::str`. */
  function Text(r: Record): Bytes {
    if r.cfg && |r.data| >= WordSize then r.data[WordSize..] else r.data
  }

  function EntryOf(r: Record): Entry {
    Entry(r.term, r.index, Text(r), r.cfg)
  }

  function Entries(rs: seq<Record>): (es: seq<Entry>)
    ensures |es| == |rs| && forall k | 0 <= k < |rs| :: es[k] == EntryOf(rs[k])
  {
    seq(|rs|, k requires 0 <= k < |rs| => EntryOf(rs[k]))
  }

  /** Index of the last configuration record, 0 when there is none. */
  function LastCfg(rs: seq<Record>): nat {
    if rs == [] then 0
    else if rs[|rs| - 1].cfg then rs[|rs| - 1].index
    else LastCfg(rs[..|rs| - 1])
  }

  datatype Contents = Contents(states: States, recs: seq<Record>, cfgIndex: nat) {

    predicate Sound() {
      && AllFit(recs)
      && (forall k | 0 <= k < |recs| :: recs[k].index == states.lastIndex + k + 1)
      && states.lastIndex < WordLimit && cfgIndex < WordLimit
    }

    function View(): LogView {
      LogView(states.lastIndex, states.lastTerm, Entries(recs))
    }

    predicate Present(index: nat) {
      states.lastIndex < index <= states.lastIndex + |recs|
    }

    function At(index: nat): Record
      requires Present(index)
    {
      recs[index - states.lastIndex - 1]
    }

    /** `operator[]`: the sentry at 0, the record where present, none elsewhere. */
    function Found(index: nat): Option<Record> {
      if index == 0 then Some(SentryRecord) else if Present(index) then Some(At(index)) else None
    }

    predicate IsCfg(index: nat) {
      Present(index) && At(index).cfg
    }

    /** What a chain pointer may be: none, compacted away, or a configuration record of the log. */
    predicate Link(index: nat) {
      index <= states.lastIndex || IsCfg(index)
    }

    /** Every stored pointer is below its own index, and every pointer is a link. */
    predicate Chained() {
      Link(cfgIndex) && forall k | 0 <= k < |recs| :: Linked(k)
    }

    predicate Linked(k: nat)
      requires k < |recs|
    {
      recs[k].cfg ==> Back(recs[k]) < recs[k].index && Link(Back(recs[k]))
    }

    /** Follow the chain from `c` until below `bound`. */
    function Walk(c: nat, bound: nat): (r: nat)
      requires Sound() && Chained() && Link(c) && states.lastIndex < bound
      ensures r < bound && Link(r)
      ensures r <= c
    {
      if c < bound then c
      else
        assert Linked(c - states.lastIndex - 1);
        Walk(Back(At(c)), bound)
    }

    // ----- Operations

    function Append(es: seq<Record>): Contents {
      Contents(states, recs + es, if LastCfg(es) != 0 then LastCfg(es) else cfgIndex)
    }

    function Chop(index: nat): Contents
      requires Sound() && Chained() && Present(index)
    {
      Contents(states, recs[..index - states.lastIndex - 1], Walk(cfgIndex, index))
    }

    /** The configuration `drop` writes to the states file: that of the last configuration record up to `index`. */
    function DroppedConfig(index: nat): Bytes
      requires Sound() && Chained() && Present(index)
    {
      var c := Walk(cfgIndex, index + 1);
      if IsCfg(c) && Text(At(c)) != [] then Text(At(c)) else states.lastConfig
    }

    function Drop(index: nat): Contents
      requires Sound() && Chained() && Present(index)
    {
      Contents(States(index, At(index).term, DroppedConfig(index)),
               recs[index - states.lastIndex..],
               if index >= cfgIndex then 0 else cfgIndex)
    }

    /** `make_entry`: the pointer is the chain head at the time the record is made. */
    function Make(data: Bytes, index: nat, term: nat, cfg: bool): Record {
      Record(index, term, cfg, if cfg then NetWord(cfgIndex) + data else data)
    }

    // ----- Configurations

    /** The configuration a server acts on: the one at the chain head, else the one of the states file. */
    function Effective(): Bytes
      requires Sound()
    {
      if IsCfg(cfgIndex) then Text(At(cfgIndex)) else states.lastConfig
    }

    /** The configuration in force as of `index`: the last one up to it, else the one of the states file. */
    function InForce(index: nat): Bytes
      requires Sound() && Present(index)
    {
      var c := LastCfg(recs[..index - states.lastIndex]);
      if IsCfg(c) then Text(At(c)) else states.lastConfig
    }

    /** `back` is the index of the last configuration record among the first `k`, if there is one. */
    predicate Exactly(back: nat, k: nat)
      requires k <= |recs|
    {
      var c := LastCfg(recs[..k]);
      if c != 0 then back == c else back <= states.lastIndex
    }

    /** No configuration record is skipped by the chain. */
    predicate Exact() {
      Exactly(cfgIndex, |recs|) && forall k | 0 <= k < |recs| :: ExactLink(k)
    }

    predicate ExactLink(k: nat)
      requires k < |recs|
    {
      recs[k].cfg ==> Exactly(Back(recs[k]), k)
    }
  }

  // ----- Last configuration records

  lemma {:induction false} LastCfgIs(c: Contents, k: nat)
    requires c.Sound() && k <= |c.recs|
    ensures var i := LastCfg(c.recs[..k]);
            && (i != 0 ==> c.IsCfg(i) && i <= c.states.lastIndex + k)
            && (forall j | 0 <= j < k && c.recs[j].cfg :: c.recs[j].index <= i)
    decreases k
  {
    if k > 0 {
      assert c.recs[..k][..k - 1] == c.recs[..k - 1];
      LastCfgIs(c, k - 1);
    }
  }

  /** An exact chain is a chain. */
  lemma ExactIsChained(c: Contents)
    requires c.Sound() && c.Exact()
    ensures c.Chained()
  {
    LastCfgIs(c, |c.recs|);
    forall k | 0 <= k < |c.recs| ensures c.Linked(k) {
      LastCfgIs(c, k);
      assert c.ExactLink(k);
    }
  }

  /** With an exact chain the head is the greatest configuration index of the log, whenever it has one. */
  lemma HeadIsGreatest(c: Contents, index: nat)
    requires c.Sound() && c.Exact() && c.IsCfg(index)
    ensures c.IsCfg(c.cfgIndex) && index <= c.cfgIndex
  {
    assert c.recs[..|c.recs|] == c.recs;
    LastCfgIs(c, |c.recs|);
    assert c.recs[index - c.states.lastIndex - 1].index == index;
  }

  // ----- Making and appending records

  /** A record made by `make_entry` reads back its pointer and its text. */
  lemma MadeReadsBack(c: Contents, data: Bytes, index: nat, term: nat, cfg: bool)
    requires c.cfgIndex < WordLimit
    ensures var r := c.Make(data, index, term, cfg); Text(r) == data && (cfg ==> Back(r) == c.cfgIndex)
  {
    NetRoundTrip(c.cfgIndex);
    PairSlices(NetWord(c.cfgIndex), data);
    var r := c.Make(data, index, term, cfg);
    if cfg {
      assert r.data[..WordSize] == NetWord(c.cfgIndex) == NetWord(c.cfgIndex)[..WordSize];
      NetPrefix(r.data, NetWord(c.cfgIndex), WordSize);
    }
  }

  /** Records that follow the log: consecutive indices, and every configuration points to the present head. */
  predicate Follows(c: Contents, es: seq<Record>) {
    && AllFit(es)
    && (forall k | 0 <= k < |es| :: es[k].index == c.states.lastIndex + |c.recs| + k + 1)
    && (forall k | 0 <= k < |es| && es[k].cfg :: Back(es[k]) == c.cfgIndex)
  }

  lemma {:induction false} LastCfgConcat(a: seq<Record>, b: seq<Record>)
    requires forall k | 0 <= k < |b| && b[k].cfg :: b[k].index != 0
    ensures LastCfg(a + b) == (if LastCfg(b) != 0 then LastCfg(b) else LastCfg(a))
    decreases |b|
  {
    if b == [] {
      assert a + b == a;
    } else {
      assert (a + b)[..|a + b| - 1] == a + b[..|b| - 1];
      LastCfgConcat(a, b[..|b| - 1]);
    }
  }

  lemma EntriesConcat(a: seq<Record>, b: seq<Record>)
    ensures Entries(a + b) == Entries(a) + Entries(b)
  {
  }

  lemma AppendKeepsSound(c: Contents, es: seq<Record>)
    requires c.Sound() && Follows(c, es) && LastCfg(es) < WordLimit
    ensures c.Append(es).Sound()
    ensures c.Append(es).View() == c.View().Append(Entries(es))
  {
    EntriesConcat(c.recs, es);
  }

  /** The last configuration of a batch is one of its records. */
  lemma {:induction false} LastCfgOfBatch(es: seq<Record>)
    requires AllFit(es)
    ensures LastCfg(es) != 0 ==> exists k :: 0 <= k < |es| && es[k].cfg && es[k].index == LastCfg(es)
    ensures LastCfg(es) < WordLimit
    decreases |es|
  {
    if es != [] && !es[|es| - 1].cfg {
      LastCfgOfBatch(es[..|es| - 1]);
    }
  }

  lemma AppendedRecord(c: Contents, es: seq<Record>, i: nat)
    requires c.Link(i) || (exists k :: 0 <= k < |es| && es[k].cfg && es[k].index == i)
    requires Follows(c, es)
    ensures c.Append(es).Link(i)
  {
    if c.Present(i) {
      assert c.Append(es).At(i) == c.At(i);
    } else if i > c.states.lastIndex {
      var k :| 0 <= k < |es| && es[k].cfg && es[k].index == i;
      assert c.Append(es).At(i) == es[k];
    }
  }

  lemma AppendKeepsChain(c: Contents, es: seq<Record>)
    requires c.Sound() && c.Chained() && Follows(c, es)
    ensures c.Append(es).Sound() && c.Append(es).Chained()
  {
    LastCfgOfBatch(es);
    AppendKeepsSound(c, es);
    var c' := c.Append(es);
    AppendedRecord(c, es, c'.cfgIndex);
    forall k | 0 <= k < |c'.recs| ensures c'.Linked(k) {
      if k < |c.recs| {
        assert c'.recs[k] == c.recs[k] && c.Linked(k);
      } else {
        assert c'.recs[k] == es[k - |c.recs|];
      }
      if c'.recs[k].cfg { AppendedRecord(c, es, Back(c'.recs[k])); }
    }
  }

  /** No two entries of the batch are configurations. */
  predicate AtMostOneCfg(es: seq<Record>) {
    forall j, k | 0 <= j < k < |es| :: !(es[j].cfg && es[k].cfg)
  }

  /** Where a record of a batch lies once it is appended. */
  lemma BatchRecord(c: Contents, es: seq<Record>, k: nat)
    requires Follows(c, es) && k < |es|
    ensures es[k].index == c.states.lastIndex + |c.recs| + k + 1
    ensures c.Append(es).recs[|c.recs| + k] == es[k]
    ensures c.Append(es).Present(es[k].index) && c.Append(es).At(es[k].index) == es[k]
  {
  }

  /** A batch with at most one configuration keeps the chain exact. */
  lemma AppendKeepsExact(c: Contents, es: seq<Record>)
    requires c.Sound() && c.Exact() && Follows(c, es)
    requires AtMostOneCfg(es)
    ensures c.Append(es).Sound() && c.Append(es).Exact()
  {
    var c' := c.Append(es);
    LastCfgOfBatch(es);
    AppendKeepsSound(c, es);
    LastCfgConcat(c.recs, es);
    assert c.recs[..|c.recs|] == c.recs && c'.recs[..|c'.recs|] == c'.recs;
    forall k | 0 <= k < |c'.recs| ensures c'.ExactLink(k) {
      if k < |c.recs| {
        assert c'.recs[..k] == c.recs[..k];
        assert c.ExactLink(k);
      } else {
        var before := es[..k - |c.recs|];
        assert c'.recs[..k] == c.recs + before;
        assert c'.recs[k] == es[k - |c.recs|];
        if c'.recs[k].cfg {
          NoCfg(before);
          LastCfgConcat(c.recs, before);
        }
      }
    }
  }

  lemma LastCfgAtLeast(c: Contents, m: nat, p: nat)
    requires c.Sound() && p < m <= |c.recs| && c.recs[p].cfg
    ensures LastCfg(c.recs[..m]) >= c.recs[p].index
  {
    LastCfgIs(c, m);
  }

  lemma HeadWithin(c: Contents)
    requires c.Chained()
    ensures c.cfgIndex <= c.states.lastIndex + |c.recs|
  {
  }

  /** A back link below a configuration that precedes its record skips that configuration. */
  lemma LinkSkips(c: Contents, m: nat, p: nat)
    requires c.Sound() && p < m < |c.recs| && c.recs[p].cfg && c.recs[m].cfg && Back(c.recs[m]) < c.recs[p].index
    ensures !c.ExactLink(m)
  {
    LastCfgAtLeast(c, m, p);
  }

  /** The second of two configurations in a batch points past the first. */
  lemma SecondCfgSkips(c: Contents, es: seq<Record>, j: nat, k: nat)
    requires c.Chained() && Follows(c, es) && c.Append(es).Sound() && j < k < |es| && es[j].cfg && es[k].cfg
    ensures !c.Append(es).ExactLink(|c.recs| + k)
  {
    HeadWithin(c);
    BatchRecord(c, es, j);
    BatchRecord(c, es, k);
    LinkSkips(c.Append(es), |c.recs| + k, |c.recs| + j);
  }

  /** A batch keeps an exact chain exact if and only if it has at most one configuration. */
  lemma AppendExactIff(c: Contents, es: seq<Record>)
    requires c.Sound() && c.Exact() && Follows(c, es)
    ensures c.Append(es).Sound()
    ensures c.Append(es).Exact() <==> AtMostOneCfg(es)
  {
    ExactIsChained(c);
    LastCfgOfBatch(es);
    AppendKeepsSound(c, es);
    if AtMostOneCfg(es) {
      AppendKeepsExact(c, es);
    } else {
      var j, k :| 0 <= j < k < |es| && es[j].cfg && es[k].cfg;
      SecondCfgSkips(c, es, j, k);
    }
  }

  lemma {:induction false} NoCfg(es: seq<Record>)
    requires forall k | 0 <= k < |es| :: !es[k].cfg
    ensures LastCfg(es) == 0
    decreases |es|
  {
    if es != [] { NoCfg(es[..|es| - 1]); }
  }

  // ----- Chopping

  lemma ChopKeepsSound(c: Contents, index: nat)
    requires c.Sound() && c.Chained() && c.Present(index)
    ensures c.Chop(index).Sound()
    ensures c.Chop(index).View() == c.View().Chop(index)
  {
    assert c.Chop(index).View().entries == c.View().Chop(index).entries;
  }

  lemma ChopKeepsChain(c: Contents, index: nat)
    requires c.Sound() && c.Chained() && c.Present(index)
    ensures c.Chop(index).Sound() && c.Chop(index).Chained()
  {
    ChopKeepsSound(c, index);
    var c' := c.Chop(index);
    ChoppedLink(c, index, c'.cfgIndex);
    forall k | 0 <= k < |c'.recs| ensures c'.Linked(k) {
      assert c'.recs[k] == c.recs[k] && c.Linked(k);
      if c.recs[k].cfg { ChoppedLink(c, index, Back(c.recs[k])); }
    }
  }

  lemma ChoppedLink(c: Contents, index: nat, i: nat)
    requires c.Sound() && c.Chained() && c.Present(index) && c.Link(i) && i < index
    ensures c.Chop(index).Link(i)
  {
    assert c.Present(i) ==> c.Chop(index).At(i) == c.At(i);
  }

  /** Along an exact chain the walk stops at the last configuration record below the bound. */
  lemma {:induction false} WalkIsExact(c: Contents, p: nat, k: nat, n: nat)
    requires c.Sound() && c.Exact() && c.Chained() && k <= n <= |c.recs| && c.Exactly(p, n) && c.Link(p)
    ensures c.Exactly(c.Walk(p, c.states.lastIndex + k + 1), k)
    decreases n
  {
    LastCfgIs(c, n);
    LastCfgIs(c, k);
    if p >= c.states.lastIndex + k + 1 {
      var m := p - c.states.lastIndex - 1;
      assert c.recs[m].cfg;
      assert c.ExactLink(m) && c.Linked(m);
      WalkIsExact(c, Back(c.recs[m]), k, m);
    } else {
      SamePrefixCfg(c, k, n, p);
    }
  }

  /** No configuration record between `k` and `n`: the last one is the same. */
  lemma {:induction false} SamePrefixCfg(c: Contents, k: nat, n: nat, p: nat)
    requires c.Sound() && k <= n <= |c.recs| && c.Exactly(p, n) && p < c.states.lastIndex + k + 1
    ensures c.Exactly(p, k)
    decreases n
  {
    if k < n {
      assert c.recs[..n][..n - 1] == c.recs[..n - 1];
      SamePrefixCfg(c, k, n - 1, p);
    }
  }

  lemma ChopKeepsExact(c: Contents, index: nat)
    requires c.Sound() && c.Exact() && c.Chained() && c.Present(index)
    ensures c.Chop(index).Sound() && c.Chop(index).Exact()
  {
    var c' := c.Chop(index);
    var k := index - c.states.lastIndex - 1;
    WalkIsExact(c, c.cfgIndex, k, |c.recs|);
    assert c'.recs[..k] == c.recs[..k];
    forall j | 0 <= j < |c'.recs| ensures c'.ExactLink(j) {
      assert c.ExactLink(j);
      assert c'.recs[..j] == c.recs[..j];
    }
  }

  // ----- Compaction

  /** `c'` has the records of `c` after `index`, and the chain head unless that was dropped. */
  predicate Suffix(c: Contents, index: nat, c': Contents) {
    && c.Present(index) && c'.states.lastIndex == index
    && c'.recs == c.recs[index - c.states.lastIndex..]
    && c'.cfgIndex == if index >= c.cfgIndex then 0 else c.cfgIndex
  }

  lemma DropIsSuffix(c: Contents, index: nat)
    requires c.Sound() && c.Chained() && c.Present(index)
    ensures Suffix(c, index, c.Drop(index)) && c.Drop(index).states.lastTerm == c.At(index).term
  {
  }

  lemma SuffixSound(c: Contents, index: nat, c': Contents)
    requires c.Sound() && Suffix(c, index, c')
    ensures c'.Sound()
  {
    var n := index - c.states.lastIndex;
    assert Fits(c.recs[n - 1]);
    forall k | 0 <= k < |c'.recs| ensures Fits(c'.recs[k]) && c'.recs[k].index == index + k + 1 {
      assert c'.recs[k] == c.recs[n + k];
    }
  }

  lemma EntriesSuffix(rs: seq<Record>, n: nat)
    requires n <= |rs|
    ensures Entries(rs[n..]) == Entries(rs)[n..]
  {
  }

  lemma SuffixView(c: Contents, index: nat, c': Contents)
    requires c.Sound() && Suffix(c, index, c') && c'.states.lastTerm == c.At(index).term
    ensures c'.Sound() && c'.View() == c.View().Drop(index)
  {
    SuffixSound(c, index, c');
    EntriesSuffix(c.recs, index - c.states.lastIndex);
  }

  lemma DropKeepsSound(c: Contents, index: nat)
    requires c.Sound() && c.Chained() && c.Present(index)
    ensures c.Drop(index).Sound()
    ensures c.Drop(index).View() == c.View().Drop(index)
  {
    DropIsSuffix(c, index);
    SuffixView(c, index, c.Drop(index));
  }

  lemma DroppedLink(c: Contents, index: nat, c': Contents, i: nat)
    requires Suffix(c, index, c') && c.Link(i)
    ensures c'.Link(i)
    ensures i > index ==> (c'.IsCfg(i) <==> c.IsCfg(i))
    ensures i > index && c.IsCfg(i) ==> c'.At(i) == c.At(i)
  {
  }

  lemma SuffixChained(c: Contents, index: nat, c': Contents)
    requires c.Chained() && Suffix(c, index, c')
    ensures c'.Chained()
  {
    var n := index - c.states.lastIndex;
    DroppedLink(c, index, c', c.cfgIndex);
    forall k | 0 <= k < |c'.recs| ensures c'.Linked(k) {
      assert c'.recs[k] == c.recs[n + k] && c.Linked(n + k);
      if c.recs[n + k].cfg { DroppedLink(c, index, c', Back(c.recs[n + k])); }
    }
  }

  lemma DropKeepsChain(c: Contents, index: nat)
    requires c.Sound() && c.Chained() && c.Present(index)
    ensures c.Drop(index).Sound() && c.Drop(index).Chained()
  {
    DropKeepsSound(c, index);
    DropIsSuffix(c, index);
    SuffixChained(c, index, c.Drop(index));
  }

  lemma DropKeepsExact(c: Contents, index: nat)
    requires c.Sound() && c.Exact() && c.Chained() && c.Present(index)
    ensures c.Drop(index).Sound() && c.Drop(index).Exact()
  {
    DropKeepsSound(c, index);
    DropIsSuffix(c, index);
    SuffixExact(c, index, c.Drop(index));
  }

  lemma SuffixExact(c: Contents, index: nat, c': Contents)
    requires c.Sound() && c.Exact() && Suffix(c, index, c')
    ensures c'.Exact()
  {
    var n := index - c.states.lastIndex;
    LastCfgIs(c, |c.recs|);
    SuffixExactly(c, index, c', c.cfgIndex, |c.recs|);
    forall k | 0 <= k < |c'.recs| ensures c'.ExactLink(k) {
      assert c'.recs[k] == c.recs[n + k] && c.ExactLink(n + k);
      if c.recs[n + k].cfg { SuffixExactly(c, index, c', Back(c.recs[n + k]), n + k); }
    }
  }

  lemma SuffixExactly(c: Contents, index: nat, c': Contents, p: nat, m: nat)
    requires c.Sound() && Suffix(c, index, c') && index - c.states.lastIndex <= m <= |c.recs| && c.Exactly(p, m)
    ensures c'.Exactly(p, m - (index - c.states.lastIndex))
    ensures p <= index ==> c'.Exactly(0, m - (index - c.states.lastIndex))
  {
    var n := index - c.states.lastIndex;
    DroppedPrefix(c, n, m);
  }

  /** Cutting the first `n` records hides exactly the configuration records among them. */
  lemma {:induction false} DroppedPrefix(c: Contents, n: nat, m: nat)
    requires c.Sound() && n <= m <= |c.recs|
    ensures var last := LastCfg(c.recs[..m]);
            LastCfg(c.recs[n..][..m - n]) == if last > c.states.lastIndex + n then last else 0
    decreases m
  {
    if m == n {
      LastCfgIs(c, n);
    } else {
      assert c.recs[..m][..m - 1] == c.recs[..m - 1];
      assert c.recs[n..][..m - n][..m - n - 1] == c.recs[n..][..m - 1 - n];
      DroppedPrefix(c, n, m - 1);
    }
  }

  /**
   Compaction changes the effective configuration in one case only: the chain head is a configuration record being
   dropped whose text is empty, while the states file holds another text.
   */
  lemma DropKeepsConfiguration(c: Contents, index: nat)
    requires c.Sound() && c.Chained() && c.Present(index)
    ensures c.Drop(index).Sound()
    ensures c.Drop(index).Effective() == c.Effective() <==>
              !(c.IsCfg(c.cfgIndex) && c.cfgIndex <= index && c.Effective() == [] && c.states.lastConfig != [])
  {
    DropKeepsSound(c, index);
    DropIsSuffix(c, index);
    DroppedLink(c, index, c.Drop(index), c.cfgIndex);
  }

  /** With an exact chain of non-empty configurations, the states file gets the configuration in force as of `index`. */
  lemma DropRecordsConfiguration(c: Contents, index: nat)
    requires c.Sound() && c.Exact() && c.Chained() && c.Present(index)
    requires forall k | 0 <= k < |c.recs| && c.recs[k].cfg :: Text(c.recs[k]) != []
    ensures c.Drop(index).states.lastConfig == c.InForce(index)
  {
    var k := index - c.states.lastIndex;
    var p := c.Walk(c.cfgIndex, index + 1);
    WalkIsExact(c, c.cfgIndex, k, |c.recs|);
    LastCfgIs(c, k);
    ExactIsInForce(c, k, p);
  }

  lemma ExactIsInForce(c: Contents, k: nat, p: nat)
    requires c.Sound() && k <= |c.recs| && c.Exactly(p, k)
    requires forall j | 0 <= j < |c.recs| && c.recs[j].cfg :: Text(c.recs[j]) != []
    requires LastCfg(c.recs[..k]) != 0 ==> c.IsCfg(LastCfg(c.recs[..k]))
    ensures (if c.IsCfg(p) && Text(c.At(p)) != [] then Text(c.At(p)) else c.states.lastConfig) ==
            (if c.IsCfg(LastCfg(c.recs[..k])) then Text(c.At(LastCfg(c.recs[..k]))) else c.states.lastConfig)
  {
  }

  // ----- Reopening

  /** What `init` reads back from the files. */
  function Reopened(c: Contents): Contents {
    c.(cfgIndex := LastCfg(c.recs))
  }

  /** A restart keeps an exact chain and the effective configuration, and forgets only a pointer below the base. */
  lemma ReopenKeepsExact(c: Contents)
    requires c.Sound() && c.Exact()
    ensures Reopened(c).Sound() && Reopened(c).Exact()
    ensures Reopened(c).Effective() == c.Effective()
    ensures Reopened(c).cfgIndex == if c.IsCfg(c.cfgIndex) then c.cfgIndex else 0
  {
    assert c.recs[..|c.recs|] == c.recs;
    LastCfgIs(c, |c.recs|);
    var c' := Reopened(c);
    assert c.Exactly(c.cfgIndex, |c.recs|);
    forall k | 0 <= k < |c'.recs| ensures c'.ExactLink(k) {
      assert c.ExactLink(k);
    }
    if LastCfg(c.recs) != 0 {
      var j := LastCfg(c.recs) - c.states.lastIndex - 1;
      assert Fits(c.recs[j]);
    }
  }

  // ----- A batch with two configurations

  /**
   What a batch with several configurations loses: once the last of them is chopped, the chain head is what it was
   before the batch, although every earlier configuration of the batch is still in the log.
   */
  lemma BatchForgets(c: Contents, es: seq<Record>, j: nat, k: nat)
    requires c.Sound() && c.Chained() && Follows(c, es) && j < k < |es| && es[j].cfg && es[k].cfg
    requires LastCfg(es) == es[k].index
    ensures c.Append(es).Sound() && c.Append(es).Chained() && c.Append(es).Present(es[k].index)
    ensures var d := c.Append(es).Chop(es[k].index);
            d.Sound() && d.IsCfg(es[j].index) && d.At(es[j].index) == es[j] && d.cfgIndex == c.cfgIndex < es[j].index
  {
    var d := c.Append(es);
    AppendKeepsChain(c, es);
    BatchRecord(c, es, j);
    BatchRecord(c, es, k);
    assert d.cfgIndex == es[k].index;
    ChopKeepsChain(d, es[k].index);
    SkipsBack(d, es[k].index);
    ChoppedAt(d, es[k].index, es[j].index);
  }

  /** The smallest case: two configurations, the second chopped. */
  lemma TwoConfigurationsInABatch(c: Contents, x: Record, y: Record)
    requires c.Sound() && c.Chained() && Follows(c, [x, y]) && x.cfg && y.cfg
    ensures c.Append([x, y]).Sound() && c.Append([x, y]).Chained() && c.Append([x, y]).Present(y.index)
    ensures var d := c.Append([x, y]).Chop(y.index);
            d.Sound() && d.IsCfg(x.index) && d.At(x.index) == x && d.cfgIndex == c.cfgIndex < x.index
  {
    var es := [x, y];
    assert es[0] == x && es[1] == y;
    LastOfTwo(x, y);
    BatchForgets(c, es, 0, 1);
  }

  lemma ChoppedAt(d: Contents, index: nat, i: nat)
    requires d.Sound() && d.Chained() && d.Present(index) && d.Present(i) && i < index
    ensures d.Chop(index).Present(i) && d.Chop(index).At(i) == d.At(i)
  {
  }

  /** A walk from a record whose pointer is already below the bound stops there. */
  lemma SkipsBack(d: Contents, index: nat)
    requires d.Sound() && d.Chained() && d.IsCfg(index) && Back(d.At(index)) < index
    ensures d.Walk(index, index) == Back(d.At(index))
  {
  }

  lemma LastOfTwo(x: Record, y: Record)
    requires y.cfg && y.index != 0
    ensures LastCfg([x, y]) == y.index
  {
    assert [x, y][1] == y;
  }
}
