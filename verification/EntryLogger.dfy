/**
 `entry_logger`: the log file as an array of bytes with a side index of (index, offset) pairs. Every operation is
 proved to keep the file an image of the records and to act on them as module `Store` says.
 */
module EntryLogger {
  import opened RaftLog
  import opened Codec
  import opened Store

  datatype Info = Info(index: nat, amount: nat)
  datatype Rc = Good | OutOfRange | MapError

  const PageSize := 4096
  const StatesHeader := 32  // sizeof(states)

  // ----- Mapping sizes

  function PageRound(n: nat): (r: nat)
    ensures n <= r < n + PageSize && r % PageSize == 0
  {
    (n + PageSize - 1) / PageSize * PageSize
  }

  /** The size after one growth by the factor 1.25, in whole pages. */
  function Grown(size: nat): nat {
    PageRound(size * 5 / 4)
  }

  lemma GrownIsLarger(size: nat)
    requires size > 0 && size % PageSize == 0
    ensures Grown(size) > size && Grown(size) % PageSize == 0
    ensures size * 5 / 4 <= Grown(size) < size * 5 / 4 + PageSize
  {
  }

  /** A states record that the size test admits is written within whole pages, its alignment included. */
  lemma StatesFit(statSize: nat, length: nat)
    requires statSize % PageSize == 0 && statSize >= StatesHeader && length <= statSize - StatesHeader
    ensures Align(StatesHeader + length) <= statSize
  {
    var pages := statSize / PageSize;
    assert statSize == 8 * (512 * pages);
    AlignWithin(StatesHeader + length, 512 * pages);
  }

  lemma AlignWithin(n: nat, words: nat)
    requires n <= 8 * words
    ensures Align(n) <= 8 * words
  {
  }

  // ----- The side index

  predicate Indexed(infos: seq<Info>, rs: seq<Record>) {
    |infos| == |rs| && forall k {:trigger infos[k]} | 0 <= k < |rs| :: infos[k] == Info(rs[k].index, Offset(rs, k))
  }

  /** The sentry, then consecutive indices after the base. */
  predicate Numbering(infos: seq<Info>, base: nat) {
    |infos| > 0 && infos[0].index == 0 && forall k | 0 < k < |infos| :: infos[k].index == base + k
  }

  /** `operator[]`: the offset of the record with this index, or nothing. */
  function Locate(infos: seq<Info>, base: nat, index: nat): Option<nat>
    requires Numbering(infos, base)
  {
    var front, back := infos[0].index, infos[|infos| - 1].index;
    if index < front || index > back || (index != 0 && |infos| > 1 && index < infos[1].index) then None
    else if index == 0 then Some(infos[0].amount)
    else Some(infos[index - base - front].amount)
  }

  /** The side index finds the sentry at 0 and exactly the records above the base. */
  lemma LocateFinds(infos: seq<Info>, base: nat, rs: seq<Record>, index: nat)
    requires Numbering(infos, base) && Indexed(infos, rs)
    ensures index == 0 ==> Locate(infos, base, index) == Some(0)
    ensures index != 0 ==>
              Locate(infos, base, index) == if base < index < base + |rs| then Some(Offset(rs, index - base)) else None
  {
  }

  lemma ImageGrows(b: Bytes, b': Bytes, rs: seq<Record>)
    requires Image(b, rs) && b <= b'
    ensures Image(b', rs)
  {
    var n := |EncodeAll(rs)|;
    assert b'[n..n + WordSize] == b[n..n + WordSize];
  }

  lemma ZeroWordDecodes(b: Bytes, at: nat)
    requires at + WordSize <= |b| && b[at..at + WordSize] == Zeros(WordSize)
    ensures WordAt(b, at) == 0
  {
    ZerosDecode(WordSize);
  }

  // ----- Scanning a file

  /** A size word is zero exactly behind the last record. */
  lemma SizeWordAt(b: Bytes, rs: seq<Record>, k: nat)
    requires Image(b, rs) && k <= |rs|
    ensures Offset(rs, k) + WordSize <= |b| && (WordAt(b, Offset(rs, k)) != 0 <==> k < |rs|)
  {
    if k < |rs| {
      HoldsAtOffset(b, rs, k);
      FieldsReadBack(b, Offset(rs, k), rs[k]);
    } else {
      assert rs[..k] == rs;
    }
  }

  lemma HeadOfImage(b: Bytes, rs: seq<Record>)
    requires Image(b, rs) && rs != []
    ensures WordSize <= |b| && WordAt(b, 0) != 0 && Offset(rs, 0) == 0 && LastCfg(rs[..0]) == 0
    ensures Indexed([], rs[..0])
  {
    SizeWordAt(b, rs, 0);
  }

  /** At record `k`: its fields read back, and its size word leads to the next record or to the end marker. */
  lemma NextOfImage(b: Bytes, rs: seq<Record>, k: nat)
    requires Image(b, rs) && k < |rs|
    ensures var at, u := Offset(rs, k), Size(rs[k]);
            && at + HeaderSize <= |b| && WordAt(b, at) == u && WordAt(b, at + 8) == rs[k].index
            && (b[at + 24] != 0) == rs[k].cfg
            && at + u == Offset(rs, k + 1)
  {
    HoldsAtOffset(b, rs, k);
    FieldsReadBack(b, Offset(rs, k), rs[k]);
  }

  lemma NextIndexed(rs: seq<Record>, k: nat, infos: seq<Info>)
    requires k < |rs| && Indexed(infos, rs[..k])
    ensures Indexed(infos + [Info(rs[k].index, Offset(rs, k))], rs[..k + 1])
    ensures LastCfg(rs[..k + 1]) == if rs[k].cfg then rs[k].index else LastCfg(rs[..k])
  {
    assert rs[..k + 1] == rs[..k] + [rs[k]];
    assert rs[..k + 1][..k] == rs[..k];
    IndexedExtends(infos, rs[..k], rs[k]);
  }

  /** The file a first boot fills in: the sentry in one page of zeros. */
  function FreshFile(): (b: Bytes)
    ensures |b| == PageSize
  {
    Encode(SentryRecord) + Zeros(PageSize - HeaderSize)
  }

  /** The fresh file is the image of an empty log. */
  lemma FreshFileIsEmpty()
    ensures Image(FreshFile(), [SentryRecord] + [])
    ensures Contents(States(0, 0, []), [], 0).Sound() && Contents(States(0, 0, []), [], 0).Chained()
  {
    EncodeOne(SentryRecord);
    assert [SentryRecord] + [] == [SentryRecord];
    PairSlices(Encode(SentryRecord), Zeros(PageSize - HeaderSize));
    SliceRight(Encode(SentryRecord), Zeros(PageSize - HeaderSize), 0, WordSize);
    assert Zeros(PageSize - HeaderSize)[0..WordSize] == Zeros(WordSize);
    ZeroWordDecodes(FreshFile(), HeaderSize);
  }

  lemma ReopenKeepsSound(c: Contents)
    requires c.Sound() && c.Chained()
    ensures Reopened(c).Sound() && Reopened(c).Chained()
    ensures LastCfg([SentryRecord] + c.recs) == LastCfg(c.recs)
  {
    assert c.recs[..|c.recs|] == c.recs;
    LastCfgIs(c, |c.recs|);
    var c' := Reopened(c);
    if LastCfg(c.recs) != 0 { assert Fits(c.At(LastCfg(c.recs))); }
    forall k | 0 <= k < |c'.recs| ensures c'.Linked(k) {
      assert c.Linked(k);
    }
    LastCfgConcat([SentryRecord], c.recs);
    assert LastCfg([SentryRecord]) == 0;
  }

  // ----- Writing one more record

  lemma TailEnds(b: Bytes, rs: seq<Record>)
    requires Begins(b, rs) && rs != [] && AllFit(rs)
    ensures var tail := Offset(rs, |rs| - 1);
            && tail + HeaderSize <= |b|
            && WordAt(b, tail) == Size(rs[|rs| - 1]) && tail + WordAt(b, tail) == |EncodeAll(rs)|
  {
    HoldsAtOffset(b, rs, |rs| - 1);
    FieldsReadBack(b, Offset(rs, |rs| - 1), rs[|rs| - 1]);
    assert rs[..|rs|] == rs;
  }

  lemma RecordAdded(b: Bytes, b': Bytes, rs: seq<Record>, r: Record)
    requires Begins(b, rs) && |b| == |b'| && |EncodeAll(rs)| + Size(r) <= |b|
    requires b'[..|EncodeAll(rs)|] == b[..|EncodeAll(rs)|]
    requires b'[|EncodeAll(rs)|..|EncodeAll(rs)| + Size(r)] == Encode(r)
    ensures Begins(b', rs + [r]) && |EncodeAll(rs + [r])| == |EncodeAll(rs)| + Size(r)
  {
    EncodeConcat(rs, [r]);
    EncodeOne(r);
    var n := |EncodeAll(rs)|;
    assert b'[..n + Size(r)] == b'[..n] + b'[n..n + Size(r)];
  }

  lemma IndexedExtends(infos: seq<Info>, rs: seq<Record>, r: Record)
    requires Indexed(infos, rs)
    ensures Indexed(infos + [Info(r.index, |EncodeAll(rs)|)], rs + [r])
  {
    forall k | 0 <= k <= |rs| ensures Offset(rs + [r], k) == |EncodeAll(rs[..k])| {
      assert (rs + [r])[..k] == rs[..k];
    }
    assert rs[..|rs|] == rs;
  }

  /** Cutting at a record boundary and writing a zero word there leaves an image of the records before. */
  lemma CutImage(b: Bytes, b': Bytes, rs: seq<Record>, k: nat)
    requires Image(b, rs) && k < |rs|
    requires |b'| == |b| && Offset(rs, k) + WordSize <= |b| && b'[..Offset(rs, k)] == b[..Offset(rs, k)]
    requires b'[Offset(rs, k)..Offset(rs, k) + WordSize] == Word(0)
    ensures Image(b', rs[..k])
  {
    SplitAt(rs, k);
    WordRoundTrip(0);
    assert b[..Offset(rs, k)] == EncodeAll(rs)[..Offset(rs, k)];
  }

  lemma CutIndexed(infos: seq<Info>, rs: seq<Record>, k: nat)
    requires Indexed(infos, rs) && k <= |rs|
    ensures Indexed(infos[..k], rs[..k])
  {
    forall j | 0 <= j < k ensures infos[..k][j] == Info(rs[..k][j].index, Offset(rs[..k], j)) {
      assert rs[..k][..j] == rs[..j];
    }
  }

  /** What `operator[]` finds is what the view looks up. */
  lemma FoundIsLookup(c: Contents, index: nat)
    requires c.Sound()
    ensures c.View().Lookup(index) == match c.Found(index) case None => None case Some(r) => Some(EntryOf(r))
  {
  }

  /** Sum of the record sizes of a batch. */
  method BatchSize(es: seq<Record>) returns (n: nat)
    ensures n == |EncodeAll(es)|
  {
    n := 0;
    for k := 0 to |es|
      invariant n == |EncodeAll(es[..k])|
    {
      OffsetNext(es, k);
      n := n + Size(es[k]);
    }
    assert es[..|es|] == es;
  }

  class EntryLogger {
    const limit: nat  // the largest size the system maps
    var file: array<Byte>
    var statSize: nat
    var states: States
    var infos: seq<Info>
    var payload: nat
    var cfgIndex: nat
    ghost var recs: seq<Record>

    /** All records of the file, the sentry first. */
    ghost function All(): seq<Record>
      reads this
    {
      [SentryRecord] + recs
    }

    ghost function Abs(): Contents
      reads this
    {
      Contents(states, recs, cfgIndex)
    }

    ghost predicate Mapped()
      reads this, file
    {
      && file.Length > 0 && file.Length % PageSize == 0 && statSize > 0 && statSize % PageSize == 0
      && |EncodeAll(All())| == payload && payload + WordSize <= file.Length
      && Image(file[..], All())
    }

    /** The file and the side index agree. */
    ghost predicate Standing()
      reads this, file
    {
      Mapped() && Indexed(infos, All())
    }

    ghost predicate Valid()
      reads this, file
    {
      Standing() && Abs().Sound() && Abs().Chained() && Numbering(infos, states.lastIndex)
    }

    // ----- init

    /** Opening an existing file: the scan rebuilds the side index, the payload and the chain head. */
    constructor Open(limit: nat, bytes: Bytes, statSize: nat, states: States, ghost rs: seq<Record>)
      requires |bytes| > 0 && |bytes| % PageSize == 0 && statSize > 0 && statSize % PageSize == 0
      requires Image(bytes, [SentryRecord] + rs)
      requires Contents(states, rs, 0).Sound() && Contents(states, rs, 0).Chained()
      ensures Valid() && fresh(file) && file[..] == bytes
      ensures Abs() == Reopened(Contents(states, rs, 0))
      ensures this.limit == limit && this.statSize == statSize
    {
      this.limit := limit;
      this.file := new Byte[|bytes|](i requires 0 <= i < |bytes| => bytes[i]);
      this.statSize, this.states := statSize, states;
      infos, payload, cfgIndex := [], 0, 0;
      recs := rs;
      new;
      assert file[..] == bytes;
      Rescan(bytes, rs);
      ReopenKeepsSound(Contents(states, rs, 0));
      NumberingFromSound();
    }

    method Rescan(ghost bytes: Bytes, ghost rs: seq<Record>)
      requires file[..] == bytes && Image(bytes, [SentryRecord] + rs) && infos == [] && payload == 0 && cfgIndex == 0
      modifies `infos, `payload, `cfgIndex
      ensures Indexed(infos, [SentryRecord] + rs) && payload == |EncodeAll([SentryRecord] + rs)|
      ensures cfgIndex == LastCfg([SentryRecord] + rs)
    {
      ghost var all, k := [SentryRecord] + rs, 0;
      HeadOfImage(bytes, all);
      var at := 0;
      var u := WordAt(file[..], at);
      while u != 0
        invariant k <= |all| && at == payload == Offset(all, k) && at + WordSize <= file.Length
        invariant u == WordAt(file[..], at) && (u != 0 <==> k < |all|)
        invariant Indexed(infos, all[..k]) && cfgIndex == LastCfg(all[..k])
        decreases |all| - k
      {
        NextOfImage(bytes, all, k);
        SizeWordAt(bytes, all, k + 1);
        NextIndexed(all, k, infos);
        Enter(at, u);
        at := at + u;
        u := WordAt(file[..], at);
        k := k + 1;
      }
      assert all[..|all|] == all;
    }

    /** The body of the scan: the record at `at`, of size `u`. */
    method Enter(at: nat, u: nat)
      requires at + HeaderSize <= file.Length
      modifies `infos, `payload, `cfgIndex
      ensures infos == old(infos) + [Info(WordAt(file[..], at + 8), old(payload))] && payload == old(payload) + u
      ensures cfgIndex == if file[..][at + 24] != 0 then WordAt(file[..], at + 8) else old(cfgIndex)
    {
      if file[at + 24] != 0 { cfgIndex := WordAt(file[..], at + 8); }
      infos := infos + [Info(WordAt(file[..], at + 8), payload)];
      payload := payload + u;
    }

    /** Scanning the bytes to the zero marker gives the sentry and the entries; the side index has their prefix sums. */
    lemma FileTells()
      requires Valid()
      ensures Scan(file[..], 0) == [SentryRecord] + recs
      ensures Indexed(infos, Scan(file[..], 0)) && payload == |EncodeAll(Scan(file[..], 0))|
      ensures WordAt(file[..], payload) == 0
    {
      ScanReadsBack(file[..], All());
    }

    /** Nothing is lost in a restart: a logger opened on the bytes and states of this one has the same side index,
        payload and entries, and with an exact chain the same head, unless that pointed below the base. */
    lemma RestartRebuilds(other: EntryLogger)
      requires Valid() && other.Valid() && other.file[..] == file[..] && other.states == states
      requires other.Abs() == Reopened(other.Abs())
      ensures other.infos == infos && other.payload == payload && other.recs == recs
      ensures Abs().Exact() && Abs().IsCfg(cfgIndex) ==> other.cfgIndex == cfgIndex
    {
      FileTells();
      other.FileTells();
      assert recs == All()[1..] && other.recs == other.All()[1..];
      if Abs().Exact() { ReopenKeepsExact(Abs()); }
    }

    // ----- Raw memory

    /** `memcpy` into the mapping. */
    method Write(at: nat, data: Bytes)
      requires at + |data| <= file.Length
      modifies file
      ensures file[..at] == old(file[..at])
      ensures file[at..at + |data|] == data
      ensures file[at + |data|..] == old(file[at + |data|..])
    {
      for k := 0 to |data|
        invariant forall i | 0 <= i < at :: file[i] == old(file[i])
        invariant forall i | at <= i < at + k :: file[i] == data[i - at]
        invariant forall i | at + |data| <= i < file.Length :: file[i] == old(file[i])
      {
        file[at + k] := data[k];
      }
    }

    /** `memmove` towards the front: bytes are read before they are overwritten. */
    method MoveDown(to: nat, from: nat, count: nat)
      requires to <= from && from + count <= file.Length
      modifies file
      ensures file[..to] == old(file[..to])
      ensures file[to..to + count] == old(file[from..from + count])
    {
      for k := 0 to count
        invariant forall i | 0 <= i < to :: file[i] == old(file[i])
        invariant forall i | to <= i < to + k :: file[i] == old(file[i + (from - to)])
        invariant forall i | from + k <= i < file.Length :: file[i] == old(file[i])
      {
        file[to + k] := file[from + k];
      }
      ghost var moved, origin := file[to..to + count], old(file[from..from + count]);
      forall i | 0 <= i < count ensures moved[i] == origin[i] {
        assert file[to + i] == old(file[to + i + (from - to)]);
      }
    }

    /** `grow_ldbs`: remapping keeps the contents, the new pages are zero. */
    method GrowFile() returns (rc: Rc)
      requires Mapped()
      modifies this`file
      ensures Mapped() && (rc == Good || rc == MapError)
      ensures rc != Good ==> file == old(file) && Grown(file.Length) > limit
      ensures rc == Good ==> fresh(file) && file.Length > old(file.Length) && file.Length <= limit
      ensures old(file[..]) <= file[..]
    {
      ghost var before := file[..];
      var size := Grown(file.Length);
      GrownIsLarger(file.Length);
      if size > limit {
        return MapError;
      }
      var larger := new Byte[size];
      forall k | 0 <= k < size {
        larger[k] := if k < file.Length then file[k] else 0;
      }
      assert larger[..file.Length] == before;
      ImageGrows(before, larger[..], All());
      file := larger;
      rc := Good;
    }

    // ----- Reading

    /** Record `k` of the file lies at its offset, and its fields read back. */
    lemma RecordLies(k: nat, at: nat, r: Record)
      requires Standing() && k < |All()| && at == Offset(All(), k) && r == All()[k]
      ensures at + HeaderSize + WordSize <= file.Length && at + Size(r) <= payload
      ensures WordAt(file[..], at) == Size(r)
      ensures WordAt(file[..], at + 8) == r.index && WordAt(file[..], at + 16) == r.term
      ensures at + HeaderSize + WordAt(file[..], at + 32) <= file.Length && RecordAt(file[..], at) == r
    {
      HoldsAtOffset(file[..], All(), k);
      FieldsReadBack(file[..], at, r);
    }

    /** The record that `operator[]` points to: the sentry at 0, the record where present, none elsewhere. */
    method ReadRecord(index: nat) returns (r: Option<Record>)
      requires Valid()
      ensures r == Abs().Found(index)
    {
      LocateFinds(infos, states.lastIndex, All(), index);
      var at := Locate(infos, states.lastIndex, index);
      if at == None { return None; }
      ghost var k := if index == 0 then 0 else index - states.lastIndex;
      RecordLies(k, at.value, All()[k]);
      r := Some(RecordAt(file[..], at.value));
    }

    method HasEntry(index: nat, term: nat) returns (b: bool)
      requires Valid()
      ensures b == Abs().View().HasEntry(index, term)
    {
      FoundIsLookup(Abs(), index);
      var r := ReadRecord(index);
      match r
      case None => b := states.lastIndex == index && states.lastTerm == term;
      case Some(e) => b := e.index == index && e.term == term;
    }

    method EntryConflicted(index: nat, term: nat) returns (b: bool)
      requires Valid()
      ensures b == Abs().View().Conflicted(index, term)
    {
      FoundIsLookup(Abs(), index);
      var r := ReadRecord(index);
      match r
      case None => b := false;
      case Some(e) => b := e.term != term;
    }

    method LastEntryIndex() returns (n: nat)
      requires Standing()
      ensures n == if recs == [] then states.lastIndex else recs[|recs| - 1].index
      ensures Valid() ==> n == Abs().View().LastIndex()
    {
      if |infos| == 1 { return states.lastIndex; }
      RecordLies(|All()| - 1, infos[|infos| - 1].amount, All()[|All()| - 1]);
      n := WordAt(file[..], infos[|infos| - 1].amount + 8);
    }

    method LastEntryTerm() returns (t: nat)
      requires Valid()
      ensures t == Abs().View().LastTerm()
    {
      if |infos| == 1 { return states.lastTerm; }
      RecordLies(|All()| - 1, infos[|infos| - 1].amount, All()[|All()| - 1]);
      t := WordAt(file[..], infos[|infos| - 1].amount + 16);
    }

    // ----- append

    /** Records that do not follow the log are appended all the same, and leave it misnumbered. */
    method Append(es: seq<Record>) returns (rc: Rc)
      requires Valid() && AllFit(es) && forall k | 0 <= k < |es| :: es[k].index != 0
      modifies this, file
      ensures Standing() && (file == old(file) || fresh(file)) && rc != OutOfRange
      ensures rc != Good || Follows(old(Abs()), es) ==> Valid()
      ensures statSize == old(statSize)
      ensures Abs() == if rc == Good then old(Abs()).Append(es) else old(Abs())
      ensures rc != Good ==> Grown(file.Length) > limit
    {
      var size := BatchSize(es);
      while file.Length - payload - WordSize <= size
        invariant Valid() && (file == old(file) || fresh(file))
        modifies this`file
        decreases payload + WordSize + size - file.Length
      {
        rc := GrowFile();
        if rc != Good { return; }
      }
      rc := AppendAll(es, size);
    }

    /** The copying loop and the end marker, once the file is large enough. */
    method AppendAll(es: seq<Record>, size: nat) returns (rc: Rc)
      requires Valid() && AllFit(es) && forall k | 0 <= k < |es| :: es[k].index != 0
      requires size == |EncodeAll(es)| && payload + size + WordSize < file.Length
      modifies this, file
      ensures Standing() && file == old(file) && rc == Good
      ensures Follows(old(Abs()), es) ==> Valid()
      ensures statSize == old(statSize)
      ensures Abs() == old(Abs()).Append(es)
    {
      ghost var before := Abs();
      CopyBatch(es, size);
      EndMarked();
      if Follows(before, es) {
        AppendKeepsChain(before, es);
        NumberingFromSound();
      }
      rc := Good;
    }

    method CopyBatch(es: seq<Record>, size: nat)
      requires Valid() && AllFit(es) && size == |EncodeAll(es)| && payload + size + WordSize < file.Length
      requires forall k | 0 <= k < |es| :: es[k].index != 0
      modifies `payload, `infos, `cfgIndex, `recs, file
      ensures recs == old(recs) + es && Indexed(infos, All()) && AllFit(All()) && payload == |EncodeAll(All())|
      ensures payload == old(payload) + size
      ensures Begins(file[..], All()) && file[payload..payload + WordSize] == Word(0)
      ensures cfgIndex == if LastCfg(es) != 0 then LastCfg(es) else old(cfgIndex)
    {
      EncodeConcat(All(), es);
      var tail := CopyRecords(es);
      EndBatch(tail, size, es);
    }

    method EndBatch(tail: nat, size: nat, ghost es: seq<Record>)
      requires Begins(file[..], All() + es) && AllFit(All()) && AllFit(es) && Indexed(infos, All() + es)
      requires tail == infos[|infos| - 1].amount
      requires payload + size == |EncodeAll(All() + es)| && payload + size + WordSize <= file.Length
      modifies `payload, `recs, file
      ensures recs == old(recs) + es && All() == old(All()) + es && payload == |EncodeAll(All())|
      ensures Begins(file[..], All()) && file[payload..payload + WordSize] == Word(0)
    {
      ghost var all := All();
      StepTail(file[..], all, es);
      var next := tail + WordAt(file[..], tail);
      MarkEnd(next, EncodeAll(all + es));
      SentryFirst(recs, es);
      payload := payload + size;
      recs := recs + es;
    }

    /** A zero word, behind bytes that are kept. */
    method MarkEnd(at: nat, ghost kept: Bytes)
      requires at + WordSize <= file.Length && |kept| <= at && kept <= file[..]
      modifies file
      ensures file[..at] == old(file[..at]) && file[at..at + WordSize] == Word(0) && kept <= file[..]
    {
      ghost var before := file[..];
      Write(at, Word(0));
      assert kept == before[..at][..|kept|];
    }

    /** With the records in place and a zero word behind them, the file is an image again. */
    lemma EndMarked()
      requires Begins(file[..], All()) && AllFit(All()) && payload == |EncodeAll(All())|
      requires payload + WordSize <= file.Length && file[payload..payload + WordSize] == Word(0)
      requires Indexed(infos, All()) && file.Length % PageSize == 0 && statSize > 0 && statSize % PageSize == 0
      ensures Standing()
    {
      WordRoundTrip(0);
    }

    lemma NumberingFromSound()
      requires Abs().Sound() && Indexed(infos, All())
      ensures Numbering(infos, states.lastIndex)
    {
    }

    method CopyRecords(es: seq<Record>) returns (tail: nat)
      requires Begins(file[..], All()) && Indexed(infos, All()) && AllFit(All()) && AllFit(es)
      requires |EncodeAll(All())| + |EncodeAll(es)| + WordSize < file.Length
      requires forall k | 0 <= k < |es| :: es[k].index != 0
      modifies `infos, `cfgIndex, file
      ensures Begins(file[..], All() + es) && Indexed(infos, All() + es)
      ensures tail == infos[|infos| - 1].amount
      ensures cfgIndex == if LastCfg(es) != 0 then LastCfg(es) else old(cfgIndex)
    {
      ghost var all, done := All(), All();
      assert all + [] == all && es[..0] == [];
      tail := infos[|infos| - 1].amount;
      for k := 0 to |es|
        invariant done == all + es[..k] && Begins(file[..], done)
        invariant Indexed(infos, done) && tail == infos[|infos| - 1].amount
        invariant cfgIndex == if LastCfg(es[..k]) != 0 then LastCfg(es[..k]) else old(cfgIndex)
      {
        NextBatch(all, es, k);
        tail := CopyRecord(es[k], tail, done);
        done := done + [es[k]];
      }
      assert es[..|es|] == es;
    }

    /** One record copied behind the tail, and entered in the side index. */
    method CopyRecord(r: Record, tail: nat, ghost done: seq<Record>) returns (next: nat)
      requires Begins(file[..], done) && AllFit(done) && done != []
      requires |EncodeAll(done)| + Size(r) <= file.Length
      requires Indexed(infos, done) && tail == infos[|infos| - 1].amount
      modifies `infos, `cfgIndex, file
      ensures Begins(file[..], done + [r]) && Indexed(infos, done + [r])
      ensures next == infos[|infos| - 1].amount
      ensures cfgIndex == if r.cfg then r.index else old(cfgIndex)
    {
      if r.cfg { cfgIndex := r.index; }
      ghost var b := file[..];
      TailEnds(b, done);
      next := tail + WordAt(file[..], tail);
      assert next == |EncodeAll(done)|;
      Write(next, Encode(r));
      RecordAdded(b, file[..], done, r);
      IndexedExtends(infos, done, r);
      infos := infos + [Info(r.index, next)];
    }

    // ----- chop

    /** The test at the head of `chop` and `drop`. */
    predicate Refused(index: nat)
      requires Numbering(infos, states.lastIndex)
      reads this
    {
      || index == 0 || index < infos[0].index || index > infos[|infos| - 1].index
      || (|infos| > 1 && index < infos[1].index)
    }

    lemma RefusedIffAbsent(index: nat)
      requires Valid()
      ensures Refused(index) <==> !Abs().Present(index)
    {
    }

    /** The pointer stored in front of a configuration's text. */
    method ReadBack(index: nat) returns (prev: nat)
      requires Valid() && Abs().IsCfg(index)
      ensures prev == Back(Abs().At(index))
    {
      var r := ReadRecord(index);
      prev := Back(r.value);
    }

    method Chop(index: nat) returns (rc: Rc)
      requires Valid()
      modifies this, file
      ensures Valid() && file == old(file) && statSize == old(statSize)
      ensures rc == (if old(Abs()).Present(index) then Good else OutOfRange)
      ensures Abs() == if rc == Good then old(Abs()).Chop(index) else old(Abs())
    {
      RefusedIffAbsent(index);
      if Refused(index) { return OutOfRange; }
      Unlink(index);
      rc := Good;
    }

    /** The records from `index` on go, and with them the part of the chain that named them. */
    method Unlink(index: nat)
      requires Valid() && Abs().Present(index)
      modifies `cfgIndex, `payload, `infos, `recs, file
      ensures Valid() && Abs() == old(Abs()).Chop(index)
    {
      ghost var before := Abs();
      cfgIndex := WalkBack(cfgIndex, index);
      CutAt(index);
      Chopped(before, index);
    }

    lemma Chopped(before: Contents, index: nat)
      requires Mapped() && Indexed(infos, All()) && Numbering(infos, states.lastIndex)
      requires before.Sound() && before.Chained() && before.Present(index) && Abs() == before.Chop(index)
      ensures Valid()
    {
      ChopKeepsChain(before, index);
    }

    /** The loop of `chop` and `drop` along the configuration chain. */
    method WalkBack(from: nat, bound: nat) returns (c: nat)
      requires Valid() && Abs().Link(from) && states.lastIndex < bound
      ensures c == Abs().Walk(from, bound)
    {
      c := from;
      while bound <= c
        invariant Abs().Link(c) && Abs().Walk(c, bound) == Abs().Walk(from, bound)
        decreases c
      {
        assert Abs().Linked(c - states.lastIndex - 1);
        c := ReadBack(c);
      }
    }

    /** The records from `index` on leave the file and the side index. */
    method CutAt(index: nat)
      requires Mapped() && Indexed(infos, All()) && Numbering(infos, states.lastIndex)
      requires states.lastIndex < index <= states.lastIndex + |recs|
      modifies `payload, `infos, `recs, file
      ensures Mapped() && Indexed(infos, All()) && Numbering(infos, states.lastIndex)
      ensures recs == old(recs)[..index - states.lastIndex - 1]
    {
      ghost var k := index - states.lastIndex;
      var at := infos[index - states.lastIndex - infos[0].index].amount;
      MarkCut(at, k);
      CutIndexed(infos, All(), k);
      SentryCut(recs, k);
      payload := at;
      infos := infos[..index - states.lastIndex];
      recs := recs[..k - 1];
    }

    /** A zero word at a record's place ends the file there. */
    method MarkCut(at: nat, ghost k: nat)
      requires Image(file[..], All()) && 0 < k < |All()| && at == Offset(All(), k)
      modifies file
      ensures Image(file[..], All()[..k]) && at == |EncodeAll(All()[..k])| && at + WordSize <= file.Length
    {
      ghost var b := file[..];
      HoldsAtOffset(b, All(), k);
      Write(at, Word(0));
      CutImage(b, file[..], All(), k);
    }

    // ----- drop

    /** `copy(states_ptr, ...)`: the mapping of the states file grows to hold a new configuration text. */
    method CopyStates(data: Bytes, index: nat, term: nat) returns (rc: Rc)
      requires statSize > 0 && statSize % PageSize == 0
      modifies `states, `statSize
      ensures statSize > 0 && statSize % PageSize == 0 && rc != OutOfRange
      ensures rc == Good ==> states == States(index, term, if data != [] then data else old(states).lastConfig)
      ensures rc == Good && data != [] ==> Align(StatesHeader + |data|) <= statSize
      ensures rc != Good ==> states == old(states) && Grown(statSize) > limit
    {
      if data != [] {
        while statSize - StatesHeader < |data|
          invariant statSize > 0 && statSize % PageSize == 0 && states == old(states)
          decreases |data| + StatesHeader - statSize
        {
          GrownIsLarger(statSize);
          if Grown(statSize) > limit { return MapError; }
          statSize := Grown(statSize);
        }
        StatesFit(statSize, |data|);
        states := States(index, term, data);
      } else {
        states := states.(lastIndex := index, lastTerm := term);
      }
      rc := Good;
    }

    /** `operator[]` then `str`, for the chain head found by `drop` unless there is none. */
    method ReadText(c: nat) returns (text: Bytes)
      requires Valid() && Abs().Link(c)
      ensures text == if Abs().IsCfg(c) then Text(Abs().At(c)) else []
    {
      if c == 0 { return []; }
      var r := ReadRecord(c);
      text := if r == None then [] else Text(r.value);
    }

    method ReadTerm(index: nat) returns (term: nat)
      requires Valid() && Abs().Present(index)
      ensures term == Abs().At(index).term
    {
      var r := ReadRecord(index);
      term := r.value.term;
    }

    /** The records after `index` take the place of those dropped, in the file and in the side index. */
    method CutFront(index: nat)
      requires Mapped() && Indexed(infos, All()) && Numbering(infos, states.lastIndex)
      requires states.lastIndex < index < states.lastIndex + |recs|
      modifies `payload, `infos, `recs, file
      ensures Mapped() && Indexed(infos, All())
      ensures recs == old(recs)[index - states.lastIndex..]
    {
      ghost var n := index - states.lastIndex;
      var first, begin, end := FrontBounds(index);
      MoveRecords(first, begin, end, n);
      payload := payload - (begin - first);
      DropInfos(index, begin - first, n);
    }

    /** Where the first record lies, where the record after `index` begins, and where the last one ends. */
    method FrontBounds(index: nat) returns (first: nat, begin: nat, end: nat)
      requires Mapped() && Indexed(infos, All()) && Numbering(infos, states.lastIndex)
      requires states.lastIndex < index < states.lastIndex + |recs|
      ensures var n := index - states.lastIndex;
              && first == HeaderSize && begin == HeaderSize + |EncodeAll(recs[..n])| == Offset(All(), n + 1)
              && end == |EncodeAll(All())|
    {
      var front := infos[0].index;
      var next := index + 1;
      FrontOffsets(recs, index - states.lastIndex);
      first := infos[1 - front].amount;
      begin := infos[next - states.lastIndex - front].amount;
      end := LastEnd();
    }

    method LastEnd() returns (end: nat)
      requires Mapped() && Indexed(infos, All())
      ensures end == |EncodeAll(All())|
    {
      var last := infos[|infos| - 1].amount;
      LastEnds();
      end := last + WordAt(file[..], last);
    }

    /** The last record ends where the payload ends. */
    lemma LastEnds()
      requires Mapped() && Indexed(infos, All())
      ensures var last := infos[|infos| - 1].amount;
              last + HeaderSize <= file.Length && last + WordAt(file[..], last) == |EncodeAll(All())|
    {
      TailEnds(file[..], All());
    }

    /** The side index loses the same records. */
    method DropInfos(index: nat, dropped: nat, ghost n: nat)
      requires Indexed(infos, All()) && 0 < n < |recs| && n == index - states.lastIndex
      requires dropped == |EncodeAll(recs[..n])|
      modifies `infos, `recs
      ensures Indexed(infos, All()) && recs == old(recs)[n..]
    {
      ghost var rs := recs;
      UnshiftedInfos(infos, rs, n);
      infos := infos[..1] + infos[1 + index - states.lastIndex..];
      recs := rs[n..];
      ShiftInfos(dropped, rs, n);
    }

    /** `memmove` of the records after the first `n`, and the end marker behind them. */
    method MoveRecords(first: nat, begin: nat, end: nat, ghost n: nat)
      requires Image(file[..], All()) && 0 < n < |recs|
      requires first == HeaderSize && begin == Offset(All(), n + 1) && end == |EncodeAll(All())|
      modifies file
      ensures Image(file[..], [SentryRecord] + recs[n..])
      ensures |EncodeAll([SentryRecord] + recs[n..])| == end - (begin - first) <= end
    {
      ghost var b := file[..];
      FrontOffsets(recs, n);
      MoveDown(first, begin, end - begin);
      ghost var b1 := file[..];
      MarkEnd(end - (begin - first), []);
      FrontImage(b, b1, file[..], recs, n);
    }

    /** The loop that lowers every offset behind the sentry's. */
    method ShiftInfos(dropped: nat, ghost rs: seq<Record>, ghost n: nat)
      requires 0 < n < |rs| && dropped == |EncodeAll(rs[..n])| && Unshifted(infos, rs, n)
      modifies `infos
      ensures Indexed(infos, [SentryRecord] + rs[n..])
    {
      ghost var rest := [SentryRecord] + rs[n..];
      for k := 1 to |infos|
        invariant |infos| == |rest| && infos[0] == Info(0, 0)
        invariant forall j | 1 <= j < k :: infos[j] == Info(rest[j].index, Offset(rest, j))
        invariant forall j | k <= j < |infos| ::
                    infos[j] == Info(rs[n + j - 1].index, Offset([SentryRecord] + rs, n + j))
      {
        ShiftedOffset(rs, n, k);
        infos := infos[k := Info(infos[k].index, infos[k].amount - dropped)];
      }
    }

    /** The records are dropped but the states file still has the old base: the file and the side index agree with each
        other, not with the base. */
    ghost predicate Unsettled(before: Contents, index: nat)
      requires before.Sound() && before.Chained() && before.Present(index)
      reads this, file
    {
      Mapped() && Indexed(infos, All()) && Abs() == before.Drop(index).(states := before.states)
    }

    method Drop(index: nat) returns (rc: Rc)
      requires Valid()
      modifies this, file
      ensures file == old(file)
      ensures rc == OutOfRange <==> !old(Abs()).Present(index)
      ensures rc == OutOfRange ==> Valid() && Abs() == old(Abs())
      ensures rc == Good ==> Valid() && Abs() == old(Abs()).Drop(index)
      ensures rc == MapError ==> Unsettled(old(Abs()), index) && Grown(statSize) > limit
    {
      RefusedIffAbsent(index);
      if Refused(index) { return OutOfRange; }
      var text := DroppedText(index);
      var term := ReadTerm(index);
      rc := Compact(index, text, term);
    }

    /** The log and the states file once the text and the term of the new base are known. */
    method Compact(index: nat, text: Bytes, term: nat) returns (rc: Rc)
      requires Valid() && Abs().Present(index) && term == Abs().At(index).term
      requires (if text != [] then text else states.lastConfig) == Abs().DroppedConfig(index)
      modifies this, file
      ensures file == old(file) && rc != OutOfRange
      ensures rc == Good ==> Valid() && Abs() == old(Abs()).Drop(index)
      ensures rc == MapError ==> Unsettled(old(Abs()), index) && Grown(statSize) > limit
    {
      ghost var before := Abs();
      ClearHead(index);
      Remove(index);
      rc := Settle(index, text, term, before);
    }

    /** The states file gets the new base. */
    method Settle(index: nat, text: Bytes, term: nat, ghost before: Contents) returns (rc: Rc)
      requires Mapped() && Indexed(infos, All()) && before.Sound() && before.Chained() && before.Present(index)
      requires states == before.states && cfgIndex == (if index >= before.cfgIndex then 0 else before.cfgIndex)
      requires recs == before.recs[index - states.lastIndex..] && term == before.At(index).term
      requires (if text != [] then text else states.lastConfig) == before.DroppedConfig(index)
      modifies `states, `statSize
      ensures rc == Good ==> Valid() && Abs() == before.Drop(index)
      ensures rc != OutOfRange && (rc == MapError ==> Unsettled(before, index) && Grown(statSize) > limit)
    {
      rc := CopyStates(text, index, term);
      if rc == Good { Landed(before, index); }
    }

    /** The chain head is forgotten when its record is dropped. */
    method ClearHead(index: nat)
      requires Valid() && Abs().Present(index)
      modifies `cfgIndex
      ensures Valid() && cfgIndex == if index >= old(cfgIndex) then 0 else old(cfgIndex)
      ensures index == infos[|infos| - 1].index ==> cfgIndex == 0
    {
      HeadCleared(Abs(), index);
      if index >= cfgIndex { cfgIndex := 0; }
    }

    /** The records up to `index` leave the file. */
    method Remove(index: nat)
      requires Valid() && Abs().Present(index) && (index == infos[|infos| - 1].index ==> cfgIndex == 0)
      modifies this, file
      ensures Mapped() && Indexed(infos, All()) && file == old(file)
      ensures states == old(states) && cfgIndex == old(cfgIndex)
      ensures recs == old(recs)[index - states.lastIndex..]
    {
      if index == infos[|infos| - 1].index {
        CutAll(index);
      } else {
        CutFront(index);
      }
    }

    /** Dropping up to the last entry chops the whole log. */
    method CutAll(index: nat)
      requires Valid() && Abs().Present(index) && index == infos[|infos| - 1].index && cfgIndex == 0
      modifies this, file
      ensures Mapped() && Indexed(infos, All()) && file == old(file)
      ensures states == old(states) && cfgIndex == 0
      ensures recs == old(recs)[index - states.lastIndex..]
    {
      ghost var n := index - states.lastIndex;
      var rc := Chop(states.lastIndex + 1);
      assert recs == [];
    }

    lemma Landed(before: Contents, index: nat)
      requires Mapped() && Indexed(infos, All()) && before.Sound() && before.Chained() && before.Present(index)
      requires Abs() == before.Drop(index)
      ensures Valid()
    {
      DropKeepsChain(before, index);
      NumberingFromSound();
    }

    /** The configuration text that `drop` will write to the states file. */
    method DroppedText(index: nat) returns (text: Bytes)
      requires Valid() && Abs().Present(index)
      ensures (if text != [] then text else states.lastConfig) == Abs().DroppedConfig(index)
    {
      var c := WalkBack(cfgIndex, index + 1);
      text := ReadText(c);
      WalkedConfig(Abs(), index, c, text);
    }
  }

  /** Where the records after the first `n` begin and end. */
  lemma FrontOffsets(rs: seq<Record>, n: nat)
    requires 0 < n < |rs|
    ensures var all := [SentryRecord] + rs;
            && Offset(all, 1) == HeaderSize
            && Offset(all, n + 1) == HeaderSize + |EncodeAll(rs[..n])|
            && |EncodeAll(all)| == Offset(all, n + 1) + |EncodeAll(rs[n..])|
            && EncodeAll(all)[Offset(all, n + 1)..] == EncodeAll(rs[n..])
            && EncodeAll(all)[..HeaderSize] == Encode(SentryRecord)
  {
    var all := [SentryRecord] + rs;
    SplitAt(all, n + 1);
    SplitAt(all, 1);
    assert all[..1] == [SentryRecord] && all[n + 1..] == rs[n..] && all[..n + 1] == [SentryRecord] + rs[..n];
    EncodeOne(SentryRecord);
    EncodeConcat([SentryRecord], rs[..n]);
  }

  /** The bytes after the move: the sentry, the records after the first `n`, and the end marker. */
  lemma FrontImage(b: Bytes, b1: Bytes, b2: Bytes, rs: seq<Record>, n: nat)
    requires 0 < n < |rs| && Image(b, [SentryRecord] + rs) && |b1| == |b| && |b2| == |b|
    requires var all := [SentryRecord] + rs;
             var begin, end := Offset(all, n + 1), |EncodeAll(all)|;
             var top := HeaderSize + (end - begin);
             && b1[..HeaderSize] == b[..HeaderSize] && begin <= end && top + WordSize <= |b| && end <= |b|
             && b1[HeaderSize..top] == b[begin..end]
             && b2[..top] == b1[..top] && b2[top..top + WordSize] == Word(0)
    ensures Image(b2, [SentryRecord] + rs[n..])
    ensures |EncodeAll([SentryRecord] + rs[n..])| == HeaderSize + |EncodeAll(rs[n..])|
  {
    var all := [SentryRecord] + rs;
    FrontOffsets(rs, n);
    FrontFits(rs, n);
    var begin, end := Offset(all, n + 1), |EncodeAll(all)|;
    MovedSlices(b, EncodeAll(all), begin);
    EncodeConcat([SentryRecord], rs[n..]);
    EncodeOne(SentryRecord);
    PrefixOfTwo(b1, b2, Encode(SentryRecord), EncodeAll(rs[n..]));
    EndsInMarker(b2, [SentryRecord] + rs[n..]);
  }

  lemma EndsInMarker(b: Bytes, rs: seq<Record>)
    requires AllFit(rs) && Begins(b, rs)
    requires var n := |EncodeAll(rs)|; n + WordSize <= |b| && b[n..n + WordSize] == Word(0)
    ensures Image(b, rs)
  {
    WordRoundTrip(0);
  }

  lemma MovedSlices(b: Bytes, whole: Bytes, begin: nat)
    requires whole <= b && HeaderSize <= begin <= |whole|
    ensures b[begin..|whole|] == whole[begin..] && b[..HeaderSize] == whole[..HeaderSize]
  {
  }

  lemma PrefixOfTwo(b1: Bytes, b2: Bytes, x: Bytes, y: Bytes)
    requires |x| + |y| <= |b1| == |b2| && b1[..|x|] == x && b1[|x|..|x| + |y|] == y
    requires b2[..|x| + |y|] == b1[..|x| + |y|]
    ensures x + y <= b2
  {
    assert b1[..|x| + |y|] == b1[..|x|] + b1[|x|..|x| + |y|];
  }

  lemma FrontFits(rs: seq<Record>, n: nat)
    requires AllFit([SentryRecord] + rs) && n <= |rs|
    ensures AllFit([SentryRecord] + rs[n..])
  {
    forall k | 0 <= k < |rs| - n ensures Fits(rs[n..][k]) {
      assert rs[n + k] == ([SentryRecord] + rs)[n + k + 1];
    }
  }

  /** The side index after the entries of the dropped records left it, offsets not yet lowered. */
  predicate Unshifted(infos: seq<Info>, rs: seq<Record>, n: nat)
    requires n <= |rs|
  {
    && |infos| == 1 + |rs| - n && infos[0] == Info(0, 0)
    && forall k {:trigger infos[k]} | 1 <= k < |infos| ::
         infos[k] == Info(rs[n + k - 1].index, Offset([SentryRecord] + rs, n + k))
  }

  lemma UnshiftedInfos(infos: seq<Info>, rs: seq<Record>, n: nat)
    requires Indexed(infos, [SentryRecord] + rs) && 0 < n < |rs|
    ensures Unshifted(infos[..1] + infos[1 + n..], rs, n)
  {
    assert infos[0] == Info(0, 0);
    var tail := infos[..1] + infos[1 + n..];
    forall k | 1 <= k < |tail| ensures tail[k] == Info(rs[n + k - 1].index, Offset([SentryRecord] + rs, n + k)) {
      assert tail[k] == infos[n + k];
    }
  }

  lemma HeadCleared(c: Contents, index: nat)
    requires c.Sound() && c.Chained() && c.Present(index)
    ensures c.(cfgIndex := 0).Sound() && c.(cfgIndex := 0).Chained()
    ensures c.cfgIndex <= c.states.lastIndex + |c.recs|
  {
    var c' := c.(cfgIndex := 0);
    forall k | 0 <= k < |c'.recs| ensures c'.Linked(k) {
      assert c.Linked(k);
    }
  }

  lemma WalkedConfig(c: Contents, index: nat, p: nat, text: Bytes)
    requires c.Sound() && c.Chained() && c.Present(index) && p == c.Walk(c.cfgIndex, index + 1)
    requires text == if c.IsCfg(p) then Text(c.At(p)) else []
    ensures (if text != [] then text else c.states.lastConfig) == c.DroppedConfig(index)
  {
  }

  lemma ShiftedOffset(rs: seq<Record>, n: nat, k: nat)
    requires n <= |rs| && 1 <= k <= |rs| - n
    ensures Offset([SentryRecord] + rs[n..], k) + |EncodeAll(rs[..n])| == Offset([SentryRecord] + rs, n + k)
  {
    var mid := rs[n..][..k - 1];
    assert ([SentryRecord] + rs[n..])[..k] == [SentryRecord] + mid;
    assert ([SentryRecord] + rs)[..n + k] == [SentryRecord] + (rs[..n] + mid);
    EncodeConcat([SentryRecord], mid);
    EncodeConcat(rs[..n], mid);
    EncodeConcat([SentryRecord], rs[..n] + mid);
  }

  lemma SentryCut(rs: seq<Record>, k: nat)
    requires 0 < k <= |rs|
    ensures [SentryRecord] + rs[..k - 1] == ([SentryRecord] + rs)[..k]
  {
  }

  lemma SentryFirst(rs: seq<Record>, es: seq<Record>)
    ensures [SentryRecord] + (rs + es) == [SentryRecord] + rs + es
  {
  }

  lemma NextBatch(all: seq<Record>, es: seq<Record>, k: nat)
    requires k < |es| && AllFit(all) && AllFit(es) && all != []
    ensures AllFit(all + es[..k]) && all + es[..k] != []
    ensures |EncodeAll(all + es[..k])| + Size(es[k]) <= |EncodeAll(all)| + |EncodeAll(es)|
    ensures all + es[..k + 1] == all + es[..k] + [es[k]]
    ensures LastCfg(es[..k + 1]) == if es[k].cfg then es[k].index else LastCfg(es[..k])
  {
    RoomFor(all, es, k);
    assert es[..k + 1] == es[..k] + [es[k]];
    assert es[..k + 1][..k] == es[..k];
  }

  lemma StepTail(b: Bytes, all: seq<Record>, es: seq<Record>)
    requires AllFit(all) && AllFit(es) && all != [] && Begins(b, all + es)
    ensures var done := all + es;
            var tail := Offset(done, |done| - 1);
            tail + HeaderSize <= |b| && tail + WordAt(b, tail) == |EncodeAll(done)|
  {
    assert AllFit(all + es);
    TailEnds(b, all + es);
  }

  lemma RoomFor(all: seq<Record>, es: seq<Record>, k: nat)
    requires k < |es|
    ensures |EncodeAll(all + es[..k])| + Size(es[k]) <= |EncodeAll(all)| + |EncodeAll(es)|
  {
    EncodeConcat(all, es[..k]);
    OffsetNext(es, k);
    SplitAt(es, k + 1);
  }
}
