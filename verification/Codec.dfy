/**
 The byte layout of the log file: little-endian 64-bit words, variable-size records in 8-byte steps behind a
 sentry, and a zero size word after the last one.
 */
module Codec {
  import opened RaftLog

  const WordSize := 8
  const WordLimit := 0x1_0000_0000_0000_0000
  const HeaderSize := 40  // sizeof(log_entry): size, index, term, cfg with padding, len

  // ----- Words

  /** The number without its `k` low bytes. */
  function Shifted(n: nat, k: nat): nat {
    if k == 0 then n else Shifted(n / 256, k - 1)
  }

  function EncodeLE(n: nat, width: nat): (b: Bytes)
    ensures |b| == width
  {
    seq(width, k requires 0 <= k => Shifted(n, k) % 256)
  }

  function DecodeLE(b: Bytes): nat {
    DecodeFrom(b, 0)
  }

  /** The value of the bytes from `k` on, the least significant first. */
  function DecodeFrom(b: Bytes, k: nat): nat
    requires k <= |b|
    decreases |b| - k
  {
    if k == |b| then 0 else b[k] + 256 * DecodeFrom(b, k + 1)
  }

  function Pow256(k: nat): nat {
    if k == 0 then 1 else 256 * Pow256(k - 1)
  }

  lemma {:induction false} ShiftOnce(n: nat, k: nat)
    ensures Shifted(n, k + 1) == Shifted(n, k) / 256
    decreases k
  {
    if k > 0 { ShiftOnce(n / 256, k - 1); }
  }

  lemma {:induction false} ShiftedOut(n: nat, k: nat)
    requires n < Pow256(k)
    ensures Shifted(n, k) == 0
    decreases k
  {
    if k > 0 { ShiftedOut(n / 256, k - 1); }
  }

  lemma {:induction false} DecodeShifted(n: nat, width: nat, k: nat)
    requires n < Pow256(width) && k <= width
    ensures DecodeFrom(EncodeLE(n, width), k) == Shifted(n, k)
    decreases width - k
  {
    if k == width {
      ShiftedOut(n, width);
    } else {
      DecodeShifted(n, width, k + 1);
      ShiftOnce(n, k);
    }
  }

  lemma LERoundTrip(n: nat, width: nat)
    requires n < Pow256(width)
    ensures DecodeLE(EncodeLE(n, width)) == n
  {
    DecodeShifted(n, width, 0);
  }

  lemma WordLimitIsPower()
    ensures Pow256(8) == WordLimit
  {
    assert Pow256(4) == 0x1_0000_0000;
    assert Pow256(8) == 256 * (256 * (256 * (256 * Pow256(4))));
  }

  function Word(n: nat): (b: Bytes)
    ensures |b| == WordSize
  {
    EncodeLE(n, WordSize)
  }

  lemma WordRoundTrip(n: nat)
    requires n < WordLimit
    ensures DecodeLE(Word(n)) == n
  {
    WordLimitIsPower();
    LERoundTrip(n, WordSize);
  }

  function Zeros(n: nat): (b: Bytes)
    ensures |b| == n
  {
    seq(n, _ => 0)
  }

  lemma {:induction false} ZerosFrom(n: nat, k: nat)
    requires k <= n
    ensures DecodeFrom(Zeros(n), k) == 0
    decreases n - k
  {
    if k < n { ZerosFrom(n, k + 1); }
  }

  lemma ZerosDecode(n: nat)
    ensures DecodeLE(Zeros(n)) == 0
  {
    ZerosFrom(n, 0);
  }

  function Reversed(b: Bytes): (r: Bytes)
    ensures |r| == |b|
    ensures forall k | 0 <= k < |b| :: r[k] == b[|b| - 1 - k]
  {
    seq(|b|, k requires 0 <= k < |b| => b[|b| - 1 - k])
  }

  /** `hton64` then `memcpy` on a little-endian host: the word in network order. */
  function NetWord(n: nat): (b: Bytes)
    ensures |b| == WordSize
  {
    Reversed(Word(n))
  }

  /** In the mapping the lowest byte comes first, in network order last. */
  lemma ByteOrder(n: nat)
    ensures Word(n)[0] == n % 256 && NetWord(n)[7] == n % 256
    ensures n < 256 ==> Word(n) == [n] + Zeros(7) && NetWord(n) == Zeros(7) + [n]
  {
    if n < 256 {
      forall k | 1 <= k < 8 ensures Shifted(n, k) == 0 { SmallShifted(n, k); }
    }
  }

  lemma {:induction false} SmallShifted(n: nat, k: nat)
    requires n < 256 && k >= 1
    ensures Shifted(n, k) == 0
    decreases k
  {
    if k > 1 { SmallShifted(n / 256, k - 1); }
  }

  /** The first `k` bytes read in network order. */
  function DecodeNet(b: Bytes, k: nat): nat
    requires k <= |b|
    decreases k, |b|
  {
    if k == 0 then 0 else 256 * DecodeNet(b, k - 1) + b[k - 1]
  }

  lemma {:induction false} NetFromEnd(b: Bytes, k: nat)
    requires k <= |b|
    ensures DecodeNet(b, k) == DecodeFrom(Reversed(b), |b| - k)
    decreases k
  {
    if k > 0 { NetFromEnd(b, k - 1); }
  }

  /** `memcpy` then `ntoh64` on a little-endian host reads in network order. */
  lemma NetIsReversed(b: Bytes)
    ensures DecodeNet(b, |b|) == DecodeLE(Reversed(b))
  {
    NetFromEnd(b, |b|);
  }

  lemma NetRoundTrip(n: nat)
    requires n < WordLimit
    ensures DecodeNet(NetWord(n), WordSize) == n
  {
    assert Reversed(Reversed(Word(n))) == Word(n);
    NetIsReversed(NetWord(n));
    WordRoundTrip(n);
  }

  /** Only the bytes read matter. */
  lemma {:induction false} NetPrefix(a: Bytes, b: Bytes, k: nat)
    requires k <= |a| && k <= |b| && a[..k] == b[..k]
    ensures DecodeNet(a, k) == DecodeNet(b, k)
    decreases k
  {
    if k > 0 {
      assert a[..k - 1] == a[..k][..k - 1] && b[..k - 1] == b[..k][..k - 1];
      assert a[k - 1] == a[..k][k - 1] && b[k - 1] == b[..k][k - 1];
      NetPrefix(a, b, k - 1);
    }
  }

  // ----- Records

  /** A record of the log; the payload of a configuration entry starts with the index of the previous one. */
  datatype Record = Record(index: nat, term: nat, cfg: bool, data: Bytes)

  const SentryRecord := Record(0, 0, false, [])

  /** Rounded up to the record alignment. */
  function Align(n: nat): (r: nat)
    ensures n <= r < n + 8 && r % 8 == 0
  {
    (n + 7) / 8 * 8
  }

  function Size(r: Record): (n: nat)
    ensures n >= HeaderSize
  {
    Align(HeaderSize + |r.data|)
  }

  const LargestSize := WordLimit - 8

  predicate Fits(r: Record) {
    && r.index < WordLimit && r.term < WordLimit && HeaderSize + |r.data| <= LargestSize
    && (r.cfg ==> |r.data| >= WordSize)
  }

  /** The bound on the payload says that the record's size is a word. */
  lemma SizeIsWord(r: Record)
    ensures Size(r) < WordLimit <==> HeaderSize + |r.data| <= LargestSize
  {
  }

  function Flag(cfg: bool): Bytes {
    [if cfg then 1 else 0] + Zeros(7)
  }

  function Header(r: Record): (b: Bytes)
    ensures |b| == HeaderSize
  {
    (Word(Size(r)) + Word(r.index)) + ((Word(r.term) + Flag(r.cfg)) + Word(|r.data|))
  }

  function Encode(r: Record): (b: Bytes)
    ensures |b| == Size(r)
  {
    Header(r) + r.data + Zeros(Size(r) - HeaderSize - |r.data|)
  }

  /** The configuration mark is the byte 1 or 0. */
  lemma FlagByte(r: Record)
    ensures Encode(r)[24] == if r.cfg then 1 else 0
  {
  }

  // ----- Reading a field at an offset of a buffer

  function WordAt(b: Bytes, at: nat): nat
    requires at + WordSize <= |b|
  {
    DecodeLE(b[at..at + WordSize])
  }

  function RecordAt(b: Bytes, at: nat): Record
    requires at + HeaderSize <= |b| && at + HeaderSize + WordAt(b, at + 32) <= |b|
  {
    Record(WordAt(b, at + 8), WordAt(b, at + 16), b[at + 24] != 0,
           b[at + HeaderSize..at + HeaderSize + WordAt(b, at + 32)])
  }

  predicate Holds(b: Bytes, at: nat, r: Record) {
    at + Size(r) <= |b| && b[at..at + Size(r)] == Encode(r)
  }

  lemma SliceLeft(a: Bytes, b: Bytes, lo: nat, hi: nat)
    requires lo <= hi <= |a|
    ensures (a + b)[lo..hi] == a[lo..hi]
  {
  }

  lemma SliceRight(a: Bytes, b: Bytes, lo: nat, hi: nat)
    requires lo <= hi <= |b|
    ensures (a + b)[|a| + lo..|a| + hi] == b[lo..hi]
  {
  }

  lemma PairSlices(a: Bytes, b: Bytes)
    ensures (a + b)[..|a|] == a && (a + b)[|a|..|a| + |b|] == b
  {
  }

  lemma HeaderWords(r: Record)
    ensures Header(r)[0..8] == Word(Size(r))
    ensures Header(r)[8..16] == Word(r.index)
    ensures Header(r)[16..24] == Word(r.term)
    ensures Header(r)[24..32] == Flag(r.cfg)
    ensures Header(r)[32..40] == Word(|r.data|)
  {
    var a := Word(Size(r)) + Word(r.index);
    var b := Word(r.term) + Flag(r.cfg);
    var c := Word(|r.data|);
    PairSlices(Word(Size(r)), Word(r.index));
    PairSlices(Word(r.term), Flag(r.cfg));
    SliceLeft(a, b + c, 0, 8);
    SliceLeft(a, b + c, 8, 16);
    SliceRight(a, b + c, 0, 8);
    SliceRight(a, b + c, 8, 16);
    SliceRight(a, b + c, 16, 24);
    SliceLeft(b, c, 0, 8);
    SliceLeft(b, c, 8, 16);
    SliceRight(b, c, 0, 8);
  }

  lemma SliceOf(b: Bytes, at: nat, e: Bytes, lo: nat, hi: nat)
    requires at + |e| <= |b| && b[at..at + |e|] == e && lo <= hi <= |e|
    ensures b[at + lo..at + hi] == e[lo..hi]
  {
    forall i | 0 <= i < hi - lo ensures b[at + lo..at + hi][i] == e[lo..hi][i] {
      assert b[at + lo + i] == b[at..at + |e|][lo + i];
    }
  }

  /** The header words of a record in a buffer. */
  lemma HeaderAt(b: Bytes, at: nat, r: Record)
    requires Holds(b, at, r)
    ensures b[at..at + 8] == Word(Size(r)) && b[at + 8..at + 16] == Word(r.index)
    ensures b[at + 16..at + 24] == Word(r.term) && b[at + 24..at + 32] == Flag(r.cfg)
    ensures b[at + 32..at + 40] == Word(|r.data|)
    ensures b[at + HeaderSize..at + HeaderSize + |r.data|] == r.data
  {
    var h, pad := Header(r), Zeros(Size(r) - HeaderSize - |r.data|);
    HeaderWords(r);
    PairSlices(h + r.data, pad);
    PairSlices(h, r.data);
    SliceOf(b, at, Encode(r), 0, HeaderSize + |r.data|);
    SliceOf(b, at, h + r.data, 0, HeaderSize);
    SliceOf(b, at, h + r.data, HeaderSize, HeaderSize + |r.data|);
    SliceOf(b, at, h, 0, 8);
    SliceOf(b, at, h, 8, 16);
    SliceOf(b, at, h, 16, 24);
    SliceOf(b, at, h, 24, 32);
    SliceOf(b, at, h, 32, 40);
  }

  /** Every field of an encoded record reads back. */
  lemma FieldsReadBack(b: Bytes, at: nat, r: Record)
    requires Holds(b, at, r) && Fits(r)
    ensures WordAt(b, at) == Size(r)
    ensures WordAt(b, at + 8) == r.index && WordAt(b, at + 16) == r.term
    ensures (b[at + 24] != 0) == r.cfg
    ensures WordAt(b, at + 32) == |r.data|
    ensures RecordAt(b, at) == r
  {
    HeaderAt(b, at, r);
    SizeIsWord(r);
    WordRoundTrip(Size(r));
    WordRoundTrip(r.index);
    WordRoundTrip(r.term);
    WordRoundTrip(|r.data|);
    assert b[at + 24] == b[at + 24..at + 32][0] == Flag(r.cfg)[0];
  }

  // ----- Files: records one after the other

  function Concat(parts: seq<Bytes>): Bytes {
    if parts == [] then [] else parts[0] + Concat(parts[1..])
  }

  lemma {:induction false} ConcatSplits(a: seq<Bytes>, b: seq<Bytes>)
    ensures Concat(a + b) == Concat(a) + Concat(b)
    decreases |a|
  {
    if a == [] {
      assert a + b == b;
    } else {
      assert (a + b)[1..] == a[1..] + b;
      ConcatSplits(a[1..], b);
    }
  }

  function Parts(rs: seq<Record>): (parts: seq<Bytes>)
    ensures |parts| == |rs| && forall k {:trigger parts[k]} | 0 <= k < |rs| :: parts[k] == Encode(rs[k])
  {
    seq(|rs|, k requires 0 <= k < |rs| => Encode(rs[k]))
  }

  function EncodeAll(rs: seq<Record>): Bytes {
    Concat(Parts(rs))
  }

  /** The offset of record `k`: the sizes of those before it. */
  function Offset(rs: seq<Record>, k: nat): nat
    requires k <= |rs|
  {
    |EncodeAll(rs[..k])|
  }

  lemma EncodeConcat(a: seq<Record>, b: seq<Record>)
    ensures EncodeAll(a + b) == EncodeAll(a) + EncodeAll(b)
  {
    assert Parts(a + b) == Parts(a) + Parts(b);
    ConcatSplits(Parts(a), Parts(b));
  }

  lemma EncodeOne(r: Record)
    ensures EncodeAll([r]) == Encode(r)
  {
    assert Parts([r]) == [Encode(r)];
    assert Concat([Encode(r)][1..]) == [];
  }

  lemma EncodeHead(rs: seq<Record>)
    requires rs != []
    ensures EncodeAll(rs) == Encode(rs[0]) + EncodeAll(rs[1..])
  {
    assert rs == [rs[0]] + rs[1..];
    EncodeConcat([rs[0]], rs[1..]);
    EncodeOne(rs[0]);
  }

  /** Splitting a file at a record boundary. */
  lemma SplitAt(rs: seq<Record>, k: nat)
    requires k <= |rs|
    ensures EncodeAll(rs) == EncodeAll(rs[..k]) + EncodeAll(rs[k..])
    ensures Offset(rs, k) <= |EncodeAll(rs)|
    ensures EncodeAll(rs)[..Offset(rs, k)] == EncodeAll(rs[..k])
    ensures EncodeAll(rs)[Offset(rs, k)..] == EncodeAll(rs[k..])
  {
    assert rs == rs[..k] + rs[k..];
    EncodeConcat(rs[..k], rs[k..]);
  }

  lemma OffsetNext(rs: seq<Record>, k: nat)
    requires k < |rs|
    ensures Offset(rs, k + 1) == Offset(rs, k) + Size(rs[k])
  {
    assert rs[..k + 1] == rs[..k] + [rs[k]];
    EncodeConcat(rs[..k], [rs[k]]);
    EncodeOne(rs[k]);
  }

  /** Record `k` lies at its offset. */
  lemma HoldsAtOffset(b: Bytes, rs: seq<Record>, k: nat)
    requires Begins(b, rs) && k < |rs|
    ensures Holds(b, Offset(rs, k), rs[k])
    ensures Offset(rs, k + 1) == Offset(rs, k) + Size(rs[k]) <= |EncodeAll(rs)|
  {
    SplitAt(rs, k + 1);
    OffsetNext(rs, k);
    assert rs[..k + 1] == rs[..k] + [rs[k]];
    EncodeConcat(rs[..k], [rs[k]]);
    EncodeOne(rs[k]);
    TailOfPrefix(b, EncodeAll(rs), EncodeAll(rs[..k]), Encode(rs[k]));
  }

  lemma TailOfPrefix(b: Bytes, whole: Bytes, head: Bytes, e: Bytes)
    requires whole <= b && head + e <= whole
    ensures |head| + |e| <= |b| && b[|head|..|head| + |e|] == e
  {
    assert b[..|head| + |e|] == head + e;
    SliceOf(b, 0, head + e, |head|, |head| + |e|);
  }

  /** Reading records from `at` on until the zero marker (or the end of the buffer). */
  function Scan(b: Bytes, at: nat): seq<Record>
    decreases |b| - at
  {
    if at + HeaderSize > |b| || WordAt(b, at) == 0 || at + HeaderSize + WordAt(b, at + 32) > |b| then []
    else [RecordAt(b, at)] + Scan(b, at + WordAt(b, at))
  }

  predicate AllFit(rs: seq<Record>) {
    forall k | 0 <= k < |rs| :: Fits(rs[k])
  }

  /** The bytes begin with those of the records. */
  predicate Begins(b: Bytes, rs: seq<Record>) {
    |EncodeAll(rs)| <= |b| && b[..|EncodeAll(rs)|] == EncodeAll(rs)
  }

  /** A file image: the records, then a zero word. */
  predicate Image(b: Bytes, rs: seq<Record>) {
    var n := |EncodeAll(rs)|;
    && AllFit(rs)
    && Begins(b, rs)
    && n + WordSize <= |b| && WordAt(b, n) == 0
  }

  lemma ScanStep(b: Bytes, at: nat, r: Record, rest: seq<Record>)
    requires Holds(b, at, r) && Fits(r) && Scan(b, at + Size(r)) == rest
    ensures Scan(b, at) == [r] + rest
  {
    FieldsReadBack(b, at, r);
  }

  lemma ScanEnd(b: Bytes, at: nat)
    requires at + WordSize <= |b| && WordAt(b, at) == 0
    ensures Scan(b, at) == []
  {
  }

  /** The records `rs` and a zero word lie at `at`. */
  predicate ImageAt(b: Bytes, at: nat, rs: seq<Record>) {
    var end := at + |EncodeAll(rs)|;
    end + WordSize <= |b| && b[at..end] == EncodeAll(rs) && WordAt(b, end) == 0
  }

  lemma ImageTail(b: Bytes, at: nat, rs: seq<Record>)
    requires ImageAt(b, at, rs) && rs != []
    ensures Holds(b, at, rs[0]) && ImageAt(b, at + Size(rs[0]), rs[1..])
  {
    var e, rest := Encode(rs[0]), EncodeAll(rs[1..]);
    EncodeHead(rs);
    PairSlices(e, rest);
    SliceOf(b, at, e + rest, 0, |e|);
    SliceOf(b, at, e + rest, |e|, |e| + |rest|);
  }

  lemma FitTail(rs: seq<Record>)
    requires AllFit(rs) && rs != []
    ensures Fits(rs[0]) && AllFit(rs[1..])
  {
  }

  lemma {:induction false} ScanFrom(b: Bytes, at: nat, rs: seq<Record>)
    requires ImageAt(b, at, rs) && AllFit(rs)
    ensures Scan(b, at) == rs
    decreases |rs|
  {
    if rs == [] {
      ScanEnd(b, at);
    } else {
      FitTail(rs);
      ImageTail(b, at, rs);
      ScanFrom(b, at + Size(rs[0]), rs[1..]);
      ScanStep(b, at, rs[0], rs[1..]);
      assert rs == [rs[0]] + rs[1..];
    }
  }

  /** Scanning a file image reads exactly its records. */
  lemma ScanReadsBack(b: Bytes, rs: seq<Record>)
    requires Image(b, rs)
    ensures Scan(b, 0) == rs
  {
    ScanFrom(b, 0, rs);
  }
}
