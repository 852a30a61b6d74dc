/** The string helpers of `utils.hpp`: splitting at separators, and replacing every occurrence of a text. */
module Strings {
  import opened RaftLog

  // ----- split

  /** `find_first_of`: the first separator at or after `next`, else the length. */
  function FindFirstOf(s: Bytes, seps: set<Byte>, next: nat): (k: nat)
    requires next <= |s|
    ensures next <= k <= |s|
    decreases |s| - next
  {
    if next == |s| || s[next] in seps then next else FindFirstOf(s, seps, next + 1)
  }

  lemma {:induction false} FoundFirst(s: Bytes, seps: set<Byte>, next: nat)
    requires next <= |s|
    ensures var k := FindFirstOf(s, seps, next);
            (k < |s| ==> s[k] in seps) && forall i | next <= i < k :: s[i] !in seps
    decreases |s| - next
  {
    if next < |s| && s[next] !in seps { FoundFirst(s, seps, next + 1); }
  }

  lemma {:induction false} FirstIs(s: Bytes, seps: set<Byte>, next: nat, k: nat)
    requires next <= k <= |s| && (k < |s| ==> s[k] in seps) && forall i | next <= i < k :: s[i] !in seps
    ensures FindFirstOf(s, seps, next) == k
    decreases |s| - next
  {
    if next < k { FirstIs(s, seps, next + 1, k); }
  }

  /** The stretches between separators, from `next` on. */
  function Fields(s: Bytes, seps: set<Byte>, next: nat): (fs: seq<Bytes>)
    requires next <= |s|
    ensures |fs| > 0
    decreases |s| - next
  {
    var k := FindFirstOf(s, seps, next);
    if k == |s| then [s[next..]] else [s[next..k]] + Fields(s, seps, k + 1)
  }

  method Split(src: Bytes, seps: set<Byte>) returns (v: seq<Bytes>)
    ensures v == Fields(src, seps, 0)
  {
    v := [];
    var next := 0;
    var curr := FindFirstOf(src, seps, next);
    while curr < |src|
      invariant next <= curr <= |src| && curr == FindFirstOf(src, seps, next)
      invariant v == [] ==> next == 0
      invariant Fields(src, seps, 0) == v + Fields(src, seps, next)
      decreases |src| - curr
    {
      FieldsGo(v, src[next..curr], Fields(src, seps, curr + 1));
      v := v + [src[next..curr]];
      next := curr + 1;
      curr := FindFirstOf(src, seps, next);
    }
    v := v + [if v == [] then src else src[next..]];
  }

  lemma FieldsGo(v: seq<Bytes>, first: Bytes, rest: seq<Bytes>)
    ensures v + ([first] + rest) == v + [first] + rest
  {
  }

  /** Fields with the separators that stood between them. */
  function Interleaved(fs: seq<Bytes>, marks: Bytes): Bytes
    requires |fs| == |marks| + 1
  {
    if marks == [] then fs[0] else fs[0] + [marks[0]] + Interleaved(fs[1..], marks[1..])
  }

  lemma InterleavedMore(first: Bytes, mark: Byte, fs: seq<Bytes>, marks: Bytes)
    requires |fs| == |marks| + 1
    ensures Interleaved([first] + fs, [mark] + marks) == first + [mark] + Interleaved(fs, marks)
  {
    assert ([first] + fs)[1..] == fs && ([mark] + marks)[1..] == marks;
  }

  predicate Without(f: Bytes, seps: set<Byte>) {
    forall i | 0 <= i < |f| :: f[i] !in seps
  }

  /** The fields and the separators between them are the text, for any set of separators, and no field has one. */
  lemma {:induction false} FieldsRebuild(s: Bytes, seps: set<Byte>, next: nat) returns (marks: Bytes)
    requires next <= |s|
    ensures |Fields(s, seps, next)| == |marks| + 1 && Interleaved(Fields(s, seps, next), marks) == s[next..]
    ensures forall k | 0 <= k < |marks| :: marks[k] in seps
    ensures forall f | f in Fields(s, seps, next) :: Without(f, seps)
    decreases |s| - next
  {
    var k := FindFirstOf(s, seps, next);
    FoundFirst(s, seps, next);
    if k == |s| {
      marks := [];
    } else {
      var rest := FieldsRebuild(s, seps, k + 1);
      marks := [s[k]] + rest;
      InterleavedMore(s[next..k], s[k], Fields(s, seps, k + 1), rest);
      SplitText(s, next, k);
    }
  }

  lemma SplitText(s: Bytes, next: nat, k: nat)
    requires next <= k < |s|
    ensures s[next..] == s[next..k] + [s[k]] + s[k + 1..]
  {
  }

  predicate Free(s: Bytes, sep: Byte) {
    sep !in s
  }

  function Join(fs: seq<Bytes>, sep: Byte): Bytes {
    if fs == [] then [] else if |fs| == 1 then fs[0] else fs[0] + [sep] + Join(fs[1..], sep)
  }

  /** What lies before `next` does not matter. */
  lemma {:induction false} FieldsShift(a: Bytes, s: Bytes, seps: set<Byte>, next: nat)
    requires next <= |s|
    ensures Fields(a + s, seps, |a| + next) == Fields(s, seps, next)
    decreases |s| - next
  {
    var k := FindFirstOf(s, seps, next);
    FoundFirst(s, seps, next);
    FirstIs(a + s, seps, |a| + next, |a| + k);
    assert (a + s)[|a| + next..|a| + k] == s[next..k];
    assert (a + s)[|a| + next..] == s[next..];
    if k < |s| { FieldsShift(a, s, seps, k + 1); }
  }

  /** Joining and splitting again gives back fields free of the separator. */
  lemma {:induction false} SplitJoin(fs: seq<Bytes>, sep: Byte)
    requires fs != [] && forall i | 0 <= i < |fs| :: Free(fs[i], sep)
    ensures Fields(Join(fs, sep), {sep}, 0) == fs
    decreases |fs|
  {
    assert Free(fs[0], sep);
    if |fs| == 1 {
      FirstIs(fs[0], {sep}, 0, |fs[0]|);
    } else {
      SplitJoin(fs[1..], sep);
      FirstField(fs[0], sep, Join(fs[1..], sep));
    }
  }

  /** A field free of the separator, and then the fields of what follows. */
  lemma FirstField(f: Bytes, sep: Byte, rest: Bytes)
    requires Free(f, sep)
    ensures Fields(f + [sep] + rest, {sep}, 0) == [f] + Fields(rest, {sep}, 0)
  {
    var s := f + [sep] + rest;
    FirstIs(s, {sep}, 0, |f|);
    FieldsShift(f + [sep], rest, {sep}, 0);
    assert s[..|f|] == f;
  }

  lemma {:induction false} FieldsAreFree(s: Bytes, sep: Byte, next: nat)
    requires next <= |s|
    ensures forall i | 0 <= i < |Fields(s, {sep}, next)| :: Free(Fields(s, {sep}, next)[i], sep)
    decreases |s| - next
  {
    var k := FindFirstOf(s, {sep}, next);
    FoundFirst(s, {sep}, next);
    if k < |s| { FieldsAreFree(s, sep, k + 1); }
  }

  /** Splitting loses nothing. */
  lemma {:induction false} JoinSplit(s: Bytes, sep: Byte, next: nat)
    requires next <= |s|
    ensures Join(Fields(s, {sep}, next), sep) == s[next..]
    decreases |s| - next
  {
    var k := FindFirstOf(s, {sep}, next);
    FoundFirst(s, {sep}, next);
    if k < |s| {
      JoinSplit(s, sep, k + 1);
      var fs, rest := Fields(s, {sep}, next), Fields(s, {sep}, k + 1);
      assert fs[0] == s[next..k] && fs[1..] == rest;
      assert s[next..] == s[next..k] + [sep] + s[k + 1..];
    }
  }

  // ----- replace_all

  /** `what` stands at position `k`. */
  predicate OccursAt(s: Bytes, what: Bytes, k: nat) {
    k + |what| <= |s| && s[k..k + |what|] == what
  }

  /** `find`: the first occurrence at or after `next`. */
  function Find(s: Bytes, what: Bytes, next: nat): (k: Option<nat>)
    requires next <= |s|
    ensures k.Some? ==> next <= k.value && OccursAt(s, what, k.value)
    decreases |s| - next
  {
    if OccursAt(s, what, next) then Some(next) else if next == |s| then None else Find(s, what, next + 1)
  }

  /** The text from `next` on with occurrences replaced from the left. */
  function Rewrite(s: Bytes, what: Bytes, with: Bytes, next: nat): Bytes
    requires what != [] && next <= |s|
    decreases |s| - next
  {
    if next == |s| then []
    else if OccursAt(s, what, next) then with + Rewrite(s, what, with, next + |what|)
    else [s[next]] + Rewrite(s, what, with, next + 1)
  }

  function Occurrences(s: Bytes, what: Bytes, next: nat): nat
    requires what != [] && next <= |s|
    decreases |s| - next
  {
    if next == |s| then 0
    else if OccursAt(s, what, next) then 1 + Occurrences(s, what, next + |what|)
    else Occurrences(s, what, next + 1)
  }

  /** Up to the first occurrence nothing changes. */
  lemma {:induction false} RewriteToFound(s: Bytes, what: Bytes, with: Bytes, next: nat, k: nat)
    requires what != [] && next <= |s| && Find(s, what, next) == Some(k)
    ensures Rewrite(s, what, with, next) == s[next..k] + (with + Rewrite(s, what, with, k + |what|))
    decreases |s| - next
  {
    var rest := with + Rewrite(s, what, with, k + |what|);
    if next == k {
      assert s[next..k] + rest == rest;
    } else {
      RewriteToFound(s, what, with, next + 1, k);
      SliceFromFront(s, next, k, rest);
    }
  }

  lemma {:induction false} CountToFound(s: Bytes, what: Bytes, next: nat, k: nat)
    requires what != [] && next <= |s| && Find(s, what, next) == Some(k)
    ensures Occurrences(s, what, next) == 1 + Occurrences(s, what, k + |what|)
    decreases |s| - next
  {
    if next < k { CountToFound(s, what, next + 1, k); }
  }

  lemma {:induction false} NothingFound(s: Bytes, what: Bytes, with: Bytes, next: nat)
    requires what != [] && next <= |s| && Find(s, what, next) == None
    ensures Rewrite(s, what, with, next) == s[next..] && Occurrences(s, what, next) == 0
    decreases |s| - next
  {
    if next < |s| {
      NothingFound(s, what, with, next + 1);
      assert s[next..] == [s[next]] + s[next + 1..];
    }
  }

  lemma SliceFromFront(s: Bytes, next: nat, k: nat, rest: Bytes)
    requires next < k <= |s|
    ensures [s[next]] + (s[next + 1..k] + rest) == s[next..k] + rest
  {
  }

  /** The search goes on in the rewritten text as in the original. */
  lemma {:induction false} FindShift(s: Bytes, r: Bytes, what: Bytes, i: nat, j: nat)
    requires i <= |s| && j <= |r| && s[i..] == r[j..]
    ensures var x, y := Find(s, what, i), Find(r, what, j);
            (x.Some? <==> y.Some?) && (x.Some? ==> x.value - i == y.value - j)
    decreases |s| - i
  {
    AtShift(s, r, what, i, j);
    if i < |s| {
      assert s[i + 1..] == s[i..][1..] && r[j + 1..] == r[j..][1..];
      FindShift(s, r, what, i + 1, j + 1);
    }
  }

  lemma AtShift(s: Bytes, r: Bytes, what: Bytes, i: nat, j: nat)
    requires i <= |s| && j <= |r| && s[i..] == r[j..]
    ensures OccursAt(s, what, i) <==> OccursAt(r, what, j)
  {
    if i + |what| <= |s| {
      assert s[i..i + |what|] == s[i..][..|what|] && r[j..j + |what|] == r[j..][..|what|];
    }
  }

  /** The text `r` has the first `i` bytes of `s` rewritten, up to `next`, and the rest unchanged. */
  predicate Rewriting(s: Bytes, what: Bytes, with: Bytes, r: Bytes, i: nat, next: nat, count: nat)
    requires what != []
  {
    && next <= |r| && i <= |s| && r[next..] == s[i..]
    && Rewrite(s, what, with, 0) == r[..next] + Rewrite(s, what, with, i)
    && Occurrences(s, what, 0) == count + Occurrences(s, what, i)
  }

  lemma Begun(s: Bytes, what: Bytes, with: Bytes)
    requires what != []
    ensures Rewriting(s, what, with, s, 0, 0, 0)
  {
  }

  /** The loop of `replace_all`; the search goes on behind what was put in. */
  method ReplaceAll(s: Bytes, what: Bytes, with: Bytes) returns (r: Bytes, count: nat)
    requires what != []
    ensures r == Rewrite(s, what, with, 0) && count == Occurrences(s, what, 0)
  {
    r, count := s, 0;
    var next: nat := 0;
    ghost var i: nat := 0;  // how much of the original text is done
    Begun(s, what, with);
    var found := Find(r, what, next);
    while found.Some?
      invariant Rewriting(s, what, with, r, i, next, count) && found == Find(r, what, next)
      decreases |s| - i
    {
      var at := found.value;
      ghost var k := OneReplacement(s, r, what, with, i, next, at, count);
      r := r[..at] + with + r[at + |what|..];
      count := count + 1;
      next, i := at + |with|, k + |what|;
      found := Find(r, what, next);
    }
    NoReplacement(s, r, what, with, i, next, count);
  }

  /** When nothing more is found the rest of the original stays. */
  lemma NoReplacement(s: Bytes, r: Bytes, what: Bytes, with: Bytes, i: nat, next: nat, count: nat)
    requires what != [] && Rewriting(s, what, with, r, i, next, count) && Find(r, what, next) == None
    ensures r == Rewrite(s, what, with, 0) && count == Occurrences(s, what, 0)
  {
    FindShift(s, r, what, i, next);
    NothingFound(s, what, with, i);
    assert r == r[..next] + r[next..];
  }

  /** An occurrence found at `at` of the text so far stands at `k` of the original; what it leaves to do. */
  lemma OneReplacement(s: Bytes, r: Bytes, what: Bytes, with: Bytes, i: nat, next: nat, at: nat, count: nat)
    returns (k: nat)
    requires what != [] && Rewriting(s, what, with, r, i, next, count) && Find(r, what, next) == Some(at)
    ensures i <= k && k + |what| <= |s| && next <= at && at + |what| <= |r|
    ensures Rewriting(s, what, with, r[..at] + with + r[at + |what|..], k + |what|, at + |with|, count + 1)
  {
    FindShift(s, r, what, i, next);
    k := Find(s, what, i).value;
    RewriteToFound(s, what, with, i, k);
    CountToFound(s, what, i, k);
    var rest := Rewrite(s, what, with, k + |what|);
    ReplacedOnce(s, r, i, next, k, |what|, with, rest);
    assert Rewrite(s, what, with, i) == s[i..k] + (with + rest);
  }

  lemma ReplacedOnce(s: Bytes, r: Bytes, i: nat, next: nat, k: nat, n: nat, with: Bytes, rest: Bytes)
    requires i <= k && k + n <= |s| && next <= |r| && r[next..] == s[i..]
    ensures next + (k - i) + n <= |r|
    ensures var at := next + (k - i);
            var r' := r[..at] + with + r[at + n..];
            && r'[at + |with|..] == s[k + n..]
            && r[..next] + (s[i..k] + (with + rest)) == r'[..at + |with|] + rest
  {
    var at := next + (k - i);
    assert s[i..][..k - i] == s[i..k] && r[next..][..k - i] == r[next..at];
    assert s[i..][k - i + n..] == s[k + n..] && r[next..][k - i + n..] == r[at + n..];
    assert r[..at] == r[..next] + s[i..k];
    assert (r[..at] + with + r[at + n..])[..at + |with|] == r[..at] + with;
  }

  // ----- The escaping of blanks in a request target

  const BlankText: Bytes := [32]
  const Escaped: Bytes := [37, 50, 48]  // "%20"

  function Escape(s: Bytes): Bytes {
    Rewrite(s, BlankText, Escaped, 0)
  }

  function Unescape(s: Bytes): Bytes {
    Rewrite(s, Escaped, BlankText, 0)
  }

  /** Rewriting from a position is rewriting what lies there. */
  lemma {:induction false} RewriteShift(s: Bytes, r: Bytes, what: Bytes, with: Bytes, i: nat, j: nat)
    requires what != [] && i <= |s| && j <= |r| && s[i..] == r[j..]
    ensures Rewrite(s, what, with, i) == Rewrite(r, what, with, j)
    decreases |s| - i
  {
    AtShift(s, r, what, i, j);
    if i < |s| {
      assert s[i] == s[i..][0] && r[j] == r[j..][0];
      if OccursAt(s, what, i) {
        assert s[i + |what|..] == s[i..][|what|..] && r[j + |what|..] == r[j..][|what|..];
        RewriteShift(s, r, what, with, i + |what|, j + |what|);
      } else {
        assert s[i + 1..] == s[i..][1..] && r[j + 1..] == r[j..][1..];
        RewriteShift(s, r, what, with, i + 1, j + 1);
      }
    }
  }

  predicate Contains(s: Bytes, what: Bytes, next: nat)
    requires next <= |s|
  {
    Find(s, what, next).Some?
  }

  /** `Contains` in other words. */
  lemma {:induction false} ContainsMeans(s: Bytes, what: Bytes, next: nat)
    requires next <= |s|
    ensures Contains(s, what, next) <==> exists k :: next <= k <= |s| && OccursAt(s, what, k)
    decreases |s| - next
  {
    if next < |s| && !OccursAt(s, what, next) { ContainsMeans(s, what, next + 1); }
  }

  /** The escaped text from `next` on, byte by byte. */
  lemma EscapeAt(s: Bytes, next: nat)
    requires next < |s|
    ensures var e, later := Rewrite(s, BlankText, Escaped, next), Rewrite(s, BlankText, Escaped, next + 1);
            && (s[next] == 32 ==> |e| >= 3 && e[0] == 37 && e[1] == 50 && e[2] == 48 && e[3..] == later)
            && (s[next] != 32 ==> |e| >= 1 && e[0] == s[next] && e[1..] == later)
  {
    assert OccursAt(s, BlankText, next) <==> s[next] == 32 by {
      assert s[next..next + 1] == [s[next]];
    }
  }

  lemma EscapedMeans(s: Bytes, next: nat)
    requires next <= |s|
    ensures OccursAt(s, Escaped, next) <==> next + 3 <= |s| && s[next] == 37 && s[next + 1] == 50 && s[next + 2] == 48
  {
    if next + 3 <= |s| {
      assert s[next..next + 3] == [s[next], s[next + 1], s[next + 2]];
    }
  }

  /** The unescaped text, byte by byte. */
  lemma UnescapeFront(s: Bytes)
    requires s != []
    ensures Unescape(s) ==
            if OccursAt(s, Escaped, 0) then BlankText + Unescape(s[3..]) else [s[0]] + Unescape(s[1..])
  {
    if OccursAt(s, Escaped, 0) {
      RewriteShift(s, s[3..], Escaped, BlankText, 3, 0);
    } else {
      RewriteShift(s, s[1..], Escaped, BlankText, 1, 0);
    }
  }

  /** Escaping neither makes nor hides a "%20" at a byte that is no blank. */
  lemma EscapedFront(s: Bytes, next: nat)
    requires next < |s| && s[next] != 32
    ensures var e := Rewrite(s, BlankText, Escaped, next);
            && (OccursAt(e, Escaped, 0) <==> OccursAt(s, Escaped, next))
            && (OccursAt(s, Escaped, next) ==> e[3..] == Rewrite(s, BlankText, Escaped, next + 3))
  {
    var e := Rewrite(s, BlankText, Escaped, next);
    EscapedMeans(s, next);
    EscapedMeans(e, 0);
    EscapeAt(s, next);
    if next + 1 < |s| {
      EscapeAt(s, next + 1);
      if next + 2 < |s| {
        EscapeAt(s, next + 2);
        assert e[1..][1..] == e[2..];
        assert |e| >= 3 ==> e[2..][1..] == e[3..] && e[2] == e[1..][1];
      }
    }
  }

  /** Unescaping sees no difference between a text and its escaped form. */
  lemma {:induction false} UnescapeEscape(s: Bytes, next: nat)
    requires next <= |s|
    ensures Unescape(Rewrite(s, BlankText, Escaped, next)) == Rewrite(s, Escaped, BlankText, next)
    decreases |s| - next
  {
    if next < |s| {
      var e := Rewrite(s, BlankText, Escaped, next);
      EscapeAt(s, next);
      UnescapeFront(e);
      EscapedMeans(e, 0);
      UnescapeEscape(s, next + 1);
      if s[next] == 32 {
        EscapedMeans(s, next);
      } else {
        EscapedFront(s, next);
        if OccursAt(s, Escaped, next) { UnescapeEscape(s, next + 3); }
      }
    }
  }

  /** Unescaping leaves a text alone exactly when there is nothing to unescape, and shortens it otherwise. */
  lemma {:induction false} UnescapeShortens(s: Bytes, next: nat)
    requires next <= |s|
    ensures var u := Rewrite(s, Escaped, BlankText, next);
            |u| <= |s| - next && (u == s[next..] <==> !Contains(s, Escaped, next))
    decreases |s| - next
  {
    if next < |s| {
      if OccursAt(s, Escaped, next) {
        UnescapeShortens(s, next + 3);
      } else {
        UnescapeShortens(s, next + 1);
        assert s[next..] == [s[next]] + s[next + 1..];
        assert s[next..][1..] == s[next + 1..];
        var later := Rewrite(s, Escaped, BlankText, next + 1);
        assert ([s[next]] + later)[1..] == later;
      }
    }
  }

  /** A text survives escaping and unescaping exactly when it does not contain "%20" itself. */
  lemma EscapingRoundTrip(s: Bytes)
    ensures Unescape(Escape(s)) == s <==> !exists k :: 0 <= k <= |s| && OccursAt(s, Escaped, k)
  {
    UnescapeEscape(s, 0);
    UnescapeShortens(s, 0);
    ContainsMeans(s, Escaped, 0);
    assert s[0..] == s;
  }
}
