/** The byte-at-a-time command parser, and the exact language it accepts. */
module CommandParser {
  import opened RaftLog

  const Tab: Byte := 9
  const Lf: Byte := 10
  const Cr: Byte := 13
  const Space: Byte := 32
  const GetWord: Bytes := [103, 101, 116]  // "get"
  const SetWord: Bytes := [115, 101, 116]  // "set"
  const DelWord: Bytes := [100, 101, 108]  // "del"
  const CrLf: Bytes := [Cr, Lf]

  predicate Blank(c: Byte) {
    c == Space || c == Tab
  }

  predicate LineEnd(c: Byte) {
    c == Cr || c == Lf
  }

  datatype CommandType = Get | Set | Del | Unknown
  datatype Command = Command(kind: CommandType, key: Bytes, value: Bytes)
  datatype Result = Good | Bad | NeedMore

  const NoCommand := Command(Unknown, [], [])

  datatype State =
    | Start | TypeG | TypeGe | TypeS | TypeSe | TypeSet | TypeD | TypeDe | TypeDone
    | ReadKey | ReadSetKey | ReadSetBlank | ReadSetValue | Carriage

  // ----- One byte

  datatype Outcome = Outcome(state: State, cmd: Command, result: Result)

  function Go(state: State, cmd: Command): Outcome {
    Outcome(state, cmd, NeedMore)
  }

  function PushKey(cmd: Command, c: Byte): Command {
    cmd.(key := cmd.key + [c])
  }

  function PushValue(cmd: Command, c: Byte): Command {
    cmd.(value := cmd.value + [c])
  }

  function DoParse(state: State, cmd: Command, c: Byte): Outcome {
    var bad := Outcome(state, cmd, Bad);
    match state
    case Start =>
      if Blank(c) then Go(Start, cmd)
      else if c == 103 then Go(TypeG, cmd)
      else if c == 115 then Go(TypeS, cmd)
      else if c == 100 then Go(TypeD, cmd)
      else bad
    case TypeG => if c == 101 then Go(TypeGe, cmd) else bad
    case TypeGe => if c == 116 then Go(TypeDone, cmd.(kind := Get)) else bad
    case TypeS => if c == 101 then Go(TypeSe, cmd) else bad
    case TypeSe => if c == 116 then Go(TypeSet, cmd.(kind := Set)) else bad
    case TypeSet => if Blank(c) then Go(TypeSet, cmd) else Go(ReadSetKey, PushKey(cmd, c))
    case TypeD => if c == 101 then Go(TypeDe, cmd) else bad
    case TypeDe => if c == 108 then Go(TypeDone, cmd.(kind := Del)) else bad
    case TypeDone =>
      if LineEnd(c) then bad else if Blank(c) then Go(TypeDone, cmd) else Go(ReadKey, PushKey(cmd, c))
    case ReadSetKey =>
      if LineEnd(c) then bad else if Blank(c) then Go(ReadSetBlank, cmd) else Go(ReadSetKey, PushKey(cmd, c))
    case ReadSetBlank =>
      if LineEnd(c) then bad else if Blank(c) then Go(ReadSetBlank, cmd) else Go(ReadSetValue, PushValue(cmd, c))
    case ReadSetValue => if c == Cr then Go(Carriage, cmd) else Go(ReadSetValue, PushValue(cmd, c))
    case ReadKey => if c == Cr then Go(Carriage, cmd) else Go(ReadKey, PushKey(cmd, c))
    case Carriage => if c == Lf then Outcome(state, cmd, Good) else bad
  }

  // ----- A stretch of bytes

  datatype Parsed = Parsed(last: Outcome, consumed: nat)

  /** Feed bytes until one of them settles the command, or all are used. */
  function Feed(state: State, cmd: Command, input: Bytes): (r: Parsed)
    ensures r.consumed <= |input|
    ensures r.last.result == NeedMore ==> r.consumed == |input|
    decreases |input|
  {
    if input == [] then Parsed(Outcome(state, cmd, NeedMore), 0)
    else
      var o := DoParse(state, cmd, input[0]);
      if o.result != NeedMore then Parsed(o, 1)
      else
        var rest := Feed(o.state, o.cmd, input[1..]);
        rest.(consumed := rest.consumed + 1)
  }

  /** The parser object: its state and the command it fills survive from one call to the next. */
  class Parser {
    var state: State
    var cmd: Command

    constructor ()
      ensures state == Start && cmd == NoCommand
    {
      state, cmd := Start, NoCommand;
    }

    method Parse(input: Bytes) returns (result: Result, consumed: nat)
      modifies this
      ensures Parsed(Outcome(state, cmd, result), consumed) == Feed(old(state), old(cmd), input)
    {
      result, consumed := NeedMore, 0;
      while consumed < |input|
        invariant consumed <= |input| && result == NeedMore
        invariant var rest := Feed(state, cmd, input[consumed..]);
                  Feed(old(state), old(cmd), input) == rest.(consumed := rest.consumed + consumed)
      {
        var o := DoParse(state, cmd, input[consumed]);
        assert input[consumed..][1..] == input[consumed + 1..];
        state, cmd := o.state, o.cmd;
        consumed := consumed + 1;
        if o.result != NeedMore { return o.result, consumed; }
      }
    }
  }

  /** Splitting the input into chunks makes no difference: the second call goes on where the first stopped. */
  lemma {:induction false} ChunksMakeNoDifference(state: State, cmd: Command, a: Bytes, b: Bytes)
    ensures var first := Feed(state, cmd, a);
            Feed(state, cmd, a + b) ==
              if first.last.result != NeedMore then first
              else
                var second := Feed(first.last.state, first.last.cmd, b);
                second.(consumed := |a| + second.consumed)
    decreases |a|
  {
    if a == [] {
      assert a + b == b;
    } else {
      assert (a + b)[1..] == a[1..] + b;
      var o := DoParse(state, cmd, a[0]);
      if o.result == NeedMore { ChunksMakeNoDifference(o.state, o.cmd, a[1..], b); }
    }
  }

  /** The last byte used settles the command; a bad one leaves state and command as they were before it. */
  predicate Settles(before: Parsed, c: Byte, last: Outcome) {
    && before.last.result == NeedMore && DoParse(before.last.state, before.last.cmd, c) == last
    && (last.result == Bad ==> last.state == before.last.state && last.cmd == before.last.cmd)
  }

  lemma BadLeaves(state: State, cmd: Command, c: Byte)
    ensures DoParse(state, cmd, c).result == Bad ==>
              DoParse(state, cmd, c).state == state && DoParse(state, cmd, c).cmd == cmd
  {
  }

  lemma {:induction false} SettledByLast(state: State, cmd: Command, input: Bytes)
    requires Feed(state, cmd, input).last.result != NeedMore
    ensures var r := Feed(state, cmd, input);
            r.consumed >= 1 && Settles(Feed(state, cmd, input[..r.consumed - 1]), input[r.consumed - 1], r.last)
    decreases |input|
  {
    var o := DoParse(state, cmd, input[0]);
    BadLeaves(state, cmd, input[0]);
    if o.result == NeedMore {
      SettledByLast(o.state, o.cmd, input[1..]);
      var n := Feed(state, cmd, input).consumed;
      assert input[..n - 1][0] == input[0] && input[..n - 1][1..] == input[1..][..n - 2];
    }
  }

  // ----- The accepted language

  predicate Blanks(s: Bytes) {
    forall k | 0 <= k < |s| :: Blank(s[k])
  }

  /** The key of `get` and `del`: up to the carriage return, blanks and line feeds inside included. */
  predicate LineKey(s: Bytes) {
    s != [] && !Blank(s[0]) && !LineEnd(s[0]) && Cr !in s
  }

  /** The key of `set`: a first byte that is no blank, then neither blanks nor line ends. */
  predicate SetKey(s: Bytes) {
    s != [] && !Blank(s[0]) && forall k | 1 <= k < |s| :: !Blank(s[k]) && !LineEnd(s[k])
  }

  predicate SetValue(s: Bytes) {
    s != [] && !Blank(s[0]) && !LineEnd(s[0]) && Cr !in s
  }

  /** The blanks of a command: before the word, before the key, before the value. */
  datatype Gaps = Gaps(lead: Bytes, mid: Bytes, sep: Bytes)

  function CommandWord(kind: CommandType): Bytes {
    match kind
    case Get => GetWord
    case Set => SetWord
    case Del => DelWord
    case Unknown => []
  }

  predicate WellFormed(g: Gaps, cmd: Command) {
    && Blanks(g.lead) && Blanks(g.mid)
    && match cmd.kind
       case Unknown => false
       case Set => SetKey(cmd.key) && Blanks(g.sep) && g.sep != [] && SetValue(cmd.value)
       case _ => LineKey(cmd.key) && g.sep == [] && cmd.value == []
  }

  function Glue(a: Bytes, b: Bytes, c: Bytes): Bytes {
    a + b + c
  }

  /** A command line with these gaps and this content. */
  function Line(g: Gaps, cmd: Command): Bytes {
    Glue(g.lead + CommandWord(cmd.kind), g.mid + cmd.key, g.sep + cmd.value) + CrLf
  }

  // ----- What is accepted is well-formed

  /** The part of the command word a state has read. */
  function WordSoFar(state: State, kind: CommandType): Bytes {
    match state
    case Start => []
    case TypeG => GetWord[..1]
    case TypeGe => GetWord[..2]
    case TypeS => SetWord[..1]
    case TypeSe => SetWord[..2]
    case TypeD => DelWord[..1]
    case TypeDe => DelWord[..2]
    case _ => CommandWord(kind)
  }

  /** The bytes that lead to a state, given the gaps among them. */
  function Spelled(state: State, cmd: Command, g: Gaps): Bytes {
    Glue(g.lead + WordSoFar(state, cmd.kind), g.mid + cmd.key, g.sep + cmd.value) + if state.Carriage? then [Cr] else []
  }

  predicate InWord(state: State) {
    state.Start? || state.TypeG? || state.TypeGe? || state.TypeS? || state.TypeSe? || state.TypeD? || state.TypeDe?
  }

  /** What a state knows of the command and of the gaps. */
  predicate Shape(state: State, cmd: Command, g: Gaps) {
    && Blanks(g.lead) && Blanks(g.mid) && Blanks(g.sep)
    && match state
       case TypeSet => cmd == Command(Set, [], []) && g.sep == []
       case TypeDone => (cmd == Command(Get, [], []) || cmd == Command(Del, [], [])) && g.sep == []
       case ReadKey => (cmd.kind == Get || cmd.kind == Del) && LineKey(cmd.key) && cmd.value == g.sep == []
       case ReadSetKey => cmd.kind == Set && SetKey(cmd.key) && cmd.value == g.sep == []
       case ReadSetBlank => cmd.kind == Set && SetKey(cmd.key) && g.sep != [] && cmd.value == []
       case ReadSetValue => WellFormed(g, cmd) && cmd.kind == Set
       case Carriage => WellFormed(g, cmd)
       case _ => cmd == NoCommand && g.mid == g.sep == []
  }

  /** The gap that one more byte extends. */
  function Widen(state: State, g: Gaps, c: Byte): Gaps {
    if !Blank(c) then g
    else match state
      case Start => g.(lead := g.lead + [c])
      case TypeSet => g.(mid := g.mid + [c])
      case TypeDone => g.(mid := g.mid + [c])
      case ReadSetKey => g.(sep := g.sep + [c])
      case ReadSetBlank => g.(sep := g.sep + [c])
      case _ => g
  }

  lemma StepShape(state: State, cmd: Command, g: Gaps, c: Byte)
    requires Shape(state, cmd, g)
    ensures var o := DoParse(state, cmd, c);
            o.result == NeedMore ==> Shape(o.state, o.cmd, Widen(state, g, c))
  {
  }

  /** One more byte goes to the end of the last part that is not empty, or starts the next one. */
  lemma GrowsAtEnd(a: Bytes, b: Bytes, x: Byte)
    ensures a + (b + [x]) == a + b + [x]
  {
  }

  lemma WordSpelled(state: State, kind: CommandType, c: Byte)
    requires InWord(state) && !state.Start?
    ensures var o := DoParse(state, NoCommand, c);
            o.result == NeedMore ==> WordSoFar(o.state, o.cmd.kind) == WordSoFar(state, kind) + [c]
  {
    assert GetWord[..1] + [GetWord[1]] == GetWord[..2] && GetWord[..2] + [GetWord[2]] == GetWord;
    assert SetWord[..1] + [SetWord[1]] == SetWord[..2] && SetWord[..2] + [SetWord[2]] == SetWord;
    assert DelWord[..1] + [DelWord[1]] == DelWord[..2] && DelWord[..2] + [DelWord[2]] == DelWord;
  }

  lemma EarlySpelled(state: State, cmd: Command, g: Gaps)
    requires g.mid == g.sep == cmd.key == cmd.value == [] && !state.Carriage?
    ensures Spelled(state, cmd, g) == g.lead + WordSoFar(state, cmd.kind)
  {
  }

  lemma StartSpelled(g: Gaps, c: Byte)
    requires g.mid == g.sep == []
    ensures var o := DoParse(Start, NoCommand, c);
            o.result == NeedMore ==> Spelled(o.state, o.cmd, Widen(Start, g, c)) == Spelled(Start, NoCommand, g) + [c]
  {
    var o := DoParse(Start, NoCommand, c);
    EarlySpelled(Start, NoCommand, g);
    EarlySpelled(o.state, NoCommand, Widen(Start, g, c));
  }

  lemma StepSpelledWord(state: State, g: Gaps, c: Byte)
    requires Shape(state, NoCommand, g) && InWord(state)
    ensures var o := DoParse(state, NoCommand, c);
            o.result == NeedMore ==> Spelled(o.state, o.cmd, Widen(state, g, c)) == Spelled(state, NoCommand, g) + [c]
  {
    var o := DoParse(state, NoCommand, c);
    EarlySpelled(state, NoCommand, g);
    if state.Start? {
      StartSpelled(g, c);
    } else if o.result == NeedMore {
      EarlySpelled(o.state, o.cmd, g);
      WordSpelled(state, Unknown, c);
      GrowsAtEnd(g.lead, WordSoFar(state, Unknown), c);
    }
  }

  lemma StepSpelledRest(state: State, cmd: Command, g: Gaps, c: Byte)
    requires Shape(state, cmd, g) && !InWord(state)
    ensures var o := DoParse(state, cmd, c);
            o.result == NeedMore ==> Spelled(o.state, o.cmd, Widen(state, g, c)) == Spelled(state, cmd, g) + [c]
  {
    var w := g.lead + CommandWord(cmd.kind);
    GrowsAtEnd(g.mid, cmd.key, c);
    GrowsAtEnd(g.sep, cmd.value, c);
    GrowsAtEnd(w, g.mid, c);
    GrowsAtEnd(w, g.mid + cmd.key, c);
    GrowsAtEnd(w + (g.mid + cmd.key), g.sep, c);
    GrowsAtEnd(w + (g.mid + cmd.key), g.sep + cmd.value, c);
  }

  /** A settled command is the line it was read from. */
  lemma {:induction false} ReadsOnly(state: State, cmd: Command, g: Gaps, input: Bytes) returns (g': Gaps)
    requires Shape(state, cmd, g)
    ensures var r := Feed(state, cmd, input);
            r.last.result == Good ==>
              WellFormed(g', r.last.cmd) && Spelled(state, cmd, g) + input[..r.consumed] == Line(g', r.last.cmd)
    decreases |input|
  {
    g' := g;
    if input != [] {
      var o := DoParse(state, cmd, input[0]);
      if o.result == NeedMore {
        StepShape(state, cmd, g, input[0]);
        StepSpelled(state, cmd, g, input[0]);
        g' := ReadsOnly(o.state, o.cmd, Widen(state, g, input[0]), input[1..]);
        FirstAndRest(Spelled(state, cmd, g), input, Feed(o.state, o.cmd, input[1..]).consumed);
      } else if o.result == Good {
        LineSpelled(g, cmd);
      }
    }
  }

  lemma FirstAndRest(s: Bytes, input: Bytes, n: nat)
    requires input != [] && n < |input|
    ensures s + input[..n + 1] == s + [input[0]] + input[1..][..n]
  {
  }

  lemma LineSpelled(g: Gaps, cmd: Command)
    ensures Line(g, cmd) == Spelled(Carriage, cmd, g) + [Lf]
  {
    assert CrLf == [Cr] + [Lf];
  }

  lemma StepSpelled(state: State, cmd: Command, g: Gaps, c: Byte)
    requires Shape(state, cmd, g)
    ensures var o := DoParse(state, cmd, c);
            o.result == NeedMore ==> Spelled(o.state, o.cmd, Widen(state, g, c)) == Spelled(state, cmd, g) + [c]
  {
    if InWord(state) { StepSpelledWord(state, g, c); } else { StepSpelledRest(state, cmd, g, c); }
  }

  const NoGaps := Gaps([], [], [])

  /** From the start state with an empty command: the command read is a well-formed line. */
  lemma Accepted(input: Bytes) returns (g: Gaps)
    ensures var r := Feed(Start, NoCommand, input);
            r.last.result == Good ==> WellFormed(g, r.last.cmd) && input[..r.consumed] == Line(g, r.last.cmd)
  {
    g := ReadsOnly(Start, NoCommand, NoGaps, input);
    EarlySpelled(Start, NoCommand, NoGaps);
    assert Spelled(Start, NoCommand, NoGaps) == [];
    var n := Feed(Start, NoCommand, input).consumed;
    assert [] + input[..n] == input[..n];
  }

  // ----- What is well-formed is accepted

  predicate Brings(state: State, cmd: Command, s: Bytes, state': State, cmd': Command) {
    Feed(state, cmd, s).last == Go(state', cmd')
  }

  lemma Then(state: State, cmd: Command, a: Bytes, s1: State, c1: Command, b: Bytes, s2: State, c2: Command)
    requires Brings(state, cmd, a, s1, c1) && Brings(s1, c1, b, s2, c2)
    ensures Brings(state, cmd, a + b, s2, c2)
  {
    ChunksMakeNoDifference(state, cmd, a, b);
  }

  lemma {:induction false} BlanksSkipped(state: State, cmd: Command, s: Bytes)
    requires Blanks(s) && (state.Start? || state.TypeSet? || state.TypeDone? || state.ReadSetBlank?)
    ensures Brings(state, cmd, s, state, cmd)
    decreases |s|
  {
    if s != [] { BlanksSkipped(state, cmd, s[1..]); }
  }

  lemma WordRead(kind: CommandType)
    requires !kind.Unknown?
    ensures Brings(Start, NoCommand, CommandWord(kind), if kind.Set? then TypeSet else TypeDone, Command(kind, [], []))
  {
    var w := CommandWord(kind);
    var o := DoParse(Start, NoCommand, w[0]);
    var o1 := DoParse(o.state, o.cmd, w[1]);
    var o2 := DoParse(o1.state, o1.cmd, w[2]);
    assert w[1..][1..] == [w[2]] && w[1..][1..][1..] == [];
    assert Feed(o2.state, o2.cmd, []).last == o2;
    assert Feed(o1.state, o1.cmd, [w[2]]).last == o2;
    assert Feed(o.state, o.cmd, w[1..]).last == o2;
  }

  /** In these states every byte of `s` is pushed onto the key or the value. */
  lemma {:induction false} KeyRead(state: State, cmd: Command, s: Bytes)
    requires state.ReadKey? || state.ReadSetKey?
    requires if state.ReadKey? then Cr !in s else forall k | 0 <= k < |s| :: !Blank(s[k]) && !LineEnd(s[k])
    ensures Brings(state, cmd, s, state, cmd.(key := cmd.key + s))
    decreases |s|
  {
    if s == [] {
      assert cmd.key + s == cmd.key;
    } else {
      KeyRead(state, PushKey(cmd, s[0]), s[1..]);
      assert cmd.key + [s[0]] + s[1..] == cmd.key + s;
    }
  }

  lemma {:induction false} ValueRead(cmd: Command, s: Bytes)
    requires Cr !in s
    ensures Brings(ReadSetValue, cmd, s, ReadSetValue, cmd.(value := cmd.value + s))
    decreases |s|
  {
    if s == [] {
      assert cmd.value + s == cmd.value;
    } else {
      ValueRead(PushValue(cmd, s[0]), s[1..]);
      assert cmd.value + [s[0]] + s[1..] == cmd.value + s;
    }
  }

  /** The first key byte is judged by another state than the rest. */
  lemma KeyStarts(state: State, cmd: Command, key: Bytes)
    requires cmd.key == [] && (state.TypeSet? || state.TypeDone?)
    requires if state.TypeSet? then SetKey(key) else LineKey(key)
    ensures Brings(state, cmd, key, if state.TypeSet? then ReadSetKey else ReadKey, cmd.(key := key))
  {
    var first, rest := PushKey(cmd, key[0]), key[1..];
    KeyRead(if state.TypeSet? then ReadSetKey else ReadKey, first, rest);
    assert first.key + rest == key;
  }

  lemma ValueStarts(cmd: Command, value: Bytes)
    requires cmd.value == [] && SetValue(value)
    ensures Brings(ReadSetBlank, cmd, value, ReadSetValue, cmd.(value := value))
  {
    var first, rest := PushValue(cmd, value[0]), value[1..];
    ValueRead(first, rest);
    assert first.value + rest == value;
  }

  lemma SeparatorRead(cmd: Command, sep: Bytes)
    requires Blanks(sep) && sep != []
    ensures Brings(ReadSetKey, cmd, sep, ReadSetBlank, cmd)
  {
    BlanksSkipped(ReadSetBlank, cmd, sep[1..]);
  }

  lemma FrontRead(g: Gaps, cmd: Command)
    requires WellFormed(g, cmd)
    ensures Brings(Start, NoCommand, g.lead + CommandWord(cmd.kind) + (g.mid + cmd.key),
                  if cmd.kind.Set? then ReadSetKey else ReadKey, Command(cmd.kind, cmd.key, []))
  {
    var typed, named := Command(cmd.kind, [], []), Command(cmd.kind, cmd.key, []);
    var s := if cmd.kind.Set? then TypeSet else TypeDone;
    var s' := if cmd.kind.Set? then ReadSetKey else ReadKey;
    BlanksSkipped(Start, NoCommand, g.lead);
    WordRead(cmd.kind);
    Then(Start, NoCommand, g.lead, Start, NoCommand, CommandWord(cmd.kind), s, typed);
    BlanksSkipped(s, typed, g.mid);
    KeyStarts(s, typed, cmd.key);
    Then(s, typed, g.mid, s, typed, cmd.key, s', named);
    Then(Start, NoCommand, g.lead + CommandWord(cmd.kind), s, typed, g.mid + cmd.key, s', named);
  }

  lemma BodyRead(g: Gaps, cmd: Command)
    requires WellFormed(g, cmd)
    ensures Brings(Start, NoCommand, Glue(g.lead + CommandWord(cmd.kind), g.mid + cmd.key, g.sep + cmd.value),
                  if cmd.kind.Set? then ReadSetValue else ReadKey, cmd)
  {
    FrontRead(g, cmd);
    var front, named := g.lead + CommandWord(cmd.kind) + (g.mid + cmd.key), Command(cmd.kind, cmd.key, []);
    if cmd.kind.Set? {
      SeparatorRead(named, g.sep);
      ValueStarts(named, cmd.value);
      Then(ReadSetKey, named, g.sep, ReadSetBlank, named, cmd.value, ReadSetValue, cmd);
      Then(Start, NoCommand, front, ReadSetKey, named, g.sep + cmd.value, ReadSetValue, cmd);
    } else {
      assert front + (g.sep + cmd.value) == front;
    }
  }

  lemma EndRead(state: State, cmd: Command, rest: Bytes)
    requires state.ReadKey? || state.ReadSetValue?
    ensures Feed(state, cmd, CrLf + rest) == Parsed(Outcome(Carriage, cmd, Good), 2)
  {
    var s := CrLf + rest;
    assert s[1..] == [Lf] + rest;
    assert Feed(Carriage, cmd, s[1..]) == Parsed(Outcome(Carriage, cmd, Good), 1);
  }

  /** A well-formed line is accepted, whatever bytes follow it, and yields its own command. */
  lemma WellFormedAccepted(g: Gaps, cmd: Command, rest: Bytes)
    requires WellFormed(g, cmd)
    ensures Feed(Start, NoCommand, Line(g, cmd) + rest) == Parsed(Outcome(Carriage, cmd, Good), |Line(g, cmd)|)
  {
    BodyRead(g, cmd);
    var state := if cmd.kind.Set? then ReadSetValue else ReadKey;
    var body := Glue(g.lead + CommandWord(cmd.kind), g.mid + cmd.key, g.sep + cmd.value);
    EndRead(state, cmd, rest);
    assert Line(g, cmd) + rest == body + (CrLf + rest);
    ChunksMakeNoDifference(Start, NoCommand, body, CrLf + rest);
  }

  /** Some command line makes up the first `n` bytes. */
  ghost predicate Reads(input: Bytes, n: nat, cmd: Command) {
    n <= |input| && exists g: Gaps :: WellFormed(g, cmd) && input[..n] == Line(g, cmd)
  }

  /** From the start state with an empty command the parser returns good exactly on the accepted form. */
  lemma ParseExact(input: Bytes, n: nat, cmd: Command)
    ensures var r := Feed(Start, NoCommand, input);
            Reads(input, n, cmd) <==> r.last.result == Good && r.last.cmd == cmd && r.consumed == n
  {
    if Reads(input, n, cmd) {
      var g: Gaps :| WellFormed(g, cmd) && input[..n] == Line(g, cmd);
      WellFormedAccepted(g, cmd, input[n..]);
      assert input == input[..n] + input[n..];
    }
    var g := Accepted(input);
  }
}
