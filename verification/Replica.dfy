/**
 The two ways a committed command reaches the database: the leader inserts the parsed command of the waiting session,
 every other replica reads the text of the log entry back. The log text is what `handle_command` encodes.
 */
module Replica {
  import opened RaftLog
  import opened CommandParser

  type Database = map<Bytes, Bytes>

  // ----- Reading a stream (`istringstream` in the classic locale), by positions

  /** `isspace`: what extraction skips and what ends a word. */
  predicate Spacing(c: Byte) {
    c == Space || Tab <= c <= Cr
  }

  /** The end of the spacing, or of the word, that begins at `at`. */
  function Past(s: Bytes, spacing: bool, at: nat): (n: nat)
    requires at <= |s|
    ensures at <= n <= |s|
    decreases |s| - at
  {
    if at == |s| || Spacing(s[at]) != spacing then at else Past(s, spacing, at + 1)
  }

  /** `input >> word`: spacing is skipped; the word goes on to the next spacing. */
  function WordStart(s: Bytes, at: nat): (n: nat)
    requires at <= |s|
    ensures at <= n <= |s|
  {
    Past(s, true, at)
  }

  function WordEnd(s: Bytes, at: nat): (n: nat)
    requires at <= |s|
    ensures WordStart(s, at) <= n <= |s|
  {
    Past(s, false, WordStart(s, at))
  }

  /** `getline`: the line feed that ends the line from `at` on, or the end of the text. */
  function LineStop(s: Bytes, at: nat): (n: nat)
    requires at <= |s|
    ensures at <= n <= |s|
    decreases |s| - at
  {
    if at == |s| || s[at] == Lf then at else LineStop(s, at + 1)
  }

  // ----- Both paths

  /** `handle_command`: the text of the log entry for a command. */
  function LogText(cmd: Command): Bytes {
    if cmd.kind.Set? then SetWord + [Space] + cmd.key + [Space] + cmd.value else DelWord + [Space] + cmd.key
  }

  function FirstWord(text: Bytes): Bytes {
    text[WordStart(text, 0)..WordEnd(text, 0)]
  }

  function SecondWord(text: Bytes): Bytes {
    text[WordStart(text, WordEnd(text, 0))..WordEnd(text, WordEnd(text, 0))]
  }

  /** One character behind the second word is dropped, then the line is read. */
  function Remainder(text: Bytes): Bytes {
    var at := WordEnd(text, WordEnd(text, 0));
    if at == |text| then [] else text[at + 1..LineStop(text, at + 1)]
  }

  /** `apply`: the entry's text is read back. */
  function Apply(db: Database, text: Bytes): Database {
    if FirstWord(text) == SetWord then db[SecondWord(text) := Remainder(text)]
    else if FirstWord(text) == DelWord then db - {SecondWord(text)}
    else db
  }

  /** `insert`: the session's command acts directly. */
  function Insert(db: Database, cmd: Command): Database {
    match cmd.kind
    case Set => db[cmd.key := cmd.value]
    case Del => db - {cmd.key}
    case _ => db
  }

  /** Inserting writes the command's key only, and only for an update. */
  lemma InsertWritesKey(db: Database, cmd: Command)
    ensures !Updates(cmd) ==> Insert(db, cmd) == db
    ensures forall key | key != cmd.key ::
              (key in Insert(db, cmd) <==> key in db) && (key in db ==> Insert(db, cmd)[key] == db[key])
  {
  }

  /** A text writes the key it names only, and no other text than those of `set` and `del` writes anything. */
  lemma ApplyWritesKey(db: Database, text: Bytes)
    ensures FirstWord(text) != SetWord && FirstWord(text) != DelWord ==> Apply(db, text) == db
    ensures forall key | key != SecondWord(text) ::
              (key in Apply(db, text) <==> key in db) && (key in db ==> Apply(db, text)[key] == db[key])
  {
  }

  /** The gaps of the log text: one blank between its parts. */
  function TextGaps(cmd: Command): Gaps {
    Gaps([], [Space], if cmd.kind.Set? then [Space] else [])
  }

  /** The log text is a command line: the parser reads the command back from it. */
  lemma LogTextParses(cmd: Command)
    requires Updates(cmd) && WellFormed(TextGaps(cmd), cmd)
    ensures var r := Feed(Start, NoCommand, LogText(cmd) + CrLf);
            r.last.result == Good && r.last.cmd == cmd && r.consumed == |LogText(cmd)| + 2
  {
    assert Line(TextGaps(cmd), cmd) == LogText(cmd) + CrLf;
    WellFormedAccepted(TextGaps(cmd), cmd, []);
    assert Line(TextGaps(cmd), cmd) + [] == LogText(cmd) + CrLf;
  }

  // ----- When they agree

  predicate Updates(cmd: Command) {
    cmd.kind.Set? || cmd.kind.Del?
  }

  /** The key has no spacing and the value no line feed. */
  predicate Plain(cmd: Command) {
    (forall k | 0 <= k < |cmd.key| :: !Spacing(cmd.key[k])) && (cmd.kind.Set? ==> Lf !in cmd.value)
  }

  lemma {:induction false} PastIs(s: Bytes, spacing: bool, at: nat, n: nat)
    requires at <= n <= |s| && (n < |s| ==> Spacing(s[n]) != spacing)
    requires forall k | at <= k < n :: Spacing(s[k]) == spacing
    ensures Past(s, spacing, at) == n
    decreases |s| - at
  {
    if at < n { PastIs(s, spacing, at + 1, n); }
  }

  /** An extracted word has no spacing. */
  lemma {:induction false} PastHas(s: Bytes, spacing: bool, at: nat)
    requires at <= |s|
    ensures forall k | at <= k < Past(s, spacing, at) :: Spacing(s[k]) == spacing
    decreases |s| - at
  {
    if at < |s| && Spacing(s[at]) == spacing { PastHas(s, spacing, at + 1); }
  }

  /** A word between spacing, or at an end of the text, is extracted whole. */
  lemma ExtractWord(s: Bytes, at: nat, from: nat, end: nat)
    requires at <= from < end <= |s|
    requires forall k | at <= k < from :: Spacing(s[k])
    requires forall k | from <= k < end :: !Spacing(s[k])
    requires end < |s| ==> Spacing(s[end])
    ensures WordStart(s, at) == from && WordEnd(s, at) == end
  {
    PastIs(s, true, at, from);
    PastIs(s, false, from, end);
  }

  lemma {:induction false} WholeLine(s: Bytes, at: nat)
    requires at <= |s|
    ensures LineStop(s, at) == |s| <==> Lf !in s[at..]
    ensures forall k | at <= k < LineStop(s, at) :: s[k] != Lf
    decreases |s| - at
  {
    if at < |s| {
      assert s[at..] == [s[at]] + s[at + 1..];
      if s[at] != Lf { WholeLine(s, at + 1); }
    }
  }

  /** The command word of the text is read back. */
  lemma TextWord(cmd: Command)
    requires Updates(cmd)
    ensures WordEnd(LogText(cmd), 0) == 3
    ensures FirstWord(LogText(cmd)) == if cmd.kind.Set? then SetWord else DelWord
  {
    ExtractWord(LogText(cmd), 0, 0, 3);
  }

  /** A plain key is read back. */
  lemma TextKey(cmd: Command)
    requires Updates(cmd) && cmd.key != [] && Plain(cmd)
    ensures WordEnd(LogText(cmd), 3) == 4 + |cmd.key| && SecondWord(LogText(cmd)) == cmd.key
  {
    var text, end := LogText(cmd), 4 + |cmd.key|;
    TextWord(cmd);
    assert text[4..end] == cmd.key;
    forall k | 4 <= k < end ensures !Spacing(text[k]) {
      assert text[k] == cmd.key[k - 4];
    }
    ExtractWord(text, 3, 4, end);
  }

  /** A plain value is read back. */
  lemma TextValue(cmd: Command)
    requires cmd.kind.Set? && cmd.key != [] && Plain(cmd)
    ensures Remainder(LogText(cmd)) == cmd.value
  {
    var text, at := LogText(cmd), 5 + |cmd.key|;
    TextWord(cmd);
    TextKey(cmd);
    assert text[at..] == cmd.value;
    WholeLine(text, at);
  }

  /** A plain command read back from its text has the effect of inserting it. */
  lemma PlainAgrees(db: Database, cmd: Command)
    requires Updates(cmd) && cmd.key != [] && Plain(cmd)
    ensures Apply(db, LogText(cmd)) == Insert(db, cmd)
  {
    TextWord(cmd);
    TextKey(cmd);
    if cmd.kind.Set? {
      TextValue(cmd);
    } else {
      assert SetWord[0] != DelWord[0];
    }
  }

  /** A database that holds just the command's own key, or nothing. */
  function Probe(cmd: Command): Database {
    if cmd.kind.Set? then map[] else map[cmd.key := []]
  }

  lemma SecondWordIsPlain(text: Bytes)
    ensures forall k | 0 <= k < |SecondWord(text)| :: !Spacing(SecondWord(text)[k])
  {
    PastHas(text, false, WordStart(text, WordEnd(text, 0)));
  }

  lemma RemainderIsLine(text: Bytes)
    ensures Lf !in Remainder(text)
  {
    var at := WordEnd(text, WordEnd(text, 0));
    if at < |text| { WholeLine(text, at + 1); }
  }

  /** Agreement on the probe already makes the command plain. */
  lemma AgreesMeansPlain(cmd: Command)
    requires Updates(cmd) && cmd.key != [] && Apply(Probe(cmd), LogText(cmd)) == Insert(Probe(cmd), cmd)
    ensures Plain(cmd)
  {
    var text := LogText(cmd);
    TextWord(cmd);
    SecondWordIsPlain(text);
    RemainderIsLine(text);
    if cmd.kind.Set? {
      SameUpdate(SecondWord(text), Remainder(text), cmd.key, cmd.value);
    } else {
      assert SetWord[0] != DelWord[0];
      SameRemoval(cmd.key, SecondWord(text));
    }
  }

  lemma SameUpdate(x: Bytes, y: Bytes, key: Bytes, value: Bytes)
    requires var none: Database := map[]; none[x := y] == none[key := value]
    ensures x == key && y == value
  {
    var none: Database := map[];
    assert x in none[x := y] && key in none[key := value];
  }

  lemma SameRemoval(key: Bytes, other: Bytes)
    requires var one: Database := map[key := []]; one - {other} == one - {key}
    ensures key == other
  {
    var one: Database := map[key := []];
    assert key !in one - {key};
  }

  /**
   For a command with a key, the log text acts on every database as the command itself exactly when the key has no
   spacing and the value no line feed.
   */
  lemma PathsAgreeIffPlain(cmd: Command)
    requires Updates(cmd) && cmd.key != []
    ensures (forall db: Database :: Apply(db, LogText(cmd)) == Insert(db, cmd)) <==> Plain(cmd)
  {
    if Plain(cmd) {
      forall db: Database ensures Apply(db, LogText(cmd)) == Insert(db, cmd) {
        PlainAgrees(db, cmd);
      }
    }
    if forall db: Database :: Apply(db, LogText(cmd)) == Insert(db, cmd) {
      AgreesMeansPlain(cmd);
    }
  }

  // ----- Databases of several replicas

  /** One replica's database after commands, each of them inserted directly or read from its text. */
  function Replay(db: Database, cmds: seq<Command>, direct: seq<bool>): Database
    requires |direct| == |cmds|
  {
    if cmds == [] then db
    else
      var last := |cmds| - 1;
      var before := Replay(db, cmds[..last], direct[..last]);
      if direct[last] then Insert(before, cmds[last]) else Apply(before, LogText(cmds[last]))
  }

  /** Whichever commands each of two replicas inserted directly, their databases are equal. */
  lemma {:induction false} ReplicasAgree(db: Database, cmds: seq<Command>, a: seq<bool>, b: seq<bool>)
    requires |a| == |b| == |cmds|
    requires forall k | 0 <= k < |cmds| :: Updates(cmds[k]) && cmds[k].key != [] && Plain(cmds[k])
    ensures Replay(db, cmds, a) == Replay(db, cmds, b)
    decreases |cmds|
  {
    if cmds != [] {
      var last := |cmds| - 1;
      ReplicasAgree(db, cmds[..last], a[..last], b[..last]);
      PlainAgrees(Replay(db, cmds[..last], a[..last]), cmds[last]);
    }
  }

  // ----- The parser accepts commands whose replicas disagree

  /** "del a b" with its line end. */
  function SpacedLine(): Bytes {
    DelWord + [Space] + SpacedKey().key + CrLf
  }

  function SpacedKey(): Command {
    Command(Del, [97, Space, 98], [])
  }

  lemma SpacedLineReads()
    ensures Reads(SpacedLine(), 9, SpacedKey())
  {
    var g := Gaps([], [Space], []);
    assert WellFormed(g, SpacedKey());
    assert SpacedLine()[..9] == Line(g, SpacedKey());
  }

  lemma SpacedKeyShortened()
    ensures FirstWord(LogText(SpacedKey())) == DelWord && SecondWord(LogText(SpacedKey())) == [97]
  {
    var text := LogText(SpacedKey());
    TextWord(SpacedKey());
    ExtractWord(text, 3, 4, 5);
    assert text[4..5] == [97];
  }

  /** "del a b" reads the key "a b"; the replicas that read the log text delete "a". */
  lemma AcceptedButDiverges(db: Database)
    requires [97] in db
    ensures Reads(SpacedLine(), 9, SpacedKey())
    ensures [97] in Insert(db, SpacedKey()) && [97] !in Apply(db, LogText(SpacedKey()))
  {
    SpacedLineReads();
    SpacedKeyShortened();
    assert SetWord[0] != DelWord[0];
    assert |SpacedKey().key| == 3;
  }
}
