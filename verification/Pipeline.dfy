/**
 From committed entry to database: what applying a stretch of the log does, which steps keep the order
 base <= applied <= committed <= end, and what compaction hides.
 */
module Pipeline {
  import opened RaftLog
  import opened CommandParser
  import opened Server
  import FollowerMerge
  import Replica

  /** The order of a server's indices. */
  predicate Ordered(s: Node, lastApplied: nat) {
    s.log.Valid() && s.log.baseIndex <= lastApplied <= s.commitIndex <= s.log.LastIndex()
  }

  // ----- Steps that keep the order

  /** The request does not contradict an entry at or below the commit index. */
  predicate ConflictsAbove(v: LogView, commit: nat, es: seq<Entry>) {
    forall k | 0 <= k < |es| && v.Present(es[k].index) && es[k].index <= commit ::
      !v.Conflicted(es[k].index, es[k].term)
  }

  /** A merge keeps every committed entry exactly when it conflicts with none of them. */
  lemma MergeKeepsCommitted(v: LogView, commit: nat, prev: nat, es: seq<Entry>)
    requires v.Valid() && Numbered(prev, es) && v.baseIndex <= prev <= v.LastIndex()
    requires v.baseIndex <= commit <= v.LastIndex()
    ensures !v.ChopFails(es)
    ensures ConflictsAbove(v, commit, es) <==>
              v.entries[..commit - v.baseIndex] <= v.Merge(es).entries
    ensures v.Merge(es).Valid() && v.Merge(es).baseIndex == v.baseIndex
  {
    var j := FollowerMerge.FirstDifferenceExists(v, es);
    FollowerMerge.MergeShape(v, prev, es, j);
    if j < |es| && v.Conflicted(es[j].index, es[j].term) && es[j].index <= commit {
      assert es[j].index == prev + j + 1 && v.Present(es[j].index);
      CommittedCut(v.entries, prev - v.baseIndex + j, commit - v.baseIndex, es[j..]);
    } else {
      NoEarlierConflict(v, commit, prev, es, j);
      CommittedKept(v, commit, prev, es, j);
    }
  }

  /** Cutting below the commit index and going on with another entry changes what was committed. */
  lemma CommittedCut(log: seq<Entry>, at: nat, commit: nat, rest: seq<Entry>)
    requires at < commit <= |log| && rest != [] && rest[0].term != log[at].term
    ensures !(log[..commit] <= log[..at] + rest)
  {
    assert (log[..at] + rest)[at] == rest[0];
    assert log[..commit][at] == log[at];
  }

  lemma CommittedKept(v: LogView, commit: nat, prev: nat, es: seq<Entry>, j: nat)
    requires v.baseIndex <= prev && j <= |es| && prev + j <= v.LastIndex() && v.baseIndex <= commit <= v.LastIndex()
    requires j < |es| ==> commit <= prev + j
    ensures v.entries[..commit - v.baseIndex] <= FollowerMerge.Spliced(v, prev, es, j).entries
  {
  }

  lemma NoEarlierConflict(v: LogView, commit: nat, prev: nat, es: seq<Entry>, j: nat)
    requires v.Valid() && Numbered(prev, es) && v.baseIndex <= prev && FollowerMerge.FirstDifference(v, es, j)
    requires j < |es| ==> !(v.Conflicted(es[j].index, es[j].term) && es[j].index <= commit) && prev + j <= v.LastIndex()
    requires v.baseIndex <= commit <= v.LastIndex()
    ensures ConflictsAbove(v, commit, es)
    ensures j < |es| ==> commit <= prev + j
  {
    if j < |es| {
      assert es[j].index == prev + j + 1;
    }
    forall k | 0 <= k < |es| && v.Present(es[k].index) && es[k].index <= commit
      ensures !v.Conflicted(es[k].index, es[k].term)
    {
      assert es[k].index == prev + k + 1;
      if k < j { assert FollowerMerge.Agrees(v, es[k]); }
    }
  }

  lemma RequestKeepsOrder(s: Node, lastApplied: nat, req: AppendReq)
    requires Ordered(s, lastApplied) && Numbered(req.prevIndex, req.entries) && req.prevIndex >= s.log.baseIndex
    requires ConflictsAbove(s.log, s.commitIndex, req.entries)
    ensures var s' := OnAppendRequest(s, req).0;
            && Ordered(s', lastApplied) && s'.commitIndex >= s.commitIndex
            && s.log.entries[..s.commitIndex - s.log.baseIndex] <= s'.log.entries
  {
    if req.term >= s.term && s.log.HasEntry(req.prevIndex, req.prevTerm) {
      MergeKeepsCommitted(s.log, s.commitIndex, req.prevIndex, req.entries);
    }
  }

  // ----- Runs of the pipeline

  /** A server and how far it has applied. */
  datatype Queue = Queue(node: Node, lastApplied: nat)

  datatype Event =
    | Grow(data: Bytes)      // append on the leader
    | Adjust(commit: nat)    // adjust_commit_index
    | Merge(req: AppendReq)  // append_entries on a follower
    | ApplyNext              // one turn of apply_log_committed
    | Compact                // drop on commit

  ghost predicate Turn(p: Queue, event: Event, q: Queue) {
    match event
    case Grow(data) => q == p.(node := ClientAppend(p.node, data))
    case Adjust(commit) => CommitRule(p.node, commit) && q == p.(node := p.node.(commitIndex := commit))
    case Merge(req) =>
      && Numbered(req.prevIndex, req.entries) && req.prevIndex >= p.node.log.baseIndex
      && ConflictsAbove(p.node.log, p.node.commitIndex, req.entries)
      && q == p.(node := OnAppendRequest(p.node, req).0)
    case ApplyNext => p.lastApplied < p.node.commitIndex && q == p.(lastApplied := p.lastApplied + 1)
    case Compact =>
      && p.lastApplied == p.node.commitIndex && p.node.log.Present(p.node.commitIndex)
      && q == p.(node := p.node.(log := p.node.log.Drop(p.node.commitIndex)))
  }

  /** Every event keeps base <= applied <= committed <= end; an applied entry is there to be applied. */
  lemma TurnKeepsOrder(p: Queue, event: Event, q: Queue)
    requires Ordered(p.node, p.lastApplied) && Turn(p, event, q)
    ensures Ordered(q.node, q.lastApplied)
    ensures event == ApplyNext ==> p.node.log.Present(q.lastApplied)
    ensures q.lastApplied == p.lastApplied + if event == ApplyNext then 1 else 0
    ensures p.node.commitIndex <= q.node.commitIndex
  {
    match event
    case Adjust(commit) =>
    case Merge(req) => RequestKeepsOrder(p.node, p.lastApplied, req);
    case _ =>
  }

  ghost predicate TurnAt(run: seq<Queue>, events: seq<Event>, i: nat)
    requires |run| == |events| + 1 && i < |events|
  {
    Turn(run[i], events[i], run[i + 1])
  }

  ghost predicate PipelineRun(run: seq<Queue>, events: seq<Event>) {
    && |run| == |events| + 1 && Ordered(run[0].node, run[0].lastApplied)
    && forall i: nat | i < |events| :: TurnAt(run, events, i)
  }

  lemma {:induction false} RunOrdered(run: seq<Queue>, events: seq<Event>, i: nat)
    requires PipelineRun(run, events) && i <= |events|
    ensures Ordered(run[i].node, run[i].lastApplied)
    decreases i
  {
    if i > 0 {
      RunOrdered(run, events, i - 1);
      assert TurnAt(run, events, i - 1);
      TurnKeepsOrder(run[i - 1], events[i - 1], run[i]);
    }
  }

  /** Event `i` applies the entry at `index`. */
  predicate Applies(run: seq<Queue>, events: seq<Event>, i: nat, index: nat)
    requires |run| == |events| + 1 && i < |events|
  {
    events[i] == ApplyNext && run[i + 1].lastApplied == index
  }

  /** One of the first `n` events applies the entry at `index`. */
  ghost predicate AppliedBefore(run: seq<Queue>, events: seq<Event>, n: nat, index: nat)
    requires |run| == |events| + 1 && n <= |events|
  {
    exists i: nat :: i < n && Applies(run, events, i, index)
  }

  lemma LastEvent(run: seq<Queue>, events: seq<Event>, n: nat, index: nat)
    requires PipelineRun(run, events) && 0 < n <= |events|
    ensures run[n - 1].lastApplied <= run[n].lastApplied
    ensures Applies(run, events, n - 1, index) <==> run[n - 1].lastApplied < index <= run[n].lastApplied
    ensures Applies(run, events, n - 1, index) ==>
              run[n - 1].node.log.Present(index) && index <= run[n - 1].node.commitIndex
    ensures AppliedBefore(run, events, n, index) <==>
              AppliedBefore(run, events, n - 1, index) || Applies(run, events, n - 1, index)
  {
    RunOrdered(run, events, n - 1);
    assert TurnAt(run, events, n - 1);
    TurnKeepsOrder(run[n - 1], events[n - 1], run[n]);
  }

  /**
   Over a run every index between the first and the last applied one is applied by exactly one event, which finds it
   committed and in the log.
   */
  lemma {:induction false} AppliedExactlyOnce(run: seq<Queue>, events: seq<Event>, n: nat, index: nat)
    requires PipelineRun(run, events) && n <= |events|
    ensures run[0].lastApplied <= run[n].lastApplied
    ensures AppliedBefore(run, events, n, index) <==> run[0].lastApplied < index <= run[n].lastApplied
    ensures forall i: nat | i < n && Applies(run, events, i, index) ::
              run[i].node.log.Present(index) && index <= run[i].node.commitIndex
    ensures forall i: nat, j: nat
              | i < n && j < n && Applies(run, events, i, index) && Applies(run, events, j, index) :: i == j
    decreases n
  {
    if n > 0 {
      AppliedExactlyOnce(run, events, n - 1, index);
      LastEvent(run, events, n, index);
    }
  }

  // ----- Applying

  type Commands = map<nat, Command>

  datatype Answer = Answer(index: nat, data: Bytes)

  /** What applying works on: the database, the commands of waiting sessions, and the answers given. */
  datatype Served = Served(db: Replica.Database, commands: Commands, answers: seq<Answer>)

  /** `insert` answers a waiting `set` with the value it replaced. */
  function OldValue(db: Replica.Database, cmd: Command): Bytes {
    if cmd.kind.Set? && cmd.key in db then db[cmd.key] else []
  }

  /** `on_log_entry_committed`, skipped for configuration entries. */
  function ApplyEntry(a: Served, e: Entry): Served {
    if e.config then a
    else if e.index !in a.commands then a.(db := Replica.Apply(a.db, e.data))
    else
      var cmd := a.commands[e.index];
      var answers := if Replica.Updates(cmd) then a.answers + [Answer(e.index, OldValue(a.db, cmd))] else a.answers;
      Served(Replica.Insert(a.db, cmd), a.commands - {e.index}, answers)
  }

  // ----- Folding a stretch of the log

  /** The entries after `lo` up to `hi`, in order, each fed to `step` once. */
  function Fold<S>(step: (S, Entry) -> S, v: LogView, a: S, lo: nat, hi: nat): S
    requires v.baseIndex <= lo <= hi <= v.LastIndex()
    decreases hi
  {
    if lo == hi then a else step(Fold(step, v, a, lo, hi - 1), v.entries[hi - v.baseIndex - 1])
  }

  /** Several turns are one. */
  lemma {:induction false} FoldInTurns<S>(step: (S, Entry) -> S, v: LogView, a: S, lo: nat, mid: nat, hi: nat)
    requires v.baseIndex <= lo <= mid <= hi <= v.LastIndex()
    ensures Fold(step, v, Fold(step, v, a, lo, mid), mid, hi) == Fold(step, v, a, lo, hi)
    decreases hi
  {
    if mid < hi { FoldInTurns(step, v, a, lo, mid, hi - 1); }
  }

  /** Only entries up to `hi` matter, so growth of the log does not. */
  lemma {:induction false} FoldReadsPrefix<S>(step: (S, Entry) -> S, v: LogView, w: LogView, a: S, lo: nat, hi: nat)
    requires v.baseIndex == w.baseIndex && v.baseIndex <= lo <= hi <= v.LastIndex() && hi <= w.LastIndex()
    requires v.entries[..hi - v.baseIndex] == w.entries[..hi - v.baseIndex]
    ensures Fold(step, v, a, lo, hi) == Fold(step, w, a, lo, hi)
    decreases hi
  {
    if lo < hi {
      var n := hi - v.baseIndex;
      assert v.entries[..n][..n - 1] == v.entries[..n - 1] && w.entries[..n][..n - 1] == w.entries[..n - 1];
      assert v.entries[n - 1] == v.entries[..n][n - 1] == w.entries[..n][n - 1];
      FoldReadsPrefix(step, v, w, a, lo, hi - 1);
    }
  }

  /** From its base on a compacted log folds as the complete one. */
  lemma {:induction false} FoldUnderCompaction<S>(
    step: (S, Entry) -> S, log: seq<Entry>, base: nat, a: S, lo: nat, hi: nat)
    requires base <= lo <= hi <= |log|
    ensures Fold(step, Compacted(log, base), a, lo, hi) == Fold(step, Full(log), a, lo, hi)
    decreases hi
  {
    if lo < hi { FoldUnderCompaction(step, log, base, a, lo, hi - 1); }
  }

  /** On entry `h + 1` of the stretch one step function acts, seen through `view`, as the other. */
  predicate Simulates<S, D(==)>(step: (S, Entry) -> S, other: (D, Entry) -> D, view: S -> D,
                                v: LogView, a: S, lo: nat, h: nat)
    requires v.baseIndex <= lo <= h < v.LastIndex()
  {
    var b, e := Fold(step, v, a, lo, h), v.entries[h - v.baseIndex];
    view(step(b, e)) == other(view(b), e)
  }

  /** Then so do the folds. */
  lemma {:induction false} FoldSimulates<S, D>(step: (S, Entry) -> S, other: (D, Entry) -> D, view: S -> D,
                                               v: LogView, a: S, lo: nat, hi: nat)
    requires v.baseIndex <= lo <= hi <= v.LastIndex()
    requires forall h: nat | lo <= h < hi :: Simulates(step, other, view, v, a, lo, h)
    ensures view(Fold(step, v, a, lo, hi)) == Fold(other, v, view(a), lo, hi)
    decreases hi
  {
    if lo < hi {
      FoldSimulates(step, other, view, v, a, lo, hi - 1);
      assert Simulates(step, other, view, v, a, lo, hi - 1);
    }
  }

  /** The stretch applied to a database with its waiting sessions. */
  function ApplyUpTo(v: LogView, a: Served, lo: nat, hi: nat): Served
    requires v.baseIndex <= lo <= hi <= v.LastIndex()
  {
    Fold(ApplyEntry, v, a, lo, hi)
  }

  // ----- Waiting sessions are answered once

  /** A waiting update whose entry lies in the stretch. */
  predicate Awaited(v: LogView, commands: Commands, lo: nat, hi: nat, index: nat)
    requires v.baseIndex <= lo <= hi <= v.LastIndex()
  {
    && lo < index <= hi && index in commands && Replica.Updates(commands[index])
    && !v.entries[index - v.baseIndex - 1].config
  }

  predicate Increasing(answers: seq<Answer>) {
    forall j, k | 0 <= j < k < |answers| :: answers[j].index < answers[k].index
  }

  predicate Answered(answers: seq<Answer>, index: nat) {
    exists k :: 0 <= k < |answers| && answers[k].index == index
  }

  /** The effect of one entry on the waiting sessions. */
  predicate EntryAnswers(a: Served, e: Entry, b: Served) {
    var answered := !e.config && e.index in a.commands && Replica.Updates(a.commands[e.index]);
    && b.commands == (if e.config then a.commands else a.commands - {e.index})
    && |b.answers| == |a.answers| + (if answered then 1 else 0) && a.answers <= b.answers
    && (answered ==> b.answers[|a.answers|].index == e.index)
  }

  type ServedStep = (Served, Entry) -> Served

  ghost predicate Answers(step: ServedStep) {
    forall a, e :: EntryAnswers(a, e, step(a, e))
  }

  lemma ApplyAnswers()
    ensures Answers(ApplyEntry)
  {
  }

  /** What a stretch leaves of the waiting sessions. */
  lemma {:induction false} CommandsLeft(step: ServedStep, v: LogView, a: Served, lo: nat, hi: nat, i: nat)
    requires Answers(step) && v.Valid() && v.baseIndex <= lo <= hi <= v.LastIndex()
    ensures var b := Fold(step, v, a, lo, hi);
            && (i in b.commands ==> i in a.commands && b.commands[i] == a.commands[i])
            && (i in a.commands && !(lo < i <= hi) ==> i in b.commands)
            && (lo < i <= hi && i in b.commands ==> v.entries[i - v.baseIndex - 1].config)
    decreases hi
  {
    if lo < hi {
      CommandsLeft(step, v, a, lo, hi - 1, i);
      var e := v.entries[hi - v.baseIndex - 1];
      assert EntryAnswers(Fold(step, v, a, lo, hi - 1), e, Fold(step, v, a, lo, hi));
    }
  }

  lemma {:induction false} StepsAnswerOnce(step: ServedStep, v: LogView, a: Served, lo: nat, hi: nat)
    requires Answers(step) && v.Valid() && v.baseIndex <= lo <= hi <= v.LastIndex() && a.answers == []
    ensures var b := Fold(step, v, a, lo, hi);
            && Increasing(b.answers)
            && forall i: nat :: Answered(b.answers, i) <==> Awaited(v, a.commands, lo, hi, i)
    decreases hi
  {
    if lo < hi {
      var e := v.entries[hi - v.baseIndex - 1];
      var b, c := Fold(step, v, a, lo, hi - 1), Fold(step, v, a, lo, hi);
      StepsAnswerOnce(step, v, a, lo, hi - 1);
      CommandsLeft(step, v, a, lo, hi - 1, hi);
      assert EntryAnswers(b, e, c);
      OneMoreAwaited(v, a.commands, b.commands, lo, hi, b.answers, c.answers);
    }
  }

  lemma OneMoreAwaited(v: LogView, first: Commands, left: Commands, lo: nat, hi: nat,
                       before: seq<Answer>, after: seq<Answer>)
    requires v.Valid() && v.baseIndex <= lo < hi <= v.LastIndex() && Increasing(before)
    requires forall i: nat :: Answered(before, i) <==> Awaited(v, first, lo, hi - 1, i)
    requires hi in left <==> hi in first
    requires hi in left ==> left[hi] == first[hi]
    requires before <= after && |after| == |before| + if Awaited(v, left, lo, hi, hi) then 1 else 0
    requires |after| > |before| ==> after[|before|].index == hi
    ensures Increasing(after)
    ensures forall i: nat :: Answered(after, i) <==> Awaited(v, first, lo, hi, i)
  {
    OneMoreAnswer(before, after, hi);
    forall k | 0 <= k < |before| ensures before[k].index < hi {
      assert Answered(before, before[k].index);
    }
    forall i: nat ensures Answered(after, i) <==> Awaited(v, first, lo, hi, i) {
      assert Answered(before, i) <==> Awaited(v, first, lo, hi - 1, i);
    }
  }

  lemma OneMoreAnswer(before: seq<Answer>, after: seq<Answer>, index: nat)
    requires before <= after && |after| <= |before| + 1 && (|after| > |before| ==> after[|before|].index == index)
    ensures forall i: nat :: Answered(after, i) <==> Answered(before, i) || (i == index && |after| > |before|)
  {
  }

  /** Each waiting update of the stretch is answered exactly once, in the order of the log, and no other session is. */
  lemma AnsweredOnce(v: LogView, a: Served, lo: nat, hi: nat)
    requires v.Valid() && v.baseIndex <= lo <= hi <= v.LastIndex() && a.answers == []
    ensures var b := ApplyUpTo(v, a, lo, hi);
            && Increasing(b.answers)
            && forall i: nat :: Answered(b.answers, i) <==> Awaited(v, a.commands, lo, hi, i)
  {
    ApplyAnswers();
    StepsAnswerOnce(ApplyEntry, v, a, lo, hi);
  }

  // ----- What a client is told

  /** The step answers a waiting `set` with the value its key had, anything else with nothing. */
  ghost predicate TellsReplaced(step: ServedStep) {
    forall a, e :: AnswerTold(a, e, step(a, e))
  }

  predicate AnswerTold(a: Served, e: Entry, b: Served) {
    |b.answers| > |a.answers| && e.index in a.commands ==>
      var cmd := a.commands[e.index];
      b.answers[|a.answers|].data == if cmd.kind.Set? && cmd.key in a.db then a.db[cmd.key] else []
  }

  lemma ApplyTellsReplaced()
    ensures TellsReplaced(ApplyEntry)
  {
  }

  /** An answer to a command of `first`, holding what the key had just before the entry of its index. */
  predicate Told(step: ServedStep, v: LogView, a: Served, lo: nat, hi: nat, x: Answer)
    requires v.baseIndex <= lo <= hi <= v.LastIndex()
  {
    && lo < x.index <= hi && x.index in a.commands
    && var cmd, db := a.commands[x.index], Fold(step, v, a, lo, x.index - 1).db;
       x.data == if cmd.kind.Set? && cmd.key in db then db[cmd.key] else []
  }

  lemma {:induction false} StepsTell(step: ServedStep, v: LogView, a: Served, lo: nat, hi: nat)
    requires Answers(step) && TellsReplaced(step) && v.Valid() && v.baseIndex <= lo <= hi <= v.LastIndex()
    requires a.answers == []
    ensures forall x | x in Fold(step, v, a, lo, hi).answers :: Told(step, v, a, lo, hi, x)
    decreases hi
  {
    if lo < hi {
      var e := v.entries[hi - v.baseIndex - 1];
      var b, c := Fold(step, v, a, lo, hi - 1), Fold(step, v, a, lo, hi);
      StepsTell(step, v, a, lo, hi - 1);
      CommandsLeft(step, v, a, lo, hi - 1, hi);
      assert EntryAnswers(b, e, c) && AnswerTold(b, e, c);
      forall x | x in c.answers ensures Told(step, v, a, lo, hi, x) {
        if x in b.answers {
          assert Told(step, v, a, lo, hi - 1, x);
        } else {
          assert x == c.answers[|b.answers|];
        }
      }
    }
  }

  lemma ApplyTells(v: LogView, a: Served, lo: nat, hi: nat)
    requires v.Valid() && v.baseIndex <= lo <= hi <= v.LastIndex() && a.answers == []
    ensures forall x | x in ApplyUpTo(v, a, lo, hi).answers :: Told(ApplyEntry, v, a, lo, hi, x)
  {
    ApplyAnswers();
    ApplyTellsReplaced();
    StepsTell(ApplyEntry, v, a, lo, hi);
  }

  /** A client is told what its key had just before its entry, in the database of the log's text. */
  lemma AnswersTellReplaced(v: LogView, a: Served, lo: nat, hi: nat, x: Answer)
    requires v.Valid() && v.baseIndex <= lo <= hi <= v.LastIndex() && a.answers == [] && Faithful(v, a.commands)
    requires x in ApplyUpTo(v, a, lo, hi).answers
    ensures lo < x.index <= hi && x.index in a.commands
    ensures var cmd, db := a.commands[x.index], Fold(TextStep, v, a.db, lo, x.index - 1);
            x.data == if cmd.kind.Set? && cmd.key in db then db[cmd.key] else []
  {
    ApplyTells(v, a, lo, hi);
    assert Told(ApplyEntry, v, a, lo, hi, x);
    DatabaseIsText(v, a, lo, x.index - 1);
  }

  /** Each awaited update of the stretch is answered with what its key had just before its entry. */
  lemma AnsweredWithReplaced(v: LogView, a: Served, lo: nat, hi: nat, index: nat) returns (x: Answer)
    requires v.Valid() && v.baseIndex <= lo <= hi <= v.LastIndex() && a.answers == []
    requires Awaited(v, a.commands, lo, hi, index)
    ensures x in ApplyUpTo(v, a, lo, hi).answers && x.index == index
    ensures var cmd, before := a.commands[index], ApplyUpTo(v, a, lo, index - 1).db;
            x.data == if cmd.kind.Set? && cmd.key in before then before[cmd.key] else []
  {
    AnsweredOnce(v, a, lo, hi);
    x := AnswerOf(ApplyUpTo(v, a, lo, hi).answers, index);
    ApplyTells(v, a, lo, hi);
    assert Told(ApplyEntry, v, a, lo, hi, x);
  }

  lemma AnswerOf(answers: seq<Answer>, index: nat) returns (x: Answer)
    requires Answered(answers, index)
    ensures x in answers && x.index == index
  {
    var k :| 0 <= k < |answers| && answers[k].index == index;
    x := answers[k];
  }

  // ----- The database is the text of the log

  /** The reference: every entry that is no configuration acts through its text. */
  function TextStep(db: Replica.Database, e: Entry): Replica.Database {
    if e.config then db else Replica.Apply(db, e.data)
  }

  /** The waiting command is the one whose text was appended, and both paths agree on it. */
  predicate Matches(cmd: Command, e: Entry) {
    e.data == Replica.LogText(cmd) && Replica.Updates(cmd) && cmd.key != [] && Replica.Plain(cmd)
  }

  ghost predicate Faithful(v: LogView, commands: Commands) {
    forall i: nat | i in commands && v.Present(i) :: Matches(commands[i], v.entries[i - v.baseIndex - 1])
  }

  predicate Expected(commands: Commands, e: Entry) {
    e.index in commands ==> Matches(commands[e.index], e)
  }

  lemma EntryActsByText(a: Served, e: Entry)
    requires Expected(a.commands, e)
    ensures ApplyEntry(a, e).db == TextStep(a.db, e)
  {
    if !e.config && e.index in a.commands {
      Replica.PlainAgrees(a.db, a.commands[e.index]);
    }
  }

  type DbStep = (Replica.Database, Entry) -> Replica.Database

  ghost predicate ActsAs(step: ServedStep, text: DbStep) {
    forall a: Served, e | Expected(a.commands, e) :: step(a, e).db == text(a.db, e)
  }

  lemma ApplyActsAsText()
    ensures ActsAs(ApplyEntry, TextStep)
  {
    forall a: Served, e | Expected(a.commands, e) ensures ApplyEntry(a, e).db == TextStep(a.db, e) {
      EntryActsByText(a, e);
    }
  }

  /** Commands only ever leave, so those that wait stay faithful. */
  lemma StillExpected(step: ServedStep, v: LogView, a: Served, lo: nat, h: nat)
    requires Answers(step) && v.Valid() && v.baseIndex <= lo <= h < v.LastIndex() && Faithful(v, a.commands)
    ensures Expected(Fold(step, v, a, lo, h).commands, v.entries[h - v.baseIndex])
  {
    CommandsLeft(step, v, a, lo, h, h + 1);
    StaysExpected(v, a.commands, Fold(step, v, a, lo, h).commands, h + 1);
  }

  lemma StaysExpected(v: LogView, before: Commands, commands: Commands, index: nat)
    requires v.Valid() && v.Present(index) && Faithful(v, before)
    requires index in commands ==> index in before && commands[index] == before[index]
    ensures Expected(commands, v.entries[index - v.baseIndex - 1])
  {
    assert v.entries[index - v.baseIndex - 1].index == index;
  }

  function DatabaseOf(a: Served): Replica.Database {
    a.db
  }

  lemma OneStep(step: ServedStep, text: DbStep, b: Served, e: Entry)
    requires ActsAs(step, text) && Expected(b.commands, e)
    ensures DatabaseOf(step(b, e)) == text(DatabaseOf(b), e)
  {
  }

  lemma FaithfulFold(step: ServedStep, text: DbStep, v: LogView, a: Served, lo: nat, hi: nat)
    requires Answers(step) && ActsAs(step, text)
    requires v.Valid() && v.baseIndex <= lo <= hi <= v.LastIndex() && Faithful(v, a.commands)
    ensures Fold(step, v, a, lo, hi).db == Fold(text, v, a.db, lo, hi)
  {
    forall h: nat | lo <= h < hi ensures Simulates(step, text, DatabaseOf, v, a, lo, h) {
      StillExpected(step, v, a, lo, h);
      OneStep(step, text, Fold(step, v, a, lo, h), v.entries[h - v.baseIndex]);
    }
    FoldSimulates(step, text, DatabaseOf, v, a, lo, hi);
  }

  /** Whichever sessions wait at a server, applying a stretch leaves the database that the log's text describes. */
  lemma DatabaseIsText(v: LogView, a: Served, lo: nat, hi: nat)
    requires v.Valid() && v.baseIndex <= lo <= hi <= v.LastIndex() && Faithful(v, a.commands)
    ensures ApplyUpTo(v, a, lo, hi).db == Fold(TextStep, v, a.db, lo, hi)
  {
    ApplyAnswers();
    ApplyActsAsText();
    FaithfulFold(ApplyEntry, TextStep, v, a, lo, hi);
  }

  /** An update appended at a fresh index keeps the waiting commands faithful. */
  lemma AppendKeepsFaithful(s: Node, commands: Commands, cmd: Command)
    requires s.log.Valid() && s.role == Leader && Faithful(s.log, commands)
    requires Replica.Updates(cmd) && cmd.key != [] && Replica.Plain(cmd) && s.log.LastIndex() + 1 !in commands
    ensures var s' := ClientAppend(s, Replica.LogText(cmd));
            s'.log.Valid() && Faithful(s'.log, commands[s'.log.LastIndex() := cmd])
  {
    var e := Entry(s.term, s.log.LastIndex() + 1, Replica.LogText(cmd), false);
    Appended(s, Replica.LogText(cmd), e);
    OneMoreFaithful(s.log, commands, cmd, e);
  }

  lemma Appended(s: Node, text: Bytes, e: Entry)
    requires s.role == Leader && e == Entry(s.term, s.log.LastIndex() + 1, text, false)
    ensures ClientAppend(s, text).log == s.log.Append([e]) && s.log.Append([e]).LastIndex() == e.index
  {
  }

  lemma OneMoreFaithful(v: LogView, commands: Commands, cmd: Command, e: Entry)
    requires v.Valid() && Faithful(v, commands) && e.index == v.LastIndex() + 1 && Matches(cmd, e)
    ensures v.Append([e]).Valid() && Faithful(v.Append([e]), commands[e.index := cmd])
  {
    forall i: nat | i in commands[e.index := cmd] && v.Append([e]).Present(i)
      ensures Matches(commands[e.index := cmd][i], v.Append([e]).entries[i - v.baseIndex - 1])
    {
      FaithfulAt(v, commands, cmd, e, i);
    }
  }

  lemma FaithfulAt(v: LogView, commands: Commands, cmd: Command, e: Entry, i: nat)
    requires v.Valid() && Faithful(v, commands) && e.index == v.LastIndex() + 1 && Matches(cmd, e)
    requires i in commands[e.index := cmd] && v.Append([e]).Present(i)
    ensures Matches(commands[e.index := cmd][i], v.Append([e]).entries[i - v.baseIndex - 1])
  {
    if i != e.index { assert v.Present(i); }
  }
}
