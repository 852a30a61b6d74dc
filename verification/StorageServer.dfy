/** The key/value server on top of one replica: client commands, and the loop that applies committed entries. */
module StorageServer {
  import opened RaftLog
  import opened CommandParser
  import opened Pipeline
  import Codec
  import Replica
  import Server
  import Store
  import Log = EntryLogger
  import Raft = RaftNode

  /** "null", the answer of `get` for a missing key. */
  const NullText: Bytes := [110, 117, 108, 108]

  datatype Reply = Ok(data: Bytes) | NotLeader | InternalError | Waiting

  /** The session waits for the index unless an earlier one still does. */
  function Awaiting(commands: Commands, index: nat, cmd: Command): Commands {
    if index in commands then commands else commands[index := cmd]
  }

  /** A session registered at a free index waits there with its command; every other session waits as before. */
  lemma SubmittedWaits(s: Server.Node, commands: Commands, cmd: Command)
    requires s.log.Valid() && s.role == Server.Leader && Replica.Updates(cmd) && s.log.LastIndex() + 1 !in commands
    ensures var s' := Server.ClientAppend(s, Replica.LogText(cmd));
            var n := s'.log.LastIndex();
            var waiting := Awaiting(commands, n, cmd);
            && n == s.log.LastIndex() + 1 && s'.log.Valid() && n in waiting && waiting[n] == cmd
            && Awaited(s'.log, waiting, n - 1, n, n)
            && forall i | i != n :: (i in waiting <==> i in commands) && (i in commands ==> waiting[i] == commands[i])
  {
  }

  /** An earlier session that still waits for the index keeps it. */
  lemma EarlierKeepsIndex(commands: Commands, index: nat, cmd: Command)
    requires index in commands
    ensures Awaiting(commands, index, cmd) == commands
  {
  }

  /**
   A submitted update is answered when its entry is applied: on any log that still has the entry, applying past its
   index answers its session with what its key had just before.
   */
  lemma SubmittedIsAnswered(s: Server.Node, commands: Commands, cmd: Command, v: LogView, db: Replica.Database,
                            lo: nat, hi: nat)
    returns (x: Answer)
    requires s.log.Valid() && s.role == Server.Leader && Replica.Updates(cmd) && s.log.LastIndex() + 1 !in commands
    requires v.Valid() && v.baseIndex <= lo <= s.log.LastIndex() < hi <= v.LastIndex()
    requires var s' := Server.ClientAppend(s, Replica.LogText(cmd));
             v.Lookup(s'.log.LastIndex()) == s'.log.Lookup(s'.log.LastIndex())
    ensures var n := s.log.LastIndex() + 1;
            var a := Served(db, Awaiting(commands, n, cmd), []);
            var before := ApplyUpTo(v, a, lo, n - 1).db;
            && x in ApplyUpTo(v, a, lo, hi).answers && x.index == n
            && x.data == if cmd.kind.Set? && cmd.key in before then before[cmd.key] else []
  {
    var n := s.log.LastIndex() + 1;
    SubmittedWaits(s, commands, cmd);
    x := AnsweredWithReplaced(v, Served(db, Awaiting(commands, n, cmd), []), lo, hi, n);
  }

  class StorageServer {
    const raft: Raft.RaftNode
    const compaction: bool
    var db: Replica.Database
    var commands: Commands  // by log index, the command of the session that waits for it
    var answers: seq<Answer>  // written to waiting sessions so far

    ghost predicate Valid()
      reads this, raft, raft.log, raft.log.file
    {
      raft.Valid() && Ordered(raft.State(), raft.lastApplied)
    }

    ghost function Now(): Served
      reads this
    {
      Served(db, commands, answers)
    }

    constructor (raft: Raft.RaftNode, compaction: bool, db: Replica.Database)
      requires raft.Valid() && Ordered(raft.State(), raft.lastApplied)
      ensures Valid() && this.raft == raft && this.compaction == compaction && Now() == Served(db, map[], [])
    {
      this.raft, this.compaction, this.db := raft, compaction, db;
      commands, answers := map[], [];
    }

    /** The log can number and encode one more entry for this command. */
    ghost predicate Room(cmd: Command)
      requires Valid()
      reads this, raft, raft.log, raft.log.file
    {
      && Codec.HeaderSize + Codec.WordSize + |Replica.LogText(cmd)| <= Codec.LargestSize
      && raft.State().log.LastIndex() + 1 < Codec.WordLimit && raft.term < Codec.WordLimit
    }

    /** `handle_command`: reads answer at once; an update is appended as text and its session waits for the index. */
    method HandleCommand(cmd: Command) returns (reply: Reply)
      requires Valid() && (Replica.Updates(cmd) ==> Room(cmd))
      modifies `commands, raft.log, raft.log.file
      ensures Valid() && (raft.log.file == old(raft.log.file) || fresh(raft.log.file))
      ensures cmd.kind.Unknown? ==> reply == Waiting
      ensures cmd.kind.Get? ==> reply == Ok(if cmd.key in db then db[cmd.key] else NullText)
      ensures Replica.Updates(cmd) ==> (reply == NotLeader <==> raft.role != Server.Leader) && !reply.Ok?
      ensures Replica.Updates(cmd) && reply == Waiting ==>
                && raft.State() == Server.ClientAppend(old(raft.State()), Replica.LogText(cmd))
                && commands == Awaiting(old(commands), raft.State().log.LastIndex(), cmd)
      ensures !Replica.Updates(cmd) || reply != Waiting ==>
                raft.State() == old(raft.State()) && commands == old(commands)
      ensures reply == InternalError ==> Log.Grown(raft.log.file.Length) > raft.log.limit
    {
      reply := Waiting;  // an unknown command is left without an answer
      if cmd.kind.Get? {
        reply := Ok(if cmd.key in db then db[cmd.key] else NullText);
      } else if cmd.kind.Set? || cmd.kind.Del? {
        if raft.role != Server.Leader { return NotLeader; }
        reply := Submit(cmd);
      }
    }

    /** The leader's part. */
    method Submit(cmd: Command) returns (reply: Reply)
      requires Valid() && Room(cmd) && raft.role == Server.Leader
      modifies `commands, raft.log, raft.log.file
      ensures Valid() && (raft.log.file == old(raft.log.file) || fresh(raft.log.file))
      ensures reply == Waiting || reply == InternalError
      ensures reply == Waiting ==>
                && raft.State() == Server.ClientAppend(old(raft.State()), Replica.LogText(cmd))
                && commands == Awaiting(old(commands), raft.State().log.LastIndex(), cmd)
      ensures reply == InternalError ==>
                && raft.State() == old(raft.State()) && commands == old(commands)
                && Log.Grown(raft.log.file.Length) > raft.log.limit
    {
      var text := Replica.LogText(cmd);
      GrowKeepsOrder(raft.State(), raft.lastApplied, text);
      var index := raft.Append(text);
      match index
      case None => reply := InternalError;
      case Some(i) =>
        if i !in commands { commands := commands[i := cmd]; }
        reply := Waiting;
    }

    /** `apply` or, for an entry a session waits for, `insert`. */
    method Act(e: Entry)
      requires !e.config
      modifies this
      ensures Now() == ApplyEntry(old(Now()), e)
    {
      if e.index !in commands {
        db := Replica.Apply(db, e.data);
      } else {
        var cmd := commands[e.index];
        if cmd.kind.Set? {
          answers := answers + [Answer(e.index, if cmd.key in db then db[cmd.key] else [])];
          db := db[cmd.key := cmd.value];
        } else if cmd.kind.Del? {
          answers := answers + [Answer(e.index, [])];
          db := db - {cmd.key};
        }
        commands := commands - {e.index};
      }
    }

    /** Compaction up to `index` failed: the log file has lost the records, the states file still has the old base. */
    ghost predicate Stuck(before: Store.Contents, index: nat)
      reads raft, raft.log, raft.log.file
    {
      && before.Sound() && before.Chained() && before.Present(index)
      && raft.log.Unsettled(before, index) && Log.Grown(raft.log.statSize) > raft.log.limit
    }

    /** Until the last turn the replica is as it was; the last turn may have compacted its log, or failed to. */
    ghost predicate Underway(s: Server.Node, before: Store.Contents, tidies: bool, rc: Log.Rc)
      requires tidies ==> s.log.Present(s.commitIndex)
      reads this, raft, raft.log, raft.log.file
    {
      var done := raft.lastApplied == s.commitIndex;
      && raft.lastApplied <= s.commitIndex == raft.commitIndex
      && (!done ==> rc == Log.Good && raft.Valid() && raft.State() == s && raft.log.Abs() == before)
      && (done && rc == Log.Good ==> raft.Valid() && raft.State() == Tidied(s, tidies))
      && (rc != Log.Good ==> tidies && Stuck(before, s.commitIndex))
    }

    /** `on_log_entry_committed`: the entry acts; at the commit index the log is compacted. */
    method OnLogEntryCommitted(e: Entry, ghost s: Server.Node, ghost before: Store.Contents) returns (rc: Log.Rc)
      requires raft.Valid() && raft.log.Abs() == before && raft.State() == s
      requires s.log.Present(e.index) && e == PresentEntry(s.log, e.index) && !e.config
      requires e.index == raft.lastApplied <= s.commitIndex
      modifies this, raft.log, raft.log.file
      ensures raft.log.file == old(raft.log.file)
      ensures Now() == ApplyEntry(old(Now()), e)
      ensures Underway(s, before, Tidies(s, compaction), rc)
    {
      Act(e);
      rc := Log.Good;
      if compaction && e.index == raft.commitIndex {
        rc := raft.Drop(e.index);
      }
    }

    /** One turn of the loop. */
    method ApplyNext(ghost s: Server.Node, ghost before: Store.Contents, ghost lo: nat, ghost was: Served)
      returns (rc: Log.Rc)
      requires raft.Valid() && raft.State() == s && raft.log.Abs() == before
      requires Ordered(s, lo) && lo <= raft.lastApplied < s.commitIndex
      requires Now() == ApplyUpTo(s.log, was, lo, raft.lastApplied)
      modifies this, raft`lastApplied, raft.log, raft.log.file
      ensures raft.log.file == old(raft.log.file)
      ensures raft.lastApplied == old(raft.lastApplied) + 1
      ensures Now() == ApplyUpTo(s.log, was, lo, raft.lastApplied)
      ensures Underway(s, before, Tidies(s, compaction), rc)
    {
      var e := NextEntry(s);
      OneMoreApplied(s.log, was, lo, raft.lastApplied, Now(), e);
      rc := ApplyOne(e, s, before);
    }

    /** Configuration entries are passed over. */
    method ApplyOne(e: Entry, ghost s: Server.Node, ghost before: Store.Contents) returns (rc: Log.Rc)
      requires raft.Valid() && raft.log.Abs() == before && raft.State() == s
      requires s.log.Present(e.index) && e == PresentEntry(s.log, e.index)
      requires e.index == raft.lastApplied <= s.commitIndex
      modifies this, raft.log, raft.log.file
      ensures raft.log.file == old(raft.log.file)
      ensures Now() == ApplyEntry(old(Now()), e)
      ensures Underway(s, before, Tidies(s, compaction), rc)
    {
      if e.config {
        rc := Log.Good;
      } else {
        rc := OnLogEntryCommitted(e, s, before);
      }
    }

    method NextEntry(ghost s: Server.Node) returns (e: Entry)
      requires raft.Valid() && raft.State() == s && s.log.Valid() && s.log.Present(raft.lastApplied + 1)
      modifies raft`lastApplied
      ensures raft.Valid() && raft.State() == s && raft.lastApplied == old(raft.lastApplied) + 1
      ensures e == PresentEntry(s.log, raft.lastApplied) && e.index == raft.lastApplied
    {
      raft.lastApplied := raft.lastApplied + 1;
      IndexOfEntry(s.log, raft.lastApplied);
      var found := raft.EntryAt(raft.lastApplied);
      e := found.value;
    }

    /** `apply_log_committed`: every committed entry is applied once, in order. */
    method ApplyCommitted() returns (rc: Log.Rc)
      requires Valid()
      modifies this, raft`lastApplied, raft.log, raft.log.file
      ensures raft.log.file == old(raft.log.file)
      ensures raft.commitIndex == old(raft.commitIndex) && raft.lastApplied == raft.commitIndex
      ensures Now() == ApplyUpTo(old(raft.State()).log, old(Now()), old(raft.lastApplied), old(raft.commitIndex))
      ensures rc == Log.Good ==>
                && Valid()
                && raft.State() == if old(raft.lastApplied) < old(raft.commitIndex)
                                   then Tidied(old(raft.State()), Tidies(old(raft.State()), compaction))
                                   else old(raft.State())
      ensures !compaction || old(raft.lastApplied) == old(raft.commitIndex) ==>
                rc == Log.Good && raft.State() == old(raft.State())
      ensures rc == Log.Good && compaction && old(raft.lastApplied) < old(raft.commitIndex)
              && !PresentEntry(old(raft.State()).log, old(raft.commitIndex)).config ==>
                raft.State().log.baseIndex == raft.commitIndex
      ensures old(raft.lastApplied) < old(raft.commitIndex)
              && PresentEntry(old(raft.State()).log, old(raft.commitIndex)).config ==>
                rc == Log.Good && raft.State() == old(raft.State())
      ensures rc != Log.Good ==> Stuck(old(raft.log.Abs()), old(raft.commitIndex))
    {
      rc := Log.Good;
      if raft.lastApplied < raft.commitIndex {
        TidiedOrdered(raft.State(), raft.lastApplied, Tidies(raft.State(), compaction));
        TidiedBase(raft.State(), compaction);
        rc := ApplyAll(raft.State(), raft.log.Abs(), raft.lastApplied, Now());
      }
    }

    method ApplyAll(ghost s: Server.Node, ghost before: Store.Contents, ghost lo: nat, ghost was: Served)
      returns (rc: Log.Rc)
      requires raft.Valid() && s == raft.State() && before == raft.log.Abs() && Ordered(s, lo)
      requires lo == raft.lastApplied < raft.commitIndex && was == Now()
      modifies this, raft`lastApplied, raft.log, raft.log.file
      ensures raft.log.file == old(raft.log.file)
      ensures raft.lastApplied == s.commitIndex && Underway(s, before, Tidies(s, compaction), rc)
      ensures Now() == ApplyUpTo(s.log, was, lo, s.commitIndex)
    {
      rc := Log.Good;
      while raft.lastApplied < raft.commitIndex
        invariant raft.log.file == old(raft.log.file)
        invariant lo <= raft.lastApplied <= s.commitIndex && Underway(s, before, Tidies(s, compaction), rc)
        invariant Now() == ApplyUpTo(s.log, was, lo, raft.lastApplied)
      {
        rc := ApplyNext(s, before, lo, was);
      }
    }
  }

  function PresentEntry(v: LogView, index: nat): Entry
    requires v.Present(index)
  {
    v.entries[index - v.baseIndex - 1]
  }

  lemma OneMoreApplied(v: LogView, a: Served, lo: nat, hi: nat, before: Served, e: Entry)
    requires v.baseIndex <= lo < hi <= v.LastIndex()
    requires before == ApplyUpTo(v, a, lo, hi - 1) && e == PresentEntry(v, hi)
    ensures ApplyUpTo(v, a, lo, hi) == ApplyEntry(before, e)
  {
  }

  /** The entry at the commit index is one after which `on_log_entry_committed` compacts the log. */
  predicate Tidies(s: Server.Node, compaction: bool) {
    compaction && s.log.Present(s.commitIndex) && !PresentEntry(s.log, s.commitIndex).config
  }

  ghost function Tidied(s: Server.Node, tidies: bool): Server.Node
    requires tidies ==> s.log.Present(s.commitIndex)
  {
    if tidies then s.(log := s.log.Drop(s.commitIndex)) else s
  }

  lemma GrowKeepsOrder(s: Server.Node, lastApplied: nat, text: Bytes)
    requires Ordered(s, lastApplied)
    ensures Ordered(Server.ClientAppend(s, text), lastApplied)
  {
  }

  lemma TidiedOrdered(s: Server.Node, lastApplied: nat, tidies: bool)
    requires Ordered(s, lastApplied) && (tidies ==> s.log.Present(s.commitIndex))
    ensures Ordered(Tidied(s, tidies), s.commitIndex)
  {
  }

  /** Compaction goes up to the commit index unless that holds a configuration; switched off it does nothing. */
  lemma TidiedBase(s: Server.Node, compaction: bool)
    requires s.log.Valid() && s.log.Present(s.commitIndex)
    ensures !compaction || PresentEntry(s.log, s.commitIndex).config ==> Tidied(s, Tidies(s, compaction)) == s
    ensures compaction && !PresentEntry(s.log, s.commitIndex).config ==>
              Tidied(s, Tidies(s, compaction)).log.baseIndex == s.commitIndex
  {
  }

  lemma IndexOfEntry(v: LogView, index: nat)
    requires v.Valid() && v.Present(index)
    ensures v.Lookup(index) == Some(PresentEntry(v, index)) && PresentEntry(v, index).index == index
  {
  }
}
