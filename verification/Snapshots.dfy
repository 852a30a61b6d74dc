/**
 What replaying the log makes of a database that was read back from a snapshot: each key has the value it had at some
 index between the one replay has reached and the one the snapshot had reached.
 */
module Snapshots {
  import opened RaftLog
  import opened Pipeline
  import opened Replica
  import CommandParser

  /** The database after the first `n` entries. */
  function After(log: seq<Entry>, n: nat): Database
    requires n <= |log|
  {
    Fold(TextStep, Full(log), map[], 0, n)
  }

  predicate SameKey(db: Database, other: Database, key: Bytes) {
    (key in db <==> key in other) && (key in db ==> db[key] == other[key])
  }

  lemma SameKeysSame(db: Database, other: Database)
    requires forall key :: SameKey(db, other, key)
    ensures db == other
  {
    forall key ensures key in db <==> key in other { assert SameKey(db, other, key); }
    forall key | key in db ensures db[key] == other[key] { assert SameKey(db, other, key); }
  }

  // ----- One entry

  /** The entry sets or deletes the key. */
  predicate Touches(e: Entry, key: Bytes) {
    && !e.config && SecondWord(e.data) == key
    && (FirstWord(e.data) == CommandParser.SetWord || FirstWord(e.data) == CommandParser.DelWord)
  }

  lemma StepOnKey(db: Database, other: Database, e: Entry, key: Bytes)
    ensures if Touches(e, key) then SameKey(TextStep(db, e), TextStep(other, e), key)
            else SameKey(TextStep(db, e), db, key)
  {
  }

  lemma AfterNext(log: seq<Entry>, n: nat)
    requires n < |log|
    ensures After(log, n + 1) == TextStep(After(log, n), log[n])
  {
  }

  lemma AfterPrefix(log: seq<Entry>, longer: seq<Entry>, n: nat)
    requires log <= longer && n <= |log|
    ensures After(longer, n) == After(log, n)
  {
    assert longer[..n] == log[..n];
    FoldReadsPrefix(TextStep, Full(log), Full(longer), map[], 0, n);
  }

  // ----- Databases between two indices

  ghost predicate KeyBetween(db: Database, log: seq<Entry>, lo: nat, hi: nat, key: Bytes)
    requires lo <= hi <= |log|
  {
    exists p: nat :: lo <= p <= hi && SameKey(db, After(log, p), key)
  }

  /** Every key has the value of some index from `lo` to `hi`. */
  ghost predicate Between(db: Database, log: seq<Entry>, lo: nat, hi: nat) {
    lo <= hi <= |log| && forall key :: KeyBetween(db, log, lo, hi, key)
  }

  lemma BetweenExactly(db: Database, log: seq<Entry>, n: nat)
    requires Between(db, log, n, n)
    ensures db == After(log, n)
  {
    forall key ensures SameKey(db, After(log, n), key) { assert KeyBetween(db, log, n, n, key); }
    SameKeysSame(db, After(log, n));
  }

  lemma AfterBetween(log: seq<Entry>, n: nat)
    requires n <= |log|
    ensures Between(After(log, n), log, n, n)
  {
    forall key ensures KeyBetween(After(log, n), log, n, n, key) {
      assert SameKey(After(log, n), After(log, n), key);
    }
  }

  lemma BetweenGrows(db: Database, log: seq<Entry>, longer: seq<Entry>, lo: nat, hi: nat)
    requires Between(db, log, lo, hi) && log <= longer
    ensures Between(db, longer, lo, hi)
  {
    forall key ensures KeyBetween(db, longer, lo, hi, key) {
      assert KeyBetween(db, log, lo, hi, key);
      var p: nat :| lo <= p <= hi && SameKey(db, After(log, p), key);
      AfterPrefix(log, longer, p);
      assert SameKey(db, After(longer, p), key);
    }
  }

  /** Less is known of a database that starts earlier. */
  lemma BetweenWidens(db: Database, log: seq<Entry>, lo: nat, hi: nat, from: nat)
    requires Between(db, log, lo, hi) && from <= lo
    ensures Between(db, log, from, hi)
  {
    forall key ensures KeyBetween(db, log, from, hi, key) {
      assert KeyBetween(db, log, lo, hi, key);
      var p: nat :| lo <= p <= hi && SameKey(db, After(log, p), key);
    }
  }

  lemma KeyNext(db: Database, log: seq<Entry>, lo: nat, hi: nat, key: Bytes)
    requires lo <= hi <= |log| && KeyBetween(db, log, lo, hi, key) && lo < |log|
    ensures KeyBetween(TextStep(db, log[lo]), log, lo + 1, Max(hi, lo + 1), key)
  {
    var e, db' := log[lo], TextStep(db, log[lo]);
    var p: nat :| lo <= p <= hi && SameKey(db, After(log, p), key);
    AfterNext(log, lo);
    StepOnKey(db, After(log, lo), e, key);
    StepOnKey(After(log, lo), db, e, key);
    if Touches(e, key) || p == lo {
      assert SameKey(db', After(log, lo + 1), key);
    } else {
      assert SameKey(db', After(log, p), key);
    }
  }

  /** Applying the next entry moves the lower end up. */
  lemma BetweenNext(db: Database, log: seq<Entry>, lo: nat, hi: nat)
    requires Between(db, log, lo, hi) && lo < |log|
    ensures Between(TextStep(db, log[lo]), log, lo + 1, Max(hi, lo + 1))
  {
    var db', from, to := TextStep(db, log[lo]), lo + 1, Max(hi, lo + 1);
    forall key ensures KeyBetween(db', log, from, to, key) {
      assert KeyBetween(db, log, lo, hi, key);
      KeyNext(db, log, lo, hi, key);
    }
  }

  // ----- Replaying from a base

  /** The database of a restart: a snapshot, and the entries from the base up to `n` applied to it. */
  function Restored(log: seq<Entry>, saved: Database, base: nat, n: nat): Database
    requires base <= n <= |log|
  {
    Fold(TextStep, Full(log), saved, base, n)
  }

  /** Some entry after `base` up to `n` sets or deletes the key. */
  predicate Rewritten(log: seq<Entry>, base: nat, n: nat, key: Bytes)
    requires base <= n <= |log|
  {
    exists k | base <= k < n :: Touches(log[k], key)
  }

  lemma RewrittenNext(log: seq<Entry>, base: nat, n: nat, key: Bytes)
    requires base < n <= |log|
    ensures Rewritten(log, base, n, key) <==> Rewritten(log, base, n - 1, key) || Touches(log[n - 1], key)
  {
  }

  lemma {:induction false} FoldOnKey(log: seq<Entry>, db: Database, other: Database, base: nat, n: nat, key: Bytes)
    requires base <= n <= |log|
    ensures if Rewritten(log, base, n, key) then SameKey(Restored(log, db, base, n), Restored(log, other, base, n), key)
            else SameKey(Restored(log, db, base, n), db, key)
    decreases n
  {
    if base < n {
      FoldOnKey(log, db, other, base, n - 1, key);
      var x, y := Restored(log, db, base, n - 1), Restored(log, other, base, n - 1);
      RewrittenNext(log, base, n, key);
      StepOnKey(x, y, log[n - 1], key);
      StepOnKey(y, x, log[n - 1], key);
    }
  }

  /**
   When does replay make a restored database right? For a snapshot taken at `at`, after the entries from `base` to `n`
   the database is that of `n` if and only if every key that those do not rewrite had at the base the value it had when
   the snapshot was taken.
   */
  lemma ReplayExact(log: seq<Entry>, at: nat, base: nat, n: nat)
    requires at <= |log| && base <= n <= |log|
    ensures Restored(log, After(log, at), base, n) == After(log, n) <==>
            forall key :: Rewritten(log, base, n, key) || SameKey(After(log, at), After(log, base), key)
  {
    var saved, truth := After(log, at), After(log, base);
    var r := Restored(log, saved, base, n);
    FoldInTurns(TextStep, Full(log), map[], 0, base, n);
    forall key
      ensures SameKey(r, After(log, n), key) <==> Rewritten(log, base, n, key) || SameKey(saved, truth, key)
    {
      FoldOnKey(log, saved, truth, base, n, key);
      FoldOnKey(log, truth, saved, base, n, key);
    }
    if forall key :: Rewritten(log, base, n, key) || SameKey(saved, truth, key) {
      forall key ensures SameKey(r, After(log, n), key) {
        assert Rewritten(log, base, n, key) || SameKey(saved, truth, key);
      }
      SameKeysSame(r, After(log, n));
    } else if r == After(log, n) {
      var key :| !(Rewritten(log, base, n, key) || SameKey(saved, truth, key));
      assert SameKey(r, After(log, n), key);
    }
  }

  lemma {:induction false} RestoredBetween(log: seq<Entry>, db: Database, base: nat, hi: nat, n: nat)
    requires Between(db, log, base, hi) && base <= n <= |log|
    ensures Between(Restored(log, db, base, n), log, n, Max(hi, n))
    decreases n
  {
    if base < n {
      RestoredBetween(log, db, base, hi, n - 1);
      BetweenNext(Restored(log, db, base, n - 1), log, n - 1, Max(hi, n - 1));
    }
  }

  /** A snapshot no older than the base needs nothing else: once replay has passed it the database is right. */
  lemma ReplayFromLater(log: seq<Entry>, at: nat, base: nat, n: nat)
    requires base <= at <= n <= |log|
    ensures Restored(log, After(log, at), base, n) == After(log, n)
  {
    AfterBetween(log, at);
    BetweenWidens(After(log, at), log, at, at, base);
    RestoredBetween(log, After(log, at), base, at, n);
    BetweenExactly(Restored(log, After(log, at), base, n), log, n);
  }
}
