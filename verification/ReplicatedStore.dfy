/**
 The whole way from the protocol to the databases: over a run of the cluster, servers that have applied up to the
 same index have the same database, and the requests a server accepts never touch what it has committed.
 */
module ReplicatedStore {
  import opened RaftLog
  import opened Server
  import opened Protocol
  import opened Invariants
  import opened CommitInvariants
  import opened StateMachineSafety
  import opened Pipeline
  import FollowerMerge
  import Preservation
  import Replica

  /** A server of a run has a numbered log that reaches its commit index. */
  lemma CommitWithinLog(run: seq<Cluster>, i: nat, a: Id)
    requires HonestRun(run) && i < |run| && a in run[i].nodes
    ensures run[i].nodes[a].log == Full(run[i].nodes[a].log.entries) && Numbered(0, run[i].nodes[a].log.entries)
    ensures run[i].nodes[a].commitIndex <= |run[i].nodes[a].log.entries|
  {
    RunNodeFacts(run, i, a);
  }

  /** What two servers have committed up to an index is the same sequence of entries. */
  lemma CommittedPrefixesAgree(run: seq<Cluster>, i: nat, j: nat, a: Id, b: Id, n: nat)
    requires HonestRun(run) && i < |run| && j < |run| && a in run[i].nodes && b in run[j].nodes
    requires n <= run[i].nodes[a].commitIndex && n <= run[j].nodes[b].commitIndex
    ensures n <= |run[i].nodes[a].log.entries| && n <= |run[j].nodes[b].log.entries|
    ensures run[i].nodes[a].log.entries[..n] == run[j].nodes[b].log.entries[..n]
  {
    CommitWithinLog(run, i, a);
    CommitWithinLog(run, j, b);
    var x, y := run[i].nodes[a].log.entries, run[j].nodes[b].log.entries;
    forall k | 0 <= k < n ensures x[..n][k] == y[..n][k] {
      StateMachineSafety.StateMachineSafety(run, i, j, a, b, k + 1);
    }
  }

  /**
   Two servers that have applied the log up to the same committed index have equal databases, whatever sessions wait
   at either, as long as each session's command is the plain one whose text was appended at its index.
   */
  lemma DatabasesAgree(run: seq<Cluster>, i: nat, j: nat, a: Id, b: Id, n: nat, x: Commands, y: Commands)
    requires HonestRun(run) && i < |run| && j < |run| && a in run[i].nodes && b in run[j].nodes
    requires n <= run[i].nodes[a].commitIndex && n <= run[j].nodes[b].commitIndex
    requires Faithful(run[i].nodes[a].log, x) && Faithful(run[j].nodes[b].log, y)
    ensures run[i].nodes[a].log.baseIndex == run[j].nodes[b].log.baseIndex == 0
    ensures n <= run[i].nodes[a].log.LastIndex() && n <= run[j].nodes[b].log.LastIndex()
    ensures ApplyUpTo(run[i].nodes[a].log, Served(map[], x, []), 0, n).db
            == ApplyUpTo(run[j].nodes[b].log, Served(map[], y, []), 0, n).db
  {
    CommitWithinLog(run, i, a);
    CommitWithinLog(run, j, b);
    CommittedPrefixesAgree(run, i, j, a, b, n);
    SameTextSameDatabase(run[i].nodes[a].log, run[j].nodes[b].log, x, y, n);
  }

  lemma SameTextSameDatabase(v: LogView, w: LogView, x: Commands, y: Commands, n: nat)
    requires v.Valid() && w.Valid() && v.baseIndex == w.baseIndex == 0 && n <= v.LastIndex() && n <= w.LastIndex()
    requires v.entries[..n] == w.entries[..n] && Faithful(v, x) && Faithful(w, y)
    ensures ApplyUpTo(v, Served(map[], x, []), 0, n).db == ApplyUpTo(w, Served(map[], y, []), 0, n).db
  {
    DatabaseIsText(v, Served(map[], x, []), 0, n);
    DatabaseIsText(w, Served(map[], y, []), 0, n);
    FoldReadsPrefix(TextStep, v, w, map[], 0, n);
  }

  // ----- The pipeline's assumption on requests holds in every run

  lemma {:induction false} ExtendedRun(run: seq<Cluster>, c: Cluster, step: Protocol.Step)
    requires HonestRun(run) && HonestStep(run[|run| - 1], c, step)
    ensures HonestRun(run + [c])
  {
    forall i: nat | i < |run + [c]| - 1 ensures HonestNextAt(run + [c], i) {
      if i < |run| - 1 { assert HonestNextAt(run, i); }
    }
  }

  /** A request some server sent, delivered at the end of a run, contradicts nothing its receiver has committed. */
  lemma RequestsSpareCommitted(run: seq<Cluster>, m: AppendMsg)
    requires HonestRun(run)
    requires var c := run[|run| - 1];
             m in c.net.appendReqs && m.to in c.nodes && OnAppendRequest(c.nodes[m.to], m.req).1.success
    ensures Numbered(m.req.prevIndex, m.req.entries)
    ensures var s := run[|run| - 1].nodes[m.to]; ConflictsAbove(s.log, s.commitIndex, m.req.entries)
  {
    var last := |run| - 1;
    var c := run[last];
    var s, c' := c.nodes[m.to], DoDeliverAppend(c, m);
    CommitWithinLog(run, last, m.to);
    ExtendedRun(run, c', DeliverAppend(m));
    CommittedNeverRemoved(run + [c'], last, last + 1, m.to);
    RequestNumbered(run, last, m);
    RunNodeFacts(run, last, m.to);
    AcceptedLog(s, m.req);
    MergeKeepsCommitted(s.log, s.commitIndex, m.req.prevIndex, m.req.entries);
  }

  lemma AcceptedLog(s: Node, req: AppendReq)
    requires s.log == Full(s.log.entries) && OnAppendRequest(s, req).1.success
    ensures req.prevIndex <= s.log.LastIndex() && !s.log.ChopFails(req.entries)
    ensures OnAppendRequest(s, req).0.log == s.log.Merge(req.entries) && OnAppendRequest(s, req).0.id == s.id
  {
  }

  lemma RequestNumbered(run: seq<Cluster>, i: nat, m: AppendMsg)
    requires HonestRun(run) && i < |run| && m in run[i].net.appendReqs
    ensures Numbered(m.req.prevIndex, m.req.entries)
  {
    var reigns := run[i].hist.reigns;
    HonestRunIsRun(run);
    Preservation.RunInv(run, i);
    assert AppendReqOk(reigns, m.to, m.req) && ReignOk(reigns, m.req.term);
    StretchNumbered(reigns[m.req.term].log, m.req);
  }
}
