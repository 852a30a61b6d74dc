/**
 Safety from a check a leader can make: it acts on a success reply only in the term that sent it, and only when the
 reported index is no larger than the end of what the request carried.
 */
module ExactReplies {
  import opened RaftLog
  import opened Server
  import opened Protocol
  import opened CommitInvariants
  import opened StateMachineSafety
  import opened Pipeline
  import ReplicatedStore

  /** What the leader compares: fields of its own state, of the request it sent and of the reply. */
  predicate ExactReply(s: Node, req: AppendReq, res: AppendRes) {
    s.role == Leader && res.success ==> res.term == s.term && res.matchIndex <= req.prevIndex + |req.entries|
  }

  ghost predicate ExactStep(c: Cluster, c': Cluster, step: Protocol.Step) {
    && NextStep(c, c', step)
    && (step.HandleReply? ==> ExactReply(c.nodes[step.reply.req.leader], step.reply.req, step.reply.res))
  }

  ghost predicate ExactNext(c: Cluster, c': Cluster) {
    exists step :: ExactStep(c, c', step)
  }

  ghost predicate ExactNextAt(run: seq<Cluster>, i: nat)
    requires i < |run| - 1
  {
    ExactNext(run[i], run[i + 1])
  }

  /** A run in which leaders make the check; nothing in it speaks of history. */
  ghost predicate ExactRun(run: seq<Cluster>) {
    && run != []
    && Init(run[0])
    && forall i: nat | i < |run| - 1 :: ExactNextAt(run, i)
  }

  lemma ExactPrefix(run: seq<Cluster>, n: nat)
    requires ExactRun(run) && 0 < n <= |run|
    ensures ExactRun(run[..n])
  {
    forall i: nat | i < n - 1 ensures ExactNextAt(run[..n], i) {
      assert ExactNextAt(run, i);
    }
  }

  /** At the end of an honest run an exact step is an honest one. */
  lemma ExactStepIsHonest(run: seq<Cluster>, c': Cluster, step: Protocol.Step)
    requires HonestRun(run) && ExactStep(run[|run| - 1], c', step)
    ensures HonestStep(run[|run| - 1], c', step)
  {
    if step.HandleReply? {
      var s := run[|run| - 1].nodes[step.reply.req.leader];
      if s.role == Leader && step.reply.res.success {
        HonestWhenExact(run, |run| - 1, step.reply);
      }
    }
  }

  /** The check makes every reply acted on honest. */
  lemma {:induction false} ExactRunIsHonest(run: seq<Cluster>)
    requires ExactRun(run)
    ensures HonestRun(run)
    decreases |run|
  {
    var last := |run| - 1;
    if last > 0 {
      var before := run[..last];
      ExactPrefix(run, last);
      ExactRunIsHonest(before);
      assert ExactNextAt(run, last - 1);
      var step :| ExactStep(run[last - 1], run[last], step);
      ExactStepIsHonest(before, run[last], step);
      ReplicatedStore.ExtendedRun(before, run[last], step);
      assert run == before + [run[last]];
    }
  }

  /** State Machine Safety for leaders that make the check. */
  lemma StateMachineSafetyWhenExact(run: seq<Cluster>, i: nat, j: nat, a: Id, b: Id, index: nat)
    requires ExactRun(run) && i < |run| && j < |run| && a in run[i].nodes && b in run[j].nodes
    requires 1 <= index <= run[i].nodes[a].commitIndex && index <= run[j].nodes[b].commitIndex
    ensures index <= |run[i].nodes[a].log.entries| && index <= |run[j].nodes[b].log.entries|
    ensures run[i].nodes[a].log.entries[index - 1] == run[j].nodes[b].log.entries[index - 1]
  {
    ExactRunIsHonest(run);
    StateMachineSafety.StateMachineSafety(run, i, j, a, b, index);
  }

  /** Their servers' databases agree as well. */
  lemma DatabasesAgreeWhenExact(run: seq<Cluster>, i: nat, j: nat, a: Id, b: Id, n: nat, x: Commands, y: Commands)
    requires ExactRun(run) && i < |run| && j < |run| && a in run[i].nodes && b in run[j].nodes
    requires n <= run[i].nodes[a].commitIndex && n <= run[j].nodes[b].commitIndex
    requires Faithful(run[i].nodes[a].log, x) && Faithful(run[j].nodes[b].log, y)
    ensures run[i].nodes[a].log.baseIndex == run[j].nodes[b].log.baseIndex == 0
    ensures n <= run[i].nodes[a].log.LastIndex() && n <= run[j].nodes[b].log.LastIndex()
    ensures ApplyUpTo(run[i].nodes[a].log, Served(map[], x, []), 0, n).db
            == ApplyUpTo(run[j].nodes[b].log, Served(map[], y, []), 0, n).db
  {
    ExactRunIsHonest(run);
    ReplicatedStore.DatabasesAgree(run, i, j, a, b, n, x, y);
  }

  /** And no leader among them ever looks up an entry it does not have. */
  lemma NoFaultWhenExact(run: seq<Cluster>, i: nat, r: AppendReply)
    requires ExactRun(run) && i < |run| && r in run[i].net.appendReplies && r.req.leader in run[i].nodes
    requires var s := run[i].nodes[r.req.leader]; s.role == Leader && r.res.success && ExactReply(s, r.req, r.res)
    ensures !CommitFaults(RecordMatch(run[i].nodes[r.req.leader], r.from, r.res.matchIndex))
  {
    ExactRunIsHonest(run);
    HonestWhenExact(run, i, r);
    HonestNeverFaults(run, i, r);
  }
}
