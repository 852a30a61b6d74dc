/** Election Safety and Log Matching (sections 5.2 and 5.3 of the Raft paper), over every run. */
module ElectionSafety {
  import opened RaftLog
  import opened Server
  import opened Protocol
  import opened Invariants
  import Preservation

  ghost predicate Leads(c: Cluster, id: Id, term: nat) {
    id in c.nodes && c.nodes[id].role == Leader && c.nodes[id].term == term
  }

  /** At most one server is ever leader of a term, at whatever two moments of a run one looks. */
  lemma AtMostOneLeaderPerTerm(run: seq<Cluster>, i: nat, j: nat, a: Id, b: Id, term: nat)
    requires Run(run) && i < |run| && j < |run|
    requires Leads(run[i], a, term) && Leads(run[j], b, term)
    ensures a == b
  {
    if j < i {
      AtMostOneLeaderPerTerm(run, j, i, b, a, term);
    } else {
      Preservation.RunInv(run, i);
      Preservation.RunInv(run, j);
      Preservation.RunGrows(run, i, j);
      assert NodeOk(run[i].members, run[i].hist.reigns, a, run[i].nodes[a]);
      assert NodeOk(run[j].members, run[j].hist.reigns, b, run[j].nodes[b]);
    }
  }

  /** Logs at two moments, the earlier seen with the later history. */
  lemma LogsWovenTogether(run: seq<Cluster>, i: nat, j: nat, a: Id)
    requires Run(run) && i <= j < |run| && a in run[i].nodes
    ensures Woven(run[j].hist.reigns, run[i].nodes[a].log.entries)
  {
    Preservation.RunInv(run, i);
    Preservation.RunGrows(run, i, j);
    assert NodeOk(run[i].members, run[i].hist.reigns, a, run[i].nodes[a]);
    WovenGrows(run[i].hist.reigns, run[j].hist.reigns, run[i].nodes[a].log.entries);
  }

  /** Two logs of a run that have an entry with the same index and term agree up to that index. */
  lemma LogMatching(run: seq<Cluster>, i: nat, j: nat, a: Id, b: Id, index: nat)
    requires Run(run) && i < |run| && j < |run| && a in run[i].nodes && b in run[j].nodes
    requires 1 <= index <= |run[i].nodes[a].log.entries| && index <= |run[j].nodes[b].log.entries|
    requires run[i].nodes[a].log.entries[index - 1].term == run[j].nodes[b].log.entries[index - 1].term
    ensures run[i].nodes[a].log.entries[..index] == run[j].nodes[b].log.entries[..index]
  {
    var last := if i <= j then j else i;
    LogsWovenTogether(run, i, last, a);
    LogsWovenTogether(run, j, last, b);
    SameTermSamePrefix(run[last].hist.reigns, run[i].nodes[a].log.entries, run[j].nodes[b].log.entries, index - 1);
  }
}
