/**
 A cluster of fixed membership as a state machine: every handler of a server is one atomic step, messages may be
 delayed, reordered, lost and delivered again, timers are nondeterministic, and a server may restart at any time
 keeping its vote file and its log.
 */
module Protocol {
  import opened RaftLog
  import opened Server

  // ----- Messages. A reply callback owns the request it answers.

  datatype VoteMsg = VoteMsg(to: Id, req: VoteReq)
  datatype VoteReply = VoteReply(voter: Id, req: VoteReq, res: VoteRes)
  datatype VoteTask = VoteTask(voter: Id, candidate: Id, term: nat)
  datatype AppendMsg = AppendMsg(to: Id, req: AppendReq)

  /** `log` is the follower's log when it replied: a history variable, no handler reads it. */
  datatype AppendReply = AppendReply(from: Id, req: AppendReq, res: AppendRes, log: seq<Entry>)

  datatype Network = Network(
    voteReqs: set<VoteMsg>,
    voteReplies: set<VoteReply>,
    handled: set<VoteTask>,  // vote callbacks that have run; each runs once
    appendReqs: set<AppendMsg>,
    appendReplies: set<AppendReply>)

  // ----- History variables: written by steps, read by no handler and no guard.

  /** One leadership: who held it, who elected it, and the leader's log as far as it got. */
  datatype Reign = Reign(owner: Id, electors: set<Id>, log: seq<Entry>)
  type Reigns = map<nat, Reign>

  /** The vote a server gave in a term, with its log at that moment. */
  datatype Grant = Grant(candidate: Id, log: seq<Entry>)

  datatype History = History(
    reigns: Reigns,
    grants: map<(Id, nat), Grant>,
    ballots: map<(Id, nat), set<Id>>,  // voters whose grants a candidate counted in a term
    acked: map<(Id, nat), nat>)        // how much of a term's leader log a server has confirmed in that term

  datatype Cluster = Cluster(members: set<Id>, nodes: map<Id, Node>, net: Network, hist: History)

  datatype Step =
    | Yield(id: Id)                                // pre_vote: an election timeout or timeout_now
    | Elect(id: Id)                                // leader_election
    | DeliverVote(vote: VoteMsg)                   // rpc request_vote
    | CountVote(ballot: VoteReply)                 // on_request_vote
    | Propose(id: Id, data: Bytes)                 // append
    | SendAppend(id: Id, to: Id)                   // append_entries to one peer
    | SendStretch(id: Id, to: Id, prev: nat, count: nat)  // what a leader whose log is compacted may send instead
    | DeliverAppend(request: AppendMsg)            // rpc append_entries
    | Refuse(request: AppendMsg)                   // rpc append_entries, below the receiver's base
    | HandleReply(reply: AppendReply, commit: nat) // on_append_entries
    | CommitAlone(id: Id)                          // heartbeat of a lone member
    | Reboot(id: Id, commit: nat)                  // restart from the vote and log files

  // ----- Initial states: every member holds the bootstrap entry.

  ghost predicate Init(c: Cluster) {
    && NoVote !in c.members
    && c.members != {}
    && c.nodes.Keys == c.members
    && c.net == Network({}, {}, {}, {}, {})
    && exists boot: Entry :: Bootstrapped(c, boot)
  }

  ghost predicate Bootstrapped(c: Cluster, boot: Entry)
    requires c.nodes.Keys == c.members
  {
    && boot.term == 1 && boot.index == 1
    && c.hist == History(map[1 := Reign(NoVote, {}, [boot])], map[], map[], map i | i in c.members :: (i, 1) := 1)
    && forall i | i in c.members :: InitialNode(c.members, i, boot, c.nodes[i])
  }

  predicate InitialNode(members: set<Id>, id: Id, boot: Entry, n: Node) {
    && n.id == id && n.cluster == members && n.term >= 1 && n.role == Follower
    && n.log == Full([boot]) && n.commitIndex <= 1
  }

  // ----- Steps

  function Put(c: Cluster, s: Node): Cluster {
    c.(nodes := c.nodes[s.id := s])
  }

  function WithAck(h: History, id: Id, term: nat, length: nat): History {
    h.(acked := h.acked[(id, term) := length])
  }

  function Acked(h: History, id: Id, term: nat): nat {
    if (id, term) in h.acked then h.acked[(id, term)] else 0
  }

  function Ballots(h: History, id: Id, term: nat): set<Id> {
    if (id, term) in h.ballots then h.ballots[(id, term)] else {}
  }

  /** History when `s` has become leader of its term; nothing changes otherwise. */
  function Inaugurate(h: History, s: Node): History {
    if s.role != Leader then h
    else
      var reign := Reign(s.id, Ballots(h, s.id, s.term), s.log.entries);
      WithAck(h.(reigns := h.reigns[s.term := reign]), s.id, s.term, |s.log.entries|)
  }

  function DoElect(c: Cluster, id: Id): Cluster
    requires id in c.nodes
  {
    var s := StartElection(c.nodes[id]);
    var h := c.hist.(grants := c.hist.grants[(s.id, s.term) := Grant(s.id, s.log.entries)],
                     ballots := c.hist.ballots[(s.id, s.term) := {s.id}]);
    var requests := set n | n in c.members && n != id :: VoteMsg(n, BuildVoteReq(s));
    Put(c, s).(net := c.net.(voteReqs := c.net.voteReqs + requests), hist := Inaugurate(h, s))
  }

  /** The first grant of a server in a term is recorded. */
  function RecordGrant(h: History, s: Node, req: VoteReq, res: VoteRes): History {
    if res.granted && (s.id, req.term) !in h.grants
    then h.(grants := h.grants[(s.id, req.term) := Grant(req.candidate, s.log.entries)])
    else h
  }

  function DoDeliverVote(c: Cluster, m: VoteMsg): Cluster
    requires m.to in c.nodes
  {
    var (s, res) := OnVoteRequest(c.nodes[m.to], m.req);
    Put(c, s).(net := c.net.(voteReplies := c.net.voteReplies + {VoteReply(m.to, m.req, res)}),
               hist := RecordGrant(c.hist, s, m.req, res))
  }

  predicate Counts(s: Node, res: VoteRes) {
    s.role == Candidate && res.granted && res.term >= s.term
  }

  function RecordBallot(h: History, s: Node, r: VoteReply): History {
    if Counts(s, r.res) then h.(ballots := h.ballots[(s.id, s.term) := Ballots(h, s.id, s.term) + {r.voter}]) else h
  }

  function TaskOf(r: VoteReply): VoteTask {
    VoteTask(r.voter, r.req.candidate, r.req.term)
  }

  function DoCountVote(c: Cluster, r: VoteReply): Cluster
    requires r.req.candidate in c.nodes
  {
    var s := c.nodes[r.req.candidate];
    var s' := OnVoteReply(s, r.res);
    var h := RecordBallot(c.hist, s, r);
    Put(c, s').(net := c.net.(handled := c.net.handled + {TaskOf(r)}),
                hist := if s.role == Candidate then Inaugurate(h, s') else h)
  }

  function DoPropose(c: Cluster, id: Id, data: Bytes): Cluster
    requires id in c.nodes
  {
    var s := ClientAppend(c.nodes[id], data);
    var h := c.hist;
    if s.role != Leader || s.term !in h.reigns then Put(c, s)
    else
      var h' := WithAck(h.(reigns := h.reigns[s.term := h.reigns[s.term].(log := s.log.entries)]),
                        s.id, s.term, |s.log.entries|);
      Put(c, s).(hist := h')
  }

  function DoSendAppend(c: Cluster, id: Id, to: Id): Cluster
    requires id in c.nodes && to in c.nodes[id].nextIndex
  {
    var s := c.nodes[id];
    c.(net := c.net.(appendReqs := c.net.appendReqs + {AppendMsg(to, BuildAppendReq(s, s.nextIndex[to]))}))
  }

  /** A request for any stretch of the log. */
  function StretchReq(s: Node, prev: nat, count: nat): AppendReq
    requires prev + count <= |s.log.entries|
  {
    AppendReq(s.term, s.id, prev, TermOfLast(s.log.entries[..prev]), s.log.entries[prev..prev + count], s.commitIndex)
  }

  function DoSendStretch(c: Cluster, id: Id, to: Id, prev: nat, count: nat): Cluster
    requires id in c.nodes && prev + count <= |c.nodes[id].log.entries|
  {
    c.(net := c.net.(appendReqs := c.net.appendReqs + {AppendMsg(to, StretchReq(c.nodes[id], prev, count))}))
  }

  /** A follower confirms its whole log if that is a prefix of the leader's, else the part the request carried. */
  function Confirmed(h: History, s: Node, req: AppendReq): nat {
    var sent := req.prevIndex + |req.entries|;
    var whole := if req.term in h.reigns && s.log.entries <= h.reigns[req.term].log then |s.log.entries| else 0;
    Max(Acked(h, s.id, req.term), Max(sent, whole))
  }

  function DoDeliverAppend(c: Cluster, m: AppendMsg): Cluster
    requires m.to in c.nodes
  {
    var (s, res) := OnAppendRequest(c.nodes[m.to], m.req);
    var reply := AppendReply(m.to, m.req, res, s.log.entries);
    Put(c, s).(net := c.net.(appendReplies := c.net.appendReplies + {reply}),
               hist := if res.success then WithAck(c.hist, s.id, m.req.term, Confirmed(c.hist, s, m.req)) else c.hist)
  }

  function DoRefuse(c: Cluster, m: AppendMsg): Cluster
    requires m.to in c.nodes
  {
    var (s, res) := RefuseAppend(c.nodes[m.to], m.req);
    Put(c, s).(net := c.net.(appendReplies := c.net.appendReplies + {AppendReply(m.to, m.req, res, s.log.entries)}))
  }

  /** A success reply records the reported index and adjusts the commit index; a fault ends the process. */
  ghost predicate SuccessOutcome(s: Node, r: AppendReply, commit: nat, s': Node) {
    var s1 := RecordMatch(s, r.from, r.res.matchIndex);
    if CommitFaults(s1) then commit <= s.commitIndex && s' == Rebooted(s, commit)
    else CommitRule(s1, commit) && s' == s1.(commitIndex := commit)
  }

  ghost predicate ReplyOutcome(s: Node, r: AppendReply, commit: nat, s': Node) {
    if s.role == Leader && r.res.success then SuccessOutcome(s, r, commit, s')
    else s' == OnAppendRefusal(s, r.from, r.res)
  }

  ghost predicate NextStep(c: Cluster, c': Cluster, step: Step) {
    match step
    case Yield(id) => id in c.nodes && c' == Put(c, c.nodes[id].(role := Follower))
    case Elect(id) => id in c.nodes && c' == DoElect(c, id)
    case DeliverVote(m) => m in c.net.voteReqs && m.to in c.nodes && c' == DoDeliverVote(c, m)
    case CountVote(r) =>
      r in c.net.voteReplies && TaskOf(r) !in c.net.handled && r.req.candidate in c.nodes && c' == DoCountVote(c, r)
    case Propose(id, data) => id in c.nodes && c' == DoPropose(c, id, data)
    case SendAppend(id, to) =>
      && id in c.nodes && c.nodes[id].role == Leader && to != id
      && to in c.nodes[id].nextIndex && c' == DoSendAppend(c, id, to)
    case SendStretch(id, to, prev, count) =>
      && id in c.nodes && c.nodes[id].role == Leader && to != id && prev + count <= |c.nodes[id].log.entries|
      && c.nodes[id].commitIndex <= prev + count && c' == DoSendStretch(c, id, to, prev, count)
    case Refuse(m) => m in c.net.appendReqs && m.to in c.nodes && c' == DoRefuse(c, m)
    case DeliverAppend(m) => m in c.net.appendReqs && m.to in c.nodes && c' == DoDeliverAppend(c, m)
    case HandleReply(r, commit) =>
      && r in c.net.appendReplies && r.req.leader in c.nodes
      && exists s' :: ReplyOutcome(c.nodes[r.req.leader], r, commit, s') && c' == Put(c, s')
    case CommitAlone(id) =>
      && id in c.nodes && c.nodes[id].role == Leader && Alone(c.nodes[id])
      && c' == Put(c, c.nodes[id].(commitIndex := c.nodes[id].log.LastIndex()))
    case Reboot(id, commit) =>
      id in c.nodes && commit <= c.nodes[id].commitIndex && c' == Put(c, Rebooted(c.nodes[id], commit))
  }

  ghost predicate Next(c: Cluster, c': Cluster) {
    exists step :: NextStep(c, c', step)
  }

  ghost predicate NextAt(run: seq<Cluster>, i: nat)
    requires i < |run| - 1
  {
    Next(run[i], run[i + 1])
  }

  /** A run: an initial state and any number of steps. */
  ghost predicate Run(run: seq<Cluster>) {
    && run != []
    && Init(run[0])
    && forall i: nat | i < |run| - 1 :: NextAt(run, i)
  }
}
