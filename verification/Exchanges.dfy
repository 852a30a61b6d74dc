/** Laws over the handlers of an exchange: what servers learn of each other's terms, and what repetition changes. */
module Exchanges {
  import opened RaftLog
  import opened Server

  /** Every answer to a vote request reports the voter's term, which is then no less than the request's. */
  lemma VoteReportsTerm(v: Node, req: VoteReq)
    ensures var (v', res) := OnVoteRequest(v, req);
            res.term == v'.term == Max(v.term, req.term) && (res.granted ==> res.term == req.term)
  {
  }

  /** So does every answer to an append request. */
  lemma AppendReportsTerm(f: Node, req: AppendReq)
    ensures var (f', res) := OnAppendRequest(f, req);
            res.term == f'.term == Max(f.term, req.term) && (res.success ==> res.term == req.term)
  {
  }

  /** A candidate that asks a voter of a higher term changes nothing there, and ends as a follower of that term. */
  lemma OutvotedFollows(c: Node, v: Node)
    requires c.role == Candidate && v.term > c.term
    ensures var (v', res) := OnVoteRequest(v, BuildVoteReq(c));
            var c' := OnVoteReply(c, res);
            v' == v && !res.granted && c' == c.(role := Follower, term := v.term)
  {
  }

  /** A leader that sends to a server of a higher term changes nothing there, and ends as a follower of that term. */
  lemma DeposedFollows(s: Node, p: Id, next: nat, f: Node)
    requires s.role == Leader && f.term > s.term
    ensures var (f', res) := OnAppendRequest(f, BuildAppendReq(s, next));
            var s' := OnAppendRefusal(s, p, res);
            f' == f && !res.success && s' == s.(role := Follower, term := f.term)
  {
  }

  /** Whoever is asked or sent to in a higher term follows in that term, its vote free again unless it grants one. */
  lemma HigherTermAdopted(s: Node, vote: VoteReq, append: AppendReq)
    ensures vote.term > s.term ==>
              var (s', res) := OnVoteRequest(s, vote);
              && s'.role == Follower && s'.term == vote.term && s'.log == s.log
              && s'.votedFor == (if res.granted then vote.candidate else NoVote)
    ensures append.term > s.term ==>
              var s' := OnAppendRequest(s, append).0;
              s'.role == Follower && s'.term == append.term && s'.votedFor == NoVote
  {
  }

  /** A vote request that arrives again is answered as before and changes nothing more. */
  lemma VoteRepeats(v: Node, req: VoteReq)
    ensures var (v', res) := OnVoteRequest(v, req); OnVoteRequest(v', req) == (v', res)
  {
  }

  /** Only a candidate counts votes, and only a leader goes by the answers of its followers. */
  lemma LateRepliesIgnored(s: Node, p: Id, vote: VoteRes, append: AppendRes)
    ensures s.role != Candidate ==> OnVoteReply(s, vote) == s
    ensures s.role != Leader ==> OnAppendRefusal(s, p, append) == s
  {
  }
}
