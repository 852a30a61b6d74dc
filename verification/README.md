# draft in Dafny

`draft` is a Raft implementation in C++: an RPC layer that moves terms, votes and log entries between servers, a
memory-mapped log file, and a small key/value server that applies committed entries. This project models its
protocol, its log file, its commit-and-apply pipeline and its command path, and proves what holds of them over every
run, every file and every input.

Verify with `dafny verify dfyconfig.toml`.

## How the model is laid out

Handlers exist twice on purpose. `Server` has each of them as a function from a server's state and a message to the new
state and reply; the protocol proofs work on these functions. `RaftNode` is one server as an object over the real log
file, with the same branches, fields and loops as the C++; each method's contract says that it acts on the object's
state exactly as the function says. Likewise `Store` describes the contents of a log as a value, and `EntryLogger` is
the file as an array of bytes with its side index, payload counter and chain head, every method tied to `Store`.

| part | modules |
|---|---|
| log as the handlers see it, follower merge, requests, laws of an exchange | `RaftLog`, `Server`, `FollowerMerge`, `Sending`, `Exchanges` |
| cluster runs: messages delayed, reordered, lost, repeated; restarts; timers | `Protocol`, `Invariants`, `Preservation`, `ElectionSafety` |
| commitment over runs | `CommitInvariants`, `CommitPreservation`, `CommitAppend`, `CommitElection`, `StateMachineSafety`, `ExactReplies`, `OverReport`, `StaleReplies` |
| runs with compacted logs | `CompactedRuns`, `Overcommit` |
| log file | `Codec`, `Store`, `EntryLogger` |
| one server | `CommitIndex`, `RaftNode` |
| commands and the database | `CommandParser`, `Replica`, `Pipeline`, `StorageServer`, `ReplicatedStore` |
| snapshots, and databases over compacted runs | `Snapshots`, `CompactedStores`, `StaleSnapshot` |
| strings and membership | `Strings`, `Membership` |

A run of `Protocol` is a sequence of cluster states. Its history variables (who led a term with what log, who voted for
whom, which part of a leader's log a server confirmed) are written by steps and read by none. Logs in it are complete;
two of its steps, `SendStretch` and `Refuse`, are what a server with a compacted log may do instead. A run of
`CompactedRuns` has no history and lets servers drop what they have committed, and is proved to be matched by a run of
`Protocol`.

## What the code does not promise

These are facts about the code as it is, each with a lemma.

- A success reply reports the follower's whole last index, not the end of what the request carried. Election Safety and
  Log Matching hold regardless. State Machine Safety does not: `OverReportBreaksSafety` is a run in which two servers
  commit different entries at one index, and `OverReportFaults` one in which a leader looks up an entry it does not
  have. It holds when leaders act only on honest replies: sent in the leader's present term by a follower whose log is a
  prefix of the leader's. A leader that compares the reply's term with its own, and the reported index with the end of
  its request, acts on no other (`ExactRunIsHonest`), so every run with that check is safe
  (`StateMachineSafetyWhenExact`). The comparison of terms alone does not do, as above, nor does that of the index
  (`StaleReplyBreaksSafety`).
- After a refusal the leader goes back only to the follower's last index. If the terms differ there, retrying never
  repairs the follower (`RetryRepairsIff` has both directions).
- A compacted leader may announce a commit index its request does not account for (`AnnouncedCommitCovered` has the
  exact condition), and a follower then commits an entry of its own (`CompactedHeartbeatOvercommits`).
  `OvercommitBreaksSafety` is a run in which this makes two servers commit different entries; runs whose requests are
  covered are safe, compaction included (`CompactedSafety`).
- The append handler alone misnumbers a compacted log when a request starts at index 0 (`MergeKeepsNumbering` has the
  exact condition, `RaftNode.AppendEntries` the state left); runs never send such a request (`AlwaysReady`).
- The log is compacted without regard to snapshots. A restart from a snapshot not older than the base gives back the
  database (`ReplayFromLater`); from an older one it may not (`StaleSnapshotLoses` is a run), and `ReplayExact` has the
  exact condition on what was written since.
- A batch keeps the configuration chain exact if and only if it has at most one configuration entry (`AppendExactIff`);
  with several, a chop of the last forgets the others (`BatchForgets`).
- `drop` changes the effective configuration when the text it would record is empty (`DropKeepsConfiguration`).
- The parser accepts commands whose log text means something else: `del a b` deletes the key `a b` on the leader and
  `a` elsewhere (`AcceptedButDiverges`); `PathsAgreeIffPlain` says exactly which commands are safe.
- A text that contains `%20` does not survive escaping (`EscapingRoundTrip`); an id with a comma, or an only member with
  an empty id, does not survive transport (`TransportExact`).

## Model

| member | source | states |
|---|---|---|
| ElectionSafety.AtMostOneLeaderPerTerm | raft/raft_impl.hpp:822-883 | Election Safety (section 5.2 of the Raft paper): over every run, restarts and unrestricted replies included, two leaders of one term are the same server |
| ElectionSafety.LogMatching | raft/raft_rpc.hpp:177-251 | Log Matching (section 5.3): two logs of a run, at any two moments, with an entry of equal index and term agree up to it |
| Preservation.StepKeepsInv | raft/raft_impl.hpp:741-1021 | every step of every kind keeps the invariant: bound votes, ballots counted once per callback, one elected reign per term, every log woven of prefixes of leaders' logs |
| Preservation.RunInv | raft/raft_impl.hpp:95-128 | the invariant holds at every moment of every run that starts from the bootstrap entry |
| Preservation.OneWinner | raft/raft_impl.hpp:841-849 | two majorities of single votes of one term elect the same candidate |
| Preservation.VotedSlots | raft/raft_rpc.hpp:109-147 | handling a vote request keeps every vote ever given binding: in its term the slot still names the candidate, also after `step_down` left a slot of an earlier term stale |
| Invariants.SameTermSamePrefix | raft/raft_rpc.hpp:179-184 | woven logs with the same term at a position agree up to it |
| Invariants.MergeStretch | raft/raft_rpc.hpp:186-251 | merging a stretch of a leader's log leaves either the old log, which had it, or exactly the leader's log up to the stretch's end |
| Exchanges.OutvotedFollows | raft/raft_impl.hpp:851-855 | over both handlers: a candidate that asks a voter of a higher term is refused, changes nothing there, and ends as a follower of the voter's term |
| Exchanges.DeposedFollows | raft/raft_impl.hpp:999-1003 | over both handlers: a leader that sends to a server of a higher term is refused, changes nothing there, and ends as a follower of that term |
| Exchanges.VoteReportsTerm | raft/raft_rpc.hpp:102-107 | every answer to a vote request reports the voter's term afterwards, which is the greater of its own and the request's |
| Exchanges.AppendReportsTerm | raft/raft_rpc.hpp:157-175 | every answer to an append request reports the server's term afterwards, which is the greater of its own and the request's |
| Exchanges.HigherTermAdopted | raft/raft_rpc.hpp:163-170 | whoever is asked or sent to in a higher term follows in that term with its vote free again, unless it grants one |
| Exchanges.VoteRepeats | raft/raft_rpc.hpp:109-147 | a vote request that arrives again is answered as before and changes nothing more |
| Exchanges.LateRepliesIgnored | raft/raft_impl.hpp:834-839 | only a candidate goes by vote replies, and only a leader by append replies |
| StateMachineSafety.StateMachineSafety | raft/raft_impl.hpp:1334-1370 | State Machine Safety (section 5.4.3): over runs of honest steps, no two servers ever commit different entries at one index, at whatever two moments |
| StateMachineSafety.LeaderCompleteness | raft/raft_rpc.hpp:116-124 | Leader Completeness: a leader's log contains everything committed before in a term not after its own |
| StateMachineSafety.CommittedNeverRemoved | raft/raft_rpc.hpp:198-215 | what a server has committed stays in its log for the rest of the run, restarts included |
| StateMachineSafety.HonestWhenExact | raft/raft_rpc.hpp:34-46 | a report within what the request carried is honest, and the only honest kind while the leader's log ends where the request ended |
| StateMachineSafety.StepKeepsCommits | raft/raft_impl.hpp:983-998 | every honest step keeps the commitment invariant: whatever a majority may still confirm in a term is in the logs of all later leaders |
| ExactReplies.ExactRunIsHonest | raft/raft_rpc.hpp:34-46 | a leader that acts on a success reply only in the term that sent it, and only when the reported index is within what the request carried, acts on honest replies only: every run with that check, made on fields a leader has, is a run of honest steps |
| ExactReplies.StateMachineSafetyWhenExact | raft/raft_impl.hpp:983-998 | State Machine Safety for all runs of leaders that make the check, with no assumption on history |
| ExactReplies.DatabasesAgreeWhenExact | server/storage_server.hpp:275-293 | in those runs servers that have applied up to one committed index have equal databases |
| ExactReplies.NoFaultWhenExact | raft/raft_impl.hpp:1346-1353 | in those runs no leader ever looks up a match index that is missing from its log |
| CompactedRuns.CompactedRunMatched | raft/entry_logger.hpp:306-381 | refinement: every run in which servers compact committed entries, send from compacted logs and restart from their base, with exact replies and covered requests, is matched moment by moment by a run of honest steps on complete logs |
| CompactedRuns.MoveSimulated | raft/raft_impl.hpp:933-965 | each move of a cluster with compacted logs is an honest step of its counterpart with complete logs, or leaves that as it was |
| CompactedRuns.CompactedSafety | server/storage_server.hpp:288-292 | State Machine Safety with compaction: two servers that still keep an index they have committed, at whatever two moments, keep the same entry there |
| CompactedRuns.CompactedLeaderCompleteness | raft/raft_rpc.hpp:116-124 | a leader that still keeps an index committed earlier, in a term not after its own, has the committed entry |
| CompactedRuns.CompactedElectionSafety | raft/raft_impl.hpp:822-883 | one leader per term, whatever is compacted when |
| CompactedRuns.CompactedNeverFaults | raft/raft_impl.hpp:1346-1353 | nor does a leader with a compacted log look up a match index that is missing from it |
| CompactedRuns.AlwaysReady | raft/raft_rpc.hpp:177-251 | at every moment of such a run every server meets what the commit scan requires (sorted terms, commit index between base and last index), every request in flight is numbered, and any server that accepts it stays numbered |
| Overcommit.OvercommitBreaksSafety | raft/raft_impl.hpp:714-729 | without covered requests it fails: a run, careful in all else, in which a leader that compacted its log announces a commit index its heartbeat does not account for, and two servers commit different entries at one index both still keep |
| CompactedStores.CompactedDatabasesAgree | server/storage_server.hpp:275-293 | servers that apply entries between compactions, take snapshots at any time and restart from them have equal databases whenever they have applied up to the same index, at whatever two moments, once replay has passed what a snapshot read back had settled |
| CompactedStores.UnrestartedSettled | raft/raft_impl.hpp:1837-1849 | a server that never restarted is always settled, so for those the databases agree with no further condition |
| CompactedStores.ApplyNeverNull | raft/raft_impl.hpp:1841-1847 | whatever was compacted, the apply loop never looks up an entry that is not there |
| Snapshots.ReplayExact | server/storage_server.hpp:171-190 | for a snapshot taken at any index, replaying from the base up to n gives the database of n if and only if every key that is not rewritten on the way had at the base the value it had in the snapshot |
| Snapshots.ReplayFromLater | server/storage_server.hpp:171-190 | so a snapshot no older than the base needs nothing else: once replay has passed it the database is right |
| StaleSnapshot.StaleSnapshotLoses | server/storage_server.hpp:288-292 | with a snapshot older than the base it is not: a lone server applies an entry, compacts, restarts, and has applied up to the same index with a different database |
| CommitPreservation.RuleIsSafe | raft/raft_impl.hpp:1355-1370 | an index the rule lets a leader commit is confirmed by a majority in its term |
| CommitPreservation.NoStrays | raft/raft_impl.hpp:1346-1353 | in runs of honest steps no match index points outside the leader's log, so the look-up in the first loop is never null |
| CommitElection.NewerLogHasHead | raft/raft_rpc.hpp:116-124 | a candidate whose log a confirming voter accepts has the confirmed entries |
| CommitElection.WinnerHasHead | raft/raft_impl.hpp:841-849 | a new leader holds everything that can still be committed in earlier terms |
| CommitAppend.LeaderHasCommitted | raft/raft_impl.hpp:1355-1370 | the leader of a later term holds every prefix justified by an earlier one |
| OverReport.OverReportBreaksSafety | raft/raft_rpc.hpp:41-42 | without the assumption State Machine Safety fails: a run in which a leader counts an over-report and two servers commit different entries at one index |
| OverReport.OverReportFaults | raft/raft_impl.hpp:1346-1353 | a reachable run in which an over-report makes the look-up of a match index null, so the leader faults |
| StaleReplies.StaleReplyBreaksSafety | raft/raft_impl.hpp:983-998 | the comparison of terms is needed as well: a run of five servers in which leaders compare the reported index only, a reply of an earlier leadership is counted after the log was cut and rewritten, and two servers commit different entries at one index |
| FollowerMerge.MergeShape | raft/raft_rpc.hpp:186-251 | for consecutive entries after a `prev` at or above the base the merge is the old log, or the old log cut at the first difference and the rest of the request |
| FollowerMerge.MergeHolds | raft/raft_rpc.hpp:186-251 | after a merge the log holds, by term, every entry of the request |
| FollowerMerge.ReplayChangesNothing | raft/raft_rpc.hpp:193-223 | replaying the request, or a prefix of its entries, never changes the log again |
| FollowerMerge.MergeKeepsNumbering | raft/entry_logger.hpp:412-425 | an accepted request leaves the log numbered if and only if it starts at or above the base, is empty, or follows index 0 with base 1 and the base's term |
| FollowerMerge.CompactionInvisible | raft/entry_logger.hpp:398-425 | at every non-zero index from the base up a compacted log answers as the complete one |
| FollowerMerge.MergeUnderCompaction | raft/raft_rpc.hpp:186-251 | merging commutes with compaction for requests that start at or above the base |
| FollowerMerge.CutEndsBefore | raft/raft_rpc.hpp:193-223 | after skipping and chopping, the log ends just before the part of the request that is appended |
| Sending.SenderWellFormed | raft/raft_impl.hpp:933-959 | whenever entries are sent they are consecutive up to the log's end and `prev` is the pair just before the first, for every `next` from 1 on |
| Sending.SenderCompactionInvisible | raft/raft_impl.hpp:714-720 | above its base a compacted leader sends what it would send with its whole log |
| Sending.AcceptedMeansHeld | raft/raft_impl.hpp:938-959 | a follower that merges the request holds, by term, all the leader had from `next` on |
| Sending.AnnouncedCommitCovered | raft/raft_impl.hpp:714-729 | the announced commit index is covered by the request if and only if `next` is above the base or nothing above the announced pair is committed |
| Sending.CompactedHeartbeatOvercommits | raft/raft_rpc.hpp:253-260 | where it is not covered a follower commits an entry that the leader's log contradicts |
| Sending.SuccessMovesNext | raft/raft_impl.hpp:986-989 | after a success the next request to that peer starts behind its last index and carries exactly the leader's entries after it; other peers' positions stay |
| Sending.RetryRepairsIff | raft/raft_impl.hpp:986-1020 | after a refusal by a follower with a shorter log, one retry brings it to the leader's end, the leader records it and has nothing more to send, if the terms at its last index agree; if they do not, no number of retries changes anything at either |
| Sending.RefusalLeadsToRetry | raft/raft_impl.hpp:1003-1020 | every refusal in the leader's term that reports a shorter log leads to that retry |
| Codec.WordRoundTrip | raft/entry_logger.hpp:23-46 | 64-bit fields in a little-endian mapping read back |
| Codec.NetRoundTrip | raft/utils.hpp:26-41 | `ntoh64` undoes `hton64` for every 64-bit number |
| Codec.ByteOrder | raft/entry_logger.hpp:23-46 | in the mapping a number's lowest byte comes first, in network order (raft/utils.hpp:26-41) last |
| Codec.FieldsReadBack | raft/entry_logger.hpp:92-108 | every field of an encoded record reads back at any offset, padding included |
| Codec.FlagByte | raft/entry_logger.hpp:92-108 | the mark of a configuration is one byte, 1 or 0 |
| Codec.HoldsAtOffset | raft/entry_logger.hpp:252-264 | in a file image record k lies at the prefix sum of the sizes before it |
| Codec.ScanReadsBack | raft/entry_logger.hpp:169-176 | scanning an image from its start to the zero marker gives exactly its records |
| Store.ExactIsChained | raft/entry_logger.hpp:283-290 | an exact configuration chain has every back link strictly below its own index and ending at the base or at a configuration entry |
| Store.HeadIsGreatest | raft/entry_logger.hpp:464-467 | with an exact chain the head is the greatest configuration index whenever the log has one |
| Store.MadeReadsBack | raft/entry_logger.hpp:444-455 | a made record reads back its text and, for a configuration, the chain head it was linked to |
| Store.AppendKeepsChain | raft/entry_logger.hpp:252-264 | any batch keeps the chain: no back link at or above its own index, none to a missing entry |
| Store.AppendKeepsExact | raft/entry_logger.hpp:252-264 | a batch with at most one configuration keeps the chain exact |
| Store.AppendExactIff | raft/entry_logger.hpp:252-264 | a batch that follows the log keeps the chain exact if and only if it has at most one configuration entry |
| Store.BatchForgets | raft/entry_logger.hpp:252-264 | for every log and every batch with several configuration entries, at any positions and with anything between: once the last of them is chopped the head is what it was before the batch, although each earlier one is still in the log |
| Store.ChopKeepsChain | raft/entry_logger.hpp:278-304 | chopping keeps the chain |
| Store.ChopKeepsExact | raft/entry_logger.hpp:283-290 | chopping keeps the chain exact |
| Store.DropKeepsChain | raft/entry_logger.hpp:306-381 | dropping keeps the chain |
| Store.DropKeepsExact | raft/entry_logger.hpp:314-324 | dropping keeps the chain exact |
| Store.DropKeepsSound | raft/entry_logger.hpp:334-374 | `drop(i)` leaves the suffix after i unchanged and the base at (i, term of i) |
| Store.DropKeepsConfiguration | raft/entry_logger.hpp:311-341 | dropping leaves the effective configuration as it was if and only if it does not drop an empty head text while a non-empty one is recorded |
| Store.DropRecordsConfiguration | raft/entry_logger.hpp:326-332 | with an exact chain and no empty configuration text, the configuration recorded by `drop(i)` is the one in force as of i |
| Store.ReopenKeepsExact | raft/entry_logger.hpp:169-176 | re-reading the file keeps the chain exact and the effective configuration |
| Store.TwoConfigurationsInABatch | raft/entry_logger.hpp:252-264 | for every log: two configurations in one batch, then a chop of the second, leave the head at its value before the batch while the first is still in the log |
| EntryLogger.GrownIsLarger | raft/entry_logger.hpp:580-602 | growing makes a mapping strictly larger, so the grow loops end, and is by a quarter up to the next page |
| EntryLogger.StatesFit | raft/entry_logger.hpp:546-559 | a states record that passes the size test is written within whole pages, alignment included |
| EntryLogger.LocateFinds | raft/entry_logger.hpp:398-410 | the side index finds the sentry at 0 and exactly the entries above the base, at their prefix sums |
| EntryLogger.FreshFileIsEmpty | raft/entry_logger.hpp:153-162 | the file a first boot writes is the image of an empty log |
| EntryLogger.EntryLogger.Open | raft/entry_logger.hpp:149-203 | opening the bytes of any image rebuilds side index, payload and chain head, and reads the same entries |
| EntryLogger.EntryLogger.FileTells | raft/entry_logger.hpp:169-176 | scanning the bytes yields the sentry plus the entries; the side index has the prefix sums, the payload their total |
| EntryLogger.EntryLogger.RestartRebuilds | raft/entry_logger.hpp:169-176 | a logger opened on the same bytes and states has the same side index, payload, entries and, with an exact chain, head |
| EntryLogger.EntryLogger.GrowFile | raft/entry_logger.hpp:580-590 | growing keeps the contents or fails with the size over the system's limit |
| EntryLogger.EntryLogger.Append | raft/entry_logger.hpp:229-276 | appending acts on the contents as specified for any records, grows as often as needed and never writes past the mapping; records that follow the log leave it numbered and chained |
| EntryLogger.EntryLogger.Chop | raft/entry_logger.hpp:278-304 | chopping removes the entries from the index on, or is refused exactly when the index is absent |
| EntryLogger.EntryLogger.Drop | raft/entry_logger.hpp:306-381 | dropping moves the later records down, shifts every offset and records the new base; refused exactly when the index is absent; when the states file cannot grow, the records are dropped but the old base stays recorded |
| EntryLogger.EntryLogger.WalkBack | raft/entry_logger.hpp:283-290 | the walk along the chain ends below its bound without reading a missing entry |
| EntryLogger.EntryLogger.CopyStates | raft/entry_logger.hpp:542-567 | the states record gets the new base, and a configuration only when there is one |
| EntryLogger.EntryLogger.HasEntry | raft/entry_logger.hpp:412-425 | the answer over bytes is that of the log as the handlers see it, the base included |
| EntryLogger.EntryLogger.EntryConflicted | raft/entry_logger.hpp:427-435 | a conflict is reported exactly for a present entry of another term |
| EntryLogger.EntryLogger.LastEntryIndex | raft/entry_logger.hpp:489-495 | the last index, the base's for an empty log |
| EntryLogger.EntryLogger.LastEntryTerm | raft/entry_logger.hpp:497-503 | the last term, the base's for an empty log |
| EntryLogger.EntryLogger.MoveDown | raft/entry_logger.hpp:361 | the overlapping move reads every byte before it is overwritten |
| EntryLogger.FrontImage | raft/entry_logger.hpp:344-370 | after the move and the new end marker the file is the image of the sentry and the later records |
| CommitIndex.FoundIsRule | raft/raft_impl.hpp:1355-1370 | the first majority from above is the largest index of the current term that a majority holds |
| CommitIndex.NoneIsRule | raft/raft_impl.hpp:1346-1370 | without a majority in the range nothing is committable |
| CommitIndex.ScanIsRule | raft/raft_impl.hpp:1334-1378 | both loops and the lone-member case together compute the commit rule |
| CommitIndex.CommitRuleIsFunctional | raft/raft_impl.hpp:1355-1378 | the rule leaves no choice, never lowers the commit index and stays within the log |
| RaftNode.RaftNode.AdjustCommitIndex | raft/raft_impl.hpp:1334-1378 | the method with both loops faults exactly when some match index above the commit index is missing from the log, else leaves exactly the commit index of the rule, and changes nothing else |
| RaftNode.RaftNode.HighestMajority | raft/raft_impl.hpp:1355-1370 | the descending loop ends, never passes zero, and stops at the highest majority |
| RaftNode.RaftNode.RequestVote | raft/raft_rpc.hpp:87-150 | the vote handler acts on the whole state as the protocol's function |
| RaftNode.RaftNode.LeaderElection | raft/raft_impl.hpp:858-883 | an election starts as in the protocol, a lone member taking leadership at once |
| RaftNode.RaftNode.HandleVoteReply | raft/raft_impl.hpp:822-856 | vote replies count, elect and step down as in the protocol |
| RaftNode.RaftNode.StepUp | raft/raft_impl.hpp:1273-1288 | taking leadership resets every peer's indices |
| RaftNode.RaftNode.Append | raft/raft_impl.hpp:652-664 | the leader's append takes the next index and present term, or fails with the log unchanged |
| RaftNode.RaftNode.AppendEntries | raft/raft_rpc.hpp:152-273 | the follower's handler with its two loops acts as the protocol's function, reply included; a request from index 0 below the base is appended whole and leaves the log misnumbered, with the last entry's index reported; when the file cannot grow the log is the old one cut at the first difference, the commit index stays and the reply is a refusal |
| RaftNode.RaftNode.MergeEntries | raft/raft_rpc.hpp:188-251 | skipping, chopping and appending amount to the merge, numbered or not, or to the cut at the first difference when the file cannot grow |
| RaftNode.FailedFollows | raft/raft_rpc.hpp:242-248 | a request whose entries do not fit the file leaves a follower of its term, the commit index as it was and a prefix of the log |
| RaftNode.RaftNode.BuildRequest | raft/raft_impl.hpp:933-965 | the request built entry by entry is the one the protocol sends |
| RaftNode.RaftNode.HandleAppendReply | raft/raft_impl.hpp:967-1021 | success, newer term and refusal act on the state as in the protocol; a success records the index and faults exactly when the scan would look up a missing entry |
| RaftNode.MadeFollow | raft/raft_impl.hpp:639-650 | records made for entries that follow the log extend it by exactly those entries |
| CommandParser.Parser.Parse | server/command_parser.hpp:75-89 | the loop over the input computes the outcome, the command and the number of bytes consumed |
| CommandParser.ParseExact | server/command_parser.hpp:92-286 | from the start state with an empty command the result is good, with this command and this many bytes, if and only if those bytes are a line of the accepted form with that key and value |
| CommandParser.WellFormedAccepted | server/command_parser.hpp:92-286 | a line of the accepted form is accepted whatever follows it, and yields its own command |
| CommandParser.Accepted | server/command_parser.hpp:92-286 | what is accepted is a line of the accepted form |
| CommandParser.ChunksMakeNoDifference | server/command_parser.hpp:75-89 | splitting the input between two calls changes neither result, command nor count |
| CommandParser.SettledByLast | server/command_parser.hpp:75-89 | bytes are used up to and including the one that settles the command; a bad one leaves state and command as they were before it |
| Replica.PathsAgreeIffPlain | server/storage_server.hpp:259-263 | for a command with a key, reading the log text back has the effect of the command on every database if and only if the key has no spacing and the value no line feed |
| Replica.LogTextParses | server/storage_server.hpp:259-263 | the log text of an update is a command line: with a line end the parser reads exactly the command back from it |
| Replica.InsertWritesKey | server/storage_server.hpp:374-404 | inserting writes the command's key only, and only for an update |
| Replica.ApplyWritesKey | server/storage_server.hpp:336-372 | applying a text writes the key it names only, and texts other than those of `set` and `del` write nothing |
| Replica.PlainAgrees | server/storage_server.hpp:336-404 | for such commands `apply` and `insert` leave the same database |
| Replica.ReplicasAgree | server/storage_server.hpp:275-286 | after any sequence of such commands two databases are equal, whichever of them were inserted directly at each |
| Replica.AcceptedButDiverges | server/storage_server.hpp:336-372 | a command line that the parser accepts and the replicas apply differently |
| Pipeline.TurnKeepsOrder | raft/raft_impl.hpp:1837-1849 | append, commit, merge, apply and compaction keep base <= applied <= committed <= last index, and an applied entry is present |
| Pipeline.MergeKeepsCommitted | raft/raft_rpc.hpp:198-215 | a merge keeps every committed entry if and only if the request conflicts with none of them |
| Pipeline.RequestKeepsOrder | raft/raft_rpc.hpp:253-260 | a request that spares committed entries keeps the order and does not lower the commit index |
| Pipeline.AppliedExactlyOnce | raft/raft_impl.hpp:1841-1847 | over any run each index between first and last applied is applied by exactly one event, which finds it committed and in the log |
| Pipeline.FoldInTurns | raft/raft_impl.hpp:1841-1847 | applying in several turns is applying once |
| Pipeline.FoldUnderCompaction | server/storage_server.hpp:288-292 | from its base on a compacted log applies as the complete one |
| Pipeline.AnsweredOnce | server/storage_server.hpp:275-286 | each waiting update of the stretch is answered exactly once, in log order, and no other session is |
| Pipeline.AnswersTellReplaced | server/storage_server.hpp:374-404 | a client is told what its key had just before its entry, in the database of the log's text; for a `del` or a missing key nothing |
| Pipeline.DatabaseIsText | server/storage_server.hpp:275-286 | whichever sessions wait, applying leaves the database that the log's text describes |
| Pipeline.AppendKeepsFaithful | server/storage_server.hpp:259-270 | an update appended at a fresh index keeps every waiting command the one whose text is at its index |
| StorageServer.StorageServer.HandleCommand | server/storage_server.hpp:246-273 | reads answer from the database; updates are appended as text and wait, or report why not, with nothing else changed |
| StorageServer.SubmittedWaits | server/storage_server.hpp:265-270 | a session registered at a free index waits there with its command, and every other session waits as before |
| StorageServer.EarlierKeepsIndex | server/storage_server.hpp:270 | a session that still waits for the index keeps it |
| StorageServer.SubmittedIsAnswered | server/storage_server.hpp:275-286 | on any log that still has the entry, applying past its index answers the session with what its key had just before |
| StorageServer.StorageServer.OnLogEntryCommitted | server/storage_server.hpp:275-293 | an entry acts through its text or its session, and at the commit index the log is compacted |
| StorageServer.StorageServer.ApplyCommitted | raft/raft_impl.hpp:1837-1849 | the loop applies exactly the entries after the last applied up to the commit index, in order; with compaction on the base is then the commit index unless that holds a configuration, with it off the log is as it was, and when the states file cannot grow it is dropped with the old base recorded |
| ReplicatedStore.DatabasesAgree | server/storage_server.hpp:275-293 | over runs of honest steps any two servers that have applied up to the same committed index have equal databases, at whatever two moments and whatever sessions wait |
| ReplicatedStore.CommittedPrefixesAgree | raft/raft_impl.hpp:1334-1370 | what two servers have committed up to an index is the same sequence |
| ReplicatedStore.RequestsSpareCommitted | raft/raft_rpc.hpp:198-215 | in those runs every request that is accepted conflicts with nothing its receiver has committed |
| Strings.Split | raft/utils.hpp:74-91 | the loop returns the stretches between separators |
| Strings.SplitJoin | raft/utils.hpp:74-91 | joining and splitting gives back fields free of the separator |
| Strings.JoinSplit | raft/utils.hpp:74-91 | splitting and joining gives back every text |
| Strings.FieldsRebuild | raft/utils.hpp:74-91 | for any set of separators the fields and the separators between them are the text, and no field has a separator |
| Strings.ReplaceAll | raft/utils.hpp:57-72 | the loop ends, replaces the occurrences found from the left and counts them |
| Strings.EscapingRoundTrip | raft/raft_impl.hpp:2036 | a text survives escaping (raft/config_client.cpp:75) and unescaping if and only if it does not contain "%20" |
| Membership.Membership.Serialize | raft/raft_impl.hpp:1402-1418 | the text is the ids joined by commas, in the order of the map |
| Membership.Membership.AdjustConfiguration | raft/raft_impl.hpp:1804-1835 | both loops leave exactly the ids of the text, and no change for an empty one |
| Membership.TransportExact | raft/raft_impl.hpp:1402-1418 | a serialised configuration gives its members from any prior cluster, whatever the order, if and only if no id has a comma and the members are not just the empty id |
| Membership.QuorumsOverlap | raft/raft_impl.hpp:1501-1502 | every quorum of a configuration meets every quorum of the one that a single addition or removal makes of it |
| Membership.TwoAtOnceMayNotOverlap | raft/raft_impl.hpp:1642-1643 | with two changes at once that fails |

## Left out

- Data transfer (`do_data_transfer`, `on_data_transfer`, `on_done_transfer`): file system input and output; after a
  refusal that starts one, the model resumes sending at the log's end.
- Membership changes inside cluster runs: runs have a fixed membership; changes appear only by quorum overlap and
  transport.
- Compacted runs in which a leader announces a commit index its request does not cover: `AnnouncedCommitCovered` has the
  exact condition, `OvercommitBreaksSafety` is such a run, and the theorems of `CompactedRuns` hold for all others.
- The text format of a snapshot and the process that writes it: a snapshot is a value, taken in one step.
- Pre-vote, timers and leadership transfer: an election may start at any time in the model, which covers them for
  safety; no progress is claimed.
- Threads: each handler, each turn of the apply loop and each compaction is one atomic step.
- Crashes in the middle of an operation and the order in which pages reach the disk: restarts happen between operations.
- StorageServer.StorageServer.ApplyCommitted: when the states file cannot grow, `drop` fails with the records already
  moved; the source only logs the failure. The state left is stated, what later calls do in it is not.
- EntryLogger.EntryLogger.Drop: after that failure the file and the side index no longer agree with the recorded base,
  so no later call is described. The states file is a value with a size, not bytes; its growth and fit are modelled.
- EntryLogger.EntryLogger.Append: the mapping's growth factor is the exact 5/4 instead of a `double`.
- RaftNode.RaftNode.AppendEntries: the request's entries must be consecutive, which every request of a run is
  (`AlwaysReady`), and fit the 64-bit fields. After a request that misnumbers the log the state left is stated, what
  later calls do in it is not; no request of a run does so.
- RaftNode.RaftNode.RequestVote: the inner branch for a higher term (lines 127-133) cannot be reached, the term having
  been raised before, and is not in the model.
- RaftNode.RaftNode.AdjustCommitIndex: requires sorted terms up to the present one and a commit index between the base
  and the last index, which every server of a run has (`AlwaysReady`). A fault, where the source dereferences a null
  pointer, is an out-parameter here and a restart in cluster runs. The 32-bit `old_commit` is read only to decide
  whether to wake the apply thread or to finish a reconfiguration, which are left out.
- RaftNode.RaftNode.HandleAppendReply: the same condition on the log when the reply is a success.
- Server ids in cluster runs are numbers with 0 for the empty vote slot; in `Membership` they are texts, each address
  being its own id (an address without a port gets one before it becomes an id).
- Membership.Membership.Serialize: ids are read from the map's keys; the fixed-size copy inside a node is left out.
- Strings.ReplaceAll: requires a non-empty text to look for, without which the source's loop does not end.
- Sessions left waiting after leadership is lost: answers and equality of databases are stated for sessions whose
  command is the one appended at their index.
- The HTTP configuration server and client, sockets, the RPC library, logging and options.
