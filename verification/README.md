# RaftPay: verified model

This project models the consensus core of RaftPay, the ledger it drives and the
log file behind it, and proves their safety properties in Dafny.

- `RaftTypes`, `NodeSpec`, `Logs`: one server's state and handlers as functions,
  and what inserting a leader's entries does to a log.
- `RaftServer`, `Persister`: the server and its files as objects. Every handler is
  proved to compute the corresponding `NodeSpec` function, to keep the file (flushed
  plus buffered lines) equal to the log, and to keep the saved state current.
- `Lifetime`: what holds from start-up through any sequence of handler calls.
- `Cluster`: all servers and all messages as a transition system. A step is an
  election timeout, a heartbeat, a client submission, or the delivery of a
  message; a message may be lost, late, reordered or delivered again.
- `Invariant`, `Growth`, `Moves`, `ElectionProof`, `LogProof`, `AckProof`,
  `CommitProof`, `StepProof`: the invariant and its preservation, move by move.
- `HandlerLaws`: what one handler call owes, for every input: terms, votes, tallies,
  index maps, and what stays as it was.
- `Theorems`, `Answers`, `Delivery`, `Repair`, `EndToEnd`: the properties themselves,
  over whole runs.
- `LedgerSpec`, `Ledger`: the ledger as a state machine and as heap objects.
- `Recovery`, `StaleReplies`: what the code does not guarantee, with the exact
  conditions and concrete counterexamples.
- `Wiring`, `CommitRun`, `SkipRun`: the objects and the cluster speak of the same
  servers and messages; concrete runs of the cluster, one that commits and delivers,
  one in which a full channel makes two ledgers differ for good.

`State.past` records what happened (who led a term with which log, who voted for
whom, who acknowledged what, what was committed). No handler reads it. The idea of
the proof: every log is anchored in the logs of the leaders of its entries' terms;
a server keeps what it acknowledged unless a later leader lacks it; the up-to-date
check hands this on to candidates; so a majority's acknowledgements reach every
later leader.

## Assumptions on the environment

- A granted vote or a successful append reply reaches its sender while the sender
  is still in the reply's term, and a vote reply is handled once per request.
  Nothing in the handlers ensures the first: they only compare for a newer term.
  `StaleReplies` has runs of handler calls without it that end with two leaders of
  one term, and with two servers delivering different entries of one index.
- Servers of the cluster do not restart. Starting steps down and so clears the
  saved vote, contrary to ARCHITECTURE.md:99; `Recovery` gives the exact condition
  and a run that ends with two leaders of one term.
- Server names are non-empty, `peers` holds every other server once, membership is
  fixed.
- The log file accepts every line written to it. The state file need not accept
  writes: what is said about it is under `reliable` where that matters.
- Money is exact (`real`), and the encodings of commands and messages are the
  identity. Which sends find the apply channel full is a parameter (`full`).

Where the documentation and the code differ, the model follows the code: besides the
vote, ARCHITECTURE.md:165 says duplicates have no effect, while a refused transfer
may succeed when delivered again (`LedgerSpec.RetryMaySucceed`;
`LedgerSpec.SecondDeliveryIff` says exactly when nothing changes); ARCHITECTURE.md
shows a flush after each appended line, while the code leaves lines in the buffer;
and it shows committed entries applied again at start-up, while the code starts with
a commit index of zero.

## Model

| member | source | states |
|---|---|---|
| Theorems.LeaderCompleteness | raft/replication.go:162-193 | In every run, what any server knows to be committed in its term stands in the log of every leader of a later term, same indices, terms and commands, whether that leader is observed before or after the commit |
| Safety.LeaderHasCommitted | raft/replication.go:169-184 | By quorum intersection and induction on terms: every leader elected after the term of a commit has the committed prefix; no restriction on which leader or when |
| Theorems.StateMachineSafety | raft/replication.go:65-79 | Two servers' logs, taken at any two moments of a run, are identical up to the smaller of their commit indices |
| Theorems.DeliveriesAgree | raft/state_machine.go:41-73 | Two messages with the same index, sent on any apply channels at any times, are the same message |
| Theorems.ElectionSafety | raft/election.go:67-95 | At most one server ever leads a term, although a candidate that hears from the leader of its own term forgets its vote |
| ElectionProof.CrownIsFirst | raft/election.go:89-94 | A candidate that reaches a majority of counted votes finds its term without a leader, and those it counted are a majority of the cluster |
| ElectionProof.CountedElectedNobody | raft/rpc.go:69-73 | A voter counted by a candidate did not help elect a leader of that term, even where a same-term AppendEntries cleared votes |
| Theorems.LoneServerNeverLeads | raft/election.go:88-94 | In every run of a cluster of one, the server never becomes leader: a majority of one is only noticed when a reply arrives |
| Theorems.LogMatching | raft/replication.go:6-62 | Two logs taken at any moments that hold the same term at the same index are identical up to it, commands included; every log is the dummy followed by entries that record their own index, with terms that never fall |
| Theorems.LeaderAppendOnly | raft/proposal.go:20-27 | While a server leads a term, its log only grows, and only by entries of that term |
| Theorems.CommittedIsPermanent | raft/replication.go:32-48 | Term, commit index, last applied and what was sent never go back; lastApplied <= commitIndex <= last index; the log up to the commit index is never rewritten |
| CommitProof.MergeKeepsCommitted | raft/replication.go:38-48 | A conflict never truncates a log at or below its commit index |
| Theorems.MatchIndexIsTruthful | raft/replication.go:126-159 | For a peer in the leader's term its log agrees with the leader's up to matchIndex, and nextIndex stays between 1 and one past the end, whatever replies were lost, reordered or repeated |
| Theorems.FollowerCommitRule | raft/replication.go:65-79 | Every AppendEntries ever sent reaches at least to the commit index it carries; on every acceptance the new commit index is the larger of the old one and leaderCommit, which equals the index-of-last-new-entry rule, and the log agrees with the leader's up to the last entry sent |
| StepProof.CommitRuleExact | raft/replication.go:67-74 | On acceptance min(leaderCommit, last log index) is leaderCommit, and so is min(leaderCommit, last new entry) |
| LogProof.BuildAppendReachesEnd | raft/replication.go:82-108 | A request built by a leader carries everything from nextIndex to the end of its log, so prevLogIndex plus the entries is the leader's last index |
| Theorems.SentReachesEnd | raft/replication.go:82-108 | In every run, a request just sent comes from a leader of the new state, carries its commit index and ends at its last log index, which is no smaller |
| Answers.AcceptedIffAgrees | raft/replication.go:6-21 | In every run, AppendEntries is accepted if and only if it is not of an earlier term than its receiver and the receiver's log agrees with that term's leader's up to prevLogIndex |
| Answers.LaterReplyDeposesLeader | raft/replication.go:132-138 | In every run, an append reply of a later term can always be delivered, and the leader that handles it is then a follower of that term with no vote and the same log |
| Answers.StaleLeaderIsDeposed | raft/rpc.go:50-57 | In every run, a server of a later term answers a stale leader's request with its own term, and that answer makes the leader a follower of it |
| Answers.StaleCandidateIsDeposed | raft/election.go:75-80 | The same for a candidate and its vote request |
| Answers.RunReplyTerms | raft/rpc.go:7-94 | In every run, every reply ever given carries a term no smaller than its request's and no greater than its sender's current one |
| Answers.ElectedIffMajority | raft/election.go:84-94 | In every run, a granted vote makes its candidate leader if and only if the distinct voters counted, this one included, are a majority of the cluster |
| Answers.MutualSupportIffSameLog | raft/election.go:19-28 | In every run, two servers would each vote for the other if and only if their logs are the same |
| Answers.SomeoneCanBeElected | raft/election.go:19-28 | In every state of every run, any set of servers has a member that all of them would vote for with a free vote |
| Answers.RequestDescribesLog | raft/replication.go:82-108 | In every run, a leader's request to a peer has prevLogIndex nextIndex-1, the term of that entry, the leader's term, name and commit index, and its entries complete the log up to there to the whole log |
| Answers.EveryPeerIsSent | raft/replication.go:196-205 | A heartbeat, a proposal and an election victory each send every other server a request of the leader's term that ends at the end of its log |
| Answers.RejectionIsRetried | raft/replication.go:148-158 | In every run, a leader that handles a rejection of no later term sends that peer at once the request from one entry earlier, or from the first |
| HandlerLaws.VoteRequestTerms | raft/rpc.go:7-39 | After a vote request, server and reply are in the larger of the two terms; a newer term makes a follower; the vote is the one granted, none after a newer term, else the old one; nothing but term, role, vote and tally changes |
| HandlerLaws.VoteGrantedIff | raft/election.go:8-29 | A vote is granted exactly to a candidate of the same term that has this vote or may have it, or of a later term, whose last entry is not of an earlier term than the voter's nor earlier in the same term |
| HandlerLaws.PrefixIsSupported | raft/election.go:19-28 | A server with a free vote grants it to every candidate whose log starts with the server's |
| HandlerLaws.SupportIsTotal | raft/election.go:19-28 | Of any two servers at least one would vote for the other; both exactly when last term and last index coincide |
| HandlerLaws.SupportIsTransitive | raft/election.go:19-28 | Who would vote for a server would vote for everyone that server would vote for |
| HandlerLaws.SomeoneIsElectable | raft/election.go:8-29 | Every non-empty set of servers has a member that all would vote for |
| HandlerLaws.VoteReplyLaw | raft/election.go:67-95 | Only candidates listen; a newer term makes a follower of exactly that term with no vote; otherwise a grant raises the tally by one and makes a leader exactly when the tally reaches the majority |
| HandlerLaws.NewLeaderMaps | raft/node.go:138-156 | A victory sets nextIndex to the end of the log and matchIndex to zero for every peer, and changes neither map otherwise, nor the log, commit index or deliveries |
| HandlerLaws.AppendTerms | raft/rpc.go:43-94 | After AppendEntries, server and reply are in the larger of the two terms; an earlier term changes nothing and fails; any other makes a follower, whose vote is kept only if it was a follower in that term; a failure leaves the log and the deliveries, and so does a commit index that is not greater the deliveries |
| HandlerLaws.AppendReplyLaw | raft/replication.go:126-159 | Only leaders listen; a newer term makes a follower of exactly that term with no vote; otherwise a success sets this peer's matchIndex and nextIndex, a failure lowers its nextIndex by one but not below 1, and nothing else is learnt |
| HandlerLaws.TimeoutLaw | raft/node.go:120-135 | A timeout starts exactly the next term with the server's own vote and a request that names its last entry |
| HandlerLaws.ProposalLaw | raft/proposal.go:11-41 | A leader's log gains exactly the command as last entry in its term and under its index; nobody else's changes |
| StepProof.RunInv | raft/types.go:68-109 | The cluster invariant (anchored logs, truthful tallies, bound electors, durable acknowledgements, backed commit indices) holds in every state of every run |
| AckProof.UpToDateInherits | raft/election.go:19-26 | The up-to-date check hands what the voter holds of an earlier leader's log on to the candidate, if the leaders in between had it |
| AckProof.CastVoteInherits | raft/rpc.go:25-31 | A vote passes the voter's acknowledged prefixes on to the candidate it is granted to |
| StepProof.HoldersHold | raft/replication.go:176-184 | Everybody the leader counts for a commit has acknowledged the entry in that term, and they are a majority |
| Theorems.DeliveryInOrder | raft/state_machine.go:50-72 | For every pattern of full-channel skips, the indices ever sent by a server are strictly increasing, within 1..commitIndex, and each message is valid and carries the command, term and index of the committed entry there |
| Delivery.DeliveryIsComplete | raft/state_machine.go:50-72 | If no entry is ever sent after one that found the channel full, what a server sent is exactly entries 1..lastApplied; if no send ever found it full, lastApplied is the commit index |
| Delivery.GaplessIffNoOvertaking | raft/state_machine.go:64-71 | One call of the apply loop leaves no gap if and only if no entry is sent after a skipped one, and delivers everything committed if and only if nothing is skipped |
| EndToEnd.LedgersAgree | ledger/raft_ledger.go:40-71 | Each ledger is the fold of its server's log so far, and of two ledgers, on any servers at any times, the one that took more messages is the other continued with the next commands of the log |
| SkipRun.LedgersDrift | raft/state_machine.go:64-71 | The ordering condition is needed: there is a run of the cluster in which entry 2 overtakes the skipped entry 1 on one server, and two servers with equal logs, equal commit indices and nothing left to deliver hold different balances of one account |
| EndToEnd.DrainedLedgerIsCommittedLog | ledger/raft_ledger.go:40-71 | If no channel ever drops an entry, a drained ledger is the fold of everything its server knows to be committed |
| EndToEnd.EveryLedgerIsSound | api/handlers.go:46-114 | If every submitted command passed the API checks, then in every ledger state any server reaches no balance is negative, the money is what the account creations brought in, every balance is what its account was opened with plus what it received minus what it paid, and each transaction id was carried out at most once |
| EndToEnd.DrainIsReplay | ledger/raft_ledger.go:40-71 | Draining a channel is replaying the commands of its valid messages in order; the others are passed over |
| Repair.RepairSucceeds | raft/replication.go:125-159 | For a leader and any peer of no later term, in whatever role, log repair ends after at most nextIndex-1 rejections; then the peer's log starts with the leader's whole log, matchIndex is its last index and nextIndex one more |
| Repair.AcceptanceCompletes | raft/replication.go:140-148 | One accepted request is enough to give the peer the whole log and the leader the knowledge of it |
| Repair.RejectionBacksOff | raft/replication.go:148-158 | A rejection makes the peer a follower of the term and leaves its log alone, lowers nextIndex by exactly one, never below 1, and the pair stays repairable |
| Repair.LeadersCanRepair | raft/replication.go:82-159 | In every run, a leader and any peer that is not in a later term satisfy what repair needs |
| CommitRun.CommitsHappen | raft/replication.go:140-147 | There is a run that elects a leader, replicates a command, commits and delivers it |
| Logs.AppendIsSplice | raft/replication.go:24-62 | appendNewEntries keeps the longest prefix that agrees by term and, only if entries are left over, replaces the rest of the log by them |
| Logs.AppendMatchesRequest | raft/replication.go:24-62 | Afterwards the terms from prevLogIndex+1 on are the request's, and nothing before has moved |
| Logs.UnchangedIffPresent | raft/replication.go:32-36 | The log is left alone exactly when every entry already stands in it with the same term |
| Logs.RemovedOnlyOnConflict | raft/replication.go:38-42 | A position is lost or rewritten only at or behind an entry whose term really differs |
| Logs.AppendIdempotent | raft/replication.go:24-62 | Applying a request twice is applying it once |
| Logs.OlderRequestIsNoOp | raft/replication.go:24-62 | An older, shorter request of the same leader changes nothing once a newer one was merged |
| Logs.MergeResult | raft/replication.go:24-62 | Under Log Matching the receiver keeps its log if it already agrees to the end of the slice, and otherwise ends with exactly that prefix of the leader's log |
| LogProof.MergeAgrees | raft/rpc.go:75-91 | In a reachable cluster, an accepted request leaves the follower agreeing with the leader up to the last entry sent, and whatever they shared before is kept |
| CommitProof.AdvanceFindsGreatest | raft/replication.go:162-193 | The leader's commit index ends at the greatest index above the old one whose entry has the current term and which a majority, the leader included, holds; it stays exactly when there is none |
| CommitProof.CountIsCardinality | raft/replication.go:175-181 | The replica count is the number of distinct peers whose matchIndex reaches the index |
| CommitProof.HoldersQuorate | raft/node.go:11-12 | The count passes the majority test exactly when the holders are a majority of the cluster |
| Safety.QuorumsMeet | raft/node.go:11-12 | Two majorities of one cluster share a server |
| StepProof.GrantedInTerm | raft/rpc.go:14-31 | A granted vote carries the term of the request |
| StepProof.SuccessInTerm | raft/rpc.go:50-91 | A successful append reply carries the term of the request |
| StaleReplies.CountsOwnTermIff | raft/election.go:75-85 | Remark: a candidate counts only votes of its own term if and only if the response is not a grant of an older term |
| StaleReplies.LateGrantElectsTwo | raft/election.go:84-94 | A concrete run in which a late grant of term 1 helps elect a second leader of term 2 |
| StaleReplies.BelievesOwnTermIff | raft/replication.go:132-147 | Remark: a leader believes only successes of its own term if and only if the response is not a success of an older term |
| StaleReplies.LateSuccessCommits | raft/replication.go:132-147 | A run of handler calls over six terms in which a success of term 3 reaches its receiver as leader of term 5: it commits and delivers an entry that neither other server holds, and one of them later commits and delivers another entry of the same index |
| Recovery.RestartKeepsVoteIff | raft/node.go:68-75 | Remark: a restart keeps the saved vote exactly when there was none: starting steps down and stepping down clears it |
| Recovery.SecondVoteAfterRestartIff | raft/election.go:14-17 | A server refuses a second candidate in a term, but after a restart grants it the vote exactly when its log is up to date |
| Recovery.RestartElectsTwo | raft/node.go:101-110 | A run of handler calls in which one server votes, restarts and votes again, and two servers lead term 1 |
| Recovery.CrashKeepsPrefix | raft/persistence.go:168-208 | Whatever lines a crash loses, the log read back is a prefix of the log in memory, and the whole of it exactly when no line was lost; what was in the file before is read back exactly unless the crash tears a line, which makes the server forget all of it |
| Recovery.CrashAndRestart | raft/persistence.go:168-208 | Crash and restart of a server object: the new one has the same term, a prefix of the log, and a disk that mirrors it exactly if no line was torn |
| Recovery.LiveAndCrash | raft/node.go:28-49 | Start over a readable log file, any sequence of handler calls, a crash at any moment, a restart: same term and a prefix of the log |
| Lifetime.Live | raft/proposal.go:27-32 | From a start over a readable log file on, after any sequence of handler calls flushed plus buffered lines are the log in memory and the saved term and vote are the current ones; the server is the fold of the specified handlers |
| Lifetime.AllKeepServer | raft/replication.go:24-62 | No sequence of handler calls changes the dummy entry or the server's name, peers and majority |
| LedgerSpec.MoneyIsConserved | ledger/ledger.go:68-104 | Over any command sequence the total changes only by the initial balances of successful account creations |
| LedgerSpec.MoveConserves | ledger/ledger.go:96-98 | A transfer keeps the total, and a transfer of an account to itself changes nothing |
| LedgerSpec.TransferMoves | ledger/ledger.go:96-101 | A transfer that has an effect lowers its source by exactly the amount, raises its destination by exactly the amount, and leaves all other balances and the set of accounts alone |
| LedgerSpec.CreationOpens | ledger/ledger.go:38-52 | A creation that has an effect opens one account with exactly its initial balance and leaves the others alone |
| LedgerSpec.BalanceIsHistory | ledger/ledger.go:68-104 | Over any command sequence each account ends with its old balance plus what it was opened with plus the executed transfers into it minus those out of it, and the accounts are the old ones and those created |
| LedgerSpec.StatusLaw | ledger/ledger.go:72-94 | Which of the five outcomes is reported, by the guards: success also for a transfer carried out before, otherwise the first reason that applies |
| LedgerSpec.StaysNonNegativeIff | ledger/ledger.go:90-98 | One command keeps all balances from falling below zero if and only if it has no effect, or opens with at least zero, or does not overdraw the account it pays into |
| LedgerSpec.ApiAcceptsIff | api/handlers.go:46-114 | Of the commands with all names given and, for transfers, two accounts and an amount, the API accepts exactly those that cannot make any balance of any ledger negative |
| LedgerSpec.NoOverdraft | ledger/ledger.go:90-94 | If every command passed the API checks, no balance is ever negative |
| LedgerSpec.AtMostOnce | ledger/ledger.go:72-77 | However often a sequence repeats a transaction id, the transfer is carried out at most once, and exactly once if the id becomes processed |
| LedgerSpec.DuplicatesHaveNoEffect | ledger/ledger.go:72-77 | Deleting every repeated transfer and every creation of an existing account leaves the final ledger the same |
| LedgerSpec.ReplayProcessed | ledger/raft_ledger.go:113-118 | Replaying a sequence whose transfers were all processed and whose accounts all exist is the identity |
| LedgerSpec.NoEffectIff | ledger/ledger.go:38-104 | A command changes the ledger exactly when it is a transfer with a free id, both accounts present and enough money in the first, or a creation of an absent account; a transfer that is refused leaves its id free |
| LedgerSpec.NoEffectOfSequenceIff | ledger/raft_ledger.go:73-122 | Delivering a sequence leaves the ledger as it is if and only if none of its commands has an effect on that ledger |
| LedgerSpec.SecondDeliveryIff | ledger/ledger.go:72-94 | Delivering a whole history again has no effect if and only if each of its transfers was carried out, or still lacks an account or the money |
| LedgerSpec.RetryMaySucceed | ledger/ledger.go:90-94 | A concrete sequence whose second delivery has an effect, because a refused transfer succeeds on the retry |
| LedgerSpec.ReplayGrows | ledger/ledger.go:100-101 | A processed id stays processed and an account stays open over any command sequence |
| RaftServer.RaftNode.constructor | raft/node.go:10-57 | A server built over its files: saved term and vote if they can be read, the dummy followed by the file's entries if every line decodes and the dummy alone otherwise; the disk mirrors the log exactly in the first case |
| RaftServer.RaftNode.Start | raft/node.go:68-75 | Starting is stepping down in the loaded term, which is then saved |
| RaftServer.RaftNode.ToFollower | raft/node.go:101-117 | The whole new state of a step-down, saved to disk |
| RaftServer.RaftNode.ToCandidate | raft/node.go:120-135 | The whole new state of a candidate, saved before one vote request per peer goes out |
| RaftServer.RaftNode.ToLeader | raft/node.go:138-156 | The loop that sets both index maps for every peer, then one append request per peer from the new state |
| RaftServer.RaftNode.ElectionTimeout | raft/node.go:164-171 | A timeout makes a non-leader a candidate and leaves a leader alone |
| RaftServer.RaftNode.SendHeartbeats | raft/node.go:227-236 | A leader sends one request per peer; others send nothing |
| RaftServer.RaftNode.ShouldVote | raft/election.go:8-29 | The three refusal rules are the voting rule of the specification |
| RaftServer.RaftNode.StartElection | raft/election.go:32-64 | One request with the current term and last entry to each peer in order |
| RaftServer.RaftNode.HandleVoteResponse | raft/election.go:67-95 | Refines the specified response handler; requests go out exactly on winning |
| RaftServer.RaftNode.RequestVote | raft/rpc.go:7-39 | Refines the specified vote handler; a granted vote is of the request's term and, if the state file accepts writes, on disk before the reply |
| RaftServer.RaftNode.AppendEntries | raft/rpc.go:43-94 | Refines the specified append handler; the disk mirrors the log afterwards if it did before, through truncation too, and in any case once a conflict was cut |
| RaftServer.RaftNode.CheckLogConsistency | raft/replication.go:6-21 | The consistency check of the specification |
| RaftServer.RaftNode.AppendNewEntries | raft/replication.go:24-62 | The loop that truncates and appends computes the specified insertion and keeps flushed plus buffered entries equal to the log; cutting a conflict makes them equal |
| RaftServer.RaftNode.UpdateCommitIndex | raft/replication.go:65-79 | Refines the specified commit rule and delivery |
| RaftServer.RaftNode.ApplyCommittedEntries | raft/state_machine.go:41-73 | The send loop delivers exactly what the specification says for any pattern of full-channel skips |
| RaftServer.RaftNode.SendAppendEntriesToPeer | raft/replication.go:82-108 | The request built for a peer is the specified one |
| RaftServer.RaftNode.ReplicateLog | raft/replication.go:196-205 | One request per peer in order, only from a leader |
| RaftServer.RaftNode.HandleAppendEntriesResponse | raft/replication.go:126-159 | Refines the specified reply handler, with an immediate retry exactly on a rejection; disk and memory stay in step |
| RaftServer.RaftNode.AdvanceCommitIndex | raft/replication.go:162-193 | The downward scan with its inner count computes the specified commit index |
| RaftServer.RaftNode.ProposeCommand | raft/proposal.go:11-41 | A leader appends the command at the end of its log under its term, on disk too, and replicates; others refuse with index -1 |
| Wiring.StartFresh | raft/node.go:10-75 | A server started over empty files is a fresh server of the cluster |
| Wiring.BroadcastIsSent | raft/replication.go:196-205 | The requests the object hands to the transport are the messages the cluster gains |
| Wiring.OnePerPeer | raft/replication.go:196-205 | Both rounds of requests hold exactly one per peer, in the order of the peers |
| Wiring.ElectionAsksOthers | raft/election.go:46-63 | An election asks every other server of the cluster and nobody else |
| Persistence.Persister.SaveState | raft/persistence.go:62-93 | The saved state becomes the given term and vote, or a write or the rename fails and the old state is still there |
| Persistence.Persister.LoadState | raft/persistence.go:96-120 | Returns the saved term and vote, or says that there are none, or that they cannot be read |
| Persistence.Persister.AppendLogEntry | raft/persistence.go:123-150 | The entry goes to the end of flushed plus buffered entries, however much of the buffer spills to the file |
| Persistence.Persister.Flush | raft/persistence.go:153-165 | Everything buffered reaches the file, in order |
| Persistence.Persister.LoadLog | raft/persistence.go:168-208 | The loop returns the dummy followed by the lines of the file, and fails exactly when one of them does not decode |
| Persistence.Persister.TruncateLog | raft/persistence.go:211-249 | The rewritten file holds exactly the entries after the dummy, and nothing is left in the buffer |
| LedgerObjects.Ledger.constructor | ledger/ledger.go:30-35 | A new ledger is empty |
| LedgerObjects.Ledger.CreateAccount | ledger/ledger.go:38-52 | The heap ledger refines the specified creation, error case included |
| LedgerObjects.Ledger.GetBalance | ledger/ledger.go:55-65 | The balance of the account, or none if it does not exist |
| LedgerObjects.Ledger.Transfer | ledger/ledger.go:68-104 | The heap ledger refines the specified transfer, all four outcomes, also when source and destination are one object |
| LedgerObjects.Ledger.GetAllAccounts | ledger/ledger.go:107-116 | The copying loop returns all balances |
| LedgerObjects.RaftLedger.Applier | ledger/raft_ledger.go:40-122 | The receive loop applies exactly the messages taken, in order |

## Left out

- HTTP transport and server, JSON, flags, logging, the benchmark and the remaining API handlers: plumbing.
- Timers and real time: a timeout or heartbeat may happen at any moment. No liveness is stated except that log repair ends.
- Mutexes and goroutines: a critical section is one step; only message interleaving is modelled.
- Restarts inside the cluster runs: they break Election Safety (see `Recovery`); crash recovery is modelled for one server and its files.
- Persistence.Persister.AppendLogEntry: does not model a failing write of the log file; the code then goes on with a longer log in memory than on disk.
- Persistence.Persister.TruncateLog: does not model a failure to reopen or rewrite the log file, for the same reason.
- Persistence.Persister.LoadLog: a line too long for the scanner counts as one that does not decode; the disabled persister is not modelled.
- Floating-point rounding and NaN in amounts.
- `ConflictTerm` and `ConflictIndex` of append replies: declared, never set or read.
- GetState, GetStats, GetPeers, and Close and DeleteAll of the persister: plain reads and clean-up.
