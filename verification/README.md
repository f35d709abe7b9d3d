# Verified models of three state machines and a traversal

This project models four programs of the repository in Dafny and proves what they promise. Verify it with
`dafny verify dfyconfig.toml`.

**Raft** (`2019104236/src/raft`). `RaftServer` gives each mutex-protected region of a peer as a function on values;
`RaftNode` is the peer as a class that performs the same regions in place, proved equal to those functions.
`RaftSystem` runs a cluster of peers over a network that loses, delays, reorders and duplicates messages and lets
servers crash and come back with what they persisted. The proof keeps a history of campaigns, votes, elections,
leader logs and acknowledgements beside the state: `RaftCore` says what history and logs satisfy, `RaftCoreSteps`
that each abstract transition keeps it, `RaftHandlers` and `RaftReplication` that each handler is such a transition,
`RaftSafety` that every step of every run is, and `RaftTheorems` draws the conclusions. `RaftLaws` says what each
handler answers and changes in terms of a peer's fields and of the arguments alone, and the methods of `RaftNode`
promise the same. `RaftMajority` proves the commit rule of every run, and `RaftProgress` that from every reachable
state any majority can go on to elect a leader and commit. `RaftBackup` treats the fast conflict backup,
`RaftWindows` the demotion through the signal channel.

Log compaction comes in layers. `RaftCompaction` relates each handler on a cut log to the same handler on the whole
one, `RaftCompactionRuns` proves over runs, restarts included, that what may be cut stays in the log, and
`RaftCompacted` that a step of the cluster does the same with a log cut, but for three answers it names.
`RaftCompactedRuns` has the cluster in which all servers compact, and the whole-log cluster that can follow it;
`RaftCutForm` and `RaftFollowed` prove that it does, and `RaftCompactedTheorems` draws the conclusions for runs.

**The key/value service** (`2019104236/src/kvraft`, `labrpc`). `Kv` is the apply loop as a function of the log;
`KvServer` has the server and the clerk as classes; `KvSystem` runs clerks and servers, with handlers, timeouts,
snapshots, compaction and restarts, around one committed log, and `KvOnRaft` proves that Raft provides such a log.
`KvLaws` says what a key holds and a Get returns from the operations alone. `KvInv`, `KvSteps` and `KvLinear` prove
linearizability under one condition, that no handler overtakes one of a call in progress; `KvOvertaking` proves that
the condition is exact, and `KvStaleHandler` has a run that breaks it and is not linearizable. `KvCuts` says which
compactions a server may still have pending. `KvCluster` puts the service on the compacting Raft cluster, each
server on a peer of its own, and `KvClusterRuns` proves that this is a run of `KvSystem`, and so linearizable.
`LabRpc` is the simulated network and the order in which a server is taken down and brought back.

**SimpleDB** (`2019101426/src/scripts/db.cpp`). `SimpleDb` is the database as a class over the bytes of its two
files. Below it, `DbCodec` prints and parses the text format, `DbImage` sees the files as tilings, `DbLists` the
137 chains and the free list as linked lists, `DbMap` the map they represent; `DbState` and `DbWrites` connect
each operation's byte writes to that map, `DbScan` treats the sequential scan, and `DbLaws` says what a fetch
answers after any operations.

**fortree.js** (`2019104279/src/static/js`). `ForTree` and `ForTreeVisits` are the recursive traversal of a flat
parent-pointer array, its termination, and what its callbacks see; `ForTreeOrder` is the order of siblings, by
position in the array.

## Assumptions of the models

- Raft steps are the regions the code intends to be atomic: a higher term always demotes (raft.go 864-876; the
  code skips this when its signal channel is full, and `RaftWindows` says exactly when); promotion (847-855) and
  the initialisation of a leader (621-630) are one step; a promotion signal is only valid for the term that
  produced it (603-610); entries are copied when a request is built (754).
- Whether the demotion of a candidate by a same-term AppendEntries (315-321) found room in the channel is a free
  choice in every step.
- The theorems of `RaftTheorems` are about runs in which every log is kept whole, those of `RaftCompactedTheorems` and
  `KvClusterRuns` about runs in which servers compact at what they have applied. In the latter no leader sends a
  snapshot: a step that would (705-747) is not taken.
- An old incarnation of a crashed server no longer takes steps; replies to it are dropped, as its end points are.
- A server that does not lead may start an election at any time: timers are free choices. The continuations of
  `RaftProgress` use no other freedom: no crash, no change of role but by a message or an election, no message lost.
- Terms, indices, sequence numbers and file positions are unbounded integers; the hash wraps at 64 bits.
- `KvLinear.Linearizable` and `KvClusterRuns.Linearizable` are about runs in which no handler starts listening for an
  older operation while another handler of the same client receives for a call in progress (`KvSystem.InOrder`).
  The code does not enforce this: a callback channel does not say which call an answer is for. Handlers of calls
  that are over may be overtaken. Clerks make one call at a time.
- A handler whose timer fires stops listening in the same step. In the code (server.go 84-88) the apply loop may send
  between the two and then waits for a receiver that never comes.
- An empty key or a key of blanks is allowed; a scan skips those. A key with a `:` is stored as the code does, and
  cannot be read back (`DbCodec.ReadableIffNoSeparator`): a later walk along its chain ends the process. The
  overlapping `sprintf` of `_db_writeidx` (db.cpp 475) is taken to rewrite its own prefix, as intended. With a key
  too long for `idxbuf` the same line overruns that buffer before the length is checked (476-478), which is
  undefined there; the model says `halted`.
- A `halted` result stands for `err_dump` and `err_quit`; nothing is said about the files after it.

Two comments of the code are not what it does, and the models follow the code: db.h 69 gives PTR_MAX as one less
than 10 to the power PTR_SZ but defines 999999; `_db_hash` looks at every other character of the key only.

## Model

| member | source | states |
|---|---|---|
| `RaftTheorems.StateMachineSafety` | 2019104236/src/raft/raft.go:350-363 | In every run with loss, duplication, reordering and crashes, whatever any incarnation of any server ever handed to its service at an index is the same command; the oracle of config.go 159-164 |
| `RaftTheorems.AppliesInOrder` | 2019104236/src/raft/raft.go:890-898 | Each incarnation has handed over exactly the commands of indices 1, 2, ..., commitIndex of its log, in order, no gap and no repeat |
| `RaftTheorems.ElectionSafety` | 2019104236/src/raft/raft.go:835-858 | Two vote tallies of one term that ever pass the majority test, at any two moments and across crashes, belong to one server |
| `RaftTheorems.OneLeaderPerTerm` | 2019104236/src/raft/raft.go:847-855 | Two servers that are ever leaders of one term are the same server |
| `RaftTheorems.VotesAreDurable` | 2019104236/src/raft/raft.go:864-887 | A server that has voted and is, later, in the same term (restarted or not) still holds that vote |
| `RaftTheorems.LogMatchingInRuns` | 2019104236/src/raft/raft.go:324-349 | Entries of one index and term in any two logs, at any two moments of a run, end identical prefixes, and sit at their own index |
| `RaftTheorems.LeaderCompleteness` | 2019104236/src/raft/raft.go:251-266 | The committed prefix of any server is a prefix of the log of every later-observed leader of no smaller term |
| `RaftTheorems.LeaderCompletenessEarlier` | 2019104236/src/raft/raft.go:780-791 | The same when the leader of a larger term was observed before the commit: what is committed later was already in its log |
| `RaftTheorems.CommittedPrefixesAgree` | 2019104236/src/raft/raft.go:774-792 | Committed prefixes of any two servers at any two moments are comparable: one is a prefix of the other |
| `RaftTheorems.CommitNeverGoesBack` | 2019104236/src/raft/raft.go:350-361 | No step other than a restart lowers a commitIndex |
| `RaftTheorems.LeaderCommitCovered` | 2019104236/src/raft/raft.go:734-754 | Every AppendEntries ever sent has LeaderCommit within PrevLogIndex + len(Entries), so the follower's minimum is always LeaderCommit itself |
| `RaftTheorems.NeverNeedsSnapshot` | 2019104236/src/raft/raft.go:705-747 | On uncompacted logs no leader ever finds the entry before nextIndex missing, so the InstallSnapshot branches are not taken |
| `RaftTheorems.AppendNeverPanics` | 2019104236/src/raft/raft.go:339-348 | Every AppendEntries ever sent meets what its receiver's loops need: consecutive entries that leave the first log entry alone |
| `RaftTheorems.SubmittedAfterCommitted` | 2019104236/src/raft/raft.go:473-489 | An entry that Start appends and that is committed later lies beyond everything that any incarnation of any server had committed by the time of Start |
| `RaftTheorems.NothingIsBlocked` | 2019104236/src/raft/raft.go:293-364 | In every run every AppendEntries in the network can be served and every server restarted: those steps wait for nothing but their occasion |
| `RaftTheorems.PassingTallyIsQuorum` | 2019104236/src/raft/raft.go:847-847 | A tally over half the cluster counts a majority of distinct servers that really voted for it in that term |
| `RaftProgress.MajorityMakesProgress` | 2019104236/src/raft/raft.go:583-858 | From every state of every run of two servers or more, whatever was lost and wherever logs and terms stand, and for any majority of them and any command: steps of that majority alone, with messages between its members alone and no crash, can lead to where one of them leads and has committed and handed over the command |
| `RaftProgress.Elect` | 2019104236/src/raft/raft.go:835-858 | A server of a majority that no other of them is ahead of can be elected by them, and they follow it |
| `RaftProgress.Replicate` | 2019104236/src/raft/raft.go:692-826 | A follower, whatever its log, can be brought to hold the whole log of its leader: every rejection brings nextIndex nearer, and the success commits as soon as a majority holds it |
| `RaftProgress.AloneNeverLeads` | 2019104236/src/raft/raft.go:835-858 | With one server there is never a leader, since only the answer of another server is ever counted: two servers are what progress needs |
| `RaftMajority.BareMajorityCommits` | 2019104236/src/raft/raft.go:774-792 | In every run: a success that brings an entry of the current term beyond commitIndex commits it if and only if more than half of the peers, the leader itself included, have a matchIndex that far |
| `RaftMajority.OwnRowStaysZero` | 2019104236/src/raft/raft.go:780-787 | In every run the leader's own matchIndex stays 0, so it is counted once, by the 1 the count starts with |
| `RaftMajority.OneAnswerCommits` | 2019104236/src/raft/raft.go:774-792 | A run of three servers, for any command, that is committed and handed over by the answer of one follower while the third server's log stays empty |
| `RaftCore.LogMatching` | 2019104236/src/raft/raft.go:326-348 | Two logs all of whose entries repeat their terms' leader logs agree up to every common index of equal term |
| `RaftCore.OneLeader` | 2019104236/src/raft/raft.go:245-249 | Two majorities of recorded votes for one term elect one candidate |
| `RaftCore.LaterLeaderHas` | 2019104236/src/raft/raft.go:251-266 | An entry that could still be committed in its term is in the log of every leader elected for a later term |
| `RaftCoreSteps.GrantKeeps` | 2019104236/src/raft/raft.go:878-887 | Granting a vote under the up-to-date check keeps the whole invariant behind Leader Completeness |
| `RaftCoreSteps.ElectKeeps` | 2019104236/src/raft/raft.go:847-855 | A majority of votes makes a leader that holds every possibly committed entry |
| `RaftCoreSteps.ExtendKeeps` | 2019104236/src/raft/raft.go:482-485 | A leader appending to its log keeps the invariant |
| `RaftCoreSteps.AcceptKeeps` | 2019104236/src/raft/raft.go:339-349 | A follower taking a leader's prefix keeps the invariant, including everything other servers may have committed |
| `RaftReconcile.LoopsReconcile` | 2019104236/src/raft/raft.go:339-348 | The truncating loop followed by the appending loop computes: keep the log while it agrees with the entries; if they all agree keep it whole, else cut at the first conflict and take the entries from there |
| `RaftReconcile.LoopsMerge` | 2019104236/src/raft/raft.go:339-348 | Against a segment of the leader's log the loops yield the leader's prefix, or the old log when that already contains it: a stale or reordered request never removes an agreeing entry |
| `RaftCommitted.SettledAgree` | 2019104236/src/raft/raft.go:774-792 | Two settled (committed) prefixes of one history are comparable |
| `RaftServerInv.ApplyLogExact` | 2019104236/src/raft/raft.go:890-898 | The apply loop hands over exactly the entries between lastApplied and commitIndex |
| `RaftReplication.CountIsQuorum` | 2019104236/src/raft/raft.go:781-788 | countOfMatch over half means that a majority, the leader included, acknowledged the entry |
| `RaftReplication.AppendEntriesKeeps` | 2019104236/src/raft/raft.go:293-364 | AppendEntries keeps the invariant, never lowers commitIndex, and a success reply is a true acknowledgement |
| `RaftReplication.AppendReplyKeeps` | 2019104236/src/raft/raft.go:763-826 | Handling a reply (success, rejection, stale) keeps the invariant; committing needs a current-term majority |
| `RaftReplication.PreparedIsSent` | 2019104236/src/raft/raft.go:705-755 | What a leader sends is a segment of its term's log with a covered LeaderCommit |
| `RaftHandlers.RequestVoteKeeps` | 2019104236/src/raft/raft.go:231-275 | RequestVote keeps the invariant and records a vote exactly when it grants one |
| `RaftHandlers.VoteReplyKeeps` | 2019104236/src/raft/raft.go:835-858 | Counting a vote, and promotion when the count passes half, keep the invariant |
| `RaftHandlers.StartElectionKeeps` | 2019104236/src/raft/raft.go:583-595 | Starting an election keeps the invariant |
| `RaftHandlers.StartCommandKeeps` | 2019104236/src/raft/raft.go:473-489 | Start keeps the invariant |
| `RaftHandlers.BootKeeps` | 2019104236/src/raft/raft.go:512-535 | Restarting from what was persisted keeps the invariant |
| `RaftSafety.StepKeeps` | 2019104236/src/raft/raft.go:665-690 | Every step of the system keeps the invariant that the theorems rest on |
| `RaftSafety.RunInv` | 2019104236/src/raft/raft.go:665-690 | So every state of every run has it |
| `RaftServer.AppendKeepsContiguous` | 2019104236/src/raft/raft.go:339-348 | The two loops leave a non-empty, consecutively numbered log that extends a prefix of the old one |
| `RaftLaws.VoteMeans` | 2019104236/src/raft/raft.go:231-275 | A vote is granted if and only if the term is not old, the vote of that term is free or already the candidate's, and the candidate's last entry is of a later term, or of the same term and no smaller index; with the whole new state |
| `RaftLaws.OneVotesForOther` | 2019104236/src/raft/raft.go:251-257 | Of any two servers, in a term new to both, the owner of one log would vote for the owner of the other |
| `RaftLaws.SomebodyElectable` | 2019104236/src/raft/raft.go:251-257 | In any cluster, whatever the logs, some server would get everybody's vote |
| `RaftLaws.ElectionMeans` | 2019104236/src/raft/raft.go:583-595 | What a candidate's region leaves and asks for |
| `RaftLaws.VoteCountMeans` | 2019104236/src/raft/raft.go:835-858 | A granted vote of the current term counts once for each peer, the peer leads as soon as the count with itself is over half, and nothing else changes but by a higher term |
| `RaftLaws.StartMeans` | 2019104236/src/raft/raft.go:473-489 | Start answers the index after the last, the term, and whether the peer leads; a leader appends exactly that entry and persists it |
| `RaftLaws.RejectionMeans` | 2019104236/src/raft/raft.go:326-338 | A rejection names the term that stands at PrevLogIndex and the index at which it starts, or the end of a log that has nothing there |
| `RaftLaws.LoopsMean` | 2019104236/src/raft/raft.go:339-348 | On a log that may be cut, the two loops change nothing before the first sent entry that is missing or of another term, and the log is the sent entries from there on |
| `RaftLaws.AppendMeans` | 2019104236/src/raft/raft.go:293-364 | When AppendEntries refuses, rejects and accepts, and what each leaves of term, vote, role, log, commit index and disk |
| `RaftLaws.ApplyMeans` | 2019104236/src/raft/raft.go:890-898 | On a log that may be cut, the apply loop hands over each entry it has between lastApplied and commitIndex, once, in order |
| `RaftLaws.PrepareMeans` | 2019104236/src/raft/raft.go:692-756 | A leader sends everything after the entry before nextIndex, with that entry's term and its commit index, unless one of them is cut off |
| `RaftLaws.BackupMeans` | 2019104236/src/raft/raft.go:794-819 | After a rejection nextIndex is one past the leader's first run of the conflicting term, or the follower's hint if it has none or no term was named |
| `RaftLaws.CountIsHolders` | 2019104236/src/raft/raft.go:781-787 | The count is the number of peers known to hold the entry, the leader included |
| `RaftLaws.CommitIff` | 2019104236/src/raft/raft.go:774-792 | On a success the commit index moves to the end of what was sent if and only if that is beyond it, of the current term, and held by more than half |
| `RaftLaws.OtherRepliesMean` | 2019104236/src/raft/raft.go:763-826 | Every other reply commits nothing: an old one is dropped, a higher term demotes, a rejection moves nextIndex alone |
| `RaftBackup.BackupExact` | 2019104236/src/raft/raft.go:794-819 | One rejection moves nextIndex to at most the rejected PrevLogIndex and never to or below an index where both logs agree |
| `RaftBackup.FastBackupExact` | 2019104236/src/raft/raft.go:794-821 | The retry recursion ends, and ends at the nextIndex that decrementing by one would reach |
| `RaftBackup.FindTermExact` | 2019104236/src/raft/raft.go:799-807 | The search loop finds the first entry of the conflicting term, if there is one |
| `RaftBackup.SkipTermExact` | 2019104236/src/raft/raft.go:808-815 | The second loop ends one past that term's run |
| `RaftBackup.LeaderRunBounds` | 2019104236/src/raft/raft.go:801-815 | The leader's run of the conflicting term ends at or before the rejected PrevLogIndex |
| `RaftWindows.DemotionIsAtomic` | 2019104236/src/raft/raft.go:864-876 | checkCurrentTerm through the one-slot channel is the demotion assumed here if and only if the term is not new, the channel has room, or the server is a follower |
| `RaftWindows.FullChannelMakesALeader` | 2019104236/src/raft/raft.go:869-874 | With a full channel every leader that sees a higher term becomes leader of that term unelected, and appends entries of it |
| `RaftWindows.UnawareLeadsToo` | 2019104236/src/raft/raft.go:864-876 | When the leader of an old term hears of a new one with its channel full, and that term has a leader, the term has two |
| `RaftWindows.UnawareIsReached` | 2019104236/src/raft/raft.go:864-876 | A run of three servers that reaches such a state: one elected in term 1, the other in term 2, with the request to the first still under way |
| `RaftCompaction.AccessorsAgree` | 2019104236/src/raft/raft.go:60-117 | From the cut on, the accessors of the offset log return what they return on the uncompacted log; before it, nothing |
| `RaftCompaction.CutsCompose` | 2019104236/src/raft/raft.go:153-165 | Cutting a cut log again is cutting the full log there; no slice index is out of range |
| `RaftCompaction.CutFirstIndex` | 2019104236/src/raft/raft.go:82-89 | The first index of a term, searched from the cut on, is the later of the true one and the cut |
| `RaftCompaction.CutBackup` | 2019104236/src/raft/raft.go:796-818 | A compacted leader's two search loops end where the whole log's do if that is beyond the cut, else at the follower's hint |
| `RaftCompaction.ViewCompact` | 2019104236/src/raft/raft.go:153-165 | Compaction at an applied index turns the server cut at b into the whole, persisted server cut at that index |
| `RaftCompaction.ViewBoot` | 2019104236/src/raft/raft.go:512-535 | Restarted from its cut log, a server is the restarted whole one cut there, with nothing handed over yet, however far it had applied |
| `RaftCompaction.ViewApply` | 2019104236/src/raft/raft.go:890-898 | The apply loop of a cut server, restarted ones included, skips what the log no longer holds and hands over the rest, as the whole server's does |
| `RaftCompaction.ViewAppendEntries` | 2019104236/src/raft/raft.go:324-364 | An accepted AppendEntries does the same to the cut server as to the whole one |
| `RaftCompaction.ViewRejects` | 2019104236/src/raft/raft.go:328-338 | Before the cut it refuses and keeps its log; from the cut on it rejects when the whole server does, with the same term and the later of hint and cut |
| `RaftCompaction.ViewPrepare` | 2019104236/src/raft/raft.go:705-755 | A compacted leader sends what the whole one sends, or asks for its snapshot, exactly when the previous entry is cut off |
| `RaftCompaction.ViewAppendReply` | 2019104236/src/raft/raft.go:763-826 | It counts, commits and backs up as the whole one does, unless the rejection leads back to before the cut |
| `RaftCompactionRuns.AppliedStaysInLog` | 2019104236/src/raft/raft.go:522-531 | In every run, what any incarnation of a server has applied stays in that server's log, through truncations and restarts, for good |
| `RaftCompactionRuns.CutsGoOn` | 2019104236/src/raft/raft.go:153-165 | Which cuts a server may have made: none at first, then any at an applied index, and across a restart what the persisted log still holds |
| `RaftCompactionRuns.CutViews` | 2019104236/src/raft/raft.go:522-531 | In every run each such cut, restarted servers included, meets what the lemmas above ask for, and everything up to it is committed |
| `RaftCompactionRuns.OldTermsWhenAnswered` | 2019104236/src/raft/raft.go:763-826 | When a leader is answered, what only an earlier incarnation of it had applied is of an earlier term, so a commit test never needs the entries cut off |
| `RaftCompacted.AppendsFit` | 2019104236/src/raft/raft.go:324-348 | In every run, every AppendEntries of a term its receiver does not refuse agrees with the receiver's log up to every such cut, keeps what is committed, and covers its LeaderCommit |
| `RaftCompacted.CompactedNeverPanics` | 2019104236/src/raft/raft.go:91-99 | So truncation never empties a compacted log, and no slice of it is out of range, restarted peers included |
| `RaftCompacted.CompactionUnnoticed` | 2019104236/src/raft/raft.go:665-690 | In every run and for every such cut, a step in which no entry is missing does to the cluster with that log cut what it does to the whole one: possible, same messages, same servers |
| `RaftCompacted.CompactedRefuses` | 2019104236/src/raft/raft.go:328-338 | The first exception: an AppendEntries from before the cut, which the whole log would match, is refused with the log's end as hint; one that does not match is rejected with the later of hint and cut |
| `RaftCompacted.CompactedBacksUp` | 2019104236/src/raft/raft.go:794-821 | The second: a rejection that leads back to before the cut leads to the follower's hint |
| `RaftCompacted.CompactedNeedsSnapshot` | 2019104236/src/raft/raft.go:705-747 | The third: a leader falls back on its snapshot if and only if the entry before nextIndex is cut off |
| `RaftCompacted.CompactionCuts` | 2019104236/src/raft/raft.go:153-165 | In every run, compacting at an applied index leads from one such cut to the next |
| `RaftCompacted.HandsOverFromCut` | 2019104236/src/raft/raft.go:890-898 | In every run, an incarnation started from a log that begins at an index has handed over the entries from max(1, that index) to commitIndex, in order, with no gap and no repeat |
| `RaftCompactedRuns.WholeRunSound` | 2019104236/src/raft/raft.go:665-690 | The invariant of the Raft theorems holds in runs in which leaders may also look again from any entry of their log and servers may take notice of a term alone |
| `RaftFollowed.MoveFollows` | 2019104236/src/raft/raft.go:665-690 | Every move of servers that compact, restart and refuse what they have cut off is none, one or two moves of whole logs, to a state of which the new one is again the cut view |
| `RaftCompactedTheorems.WholeRunBehind` | 2019104236/src/raft/raft.go:153-165 | For every run of a cluster whose servers also compact and restart, in which no step takes the snapshot branch, there is a run of whole logs of which each of its states is the cut view |
| `RaftCompactedTheorems.StateMachineSafety` | 2019104236/src/raft/raft.go:350-363 | So in every such run, whatever any incarnation of any server ever handed to its service at an index is the same command |
| `RaftCompactedTheorems.OneLeaderPerTerm` | 2019104236/src/raft/raft.go:847-855 | Two servers that are ever leaders of one term are the same server |
| `RaftCompactedTheorems.AppliesInOrder` | 2019104236/src/raft/raft.go:890-898 | Each incarnation has handed over consecutive entries, from where its log began when it started to its commitIndex, with no gap and no repeat |
| `RaftCompactedTheorems.NothingIsBlocked` | 2019104236/src/raft/raft.go:91-117 | In every such run every AppendEntries can be served, every server restarted, and every index between a log's start and what its server has applied compacted at: no slice is out of range |
| `RaftNode.Raft.Make` | 2019104236/src/raft/raft.go:512-535 | A new peer equals the value Boot(persisted state) |
| `RaftNode.Raft.DoPersist` | 2019104236/src/raft/raft.go:186-194 | Term, vote and log, and only they, go to the persister |
| `RaftNode.Raft.DoCheckCurrentTerm` | 2019104236/src/raft/raft.go:864-876 | The demotion as the channel allows it, field by field; it is the atomic one if the channel has room, the term is not new, or the server is a follower |
| `RaftNode.Raft.GetState` | 2019104236/src/raft/raft.go:169-182 | The current term and whether the peer is its leader |
| `RaftNode.Raft.FirstTermIndex` | 2019104236/src/raft/raft.go:82-89 | The scan returns the first index of the term, 0 if there is none |
| `RaftNode.Raft.DeleteEntryFrom` | 2019104236/src/raft/raft.go:91-99 | Truncation of the offset log |
| `RaftNode.Raft.Compaction` | 2019104236/src/raft/raft.go:153-165 | Nothing for an index not beyond the last cut, else the log from that index on, persisted |
| `RaftNode.Raft.ApplyLogToStateMachine` | 2019104236/src/raft/raft.go:890-898 | The loop equals the recursive apply function, and hands over each entry the log has between lastApplied and commitIndex, once, in order |
| `RaftNode.Raft.RequestVote` | 2019104236/src/raft/raft.go:231-275 | In place, equal to the handler on values; and, in its own fields, when exactly the vote is granted and what term, vote, role and disk then are |
| `RaftNode.Raft.CheckPrevious` | 2019104236/src/raft/raft.go:324-338 | No rejection exactly when PrevLogIndex is 0 or the entry there has the term; else the term that stands there and its first index, or the log's end |
| `RaftNode.Raft.Replace` | 2019104236/src/raft/raft.go:339-348 | Both loops over the entries, in place: the log up to the first entry that is new to it, then the entries from there on |
| `RaftNode.Raft.AppendEntries` | 2019104236/src/raft/raft.go:293-364 | In place, equal to the handler on values; and, in its own fields, when it succeeds, the term it answers, and log, commit index and disk after it |
| `RaftNode.Raft.LearnCommit` | 2019104236/src/raft/raft.go:350-363 | The commit index becomes LeaderCommit, or the last new index if that is smaller, and never goes back; then the log is applied |
| `RaftNode.Raft.Submit` | 2019104236/src/raft/raft.go:473-489 | Start, in place: the index after the last, the term and whether it leads; a leader appends exactly that entry and persists it |
| `RaftNode.Raft.RunForElection` | 2019104236/src/raft/raft.go:583-595 | The candidate's region: the next term, a vote for itself, persisted, a new tally, and the last index and term it asks with |
| `RaftNode.Raft.Promote` | 2019104236/src/raft/raft.go:621-630 | nextIndex after the last entry and matchIndex 0 for exactly the peers |
| `RaftNode.Raft.CountVote` | 2019104236/src/raft/raft.go:835-858 | A vote is counted once, and the peer leads if and only if the count with itself is over half; nothing else changes but by a higher term |
| `RaftNode.Raft.PrepareAppendTo` | 2019104236/src/raft/raft.go:692-756 | What is sent to a peer, in terms of nextIndex, log and commit index, and exactly when the snapshot is fallen back on |
| `RaftNode.Raft.CountMatching` | 2019104236/src/raft/raft.go:781-787 | The loop counts the peers that hold the entry, the leader included, as the size of a set |
| `RaftNode.Raft.BackUp` | 2019104236/src/raft/raft.go:796-818 | The two search loops of the fast backup end one past the first run of the term, or at the hint if there is no such entry |
| `RaftNode.Raft.TakeAppendReply` | 2019104236/src/raft/raft.go:763-826 | The reply handler, in place; and, in its own fields, that a success commits if and only if the set of peers that hold the entry, the leader included, is over half, and that no other reply commits |
| `Persister.Persister.Copy` | 2019104236/src/raft/persister.go:24-31 | A fresh persister with the same content |
| `Persister.Persister.SaveRaftState` | 2019104236/src/raft/persister.go:33-37 | The raft state cell is replaced, the snapshot kept |
| `Persister.Persister.SaveSnapshot` | 2019104236/src/raft/persister.go:51-55 | The snapshot cell is replaced, the raft state kept |
| `KvOnRaft.OneLog` | 2019104236/src/raft/config.go:157-172 | In every run there is one growing log of which everything any server hands over is a prefix |
| `KvOnRaft.NothingInvented` | 2019104236/src/raft/raft.go:473-489 | Only commands submitted before are ever handed over, each with its index |
| `KvOnRaft.LogIsSubmitted` | 2019104236/src/raft/raft.go:473-489 | That log holds only commands submitted before, each with its index |
| `KvOnRaft.ServiceFollows` | 2019104236/src/kvraft/server.go:204-266 | When Raft is given the service's requests, what any stretch of a Raft run adds to the log comes about in the service by Commit steps alone, and what any server hands over is a prefix of the service's log, entry by entry |
| `KvClusterRuns.RunJoined` | 2019104236/src/kvraft/server.go:173-283 | Every run of the service on the compacting peers, each server with its own and crashing with it, is a run of the service around one committed log, which is what the peers hand over |
| `KvClusterRuns.Linearizable` | 2019104236/src/kvraft/server.go:204-283 | So it is linearizable at every moment, if no handler overtakes one of a call in progress, and every server's store is the replay of a prefix of that log |
| `KvClusterRuns.LoopsFollowLog` | 2019104236/src/kvraft/server.go:204-283 | In every run each loop takes from its peer an operation of the service, the next entry of the one log, and every compaction still asked for can be made on the peer's log |
| `Kv.ExactlyOnce` | 2019104236/src/kvraft/server.go:217-266 | For every log, whatever it repeats or reorders, the final data is the plain fold of the operations whose number is a strict running maximum of their client, and seqCheck holds each client's largest number |
| `Kv.EffectiveRises` | 2019104236/src/kvraft/server.go:224-228 | Those effective operations never repeat or go back for any client |
| `Kv.LaterCopyChangesNothing` | 2019104236/src/kvraft/server.go:224-228 | Putting another copy of an operation anywhere after it never changes the final state |
| `Kv.SnapshotRecovery` | 2019104236/src/kvraft/server.go:184-195 | On a store covering k entries, being handed any j..k again is the identity and going on to n is the replay of all n, which covers a crash between SaveSnapshot and Compaction (271-283) |
| `Kv.InstallCatchesUp` | 2019104236/src/kvraft/server.go:208-215 | Decoding a snapshot over the maps of a store that is behind it leaves the snapshot's store |
| `KvLaws.StoreHolds` | 2019104236/src/kvraft/server.go:217-266 | For every log, with all its repeats: a key holds the value of its last effective Put followed by the values of the effective Appends since, in order, whatever happened to other keys; it is there exactly if something wrote it |
| `KvLaws.LegalMeans` | 2019104236/src/kvraft/server.go:229-263 | A sequential history is legal if and only if every Get in it returned that, of the operations before it, and the others nothing |
| `KvLaws.CallsReturnHeld` | 2019104236/src/kvraft/server.go:204-283 | So in every run in which no handler overtakes one of a call in progress there is a linearization in which each Get returned the last Put's value followed by the Appends since |
| `KvLaws.HoldsOne` | 2019104236/src/kvraft/server.go:246-263 | That description fits one value only |
| `KvServer.RaftKV.StartKVServer` | 2019104236/src/kvraft/server.go:173-202 | Recovery: the snapshot's maps or empty ones, nobody listening, Raft booted from the same persister |
| `KvServer.RaftKV.Refuses` | 2019104236/src/kvraft/server.go:48-55 | A handler refuses exactly when the peer is not leader |
| `KvServer.RaftKV.Begin` | 2019104236/src/kvraft/server.go:57-69 | One Start of exactly this operation, and a callback entry; when leadership was lost since, Raft keeps its log |
| `KvServer.RaftKV.TakeSnapshot` | 2019104236/src/kvraft/server.go:208-215 | A snapshot from Raft is decoded over the two maps |
| `KvServer.RaftKV.ListenCallBack` | 2019104236/src/kvraft/server.go:288-293 | Registers the wanted number |
| `KvServer.RaftKV.UnlistenCallBack` | 2019104236/src/kvraft/server.go:295-299 | Stops listening, keeps the number |
| `KvServer.RaftKV.TakeTurn` | 2019104236/src/kvraft/server.go:217-283 | One turn of the apply loop for a command, in the fields: only a new number executes, a Put sets its key and an Append adds to the end of it, no other key changes, the answer goes out exactly if somebody listens for this number and is a Get's value or nothing; snapshot and compaction request |
| `KvServer.Clerk.Call` | 2019104236/src/kvraft/client.go:54-117 | Every attempt of a call carries the same operation under one fresh number; the call ends with the first answer, whose value it returns and whose server is remembered; after a failure the next server is random |
| `KvServer.Clerk.MakeClerk` | 2019104236/src/kvraft/client.go:30-40 | A new clerk starts at number 0 with no leader |
| `KvCuts.PendingCutsInLog` | 2019104236/src/raft/raft.go:153-165 | In every run of the service, restarts included, every index it still has to compact at lies between where the saved log starts and what was handed over, or is one that the peer ignores: the slice is never out of range, although a restart forgets the last cut |
| `KvInv.InitOk` | 2019104236/src/kvraft/server.go:180-196 | The initial service satisfies the invariant |
| `KvSteps.StepKeeps` | 2019104236/src/kvraft/server.go:204-283 | Every step in which no handler overtakes one of a call in progress keeps the invariant: stores equal replays, replies are right or for calls that are over, calls take effect after they begin |
| `KvSteps.DeliverReplies` | 2019104236/src/kvraft/server.go:229-263 | The answer of a turn is right for the operation applied and reaches a handler of that operation or of one no clerk waits for |
| `KvSteps.DeliverStore` | 2019104236/src/kvraft/server.go:217-266 | Handing over the next entry leaves the store the replay of some prefix, also while catching up behind a snapshot |
| `KvSteps.NewlyDone` | 2019104236/src/kvraft/client.go:54-117 | A completed call takes effect after its invocation: a mutation at its first application, a Get where its answer was read |
| `KvLinear.FirstCopiesRise` | 2019104236/src/kvraft/server.go:224-228 | In such runs the effective operations are exactly the first copies in the log |
| `KvLinear.RealTime` | 2019104236/src/kvraft/client.go:54-117 | A call that had ended before another began precedes it |
| `KvLinear.Linearizable` | 2019104236/src/kvraft/server.go:204-283 | Every run in which no handler starts listening for an older operation while one of the same client receives for a call in progress is linearizable at every moment: a legal sequential history with each completed call once and with its result, else only calls in progress, real-time order kept; and every store is the replay of a prefix of the log |
| `KvOvertaking.RunSound` | 2019104236/src/kvraft/server.go:229-263 | In every run, in order or not, who is listened for has a handler receiving, and a server that is behind the log can apply the next entry with some receiver, if handlers time out and stop listening in one step |
| `KvOvertaking.OvertakingMisleads` | 2019104236/src/kvraft/server.go:229-263 | The condition is exact: in every reachable state, a handler that overtakes one of a call in progress has a continuation in which that call's clerk may take the older operation's answer |
| `KvStaleHandler.BadRun` | 2019104236/src/kvraft/server.go:70-88 | A concrete run in which a handler overtakes another and that ends in the state of the next row |
| `KvStaleHandler.NotLinearizable` | 2019104236/src/kvraft/server.go:70-88 | No history linearizes that state: a Get that began after a Put of "v" was acknowledged returned "" |
| `LabRpc.AcknowledgedSurvives` | 2019104236/src/labrpc/labrpc.go:204-250 | Over all interleavings of calls with shutdown and start: once Call is true, what the handler persisted is in the persister for the next incarnation, and in those of all later ones |
| `LabRpc.StepKeeps` | 2019104236/src/kvraft/config.go:232-300 | Every network, handler and tester step keeps the invariant behind it |
| `LabRpc.CheckKeeps` | 2019104236/src/labrpc/labrpc.go:229-236 | The final dead check passes only on the incarnation whose persister will be copied |
| `LabRpc.CallSucceeds` | 2019104236/src/labrpc/labrpc.go:204-250 | In every reachable state a call by an end that is enabled and connected to a running server can be served and acknowledged, and its effect is in the persister for the next incarnation |
| `LabRpc.EarlyCopyLoses` | 2019104236/src/kvraft/config.go:238-252 | With the copy before DeleteServer, every call still running can be acknowledged and lost: the order in ShutdownServer and crash1 (config.go 82-95) matters |
| `LabRpc.Network.IsServerDead` | 2019104236/src/labrpc/labrpc.go:178-186 | Dead if the end is disabled or the name has another server |
| `LabRpc.Network.ReadEndnameInfo` | 2019104236/src/labrpc/labrpc.go:162-176 | The tables' entries for the end; it yields a server exactly when the end is enabled and connected to a name that has one |
| `LabRpc.Network.AddServer` | 2019104236/src/labrpc/labrpc.go:289-294 | Only that name changes |
| `LabRpc.Network.DeleteServer` | 2019104236/src/labrpc/labrpc.go:296-301 | Only that name changes, to nothing |
| `LabRpc.Network.Connect` | 2019104236/src/labrpc/labrpc.go:305-310 | Only that end changes |
| `LabRpc.Network.Enable` | 2019104236/src/labrpc/labrpc.go:313-318 | Only that end changes |
| `SimpleDb.DB.RunAll` | 2019101426/src/scripts/db.cpp:368-382 | Any sequence of store, fetch and delete answers as a finite map, keys with a separator included, with the codes that db.h gives each flag (AnswersFor); up to the operation that ends the process, if one does: the first that walks a chain on which the map then has a key with a separator, or a store that halts |
| `SimpleDb.DB.Serve` | 2019101426/src/scripts/db.h:172-220 | One operation answers and changes the map as AnswersFor says, in the numbers of db.h, and ends the process exactly when its walk meets a key with a separator or the store halts |
| `DbLaws.FetchReturnsLast` | 2019101426/src/scripts/db.cpp:173-188 | In any sequence of operations a fetch answers the data of the last store of its key that answered 0, nothing if the key was deleted since, and what was there at first if neither happened |
| `SimpleDb.DB.DbStore` | 2019101426/src/scripts/db.cpp:524-626 | 1 if and only if the flag is 1 and the key is there; -1 if and only if the flag is none of 1, 2, 3, or 2 and the key is not there; else 0 and the key has the data. The files grow by one record exactly when the key is new and no free record fits, or its data changes size, and not at all otherwise; ends the process exactly on data of no legal size, a chain with a separator key, or a record that cannot be added |
| `SimpleDb.DB.Insert` | 2019101426/src/scripts/db.cpp:557-583 | Reuses a free record of the exact sizes if there is one, so that neither file grows, else appends |
| `SimpleDb.DB.Replace` | 2019101426/src/scripts/db.cpp:584-621 | Overwrites data of the same size in place, else deletes and appends, never reusing |
| `SimpleDb.DB.AppendRecord` | 2019101426/src/scripts/db.cpp:564-571 | Append at both ends and link at the chain's front; halts exactly when the new record cannot be addressed or is too long or short |
| `SimpleDb.DB.ReuseRecord` | 2019101426/src/scripts/db.cpp:579-581 | A free record taken off its list becomes the first of the key's chain |
| `SimpleDb.DB.DbFetch` | 2019101426/src/scripts/db.cpp:173-188 | The key's data, or nothing when the map lacks the key; ends the process exactly when the map has a key with a separator on the same chain |
| `SimpleDb.DB.DbDelete` | 2019101426/src/scripts/db.cpp:368-382 | 0 and the key is gone, or -1 and nothing changes; ends the process exactly when the map has a key with a separator on the same chain |
| `SimpleDb.DB.DbFind` | 2019101426/src/scripts/db.cpp:194-217 | The chain walk ends: in the middle exactly when the map has a key with a separator on the chain, else with the record exactly when the map has the key, leaving the cursor and the pointer to it |
| `SimpleDb.DB.FindFree` | 2019101426/src/scripts/db.cpp:632-660 | The free-list walk ends; finds and unlinks the first record of these sizes exactly when there is one |
| `SimpleDb.DB.DoDelete` | 2019101426/src/scripts/db.cpp:389-439 | The writes in their order leave a well-formed database without the key; both files keep their size |
| `SimpleDb.DB.BlankBuffers` | 2019101426/src/scripts/db.cpp:399-406 | Both buffers blanked, lengths kept |
| `SimpleDb.DB.HashOf` | 2019101426/src/scripts/db.cpp:222-235 | The loop computes the sum of the characters at even positions, each times its number, on 64 bits, modulo 137 |
| `SimpleDb.DB.ReadIdx` | 2019101426/src/scripts/db.cpp:263-344 | Reads and parses at an offset or the current position; -1 at the end of the file; ends the process exactly on a record that does not parse |
| `SimpleDb.DB.WriteIdx` | 2019101426/src/scripts/db.cpp:467-495 | The bytes of the record at an offset or the end; halts on a bad pointer or length |
| `SimpleDb.DB.ReadPtr` | 2019101426/src/scripts/db.cpp:242-254 | The number in the field |
| `SimpleDb.DB.WritePtr` | 2019101426/src/scripts/db.cpp:501-518 | The field's bytes; halts beyond PTR_MAX |
| `SimpleDb.DB.ReadDat` | 2019101426/src/scripts/db.cpp:350-363 | The data without its newline |
| `SimpleDb.DB.WriteDat` | 2019101426/src/scripts/db.cpp:445-460 | The data and a newline at an offset or the end |
| `SimpleDb.DB.Create` | 2019101426/src/scripts/db.cpp:68-92 | A new database: 138 times six blanks and a 0, and a newline, 967 characters; an empty map |
| `SimpleDb.DB.DbRewind` | 2019101426/src/scripts/db.cpp:667-682 | The position of the first record |
| `SimpleDb.DB.DbNextRec` | 2019101426/src/scripts/db.cpp:690-721 | The next record in file order whose key is not blank, or nothing at the end; ends the process exactly when that key has a separator |
| `SimpleDb.DB.ScanAll` | 2019101426/src/scripts/db.cpp:667-721 | A rewind and repeated nextrec list the records not blanked, in file order, which are exactly the entries of the map whose key is not blank, each once; the scan ends the process exactly when some key of the map has a separator |
| `DbScan.AllParse` | 2019101426/src/scripts/db.cpp:684-721 | If every record can be read then no key of the map has a separator; with ScanMeets, exactly then |
| `DbScan.ScanIsExact` | 2019101426/src/scripts/db.cpp:684-721 | That list is every key of the map that is not all blank, once, with its data, in file order |
| `DbState.DeleteKeeps` | 2019101426/src/scripts/db.cpp:389-439 | Moving a record to the free list keeps lists, tiling and extents and removes its key from the map |
| `DbState.AppendKeeps` | 2019101426/src/scripts/db.cpp:557-572 | Appending keeps them and adds the key |
| `DbState.ReuseKeeps` | 2019101426/src/scripts/db.cpp:579-581 | Reuse of an exact fit keeps them and adds the key |
| `DbState.OverwriteKeeps` | 2019101426/src/scripts/db.cpp:614-620 | Overwriting keeps them and replaces the value |
| `DbState.EmptyOk` | 2019101426/src/scripts/db.cpp:73-89 | The initial files are well formed and represent the empty map |
| `DbState.RecordsTile` | 2019101426/src/scripts/db.cpp:242-344 | Records tile the index file from the header to its end, at strictly increasing offsets, and each parses back from its own bytes, unless its key has a separator |
| `DbState.ExtentsTile` | 2019101426/src/scripts/db.cpp:445-460 | Data extents tile the data file in the same order, without overlap |
| `DbState.DeletedIndexIs` | 2019101426/src/scripts/db.cpp:417-438 | Rewriting the record before unlinking it comes to the same as unlinking it first |
| `DbState.FoundOrNot` | 2019101426/src/scripts/db.cpp:206-216 | A walk that reaches the end of the chain means that the map lacks the key; one that stops has the map's data |
| `DbLists.Unlink` | 2019101426/src/scripts/db.cpp:655-655 | Copying a record's next over the pointer to it takes exactly that record off its list, for _db_findfree and _db_dodelete (438) alike |
| `DbLists.LinkIn` | 2019101426/src/scripts/db.cpp:571-581 | Pointing a head at a record whose next is the old head puts exactly that record in front |
| `DbLists.DropCovers` | 2019101426/src/scripts/db.h:40-44 | Taking a record off leaves every other record on a list |
| `DbLists.PushDisjoint` | 2019101426/src/scripts/db.h:40-44 | Putting an unlisted record on a list keeps the lists disjoint and free of repetition |
| `DbMap.CleanIff` | 2019101426/src/scripts/db.cpp:194-217 | A chain can be walked to its end if and only if the map has no key with a separator on it |
| `DbMap.PushFronts` | 2019101426/src/scripts/db.cpp:571-581 | A key with a separator is the last that goes on its chain, so it is the first that any walk meets |
| `DbMap.Removed` | 2019101426/src/scripts/db.cpp:389-439 | A record taken off a chain takes its key, and only it, from the map; off the free list, nothing |
| `DbMap.AddedLive` | 2019101426/src/scripts/db.cpp:571-581 | A record put on the chain of a key that was not there adds that key |
| `DbMap.AddedFree` | 2019101426/src/scripts/db.cpp:433-433 | A blanked record on the free list is out of the map |
| `DbMap.DataChanged` | 2019101426/src/scripts/db.cpp:618-618 | New data in a live record changes that key alone |
| `DbWrites.DeletedPrints` | 2019101426/src/scripts/db.cpp:428-438 | The three writes of a deletion, byte by byte, print the index it should lead to |
| `DbWrites.AppendedPrints` | 2019101426/src/scripts/db.cpp:565-571 | So do the two of an append |
| `DbWrites.TakenPrints` | 2019101426/src/scripts/db.cpp:655-655 | So does the one that takes a free record |
| `DbWrites.ReusedPrints` | 2019101426/src/scripts/db.cpp:580-581 | So do the two of a reuse |
| `DbImage.WritePtr` | 2019101426/src/scripts/db.cpp:501-518 | Writing a pointer field changes that pointer and nothing else in the file |
| `DbImage.WriteRec` | 2019101426/src/scripts/db.cpp:475-494 | A record rewritten at the same length changes that record and nothing else |
| `DbImage.AppendRec` | 2019101426/src/scripts/db.cpp:484-494 | Written at the end it becomes the last record |
| `DbImage.ReadRec` | 2019101426/src/scripts/db.cpp:263-344 | Parsing at a record's offset yields the record, or fails if and only if its key has a separator |
| `DbImage.WriteData` | 2019101426/src/scripts/db.cpp:618-618 | Data of the same length changes its extent alone |
| `DbCodec.EntryReadsBack` | 2019101426/src/scripts/db.cpp:263-344 | Printing an index record and parsing it are inverse for keys without a separator; with one, parsing fails |
| `DbCodec.FieldReadsBack` | 2019101426/src/scripts/db.cpp:242-254 | So are printing and reading a padded number |
| `DbCodec.FieldWidths` | 2019101426/src/scripts/db.cpp:479-479 | Every offset up to PTR_MAX and every legal length exactly fills its field |
| `DbCodec.ReadableIffNoSeparator` | 2019101426/src/scripts/db.cpp:316-331 | A printed record parses if and only if its key has no separator |
| `DbCodec.ParseMeans` | 2019101426/src/scripts/db.cpp:305-341 | What parses is a text of three parts, each with a separator before the next and a newline at the end, of which the second is a number that is not negative and the third one from 1 to 1024; and so it is read |
| `DbCodec.HashIgnoresOddCharacters` | 2019101426/src/scripts/db.cpp:228-232 | Keys that agree on every other character hash alike, since the loop advances both index and pointer |
| `DbCodec.HashIsSum` | 2019101426/src/scripts/db.cpp:222-235 | The hash is the sum of every other character times 1, 2, 3, ..., modulo 2 to the power 64 and then 137 |
| `DbCodec.FieldIsPadded` | 2019101426/src/scripts/db.cpp:467-518 | A field is blanks up to its width and then the digits of the number, with no leading 0 |
| `DbCodec.FirstEntry` | 2019101426/src/scripts/db.cpp:475-494 | The bytes of the first record of a file with key a and one character of data |
| `ForTreeVisits.TraceTraverses` | 2019104279/src/static/js/fortree.js:63-83 | Whenever the recursion ends, ids shared or not and parent pointers in cycles or not: balanced callbacks with right child counts, children only within call-brackets, visits in pre-order, every place visited, and a node visited if and only if it is reachable from the top |
| `ForTreeVisits.TraceVisitsOnce` | 2019104279/src/static/js/fortree.js:63-83 | For unique ids each reachable node is visited once |
| `ForTreeVisits.TraceNests` | 2019104279/src/static/js/fortree.js:68-82 | Each visit happens inside exactly the open brackets of the node's ancestors |
| `ForTreeVisits.TraceCounts` | 2019104279/src/static/js/fortree.js:69-81 | Every forBefore, forcurr and forAfter is told the number of the node's children |
| `ForTreeVisits.Traversal.constructor` | 2019104279/src/static/js/fortree.js:16-22 | The split loop takes the nodes whose parent is topid, and all others, each by rising positions of the array and leaving none out |
| `ForTreeVisits.Traversal.GetChildren` | 2019104279/src/static/js/fortree.js:48-58 | Exactly the nodes with that parent id, by rising positions of the array |
| `ForTreeVisits.Traversal.Each` | 2019104279/src/static/js/fortree.js:63-83 | The recursion ends and makes exactly the trace of the subforest |
| `ForTreeVisits.Traversal.EachFromTop` | 2019104279/src/static/js/fortree.js:63-66 | A whole traversal has all the properties of TraceTraverses and goes by the array: each visit stands at a position of it, siblings are visited in the order of their positions, and no node of the array whose parent is visited is left out; with unique ids, of two nodes with one parent id the earlier in the array is visited first |
| `ForTreeVisits.TraversesByArray` | 2019104279/src/static/js/fortree.js:51-72 | Every traversal with those properties visits siblings in the order of the array, below each visited node exactly its sons |
| `ForTreeVisits.ByArrayEarlierFirst` | 2019104279/src/static/js/fortree.js:51-72 | With unique ids: of two nodes with one parent id, the earlier in the array is visited first |
| `ForTreeOrder.SplitInOrder` | 2019104279/src/static/js/fortree.js:16-22 | Both lists of the constructor are given by strictly rising positions of the array that are all those with the right parent |
| `ForTreeOrder.SonsInArray` | 2019104279/src/static/js/fortree.js:51-55 | Searching the nodes that are not at the top finds what a search of the whole array would, except that topid has no sons there |
| `ForTreeOrder.SiblingsRise` | 2019104279/src/static/js/fortree.js:51-55 | Of two siblings the one of smaller index stands earlier in the array |
| `ForTreeVisits.PlacesOrdered` | 2019104279/src/static/js/fortree.js:68-77 | Visits are strictly increasing in pre-order |
| `ForTreeVisits.PlacesComplete` | 2019104279/src/static/js/fortree.js:68-77 | No place below the top is missed |
| `ForTreeVisits.SharedIdHasNoBottom` | 2019104279/src/static/js/fortree.js:51-55 | A two-node array with a shared id that has places at every depth, so the recursion does not end |
| `ForTree.BottomIffNoRepeats` | 2019104279/src/static/js/fortree.js:63-77 | The exact condition: the depth is bounded, so that the recursion ends, if and only if no path from the top passes one id twice |
| `ForTree.UniqueIdsHaveBottom` | 2019104279/src/static/js/fortree.js:63-77 | Unique ids meet it, whatever the parent pointers |
| `ForTree.OnePlace` | 2019104279/src/static/js/fortree.js:51-55 | With unique ids a node lies at one place only |
| `ForTree.PathIsShort` | 2019104279/src/static/js/fortree.js:63-77 | The nodes on a path from the top are all different, so no path is longer than the array: the measure of the recursion |
| `ForTree.SplitWellFormed` | 2019104279/src/static/js/fortree.js:16-22 | Unique ids give a forest the traversal is right for, holding the same nodes |

## Left out

- Raft's InstallSnapshot RPC: the index of the last cut is not persisted and the handler drops the whole log, so
  nothing is proved of it; nor of the service on a snapshot older than its store (`Kv.InstallCatchesUp` is about
  newer ones).
- Liveness, timers, goroutine scheduling, Kill, deadlock: `RaftProgress` proves that a way on always exists, not that
  it is taken, and for whole logs. An apply loop whose handler has just timed out can block on its channel for good.
- `RaftWindows.UnawareIsReached`: reaches the state in which a full channel makes a second leader of one term, not a
  run that loses a commit.
- `RaftNode.Raft.DoCheckCurrentTerm`: the handlers of the class call it with room in the channel, as the runs assume.
- `RaftTheorems.LeaderCompleteness`: not stated again for the compacting cluster, as the log it speaks of is cut there.
- `RaftCompacted.CompactionUnnoticed`: about one step with one log cut; runs with all logs cut are in
  `RaftCompactedTheorems`, for as long as no leader needs to send a snapshot.
- `KvLinear.Linearizable`: around one committed log; `KvClusterRuns.Linearizable` has it on the compacting peers.
- `KvServer.Clerk.Call`: the unbounded retry loop runs over a finite script of outcomes and reports when it is
  used up.
- `KvServer.RaftKV.TakeTurn`: the size of Raft's saved state is a parameter; Compaction, which the code starts in a
  goroutine, is only requested; the turn that takes a snapshot is `TakeSnapshot`.
- `RaftKV.Get` and `PutAppend` are modelled by their regions (`Refuses`, `Begin`, `ListenCallBack`,
  `UnlistenCallBack`), not as one method, since the apply loop runs between them; log messages are left out.
- ProcessReq is modelled by its steps in `LabRpc.State`, not as one method; delays and random drops are free
  choices. Encoding, reflection and dispatch by name are left out.
- `LabRpc.AcknowledgedSurvives`: a persister is the set of effects saved in it, not their bytes.
- SimpleDB's statistics counters, opening an existing file, locking, and file-system errors; crash atomicity
  inside an operation; NUL bytes in the files.
- SimpleDB's server, client, daemon, password and access files.
- `ForTreeVisits.Traversal.Each`: callbacks are recorded as a trace; callbacks that change the array while it is
  traversed are not modelled. Ids are integers and compared as such.
- The web applications, scrapers, pagers, message broker and front-end libraries of the other projects: thin
  wrappers whose properties would be easy members only.
