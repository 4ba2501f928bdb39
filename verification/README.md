# A verified model of snapshotd

snapshotd is a privileged broker that checkpoints and restores its users' processes
through CRIU. This project models its hard core in Dafny and proves what that core keeps:
which checkpoints the retention engine removes, what every run of requests keeps true of
the metadata store, that the wire format and the stored text lose nothing, that a request's
arguments reach CRIU unchanged, and in which order a hanging worker is stopped.

Nothing here calls the operating system. Clocks, fresh ids, process tables, measured
sizes, the worker's result, and the way the kernel cuts reads and writes are inputs, and
the theorems hold for all of them within the assumptions listed below.

## How it is built

- `Strings`, `Tokens`, `Decimal`, `Orders`, `Outcomes`: splitting, decimal text with 32- and
  64-bit conversions, strict total orders and a sort.
- `KeyValueText`, `Records`, `Paths`, `Stores`: the metadata files. `Stores.Store` holds text
  files; its ghost fields are the typed records, and `Valid` says each file reads as its record.
- `Retention`: the policy as a property of sets, with no order and no loop.
  `RetentionTheorems` and `RetentionPolicy` prove what the policy achieves.
  `RetentionPasses`, `Pruning` and `PruneRun` are the candidate vector, its marks, sorts and
  loops, proved equal to the set-level policy, also when a save or removal fails half way.
  `PruneTheorems` carries the policy's results over to the store. `EvictionOrder` and
  `PruneReading` say the same of the fields and records alone: who stays, who goes for its age,
  who is given up first.
- `Protocol`, `Framing`: control messages and their transport over a socket that interrupts,
  shortens and fails calls as a schedule says.
- `CommandLine`, `ExtraArgs`, `WorkerCommand`, `CriuCommand`: from a request's arguments to
  CRIU's command line. `CriuOptions` looks options up in a finished command, and `CriuRecords`
  compares the dump and the restore of one checkpoint with its record.
- `Supervision`: the two wait loops. `Processes`: pid identity over a process table that changes.
- `Broker` is one request as a step; `BrokerInvariant` and `BrokerRuns` prove what every run
  keeps; `BrokerAnswers` says which requests are accepted and what each answer means in the
  records, `BrokerTargets` which checkpoint a default target is in a whole run, `BrokerPrunes`
  what the prune after an answer achieved; `BrokerLaunch` says when a launched process gets a record; `BrokerUsage` relates
  restore counts to the history of answers; `BrokerIsolation` is what one user's request can
  do to another's records, and `BrokerShelter` what a user keeps through any number of them;
  `BrokerProcesses` runs the broker beside a changing process table; `BrokerHandlers` are the
  handlers on the text store, proved to take exactly those steps.

## What turned out false, and the exact condition

- The newest `min_keep_per_job` checkpoints of a job do not always survive: an older default
  restore target takes one of the places. `SecondNewestRemoved` is the case;
  `NewestProtectedExactly` says when the newest are all protected.
- A byte-budget pass keeps its total in an unsigned 64-bit number. It meets its budget if and
  only if no running total wraps onto a value within budget (`BudgetPass`);
  `WrapCounterexample` is a store on which it does not. Sums below 2^64 never wrap.
- Pruning twice is not always pruning once. Beyond 2^64 bytes the total pass may take from a user
  whose total had wrapped to nothing, and the next prune finds that user over budget
  (`SecondPruneRemoves`). `IdempotentExactly` says when a second prune removes nothing; it never
  removes anything when no user's pass read a wrapped total, or without a total budget.
- Not every received descriptor is closed. The control buffer is sized for one, but with its padding
  two fit; the receiver keeps the first and the daemon closes that one. Every installed descriptor is
  closed exactly once if and only if the first successful read installed at most one
  (`ServeConnection`), and that holds for every cutting of the header into reads if and only if it
  holds for one read of all of it (`AtMostOneExactly`). `SecondDescriptorStays` is the input on which
  one stays open.
- A worker that was sent SIGKILL is not always reaped: the wait that follows is not repeated when it is
  interrupted. A wait that fails once SIGTERM was sent did so on another error or exactly on that
  interruption (`AwaitTermination`).
- CRIU does not always get `--link-remap`. A request that names it only as the value of
  `--ghost-limit` suppresses the default without giving the option (`LinkRemapLost`).
  `LinkRemapGivenExactly` is the condition; the ghost limit itself is always given.
- A message whose command holds a NUL, or whose key holds `=`, is encoded without an error but
  decodes to something else. `RoundTripExactly` is the exact condition.
- `JoinCommandLine` writes nothing for an empty token, so an argv is recovered if and only if
  it has none (`RecoveredExactly`).
- `run` saves the record after the process exists. A launched process is recorded if and only if
  neither its arguments nor its directory hold a newline (`RecordedExactly`);
  `UnrecordedLaunch` is a launch that leaves a process without a record.

## What is taken for granted

- Generated ids are safe and have not been handed out before, and a job id names one job across
  all users. No user has uid 2^32 - 1. Uids and gids fit 32 bits and times fit a signed 64-bit
  number.
- The state root holds only what the store wrote, and its path contains no newline. Metadata was
  written by this daemon: its numbers are decimal and its values have no newline.
- Sizes measured during one prune are fixed. File operations succeed, except that in a prune
  any save or removal may fail; one that fails changes nothing.
- Fewer than 2^63 requests are served by one daemon. A start time read from the process table
  contains no newline.
- A header is little-endian. A read installs the descriptors attached to the earliest of the bytes it
  returns, as many as its control buffer has room for, and drops the others. On 64-bit Linux the buffer
  has room for two. Installed descriptors get numbers that are in use nowhere else.
- The process table a request sees at each moment comes from one history in which a pid is reused only
  when free and never with a start time it had before. A launch reports a process of its own.

## Model

| member | source | states |
|---|---|---|
| `RetentionTheorems.ColderIsTotal` | src/csrc/daemon.cc:906-932 | The eviction order is a strict total order on any set of checkpoints whose ids are distinct; which order it is, `EvictionOrder.ColderIsWorthLess` says. |
| `RetentionTheorems.NewerIsTotal` | src/csrc/daemon.cc:1163-1180 | The newest-first order is a strict total order on the checkpoints of one job. |
| `EvictionOrder.ColderIsWorthLess` | src/csrc/daemon.cc:906-932 | One checkpoint comes before another exactly when it was restored longer ago or never, then less often, then is larger, then older, then has the smaller job id and id in byte order. |
| `EvictionOrder.EvictedIsWorthLess` | src/csrc/daemon.cc:1222-1308 | What the cap or a budget evicts is below every unprotected survivor of its job in the tuple of last restore, count, negated size, creation time, job id and id; of its user, when the cap left it; of the whole store, when the user passes left it too. |
| `EvictionOrder.NeverUsedGoes` | src/csrc/daemon.cc:1222-1258 | Three checkpoints of a job under a cap of two: the one never restored goes, the restored one and the default target stay. |
| `RetentionTheorems.OverBudgetIsPrefix` | src/csrc/daemon.cc:1276-1301 | What a byte-budget pass evicts is closed downwards: everything colder in the pool goes first. |
| `RetentionTheorems.BudgetPass` | src/csrc/daemon.cc:1262-1301 | A pass brings its scope within budget or down to protected checkpoints if and only if no running total wraps onto a value within budget. |
| `RetentionTheorems.FitsNoWrap` | src/csrc/daemon.cc:1262-1301 | When the true sum is below 2^64 no running total wraps. |
| `RetentionTheorems.ShortestPrefix` | src/csrc/daemon.cc:1285-1301 | Any shorter cold prefix of the pool would have left the scope over budget. |
| `RetentionTheorems.WrapCounterexample` | src/csrc/daemon.cc:1262-1301 | Two checkpoints of 2^63 bytes read as a total of zero, so nothing goes although the budget of one byte is exceeded. |
| `RetentionPolicy.CountRule` | src/csrc/daemon.cc:1222-1258 | Over the cap the rule leaves exactly the cap, or more of which all are protected; at or under it, it evicts nothing. |
| `RetentionPolicy.EndState` | src/csrc/daemon.cc:1205-1319 | When a prune ends, protection, age and the cap hold for every store; the total budget is met if and only if the last pass read no wrapped total, and each user budget when that pass read none. |
| `RetentionPolicy.RulesAtEnd` | src/csrc/daemon.cc:1205-1258 | Whatever the byte budgets remove afterwards: protected ones are kept, no unprotected survivor is expired, each job is within its cap or down to protected checkpoints. |
| `RetentionPolicy.UserBudgetHolds` | src/csrc/daemon.cc:1303-1307 | The pass for one user brings that user within budget if and only if it read no wrapped total. |
| `RetentionPolicy.FittingSums` | src/csrc/daemon.cc:1262-1308 | With all sizes adding up to less than 2^64 no pass reads a wrapped total. |
| `RetentionPolicy.IdleExactly` | src/csrc/daemon.cc:1280-1301 | A pass evicts nothing if and only if its total reads as within budget or its scope is all protected. |
| `RetentionPolicy.PassSettles` | src/csrc/daemon.cc:1280-1301 | Whatever wrapped, the same pass over what it left evicts nothing. |
| `RetentionPolicy.ProtectionStable` | src/csrc/daemon.cc:1156-1186 | A survivor is protected among the survivors exactly when it was protected before, whatever unprotected ones went. |
| `RetentionPolicy.Fixpoint` | src/csrc/daemon.cc:1140-1319 | A store that keeps the counting rules and on which every pass stops at its first test keeps its protected set and loses nothing. |
| `RetentionPolicy.Idempotent` | src/csrc/daemon.cc:1140-1319 | When no user pass reads a wrapped total, as with sizes adding up to less than 2^64 or without user budgets, or when there is no total budget, a second prune with the same clock, settings and sizes removes nothing. |
| `RetentionPolicy.IdempotentExactly` | src/csrc/daemon.cc:1140-1319 | A second prune protects the same checkpoints, and removes nothing if and only if no total a user is left with reads as over budget. |
| `RetentionPolicy.SecondPruneRemoves` | src/csrc/daemon.cc:1262-1308 | Two checkpoints of one user that add up to 2^64 and one of another: the first prune takes one of the two, the second prune takes more. |
| `RetentionPolicy.ProtectedAtMost` | src/csrc/daemon.cc:1156-1186 | At most `min_keep_per_job` checkpoints of a job are protected, or two. |
| `RetentionPolicy.ProtectedAtLeast` | src/csrc/daemon.cc:1156-1186 | With the anchors present, at least `min_keep_per_job` checkpoints of a job are protected, or all of them. |
| `RetentionPolicy.Normalised` | src/csrc/daemon.cc:847-850 | A positive cap becomes the larger of cap and floor, a cap that is not positive stays, and no other setting changes. |
| `RetentionPolicy.KeptAtMost` | src/csrc/daemon.cc:847-850 | With normalised settings and a cap, a job keeps at most max(cap, 2) checkpoints, whatever their sizes. |
| `RetentionPolicy.KeptAtLeast` | src/csrc/daemon.cc:1156-1186 | With the anchors present, age, count and both budgets leave a job at least `min_keep_per_job` checkpoints or all it had. |
| `RetentionPolicy.NewestProtectedExactly` | src/csrc/daemon.cc:1156-1186 | The newest `min_keep_per_job` checkpoints are all protected if and only if they are anchors themselves or leave room for every anchor. |
| `RetentionPolicy.SecondNewestRemoved` | src/csrc/daemon.cc:1156-1220 | With two to keep and the default target older than both newest ones, the second newest is expired and removed. |
| `RetentionPasses.RetentionPass.ExpireByAge` | src/csrc/daemon.cc:1205-1220 | The loop marks exactly the unprotected candidates that are too old. |
| `RetentionPasses.RetentionPass.EnforceCount` | src/csrc/daemon.cc:1222-1258 | Sorting and marking in place marks exactly the coldest unprotected candidates of the job that are over the cap. |
| `RetentionPasses.RetentionPass.MeasureScope` | src/csrc/daemon.cc:1262-1283 | The running total is the sum, modulo 2^64, of the unmarked candidates in scope, and the pool holds the unprotected ones of them. |
| `RetentionPasses.RetentionPass.EvictUntil` | src/csrc/daemon.cc:1285-1301 | The eviction loop marks the sorted pool from its cold end exactly as long as the bytes still unmarked, modulo 2^64, are over budget. |
| `RetentionPasses.RetentionPass.ApplyByteBudget` | src/csrc/daemon.cc:1262-1301 | One budget pass over the marked vector marks exactly what the set-level rule evicts from the live scope. |
| `RetentionPasses.PrefixIsOverBudget` | src/csrc/daemon.cc:1285-1301 | The sorted prefix the loop stops at is the set that the order-free rule evicts. |
| `RetentionPasses.PrefixIsOverCount` | src/csrc/daemon.cc:1239-1258 | The first so many of the sorted pool are the set that the order-free cap rule evicts. |
| `Pruning.CandidatesIdentified` | src/csrc/daemon.cc:1187-1202 | The candidates of a store with its own metadata have distinct ids and real owners, and each stands for one stored checkpoint. |
| `Pruning.ProtectedIds` | src/csrc/daemon.cc:1156-1186 | The loop over the newest-first listing returns exactly the ids reached before the kept ones number `min_keep_per_job`, and the anchors; `PruneReading.ProtectedIsGuarded` says which those are in the stored records. |
| `Pruning.ReachedIsProtected` | src/csrc/daemon.cc:1156-1186 | Being reached in the listing is the order-free protection rule. |
| `Pruning.SortNewestFirst` | src/csrc/daemon.cc:1163-1180 | The listing is permuted and sorted by creation time, then by id, newest first. |
| `PruneRun.CollectJob` | src/csrc/daemon.cc:1149-1258 | One job: sizes measured and saved, protected ids found, age and count applied to its candidates, nothing of another job touched; when a save fails, the keys reached have fresh sizes and nothing else changed. |
| `PruneRun.CollectAll` | src/csrc/daemon.cc:1149-1258 | All users and jobs in whatever order the directories list them: the vector then holds every candidate, marked as the age and count rules say, unless a save failed. |
| `PruneRun.ApplyBudgets` | src/csrc/daemon.cc:1303-1308 | The passes for each listed user and the one for the whole store leave unmarked exactly the survivors. |
| `PruneRun.RemoveMarked` | src/csrc/daemon.cc:1310-1318 | Exactly the marked checkpoints and their exports are removed and counted, or some of them when a removal fails. |
| `PruneRun.PruneCheckpoints` | src/csrc/daemon.cc:1140-1319 | The whole prune turns the text store into the one the set-level policy prescribes and returns the number removed, so neither depends on a directory order; cut short by a failing save it removes nothing, by a failing removal only what the policy removes. What that store is, record by record, is in `PruneReading`. |
| `PruneTheorems.PrunedCandidates` | src/csrc/daemon.cc:1140-1319 | The candidates of the pruned store are the survivors of the candidates before. |
| `PruneTheorems.StoreEndState` | src/csrc/daemon.cc:1149-1318 | The pruned store keeps every rule, the total budget exactly when the last pass read no wrapped total. |
| `PruneTheorems.SecondPruneIdleExactly` | src/csrc/daemon.cc:1140-1319 | Pruning the pruned store again removes nothing if and only if no total a user is left with reads as over budget. |
| `PruneTheorems.SecondPruneChangesNothing` | src/csrc/daemon.cc:1140-1319 | When no user pass reads a wrapped total, or without a total budget, pruning the store twice is pruning it once. |
| `PruneTheorems.JobKeepsAtMost` | src/csrc/daemon.cc:847-850 | With normalised settings and a cap, a prune leaves a job at most max(cap, 2) checkpoints in the store. |
| `PruneTheorems.JobKeepsAtLeast` | src/csrc/daemon.cc:1156-1186 | A prune leaves a job whose default and preserved checkpoints exist at least `min_keep_per_job` checkpoints, or all it had. |
| `PruneReading.ProtectedIsGuarded` | src/csrc/daemon.cc:1156-1186 | In the records: protected is the default target of the job, the checkpoint the request was about, or one with so few later ones (by creation time, then by id in byte order) that those and the named ones are fewer than `min_keep_per_job`. |
| `PruneReading.GuardedStays` | src/csrc/daemon.cc:1156-1186 | A checkpoint guarded in that sense stays whatever age, cap and budgets say. |
| `PruneReading.TooOldGoes` | src/csrc/daemon.cc:1205-1220 | A dated checkpoint whose age has reached the limit goes unless it is guarded. |
| `PruneReading.OnlyTooOldGo` | src/csrc/daemon.cc:1205-1220 | Without a cap and budgets a prune removes exactly the checkpoints that are too old and not guarded. |
| `PruneReading.GivenUpIsWorthLess` | src/csrc/daemon.cc:906-932 | On the store: a checkpoint removed without being too old is below every unguarded one left in its job, in the tuple of recorded last restore, count, negated measured size, creation time, job id and id; below every one of its user without a cap; below every one without user budgets too. |
| `PruneReading.LeftAsMeasured` | src/csrc/daemon.cc:1149-1318 | What a prune leaves has its size measured and nothing else changed; jobs are as they were; an export is left exactly with its checkpoint. |
| `PruneReading.NothingTooOldLeft` | src/csrc/daemon.cc:1205-1318 | After a prune every checkpoint that is too old is guarded, in the store before and in the store after. |
| `KeyValueText.ParseKeyValueText` | src/csrc/util.cc:514-529 | The loop reads a text line by line into the map of its entries, or fails on a line without a separator. |
| `KeyValueText.SerializeKeyValueMap` | src/csrc/util.cc:532-542 | Exactly the maps with no newline in a key or value and no `=` in a key are written, one line per key in key order. |
| `KeyValueText.InOrderAscends` | src/csrc/util.cc:532-542 | The keys are written in strictly ascending byte order. |
| `KeyValueText.RoundTrip` | src/csrc/util.cc:514-542 | Every map the serialiser accepts parses back to itself. |
| `KeyValueText.ReadIsSerializable` | src/csrc/util.cc:514-529 | Every map read from a text is one the serialiser accepts, so it can be written again. |
| `Records.JobFieldsRoundTrip` | src/csrc/store.cc:34-54 | A job record turned into fields reads back with every field, its ids through decimal text. |
| `Records.CheckpointFieldsRoundTrip` | src/csrc/store.cc:57-82 | A checkpoint record turned into fields reads back with every field. |
| `Records.JobSerializable` | src/csrc/store.cc:164-187 | A job record can be written if and only if none of its text fields holds a newline. |
| `Records.CheckpointSerializable` | src/csrc/store.cc:260-282 | A checkpoint record can be written if and only if none of its fields holds a newline. |
| `Records.JobTextRoundTrip` | src/csrc/store.cc:34-54 | Reading the text of a newline-free job record gives the record. |
| `Records.CheckpointTextRoundTrip` | src/csrc/store.cc:57-82 | Reading the text of a newline-free checkpoint record gives the record. |
| `Decimal.StolToString` | src/csrc/store.cc:34-54 | A signed 64-bit number printed in decimal is read back by the signed conversion. |
| `Decimal.StoulToString` | src/csrc/store.cc:34-54 | An unsigned 64-bit number printed in decimal is read back by the unsigned conversion. |
| `Paths.IsSafeId` | src/csrc/util.cc:396-410 | Accepts exactly 1 to 80 letters, digits and hyphens that start with a letter or digit. |
| `Paths.SafeIdLimits` | src/csrc/util.cc:396-410 | Eighty letters are a safe id and eighty-one are not; a leading hyphen, `_`, `.` and `/` are refused. |
| `Paths.SafeIdIsComponent` | src/csrc/util.cc:396-410 | A safe id is a single path component, not `.` or `..`, and holds no newline, `=` or NUL. |
| `Paths.IsPathBeneath` | src/csrc/util.cc:493-511 | On component sequences the walk succeeds exactly when the root is a prefix of the candidate. |
| `Paths.CheckpointTreesDisjoint` | src/csrc/store.cc:93-140 | A checkpoint directory contains the directory or metadata of a checkpoint if and only if it is its own. |
| `Paths.ExportsApart` | src/csrc/store.cc:93-140 | No private directory lies in an export or the reverse, and exports of different checkpoints are disjoint. |
| `Paths.JobMetaApart` | src/csrc/store.cc:93-140 | No checkpoint or export directory contains a job record. |
| `Paths.MetaPathsInjective` | src/csrc/store.cc:93-140 | Different jobs have different metadata paths, and no job record shares a path with a checkpoint record. |
| `Paths.ParseRender` | src/csrc/store.cc:93-140 | A rendered path splits into its components and is read as the path they resolve to. |
| `Paths.ResolveBelow` | src/csrc/util.cc:493-511 | Following `.` and `..` in a directory leaves plain names below it below what it resolves to. |
| `Stores.ResolveCheckpointId` | src/csrc/store.cc:325-337 | The requested id if there is one, otherwise the default of the job; an error exactly when that id is missing or unsafe. |
| `Stores.PutOwn` | src/csrc/store.cc:164-187 | Writing one record file changes that record and no other. |
| `Stores.PruneRecords` | src/csrc/store.cc:316-323 | Removing a directory tree removes the records whose files lie in it and no others. |
| `Stores.Store.constructor` | src/csrc/store.cc:84-92 | An empty state root stands for no records. |
| `Stores.Store.SaveJob` | src/csrc/store.cc:164-187 | Saves exactly the safe, newline-free records; the text store then stands for the old records with this job replaced. The user directory exists afterwards also when the record is refused for a newline. |
| `Stores.Store.LoadJob` | src/csrc/store.cc:189-195 | Returns the stored record exactly when the id is safe and that user has the job. |
| `Stores.Store.SaveCheckpoint` | src/csrc/store.cc:260-282 | Saves exactly the safe, newline-free records; no other record changes, and the user directory exists afterwards also when the record is refused for a newline. |
| `Stores.Store.LoadCheckpoint` | src/csrc/store.cc:284-293 | Returns the stored record exactly when both ids are safe and the checkpoint exists. |
| `Stores.Store.RemoveCheckpoint` | src/csrc/store.cc:316-323 | Removes that checkpoint and its export; every other record stays readable. |
| `Stores.Store.ListUsers` | src/csrc/store.cc:197-213 | Lists without repetition exactly the users who have a directory in the state root, among them every owner of a job. |
| `Stores.Store.ListJobs` | src/csrc/store.cc:215-233 | Lists exactly the jobs of a user, each once, in an arbitrary order. |
| `Stores.Store.ListCheckpoints` | src/csrc/store.cc:295-314 | Lists exactly the checkpoints of a job, each once, in an arbitrary order. |
| `Stores.Store.ExportCheckpointArtifacts` | src/csrc/daemon.cc:558-575 | The export of that checkpoint exists afterwards and no other export changes. |
| `Protocol.EncodeMessage` | src/csrc/protocol.cc:68-87 | Encodes exactly the messages with a command, non-empty keys and no NUL in a field. |
| `Protocol.DecodeMessage` | src/csrc/protocol.cc:90-117 | The cursor loop returns what the NUL-separated tokens say, and fails on a token without `=` or a missing command. |
| `Protocol.RoundTripExactly` | src/csrc/protocol.cc:68-117 | An encoded message decodes to itself if and only if the command has no NUL and no key has `=`. |
| `Protocol.DecodedShape` | src/csrc/protocol.cc:90-117 | Whatever decodes has a non-empty command, keys without `=`, no NUL anywhere, and the tokens of the payload in order. |
| `Protocol.Recode` | src/csrc/protocol.cc:68-117 | A decoded payload can be encoded again exactly when no key is empty, decodes to the same message, and grows by at most one byte. |
| `Framing.StreamRoundTrip` | src/csrc/protocol.cc:161-187 | Frames sent one after another split into the same messages. |
| `Framing.LowByteFirst` | src/csrc/protocol.cc:161-173 | A length goes out with its low byte first. |
| `Framing.OversizedExactly` | src/csrc/protocol.cc:176-187 | A received length is refused if and only if its four bytes, low byte first, say more than 65536. |
| `Framing.WriteAll` | src/csrc/protocol.cc:29-45 | Whatever the short writes and interruptions, the bytes written are a prefix of the buffer, and all of it unless the socket failed or stalled. |
| `Framing.ReadAll` | src/csrc/protocol.cc:48-65 | Whatever the short reads and interruptions, the bytes read are the next ones of the stream, and as many as asked unless the socket failed, ended or stalled. |
| `Framing.SendMessage` | src/csrc/protocol.cc:161-173 | Sends the frame of a sendable message or a prefix of it, and nothing of any other. |
| `Framing.ReceiveMessage` | src/csrc/protocol.cc:176-187 | Returns the first frame of the unread bytes and consumes exactly it; a length over the limit is refused. |
| `Framing.SendMessageWithFd` | src/csrc/protocol.cc:195-251 | Emits the same bytes as the plain sender and attaches the descriptor once, to the first byte. |
| `Framing.ReceiveMessageWithFd` | src/csrc/protocol.cc:254-323 | Returns the first frame; of the descriptors its first successful read installed, wherever the peer attached them, the first is handed over, and closed here exactly when the length is refused. |
| `Framing.ServeConnection` | src/csrc/daemon.cc:1365-1383 | On every path the first installed descriptor is closed once and then the connection, and nothing else; so every installed one is closed exactly once if and only if at most one was installed. |
| `Framing.ClosedOnceExactly` | src/csrc/daemon.cc:1379-1382 | Closing the kept descriptor and the connection closes each of the installed ones exactly once if and only if there is at most one. |
| `Framing.AtMostOneExactly` | src/csrc/protocol.cc:277-308 | No cutting of the header into reads installs two descriptors if and only if reading it at once does not. |
| `Framing.SecondDescriptorStays` | src/csrc/protocol.cc:298-307 | With two descriptors on the first byte both are installed as soon as a byte is read, whatever the schedule, and the second is never closed. |
| `Framing.Exchange` | src/csrc/protocol.cc:195-323 | A message with a descriptor arrives whole with it for every schedule that goes on moving bytes. |
| `Framing.Converse` | src/csrc/protocol.cc:161-187 | A sequence of messages is received as the same sequence for every cutting and interleaving of reads and writes and every placement of interruptions. |
| `ExtraArgs.ValidateExtraArgs` | src/csrc/daemon.cc:483-520 | Accepts exactly what the left-to-right reading accepts and returns its input unchanged. |
| `ExtraArgs.AcceptsExactly` | src/csrc/daemon.cc:483-520 | The accepted lists are exactly the concatenations of allowlisted flags and flag-value pairs. |
| `ExtraArgs.HeadsAreFirsts` | src/csrc/daemon.cc:483-520 | However an accepted list is cut into allowed items, the tokens CRIU reads as options are the first tokens of the items. |
| `ExtraArgs.OptionsAllowed` | src/csrc/daemon.cc:483-520 | Whatever list is accepted, CRIU reads no options in it but the seven on the allowlist and `--ghost-limit=`. |
| `ExtraArgs.EachAllowed` | src/csrc/daemon.cc:483-520 | A single token is accepted exactly if it is one of the four flags or starts with `--ghost-limit=`; a ghost limit takes any value, `--external` one that starts with `tty[`, `--inherit-fd` one that starts with `fd[`. |
| `WorkerCommand.BuildWorkerCommand` | src/csrc/daemon.cc:590-635 | Appends the configuration as flags and values in the fixed order, each extra argument behind its own flag. |
| `WorkerCommand.ParseArgs` | src/csrc/worker.cc:627-665 | The index loop computes the left-to-right reading of the flags or its error. |
| `WorkerCommand.ParseWorkerArgs` | src/csrc/worker.cc:627-665 | The worker recovers every field of what the daemon flattened, whatever strings the extra arguments are. |
| `CriuCommand.ContainsArg` | src/csrc/worker.cc:46-53 | Finds an option written alone or with `=`. |
| `CriuCommand.ValidateWorkerConfig` | src/csrc/worker.cc:66-95 | Accepts exactly a known operation, absolute binaries, absolute directories each beneath the one before once `.` and `..` are followed, and for a dump a pid above 1. |
| `CriuCommand.ClimbingRefused` | src/csrc/worker.cc:86-91 | A job directory that leaves the state directory through `..` for another name is refused. |
| `CriuCommand.BuildDumpCommand` | src/csrc/worker.cc:669-714 | A command is built exactly from an accepted configuration. In the finished command the value after `-t` is the pid, after `--images-dir`, `--work-dir` and `--log-file` are `images`, `work` and `logs/dump.log` of the checkpoint directory, `--leave-running` and `--shell-job` occur, and the request arguments stand at the end in order after the defaults it left out. |
| `CriuCommand.BuildRestoreCommand` | src/csrc/worker.cc:716-755 | A command is built exactly from an accepted configuration. In the finished command the value after `--images-dir`, `--work-dir`, `--log-file` and `--pidfile` is `images`, `restore-work`, `logs/restore.log` and `restore.pid` of the checkpoint directory, `--shell-job` and `-d` occur, and the request arguments stand at the end in order after the defaults it left out. |
| `CriuCommand.GhostLimitAlwaysGiven` | src/csrc/worker.cc:706-711 | With accepted arguments CRIU always reads a ghost limit, from the request or by default. |
| `CriuCommand.LinkRemapGivenExactly` | src/csrc/worker.cc:706-711 | With accepted arguments CRIU reads `--link-remap` if and only if the request gives it as an option or nowhere names it. |
| `CriuCommand.LinkRemapLost` | src/csrc/worker.cc:706-711 | `--ghost-limit` followed by `--link-remap` is accepted, adds no default, and gives CRIU no link remapping. |
| `CriuCommand.StorePathsAccepted` | src/csrc/worker.cc:86-91 | The worker confinement check accepts every path the store builds, also under a state root written with `.` or `..`. |
| `CriuCommand.Pipeline` | src/csrc/daemon.cc:590-635 | What the daemon flattens for a stored checkpoint the worker parses back field by field and accepts. |
| `CriuRecords.DumpAndRestoreAgree` | src/csrc/worker.cc:669-755 | For one stored checkpoint: dump and restore name the same images directory and different working directories, log where its record says, the pidfile is the one the daemon reads, the dumped pid reads back as the one asked for, and the process is left running. |
| `CriuRecords.DumpOfStored` | src/csrc/worker.cc:669-714 | The dump of a stored checkpoint runs the namespace wrapper exactly in namespace mode, on that pid, into the directories of that checkpoint. |
| `CriuRecords.RestoreOfStored` | src/csrc/worker.cc:716-755 | The restore of a stored checkpoint reads the images of that checkpoint and leaves log and pidfile in its directory. |
| `CriuRecords.LaunchDirectories` | src/csrc/daemon.cc:590-635 | The three directories a worker is told are the state root, the job below it and the checkpoint below the job, at their places in the layout. |
| `CriuRecords.NothingFixedAccepted` | src/csrc/daemon.cc:483-520 | No accepted argument of a request is read as one of the options the worker sets itself. |
| `CriuRecords.PidfileRoundTrip` | src/csrc/worker.cc:622-622 | The pid written to the pidfile as a decimal line is the pid the daemon reads from it. |
| `CommandLine.JoinCommandLine` | src/csrc/util.cc:556-579 | The loop writes the tokens, quoted where needed, separated by single spaces. |
| `CommandLine.WrittenAsIs` | src/csrc/util.cc:556-579 | A token without blanks, quotes and backslashes is written unchanged; every other is wrapped in single quotes. |
| `CommandLine.JoinSplits` | src/csrc/util.cc:556-579 | Splitting the line by blanks and quotes as in section 2.2 of the POSIX.1-2017 Shell Command Language gives the non-empty tokens. |
| `CommandLine.RecoveredExactly` | src/csrc/util.cc:556-579 | The argv is recovered if and only if no token is empty. |
| `CommandLine.JoinInjective` | src/csrc/util.cc:556-579 | Two argvs of non-empty tokens with the same line are equal. |
| `Supervision.WaitForWorkerSuccess` | src/csrc/daemon.cc:656-703 | Success exactly when the child was reaped with exit 0 and no signal was sent; SIGTERM not before the deadline, SIGKILL not before 2000 ms after it; at most timeout and grace over 50 ms polls and three more; a failure exactly on a `waitpid` error, a child gone before any signal, or an interrupted wait after SIGKILL. |
| `Supervision.AwaitTermination` | src/csrc/daemon.cc:673-697 | After SIGTERM the child is reaped or gone unless `waitpid` fails or the one wait after SIGKILL is interrupted, and the failure is reported exactly then; at most one SIGKILL, after the grace period. |
| `Supervision.AwaitRestore` | src/csrc/worker.cc:198-255 | Success exactly when the child exited 0 and no signal was caught; the first signal sent is the SIGHUP, SIGINT or SIGTERM heard last by then, it is sent once, and only SIGKILL follows, not before 500 ms later; a child found running has been sent it, and one found running more than ten times is killed each further time. |
| `Processes.IsZeroCapabilityMask` | src/csrc/util.cc:190-202 | Accepts exactly masks with a digit and no digit but zero. |
| `Processes.MatchesExpectedTuple` | src/csrc/util.cc:205-226 | Accepts exactly four ids that are all the expected one. |
| `Processes.ProcessMatchesPeerSecurity` | src/csrc/util.cc:680-725 | The stepwise check accepts exactly what the security predicate says. |
| `Processes.SecurityExactly` | src/csrc/util.cc:680-725 | The check passes if and only if a readable process has that pid and start time, all four of its uids and gids are the owner's, and each of its four capability masks has a digit and no digit but zero. |
| `Processes.SetUidRefused` | src/csrc/util.cc:680-725 | A process whose real uid is the owner's and whose other uids are root's is refused. |
| `Processes.AmbientRefused` | src/csrc/util.cc:680-725 | A process that holds nothing but an ambient capability is refused. |
| `Processes.IdentityExactly` | src/csrc/util.cc:659-678 | The weaker check looks at the pid, the start time and the real uid and gid only. |
| `Processes.SecurityImpliesIdentity` | src/csrc/util.cc:659-725 | A process that passes the security check passes the identity check; one that passes only the identity check has a uid or gid of the four that is not the owner's, or a capability mask that is not zero. |
| `Processes.LivenessPartition` | src/csrc/daemon.cc:706-724 | Running, unsafe, stale and exited partition all process tables by the two checks and by whether the pid is in use. |
| `Processes.AdoptManagedPid` | src/csrc/daemon.cc:726-736 | A process is adopted exactly when it is readable and passes the security check, and of the job only pid, start time and state change. |
| `Processes.DenotesForever` | src/csrc/util.cc:659-678 | A pid with a start time keeps denoting one process through spawns, exits, pid reuse and credential changes. |
| `Processes.SameIncarnation` | src/csrc/daemon.cc:979-988 | From an empty process table through any events: a job recorded from a process that later passes the check before a dump still denotes that process, which then has all four uids and gids of its owner and no capability. |
| `BrokerProcesses.RequestProcesses` | src/csrc/daemon.cc:936-1138 | A request takes the process of one job from the table, at launch or adoption, or of none; every other job keeps its pid and start time. |
| `BrokerProcesses.AdvanceRooted` | src/csrc/daemon.cc:936-1138 | Through every request and every event: whatever runs under the pid and start time of a job is the process the job was last launched as or adopted from. |
| `BrokerProcesses.ReportedWasDumped` | src/csrc/daemon.cc:973-1070 | A checkpoint request answered as successful had handed its job to the dump worker. |
| `BrokerProcesses.DumpsTheRecordedProcess` | src/csrc/daemon.cc:979-1002 | In every run from an empty store and an empty process table, the process a dump worker is started on is the one its job was last launched as or adopted from, all four of its uids and gids are the owner's, and each of its four capability masks is zero. |
| `BrokerInvariant.LatestSurvives` | src/csrc/daemon.cc:1156-1163 | No prune removes the default restore target of any job of any user. |
| `BrokerInvariant.PruneAfterKeeps` | src/csrc/daemon.cc:1020-1024 | A prune after a request keeps the broker invariant, also when it is cut short. |
| `BrokerInvariant.TouchedCounts` | src/csrc/daemon.cc:896-904 | A recorded restore sets the date and adds one to the count, a negative count counting as none. |
| `BrokerRuns.DumpKeeps` | src/csrc/daemon.cc:992-1025 | A dump that is refused, fails or succeeds after its record was saved keeps the invariant; what it leaves in the records is `BrokerAnswers.DumpRequestAnswered`. |
| `BrokerRuns.RestoreKeeps` | src/csrc/daemon.cc:1083-1135 | A restore that fails, reports a process that is refused, or succeeds keeps the invariant. |
| `BrokerRuns.StepKeeps` | src/csrc/daemon.cc:936-1138 | Every request with every outcome keeps the invariant: records in order under their own keys, default targets present and restorable, exports with a private counterpart. |
| `BrokerRuns.InvariantOverRuns` | src/csrc/daemon.cc:936-1138 | The invariant holds in every state a run of requests reaches from an empty store. |
| `BrokerRuns.DefaultRestore` | src/csrc/daemon.cc:1072-1135 | In every reachable state a restore without an id finds the default target; only the worker or the check on the reported process can refuse it. |
| `BrokerLaunch.JoinLines` | src/csrc/util.cc:556-579 | The stored command line holds a newline exactly when some argument does. |
| `BrokerLaunch.RecordedExactly` | src/csrc/daemon.cc:942-960 | A launched process gets its record, and the request its success, if and only if no argument and not the directory holds a newline. |
| `BrokerLaunch.UnrecordedLaunch` | src/csrc/daemon.cc:942-960 | `/bin/echo` with a newline as argument is started and leaves the store as it was. |
| `BrokerAnswers.UnknownRefused` | src/csrc/daemon.cc:936-1138 | A request with an unknown command, or with a field not among those listed for its command, is refused and changes nothing. |
| `BrokerAnswers.RunAnswered` | src/csrc/daemon.cc:942-960 | An accepted run adds one job and changes nothing else: owner, launched pid and start time, first argument as executable, requested directory, a command line that splits back to the non-empty arguments, state running, no default target. A refused one changes nothing. |
| `BrokerAnswers.StatusAnswered` | src/csrc/daemon.cc:963-971 | A status request is answered with the default target of the job exactly when the caller owns it; only its recorded liveness changes. |
| `BrokerAnswers.PidJobDescribed` | src/csrc/daemon.cc:528-556 | A pid gets a job record if and only if it is above 1 and names a readable, unprivileged process of the caller that can be inspected; the record describes that process. |
| `BrokerAnswers.DumpRequestAnswered` | src/csrc/daemon.cc:973-1070 | A checkpoint or checkpoint-pid request answered with an id left that checkpoint ready, exported, dated with the start of the request and the default target of its job; a failed worker left it as failed and exported; refused or failed, no default target moved. |
| `BrokerAnswers.CheckpointAcceptedExactly` | src/csrc/daemon.cc:973-1026 | A checkpoint request is accepted if and only if its fields are known, the caller owns the job, its process passes the security check on both looks, the arguments are allowed and the worker succeeds. |
| `BrokerAnswers.CheckpointPidAcceptedExactly` | src/csrc/daemon.cc:1028-1070 | A checkpoint-pid request is accepted if and only if its fields are known, the pid gets a record that can be saved, the process passes the second check, the arguments are allowed and the worker succeeds. |
| `BrokerAnswers.RestoreRequestAnswered` | src/csrc/daemon.cc:1073-1135 | A restore request that finds its job and checkpoint and passes its arguments: accepted, the checkpoint is recorded as restored, counted once more, dated, exported, and the job runs under the reported pid; with a failed worker it is recorded as restore-failed and nothing else changes; in every other case the store is as it was. No default target moves. |
| `BrokerAnswers.EveryAnswerMeans` | src/csrc/daemon.cc:936-1138 | Every request of every kind is answered as the five statements above say. |
| `BrokerAnswers.AcceptedIsKept` | src/csrc/daemon.cc:973-1135 | A checkpoint a client was told was dumped or restored is recorded and exported afterwards, for every retention setting and wherever the prune after it stopped. |
| `BrokerTargets.StepTargets` | src/csrc/daemon.cc:936-1138 | A request moves the default target of a job exactly when it is answered with a checkpoint taken of that job, and then to that one. |
| `BrokerTargets.TargetIsLastTaken` | src/csrc/daemon.cc:936-1138 | In every reachable state the default target of a job is the id of the last checkpoint of it that a client was told was taken, and empty when there was none. |
| `BrokerTargets.RestoresTheLastTaken` | src/csrc/daemon.cc:1079-1080 | In every run a restore without an id that is accepted is answered with the checkpoint last reported as taken. |
| `BrokerPrunes.AcceptedPrunes` | src/csrc/daemon.cc:1020-1134 | Every accepted dump or restore ends with a prune of a state that keeps the invariant, with the broker settings, the time the request finished, and its own checkpoint preserved. |
| `BrokerPrunes.NothingOldAfterAccepted` | src/csrc/daemon.cc:1205-1318 | After an accepted dump or restore whose prune ran to its end, every checkpoint of every user has its size as measured and is younger than the age limit unless it is guarded. |
| `BrokerPrunes.CapAfterAccepted` | src/csrc/daemon.cc:1222-1258 | And with normalised settings and a cap, every job of every user is within max(cap, 2). |
| `BrokerUsage.RestoresExactly` | src/csrc/daemon.cc:1072-1135 | A restore is answered as successful if and only if it named or defaulted to a stored checkpoint of an own job, its arguments were accepted, the worker succeeded and the reported process was adopted. |
| `BrokerUsage.OtherUsageStep` | src/csrc/daemon.cc:936-1070 | No other request, and no prune after it, changes the restore count or date of a checkpoint. |
| `BrokerUsage.GoneForever` | src/csrc/store.cc:235-259 | A removed checkpoint id never comes back. |
| `BrokerUsage.UsageIsHistory` | src/csrc/daemon.cc:896-904 | In every reachable state a checkpoint counts exactly the restores answered as successful, and its date is that of the last one, empty exactly when there was none. |
| `BrokerIsolation.PruneIsolated` | src/csrc/daemon.cc:1140-1319 | After changes to one user only, a prune removes of other users only checkpoints that were unprotected before the request, each with its export. |
| `BrokerIsolation.StepIsolated` | src/csrc/daemon.cc:936-1138 | A request leaves the jobs of every other user as they were, changes at most the size of their checkpoints, loses none that was protected, and takes an export only with its checkpoint. |
| `BrokerIsolation.UndisturbedByOthers` | src/csrc/daemon.cc:936-1138 | However many requests other users make, a user keeps exactly the same jobs, and gets no checkpoint that differs from before in more than its size. |
| `BrokerIsolation.TargetsSurviveOthers` | src/csrc/daemon.cc:936-1138 | After any number of requests of others each job still has its default target, restorable. |
| `BrokerShelter.ProtectedWhateverSize` | src/csrc/daemon.cc:1156-1186 | Which checkpoints the settings protect depends neither on sizes nor on the clock. |
| `BrokerShelter.ShelteredSurvives` | src/csrc/daemon.cc:936-1138 | What the settings protect survives any number of requests of other users, with its record but for the size, and stays protected. |
| `BrokerShelter.FloorSheltered` | src/csrc/daemon.cc:1156-1186 | In every state that keeps the invariant, each job has `min_keep_per_job` protected checkpoints, or all are protected. |
| `BrokerShelter.FloorSurvivesOthers` | src/csrc/daemon.cc:936-1138 | After any number of requests of others a job has `min_keep_per_job` checkpoints, or all it had. |
| `BrokerHandlers.UpdateJobLiveness` | src/csrc/daemon.cc:706-724 | The job is saved with its new state exactly when the state changed. |
| `BrokerHandlers.HandleRun` | src/csrc/daemon.cc:942-960 | The run request on the text store is the run step; a record that cannot be saved is answered as an error. |
| `BrokerHandlers.HandleStatus` | src/csrc/daemon.cc:963-971 | The status request on the text store is the status step. |
| `BrokerHandlers.HandleCheckpoint` | src/csrc/daemon.cc:973-1026 | The checkpoint request on the text store is the checkpoint step with each early exit, the second look at the process being the stepwise security check. |
| `BrokerHandlers.HandleCheckpointPid` | src/csrc/daemon.cc:1028-1070 | The checkpoint-pid request on the text store is its step, the second look at the process being the stepwise security check. |
| `BrokerHandlers.RunDump` | src/csrc/daemon.cc:992-1025 | From the created record on: arguments refused, target refused, worker failed, or job and checkpoint saved, exported and pruned; answered with an id, that checkpoint is ready, exported and the default target, otherwise no default target moved; a prune that throws does not fail the request. |
| `BrokerHandlers.FinishRestore` | src/csrc/daemon.cc:1112-1135 | After the worker: process adopted and saved, use recorded, export made, older checkpoints pruned, the last without failing the request; accepted, the record says restored, counted and dated, and no default target moved; refused, the store is as it was. |
| `BrokerHandlers.HandleRestore` | src/csrc/daemon.cc:1072-1135 | The restore request on the text store is the restore step, which `BrokerAnswers.RestoreRequestAnswered` reads off the records. |
| `BrokerHandlers.HandleRequest` | src/csrc/daemon.cc:936-1138 | One request on the text store gives the state and the answer of one step, keeps the invariant, and its answer means what `BrokerAnswers.EveryAnswerMeans` says, whichever of the prune writes fail. |
| `BrokerHandlers.ServeRequests` | src/csrc/daemon.cc:1321-1385 | Serving requests one after another from an empty state root leaves files and answers of the run that happened, whichever of the prune writes fail. |

## Left out

- Real system calls (`fork`, `execveat`, `mount`, `/proc` reads): they are inputs.
- Terminal and session setup and the pid-namespace restore in the worker: foreign calls with little logic.
- File modes, ownership, atomic replacement of files and the contents of exported trees: an export exists or does not.
- The command line client, socket creation, systemd activation, signals of the daemon loop, and settings other than the retention limits.
- Symbolic links inside `weakly_canonical`: paths are component sequences with `.` and `..` followed.
- Randomness of generated ids: they are assumed fresh and safe.
- Peer credentials: the peer of a request is an input; the owner check after loading a job never fires on records stored under their own keys.
- Texts of errors and the log paths and pids in responses: an answer is a job and a checkpoint, or an error.
- Executable validation and the steps of launching a job: one input says whether the launch succeeded and with which pid.
- A failure between removing a private tree and its export, and failures of saves outside a prune.
- BrokerHandlers.RunDump: the two checkpoint requests share it, although the source writes the same statements twice; the worker command it would start is modelled in `WorkerCommand`.
- Supervision.WaitForWorkerSuccess: an endless stream of interruptions is cut off by the end of the script of answers.
