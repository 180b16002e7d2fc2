# Models of the concurrency-control protocols

The repository benchmarks in-memory transaction protocols. This project models the concurrency
control of eight of them and proves what each is for. A protocol is a step relation over an
unbounded number of threads, records and transactions: one atomic load, store or
compare-and-swap, or one block under a lock, is one step, memory is sequentially consistent, and
history variables that no guard reads record commits. Theorems hold for every run, by inductive
invariants. Beside each relation a class holds the protocol's code as the repository writes it -
loops over sets and lists, retries, spins - and every call of it is proved to leave a run of the
relation, with the steps of other threads allowed between any two of its own; so the theorems
speak of that code.

| protocol | relation | invariants and theorems | code |
|---|---|---|---|
| Cicada | `Cicada` | `CicadaInvariant`, `CicadaInterference`, `CicadaCertification`, `CicadaLists`, `CicadaThreads`, `CicadaBeginning`, `CicadaSearches`, `CicadaAllocation`, `CicadaInsertion`, `CicadaValidation`, `CicadaVersions`, `CicadaOutcome`, `CicadaCollection`, `CicadaReachable`, `CicadaHistory`, `CicadaSerializability`, `CicadaTheorems`, `CicadaGuarantees`, `CicadaGrowth`, `CicadaFrames`, `CicadaAborts`, `CicadaSolo` | `CicadaExecutor`, `CicadaTimeStamp` |
| TicToc | `TicToc` | `TicTocSafety`, `TicTocWords`, `TicTocTheorems` | `TicTocExecutor` |
| Silo | `Silo` | `SiloSafety`, `SiloEpochs`, `SiloWords`, `SiloTheorems` | `SiloExecutor` |
| FIFO lock manager | `FifoLockManager` | `FifoLockSafety`, `FifoDeterminism` | `FifoExecutor` |
| acquire-all scheduler | `AcquireAll` | `AcquireAllSafety`, `AcquireAllDeterminism` | `AcquireAllExecutor` |
| strict two-phase locking | `StrictLocking` | `StrictLockingSafety` | `StrictLockingExecutor` |
| Kung-Robinson OCC | `OptimisticLog` | `OptimisticLogSafety`, `OptimisticLogGap` | `OptimisticLogExecutor` |
| MOCC locking | `MoccLocking` | `MoccSafety` | `MoccExecutor` |

Shared: `SerialExecution` (what serializable means: running one transaction at a time, and the
reads-from criterion that implies it), `Runs` (runs and invariants), `Programs` (transactions
given in advance and their serial run), `AccessSets` and `KeyLists` (write sets, lock lists, and
the loops over them).

Configuration: Cicada with SINGLE_EXEC, WRITE_LATEST_ONLY and the inline-version options off,
REUSE_VERSION on and no group commit; TicToc with PREEMPTIVE_ABORTS and
NO_WAIT_LOCKING_IN_VALIDATION on and TIMESTAMP_HISTORY off; Silo with
NO_WAIT_LOCKING_IN_VALIDATION; strict two-phase locking with DLR1; MOCC with RWLOCK.

In the classes, `Others()` stands for any number of steps of the other threads: its contract says
that the past of the run stays, and with it what no step of another thread changes - this thread's
own data, the number of records and threads, for Cicada the versions this thread has cut off and the
timestamp of the version at which it reads, for OCC the log and the numbers while this thread holds the global lock. `OthersLeave`, beside
each class and for Cicada, with `OthersLeaveCursor`, in `CicadaFrames`, proves this of every single step.
The contracts also say what a failure means: an operation that aborts, refuses or gives up names
a state of its own part of the run - `DoomedIn`, `BlamedIn`, `RefusedIn`, `HeldIn`, `BarredIn` and the
like - in which somebody else was in the way. Spins and
retries that the repository leaves unbounded take a bound `patience`; running out of it leaves a
valid run and an outcome of its own. Choices the model does not make are parameters: which wait
lists are busy, what an index before the log finds, which records the adaptive pre-check omits.

Where the code does less than one would expect:

- Kung-Robinson OCC: a thread that has not committed yet has progress 0, the same as one that
  committed transaction 0, so its first window can lose the write set numbered 0
  (occ/transaction.cc:97-138). `OptimisticLogGap` builds, for every collection threshold, a run
  whose committed transactions have no serial order; `OptimisticLogSafety` proves that no other
  case exists, states exactly when the trimmed check agrees with the full one, and proves
  serializability under that condition.
- MOCC: threshold handling makes the loop that should take the locks of the previous attempt
  again skip all of them (mocc/transaction.cc:577-598); the guarantees do not need it.
- MOCC: `CLL_.back()` is read of a list that may be empty (mocc/transaction.cc:206); the model
  takes whatever it yields.
- Cicada: a thread's timestamps are distinct only if the cycle counter moves or a boost is in
  force (`CicadaTimeStamp.IssuedDistinctIff`); the protocol's theorems take distinct timestamps
  as given.
- Cicada: the collection lock is one byte holding the thread number plus one
  (cicada/transaction.cc:637), which is 0 - unlocked - for a 256th thread; the model has at most
  255 threads.
- Acquire-all: after a refused upgrade the code goes on to try the plain write lock
  (fair_determinism/ss2pl.cc:391-440); the model does the same, and the second attempt is proved
  to be refused always (`AcquireAllDeterminism.PlainLockRefusedToo`).

## Model

| member | source | states |
|---|---|---|
| CicadaTheorems.CicadaSerializable | cicada/transaction.cc:296-415 | In every reachable state the committed read-write transactions are equivalent, from the table the run starts with, to their serial execution in timestamp order: the serial run exists, contains each once, and every read sees the last earlier writer. |
| CicadaTheorems.TableIsSerial | cicada/transaction.cc:499-525 | With nobody between its commit point and its last status store, the newest committed version of every record holds what that serial execution leaves there, whatever garbage collection has cut off. |
| CicadaTheorems.NewestExists | cicada/transaction.cc:499-525 | Every record has a newest committed version in every reachable state. |
| CicadaSerializability.CommittedReadIsLatest | cicada/transaction.cc:368-410 | A version read by a committed transaction is the version with the greatest write timestamp below the reader's among all versions of the record ever committed, those committed after the reader included. |
| CicadaSerializability.CertifiedSettles | cicada/transaction.cc:314-393 | At the end of validation, everything between a version read and the reader's timestamp is aborted, or was installed later and has not passed its own check. |
| CicadaTheorems.SnapshotsSerializable | cicada/transaction.cc:43-48 | There is one serial order of all read-write transactions, from the table the run starts with, in which every read of every read-only transaction sees the state at a cut that depends on its snapshot timestamp only. |
| CicadaSerializability.SnapshotReadsSerialState | cicada/transaction.cc:124-163 | Each value a read-only transaction read is what the serial execution of the transactions with timestamps up to its snapshot leaves. |
| CicadaSerializability.SnapshotNeverWaits | cicada/transaction.cc:43-48 | While a transaction runs, every version at or below its snapshot timestamp is committed or aborted, so that a read-only transaction never spins, and no running transaction can put another one there. |
| CicadaGuarantees.ListsAreSorted | cicada/transaction.cc:314-360 | In every reachable state the list of a record, walked from its head by next pointers, is strictly descending in write timestamp, under concurrent insertion at the head and in the middle and under cutting. |
| CicadaGuarantees.VersionsConserved | cicada/include/transaction.hh:133-157 | Every allocated version is in exactly one place - one list, one write set, one chain cut off for collection, one pool - and the place recorded is where the data structures have it, both ways. |
| CicadaGuarantees.PoolsDistinct | cicada/include/transaction.hh:298-323 | No reuse pool holds a version twice, whatever aborted half-way through installation or was collected. |
| CicadaGuarantees.SearchesStayAboveGarbage | cicada/transaction.cc:629-659 | No search of a running transaction leaves its list or passes a committed version older than MinRts. |
| CicadaGuarantees.RememberedStayListed | cicada/transaction.cc:158-160 | Versions remembered in read and write sets, and the later versions remembered with them, stay listed with the same timestamp while the transaction runs. |
| CicadaGuarantees.CollectedIsObsolete | cicada/transaction.cc:648-659 | What a collector cuts off is older than a committed version of the record that stays and is below MinRts, and the snapshot of every active transaction is at least MinRts. |
| CicadaGuarantees.QueueEntryNotDangling | cicada/transaction.cc:642-655 | A queue entry that passes the test against the record's min_wts names a committed version still in its list with the recorded timestamp. |
| CicadaFrames.OthersLeave | cicada/transaction.cc:648-659 | Whatever another thread does next, an executor's own data stay, and so does every version it has cut off and not yet recycled. |
| CicadaFrames.OthersLeaveCursor | cicada/transaction.cc:124-148 | Whatever another thread does next, the version at which a read stands keeps its timestamp. |
| CicadaAborts.AbortsOnlyWhenDoomed | cicada/transaction.cc:188-415 | In every run, whatever step makes a transaction abort finds it doomed: a version committed between one it read and itself, a newer version of a record it read before writing, or a committed version below one of its writes read strictly later - once installed, with nothing between but what is aborted or was installed after the write. |
| CicadaAborts.CheckOutcome | cicada/transaction.cc:395-410 | The check of a write fails if and only if the version about to be overtaken - committed, and everything between aborted or installed after the write - has a read timestamp strictly above the transaction's. |
| CicadaAborts.RescanOutcome | cicada/transaction.cc:368-393 | The re-scan of a read goes on if the version visible has the timestamp that was read, and else finds a version committed between the two. |
| CicadaSolo.UnopposedCommits | cicada/transaction.cc:296-415 | From every reachable state, a transaction about to install whose reads are still the newest below it, whose records read before writing have no newer version, and whose writes overtake no version read later, validates and commits without a step of any other. |
| CicadaSolo.NotDoomedCommits | cicada/transaction.cc:296-415 | What justifies an abort is all that can stand in the way: a transaction that is not doomed when it starts to install, with no older version pending on its records, commits when it runs alone. |
| CicadaGrowth.TimestampsMoveForward | cicada/util.cc:285-309 | Along every run no published timestamp, neither the threads' nor the leader's minima, goes back. |
| CicadaGrowth.ListedVersionsRemain | cicada/transaction.cc:314-360 | Between any two states of a run, a version listed in the later one was listed in the earlier with the same timestamp, committed and aborted ones staying so, or has been installed in between. |
| CicadaGrowth.OnlyCommittedAreRead | cicada/include/transaction.hh:252-264 | In every reachable state, outside the pools, a version that has a read timestamp is committed: pending and aborted ones have none. |
| CicadaGuarantees.LeaderStepRaisesMinRts | cicada/util.cc:285-309 | In every reachable state and whatever the interleaving of its scan, no step of the leader lowers MinWts or MinRts. |
| CicadaGuarantees.WaitsForEarlier | cicada/transaction.cc:135-148 | In every reachable state an executor spins only on a pending version whose owner, another executor, has a strictly smaller timestamp. |
| CicadaGuarantees.NoWaitCycle | cicada/transaction.cc:375-404 | No chain of waits, of whatever length, closes. |
| CicadaTimeStamp.IssuedDistinctIff | cicada/include/time_stamp.hh:30-40 | The timestamps a thread issues, over any sequence of counter readings and boosts, are pairwise distinct if and only if every call but the first finds the counter past the local clock or a boost in force. |
| CicadaTimeStamp.ThreadsDiffer | cicada/include/time_stamp.hh:24-40 | Timestamps of different threads never coincide, whatever their clocks read. |
| CicadaTimeStamp.SameTickTwice | cicada/include/time_stamp.hh:30-40 | A counter that does not move, with no boost, makes one thread issue one timestamp twice. |
| CicadaTimeStamp.TimeStamp.GenerateTimeStamp | cicada/include/time_stamp.hh:30-40 | Never goes back, carries the thread number, and moves on if and only if the counter has passed the local clock or there is a boost. |
| CicadaTimeStamp.TimeStamp.constructor | cicada/include/time_stamp.hh:24-28 | The first timestamp is the counter reading with the thread number in the low byte. |
| CicadaExecutor.TxExecutor.TBegin | cicada/transaction.cc:39-48 | Issues and publishes both timestamps in single loads and stores; on return MinRts <= snapshot < MinWts <= write timestamp, the snapshot is at least the MinWts of the call less one, and the sets are empty. |
| CicadaExecutor.TxExecutor.TRead | cicada/transaction.cc:88-163 | A record not yet accessed adds one read-set element naming a committed version, its timestamp and its payload, and between it and the transaction's timestamp every version is aborted or was installed after the call began; for a read-only transaction the sets stay and the value recorded is that of the newest version committed at or below the snapshot. It gives up only before a pending version or after `patience` steps. |
| CicadaExecutor.TxExecutor.TWrite | cicada/transaction.cc:188-285 | Adds one element for the key and the value unless the record is in the write set already. It aborts early only if, in some state of the call, a record read before has got a newer version than the transaction, or a version older than it has been read strictly later. |
| CicadaExecutor.TxExecutor.AllocateVersion | cicada/include/transaction.hh:177-204 | Takes the last version of the reuse pool, or allocates one when the pool is empty, stamps it with the transaction's timestamp and gives it to the write set only; no other version changes. |
| CicadaExecutor.PartialSortWrites | cicada/include/transaction.hh:213-215 | A permutation of the write set whose first half is in key order and before the rest. |
| CicadaExecutor.TxExecutor.InstallWrites | cicada/transaction.cc:314-362 | On success every element's version is in its record's list with the transaction's timestamp; it aborts only if a record read before and written has got a newer version than the transaction. |
| CicadaExecutor.TxExecutor.RaiseReads | cicada/include/transaction.hh:252-264 | Afterwards every version read has a read timestamp not below the transaction's; nothing else of the executor changes. |
| CicadaExecutor.TxExecutor.RaiseItem | cicada/include/transaction.hh:252-264 | The read timestamp becomes the larger of what it was and the transaction's; no other field and no other version changes. |
| CicadaExecutor.TxExecutor.Validate | cicada/transaction.cc:296-415 | When validation succeeds, every version read is settled as the newest below the transaction's timestamp, for good. It fails only if, in some state of the call, the newest version of a record read before and written is newer than the transaction, or a version has been committed between one read and the transaction, or the committed version below a write, with nothing between but what is aborted or was installed later, has been read strictly later; it gives up only before a pending version or after `patience` steps. |
| CicadaExecutor.TxExecutor.CommitVersions | cicada/transaction.cc:499-525 | Contains the commit point as its first step; at the end no version of the executor is pending in a list or left in its write set. |
| CicadaExecutor.TxExecutor.CommitOneVersion | cicada/transaction.cc:499-525 | The version, in its record's list with the transaction's timestamp, is committed with the value of its write element, and a queue entry for it is appended. |
| CicadaExecutor.TxExecutor.CleanWrites | cicada/include/transaction.hh:298-323 | However far installation had come, afterwards no version of the executor is pending in a list or left in its write set. |
| CicadaExecutor.TxExecutor.Terminate | cicada/transaction.cc:296-415 | Commits or cleans up; a success contains the commit point, a failure contains a state in which the transaction was doomed, nothing of the executor stays pending, and everything committed so far is serializable in timestamp order. |
| CicadaExecutor.TxExecutor.Maintain | cicada/transaction.cc:625-664 | Works off the garbage queue from its old end until the oldest entry is not below MinRts, and ends idle. |
| CicadaExecutor.TxExecutor.LockFirst | cicada/include/tuple.hh:27-39 | Takes the record's collection lock, keeping the queue, or drops exactly the entry, and that only when another thread, which is collecting the record, has the lock. |
| CicadaExecutor.TxExecutor.CollectFirst | cicada/transaction.cc:625-664 | The first entry leaves the queue, and, unless another thread was collecting the record, nothing older than the entry is left in the record's list. |
| CicadaExecutor.TxExecutor.DetachTail | cicada/transaction.cc:648-657 | Cuts the list behind the entry's version and raises the record's min_wts to that version's timestamp, in three separate steps. |
| CicadaExecutor.TxExecutor.Recycle | cicada/include/transaction.hh:133-157 | Moves the whole chain cut off to the pool, so that nothing detached is left, then frees the collection lock; the list holds nothing older than the entry. |
| CicadaExecutor.TxExecutor.LeaderWork | cicada/util.cc:276-309 | However the other threads run during the scan, afterwards MinRts and MinWts bound the timestamps of every active transaction, and neither is smaller than the smallest one published when the call began. |
| TicTocTheorems.TicTocSerializable | tictoc/transaction.cc:186-309 | In every reachable state the committed transactions are equivalent, from the table the run starts with, to their serial execution by commit timestamp, ties by the order of the commit points. |
| TicTocTheorems.TableIsSerial | tictoc/transaction.cc:333-357 | With nobody in the write phase, every record holds what that serial execution leaves there. |
| TicTocWords.WordsMoveOn | tictoc/transaction.cc:186-349 | At every step of every run and for every record: nobody changes a record locked by somebody else, wts and rts never decrease, and only the owner installs a version, at a timestamp above every rts the old one ever had. |
| TicTocSafety.ExtendArithmetic | tictoc/transaction.cc:284-290 | After the shift the interval ends exactly at the commit timestamp, delta fits its 15 bits for any gap, wts moves neither back nor past it, and it moves if and only if the gap does not fit. |
| TicTocSafety.UnlockRestoresWord | tictoc/transaction.cc:461-481 | The plain load and store of an unlock puts back exactly the word that was locked: no extension is lost. |
| TicTocTheorems.LockOutcome | tictoc/transaction.cc:359-459 | The lock of a record is had if and only if nobody else has it. |
| TicTocTheorems.ValidationOutcome | tictoc/transaction.cc:221-305 | The validation of a read fails if and only if the interval read ends before the commit timestamp, and either the record has another version now or somebody else has it locked and its interval still ends too early. |
| TicTocTheorems.ExtendedOnlyAsNeeded | tictoc/transaction.cc:267-299 | Validation changes no record but the one read, that one only when neither what was read nor what is there now reaches the commit timestamp, and then its interval ends exactly there. |
| TicTocTheorems.PreemptiveAbortJustified | tictoc/transaction.cc:84-118 | A spinning read gives its transaction up only when somebody else has the record locked and its interval ends before what the transaction needs already. |
| TicTocExecutor.TxExecutor.Begin | tictoc/transaction.cc:47-51 | Starts with empty sets and both timestamps 0. |
| TicTocExecutor.TxExecutor.Read | tictoc/transaction.cc:70-134 | Adds one read-set element for a record not accessed yet: the payload and the word that stand together, unlocked, in the table, and the number of the last committed version. It dooms the transaction only on a locked record whose interval ends before the timestamp the transaction must at least have, and gives up only before a locked record or after `patience` turns. |
| TicTocExecutor.TxExecutor.Write | tictoc/transaction.cc:144-179 | Adds exactly the given key and value unless the record is written already, and leaves the read set alone. |
| TicTocExecutor.TxExecutor.LockWriteSet | tictoc/transaction.cc:359-459 | On success the write set is sorted and the transaction owns every record in it; else it owns nothing, is idle, and in some state of the call somebody else had locked a record of the write set. |
| TicTocExecutor.TxExecutor.CommitTimestamp | tictoc/transaction.cc:207-216 | At least the timestamp from locking and every write timestamp read, and equal to one of them. |
| TicTocExecutor.TxExecutor.ValidationPhase | tictoc/transaction.cc:186-309 | On success every read is certified for the commit timestamp, which is one the transaction needs; on failure it owns no lock, and in some state of the call a record read had been overwritten, or was locked by somebody else with an interval too short, or a record of the write set was locked by somebody else. |
| TicTocExecutor.TxExecutor.UnlockWriteSet | tictoc/transaction.cc:461-481 | Afterwards the transaction owns no record. |
| TicTocExecutor.TxExecutor.WritePhase | tictoc/transaction.cc:333-357 | Contains the commit point; at the end no record is owned by the transaction. |
| TicTocExecutor.TxExecutor.Commit | tictoc/transaction.cc:186-357 | A success contains the commit point, a failure a state in which another transaction was in the way, in both cases no lock stays, and the committed transactions are serializable. |
| SiloTheorems.SiloSerializable | silo/transaction.cc:206-262 | In every reachable state the committed transactions are equivalent, from the table the run starts with, to their serial execution in the order in which they loaded the global epoch between locking and validating. |
| SiloTheorems.TableIsSerial | silo/transaction.cc:329-370 | With nobody in the write phase, every record holds what that serial execution leaves there. |
| SiloWords.TidsIncrease | silo/transaction.cc:329-370 | At every step of every run and for every record: nobody changes a record locked by somebody else, and the TID changes exactly when its owner installs a version, strictly upwards. |
| SiloSafety.EdgesForward | silo/transaction.cc:206-262 | Write-read, write-write and anti-dependency edges all point forward in that order. |
| SiloEpochs.EdgesRespectEpochs | silo/transaction.cc:219-221 | Along all three kinds of edges the epoch committed in never decreases. |
| SiloEpochs.InstalledEpoch | silo/transaction.cc:335-354 | The epoch of every installed TID is the one its writer loaded, never raised by a TID it read, wrote or chose before. |
| SiloEpochs.EpochBound | silo/util.cc:58-67 | Every worker but 0 is in the global epoch or the one before, although publishing takes two steps and the scan many; worker 0, which the scan skips, always commits in the current epoch. |
| SiloSafety.UnlockRestoresWord | silo/transaction.cc:183-204 | The plain load and store of an unlock puts back exactly the word that was locked. |
| SiloTheorems.LockOutcome | silo/transaction.cc:60-88 | The lock of a record is had if and only if nobody else has it. |
| SiloTheorems.ValidationOutcome | silo/transaction.cc:233-256 | The validation of a read fails if and only if the record has another TID now or is locked by somebody else. |
| SiloTheorems.CommitTidIsLeast | silo/transaction.cc:329-354 | The TID committed with is the least in the epoch published that is above all seen and the last one chosen. |
| SiloExecutor.TxExecutor.Begin | silo/transaction.cc:42-46 | Starts with empty sets and no TID seen. |
| SiloExecutor.TxExecutor.Read | silo/transaction.cc:90-148 | Adds one read-set element for a record not accessed yet: the payload and the TID that stand together, unlocked, in the table, and the number of the last committed version; it gives up only before a locked record or after `patience` turns. |
| SiloExecutor.TxExecutor.Write | silo/transaction.cc:293-319 | Adds exactly the given key and value unless the record is written already, and leaves the read set alone. |
| SiloExecutor.TxExecutor.LockWriteSet | silo/transaction.cc:60-88 | On success the write set is sorted and the transaction owns every record in it; else it owns nothing, is idle, and in some state of the call somebody else had locked a record of the write set. |
| SiloExecutor.TxExecutor.PublishEpoch | silo/transaction.cc:219-221 | Loads the global epoch and publishes it in two separate steps; what is published is what was loaded, and the sets stay. |
| SiloExecutor.TxExecutor.ValidationPhase | silo/transaction.cc:206-262 | On success every read still stands at the transaction's position; on failure it owns no lock, and in some state of the call a record read had another TID or was locked by somebody else, or a record of the write set was locked by somebody else. |
| SiloExecutor.TxExecutor.Decide | silo/transaction.cc:329-354 | Commits with a TID in the epoch published, above all seen and the last one chosen, and the least such. |
| SiloExecutor.TxExecutor.WritePhase | silo/transaction.cc:329-370 | Contains the commit point; at the end no record is owned by the transaction. |
| SiloExecutor.TxExecutor.CommitOrAbort | silo/transaction.cc:206-370 | A success contains the commit point, a failure a state in which another transaction was in the way, in both cases no lock stays, and the committed transactions are serializable. |
| SiloExecutor.TxExecutor.CheckEpochLoaded | silo/util.cc:58-67 | Success means that every worker but 0 is in the current epoch, although the workers were looked at one after the other; failure, that in some state of the call one was not. |
| SiloExecutor.TxExecutor.LeaderWork | silo/util.cc:139-147 | When the epoch advances, it does so by one and every other worker has published the epoch before; it advances unless, in some state of the call, a worker was behind. |
| FifoDeterminism.ReadsAreSerial | fair_lock_manager/ss2pl.cc:281-415 | In every interleaving, a transaction that has run has read exactly what it reads in the serial execution in transaction-number order. |
| FifoDeterminism.FinalTableIsSerial | fair_lock_manager/ss2pl.cc:476-535 | When all transactions drawn are done, the table is the one that serial execution leaves. |
| FifoDeterminism.ConflictsInOrder | fair_lock_manager/ss2pl.cc:345-415 | While a transaction runs, every smaller-numbered one it conflicts with has run and let the record go. |
| FifoDeterminism.WaitListsAscend | fair_lock_manager/ss2pl.cc:281-343 | In every reachable state every wait list is strictly ascending in transaction numbers, and whoever holds the record has a smaller number than everybody waiting. |
| FifoDeterminism.OldestIsFirst | fair_lock_manager/ss2pl.cc:345-415 | In every reachable state the smallest drawn and unfinished transaction is at the head of every wait list it is on and finds the record's lock free in the mode it asks for. |
| FifoDeterminism.RunsDoWork | fair_lock_manager/ss2pl.cc:345-415 | Along every run, no step of a transaction increases what it has left to do or touches another's, and all but passes over blocked requests decrease it. |
| FifoDeterminism.OldestCompletes | fair_lock_manager/ss2pl.cc:345-415 | From every reachable state the smallest drawn and unfinished transaction alone, without a step of any other, can run until it is done. |
| FifoDeterminism.NeverStuck | fair_lock_manager/ss2pl.cc:345-415 | As long as a drawn transaction is unfinished, the smallest one has a step, and one that brings it nearer to its end. |
| FifoDeterminism.HeadLoadSafe | fair_lock_manager/ss2pl.cc:356-356 | The unguarded load of the head of the wait list never meets an empty list. |
| FifoDeterminism.HeadPassedOver | fair_lock_manager/ss2pl.cc:352-362 | A look at a wait list passes the request over if and only if somebody with a smaller number heads the list. |
| FifoDeterminism.RequestRefused | fair_lock_manager/ss2pl.cc:364-411 | With the wait list locked, a request is refused if and only if somebody with a smaller number waits for the record, writes it, or, for a write, reads it. |
| FifoExecutor.DupCheck | fair_lock_manager/ss2pl.cc:258-278 | How the tasks before a position first use a key: not at all if and only if none of them touches it. |
| FifoExecutor.UpgradeRequest | fair_lock_manager/ss2pl.cc:314-324 | Exactly the first request for the key becomes exclusive. |
| FifoExecutor.Worker.LockmanagerRegist | fair_lock_manager/ss2pl.cc:281-343 | One request per record touched, exclusive if and only if some task writes it; the transaction is on the wait list of a record if and only if it touches it; the giant lock is free again. |
| FifoExecutor.Worker.TryRequest | fair_lock_manager/ss2pl.cc:352-414 | A request is granted and removed, or left for the next pass; it is left, if the wait list could be had, only when somebody with a smaller number waits for the record, writes it, or, for a write, reads it. |
| FifoExecutor.Worker.CheckWaitlist | fair_lock_manager/ss2pl.cc:345-415 | At the end every record touched is held in the mode needed, and nothing is outstanding; if no wait list was taken and requests stay outstanding, somebody was ahead of one. |
| FifoExecutor.Worker.ExecuteAll | fair_lock_manager/ss2pl.cc:509-534 | The values read are those of the serial execution. |
| FifoExecutor.Worker.Commit | fair_lock_manager/ss2pl.cc:223-239 | No lock is left with the transaction. |
| FifoExecutor.Worker.Work | fair_lock_manager/ss2pl.cc:473-535 | A transaction done has read what it reads in the serial execution. |
| AcquireAllDeterminism.AcquiredAll | fair_determinism/ss2pl.cc:330-459 | When the acquisition loop ends, the read and write lock lists are duplicate-free and disjoint and cover exactly the accesses, each in the mode needed. |
| AcquireAllDeterminism.UndoneLeavesOthers | fair_determinism/ss2pl.cc:233-248 | After an attempt has been undone, every counter is what the other transactions hold. |
| AcquireAllDeterminism.ReadsAreSerial | fair_determinism/ss2pl.cc:312-493 | Every transaction that has run has read what it reads in the serial execution in tx_pos order. |
| AcquireAllDeterminism.FinalTableIsSerial | fair_determinism/ss2pl.cc:312-493 | With no transaction under way, the table is the one that serial execution leaves. |
| AcquireAllDeterminism.RefusedByRunning | fair_determinism/ss2pl.cc:330-453 | Every refusal in the acquisition loop - of a read lock, of a write lock, of an upgrade - is due to another transaction that holds the record in the way and has all its locks. |
| AcquireAllDeterminism.PlainLockRefusedToo | fair_determinism/ss2pl.cc:391-440 | The plain write lock tried after a refused upgrade is always refused: the transaction's own read lock is in its way. |
| AcquireAllDeterminism.RunningCompletes | fair_determinism/ss2pl.cc:456-493 | From every reachable state a transaction that has all its locks can run alone until it is done: whatever refuses a lock goes away, so waiting never closes a circle. |
| AcquireAllDeterminism.AcquisitionCompletes | fair_determinism/ss2pl.cc:312-459 | From every reachable state in which nobody runs, the holder of the giant lock can get all its locks alone, also out of the middle of an attempt that failed. |
| AcquireAllExecutor.Worker.Abort | fair_determinism/ss2pl.cc:233-248 | All locks of the attempt are given back, and each counter is what the others hold. |
| AcquireAllExecutor.Worker.AcquireLocks | fair_determinism/ss2pl.cc:312-459 | At the end the lists are duplicate-free, disjoint and cover the accesses exactly; an attempt fails only when a transaction that has all its locks holds one of the records in the way. |
| AcquireAllExecutor.Worker.ExecuteAll | fair_determinism/ss2pl.cc:461-488 | The values read are those of the serial execution. |
| AcquireAllExecutor.Worker.Commit | fair_determinism/ss2pl.cc:216-232 | No lock is left with the transaction. |
| AcquireAllExecutor.Worker.Work | fair_determinism/ss2pl.cc:312-493 | A transaction done has read what it reads in the serial execution. |
| StrictLockingSafety.SerializableInCommitOrder | ss2pl/transaction.cc:62-115 | The committed transactions, in the order in which they enter commit, are a serial execution. |
| StrictLockingSafety.CountersCount | include/rwlock.hh:41-128 | A counter is -1 if and only if a transaction holds the lock for writing, at most one does, and otherwise it is the number of transactions that list it for reading - through upgrade, abort and commit. |
| StrictLockingSafety.TableIsCommitted | ss2pl/transaction.cc:62-115 | With nobody storing, the table is what the committed transactions leave: aborted ones have left no trace. |
| StrictLockingSafety.OnlyCommitChangesTable | ss2pl/transaction.cc:95-103 | No step changes a payload but a store of a committed transaction. |
| StrictLockingSafety.ReadRefusedByWriter | include/rwlock.hh:41-60 | A read lock is refused only while another transaction holds the record for writing, and then the transaction just aborts. |
| StrictLockingSafety.WriteRefusedByHolder | include/rwlock.hh:68-128 | A write lock or an upgrade is refused only while another transaction holds the record, for reading or for writing. |
| StrictLockingExecutor.EraseRead | ss2pl/transaction.cc:199-227 | The set without its first element for the key, in the same order. |
| KeyLists.EraseLock | ss2pl/transaction.cc:215-225 | The lock list without the first occurrence of the key, in the same order. |
| StrictLockingExecutor.TxExecutor.RTryLock | include/rwlock.hh:41-60 | A lock taken is listed, and nothing else of the transaction changes; a lock is refused, and the transaction aborts, only while another transaction holds it for writing. |
| StrictLockingExecutor.TxExecutor.Read | ss2pl/transaction.cc:128-182 | The value read is the one in the table while the read lock is held; an abort means that another transaction holds the record for writing. |
| StrictLockingExecutor.TxExecutor.TryUpgrade | ss2pl/transaction.cc:201-246 | A read lock held alone becomes a write lock, and the key moves from the read to the write side of the books; it is refused only while another transaction holds the record. |
| StrictLockingExecutor.TxExecutor.Write | ss2pl/transaction.cc:189-272 | On success the key is write-locked and exactly the given write is in the set; an abort means that another transaction holds the record. |
| StrictLockingExecutor.TxExecutor.ReadWrite | ss2pl/transaction.cc:277-360 | As write(); a record met for the first time is also read, and the value read is the one in the table while the write lock is held; an abort means that another transaction holds the record. |
| StrictLockingExecutor.TxExecutor.UnlockList | ss2pl/transaction.cc:366-379 | Afterwards the transaction holds no lock at all. |
| StrictLockingExecutor.TxExecutor.Abort | ss2pl/transaction.cc:62-89 | No lock stays, and the committed transactions are still a serial execution. |
| StrictLockingExecutor.TxExecutor.Commit | ss2pl/transaction.cc:95-115 | Exactly this transaction's reads and writes are appended to the serial order, and no lock stays. |
| OptimisticLogSafety.LogIsSuffix | occ/transaction.cc:114-138 | The kept write sets are those of the committed transactions numbered from deletedTxId + 1 on, each in its place. |
| OptimisticLogSafety.OnlyFirstTransactionsMiss | occ/transaction.cc:97-111 | A window that begins below the log belongs to a thread's first transaction, begun before any commit, with the write set numbered 0 just dropped. |
| OptimisticLogSafety.ReachingCheckIsExact | occ/transaction.cc:97-111 | In every reachable state, for a window that reaches back far enough the check against the trimmed log passes if and only if no transaction numbered from its start on wrote what it read. |
| OptimisticLogSafety.TrimmedCheckExactIff | occ/transaction.cc:97-111 | In every reachable state, the check of a validating transaction against the trimmed log agrees with the check against the full one if and only if its window reaches, or transaction 0 - the only one missing - wrote nothing it read, or a write set still kept meets its reads. |
| OptimisticLogSafety.SerializableInNumberOrder | occ/occ.cc:123-138 | As long as every transaction that passes meets that condition, the committed transactions are a serial execution in number order from the initial table. |
| OptimisticLogSafety.TableIsReplay | occ/transaction.cc:114-125 | With nobody in the write phase, the table is what the committed transactions leave when replayed in number order. |
| OptimisticLogGap.TrimmingCanMissAConflict | occ/transaction.cc:127-138 | Otherwise not: for every threshold, a run of two threads whose committed transactions are equivalent to no serial execution in any order. |
| OptimisticLogSafety.CollectInRange | occ/transaction.cc:127-138 | What gc() drops is there to be dropped and is behind every thread's progress. |
| OptimisticLogExecutor.MinElement | occ/transaction.cc:129-129 | A least entry of the progress array. |
| OptimisticLogExecutor.Meets | occ/transaction.cc:101-108 | Whether some read meets some write. |
| OptimisticLogExecutor.ScanLog | occ/transaction.cc:97-111 | For a window inside the log, passes if and only if no write set in it meets the read set; whatever a negative index finds, a pass still vouches for all that is kept. |
| OptimisticLogExecutor.TxnExecutor.Begin | occ/transaction.cc:55-57 | The start number is the current transaction number. |
| OptimisticLogExecutor.TxnExecutor.Read | occ/transaction.cc:61-73 | Adds exactly the current value unless the record has been accessed. |
| OptimisticLogExecutor.TxnExecutor.Write | occ/transaction.cc:76-94 | Adds exactly the given write unless the record is written already. |
| OptimisticLogExecutor.TxnExecutor.ValidationPhase | occ/transaction.cc:97-111 | Changes nothing, and for a window inside the log passes if and only if no transaction numbered from the start on wrote what was read. |
| OptimisticLogExecutor.TxnExecutor.WritePhase | occ/transaction.cc:114-125 | Contains the point where the transaction takes its number. |
| OptimisticLogExecutor.TxnExecutor.PublishWrites | occ/transaction.cc:118-123 | The transaction number moves on by one and the thread's progress is the number taken. |
| OptimisticLogExecutor.TxnExecutor.Gc | occ/transaction.cc:127-138 | The log loses only write sets that every thread's progress has passed, from its old end, and when it is longer than the threshold it loses all of them. |
| OptimisticLogExecutor.TxnExecutor.Finish | occ/occ.cc:123-138 | For a window inside the log, commits if and only if no transaction numbered from the start on wrote what was read. |
| MoccSafety.NoWaitCycle | mocc/transaction.cc:444-617 | No chain of blocking waits - in lock() or in read() - closes, unless an executor on it spins in read() having taken a lock out of order. |
| MoccSafety.BlockedBySomebody | mocc/transaction.cc:600-607 | Whoever is blocked is blocked by another executor that holds the lock: a wait nobody is responsible for does not happen. |
| MoccSafety.BlockedAboveHeld | mocc/transaction.cc:194-213 | In every reachable state, whoever waits in lock(), and whoever spins in read() without locks taken out of order, waits for a key above every key it holds. |
| MoccSafety.WriteSetLocked | mocc/transaction.cc:706-715 | Despite the locks given up and taken again, at the end of commit phase 1 every key of the write set is held for writing. |
| MoccSafety.NothingIsRelocked | mocc/transaction.cc:577-598 | The loop over the retrospective lock list never takes a lock. |
| MoccSafety.CrowdedOnlyBeyondMany | mocc/transaction.cc:489-517 | A transaction that holds at most 100 locks never takes one out of order. |
| MoccSafety.LockWaitsAboveHeld | mocc/transaction.cc:600-607 | Even so, lock() itself waits only for a key above every key held. |
| MoccExecutor.SortHeld | mocc/transaction.cc:458-458 | The same locks in ascending key order. |
| MoccExecutor.ScanHeld | mocc/transaction.cc:459-482 | Whether the lock is held well enough, else the first position at or above the key. |
| MoccExecutor.TxExecutor.Lock | mocc/transaction.cc:444-607 | On success the key is held in at least the mode wanted; locks below the key are kept in any case. It fails only with more than 100 locks held, and fails or stays waiting only when, in some state of the call, somebody else held the lock in the way. |
| MoccExecutor.TxExecutor.GiveUpAbove | mocc/transaction.cc:551-575 | Afterwards exactly the locks below the wanted key are held, in order, and the write set and its progress are as before. |
| MoccExecutor.TxExecutor.WalkRetrospective | mocc/transaction.cc:577-598 | Ends ready to wait for the wanted lock, with the lock list unchanged. |
| MoccExecutor.TxExecutor.WaitForReader | mocc/transaction.cc:194-213 | Aborts if and only if the record is below the last lock, else spins until no writer holds the record, with only smaller keys held; the locks held stay. |
| MoccExecutor.TxExecutor.LockWriteSet | mocc/transaction.cc:706-715 | On success every key of the write set is locked for writing by this thread; it aborts only with more than 100 locks held and somebody else holding a record of the write set. |
| MoccExecutor.TxExecutor.UnlockAll | mocc/transaction.cc:788-807 | Nothing is left locked. |
| SerialExecution.SerializableByReadsFrom | cicada/transaction.cc:296-415 | The meaning of serializable used by the timestamp protocols: if every read sees the last writer before it in the stamp order, the serial run in that order exists and reproduces every read. |

## Left out

- CicadaExecutor.TxExecutor.TBegin: takes the new timestamp as a parameter that exceeds the thread's last one; when the clock provides that is `CicadaTimeStamp.IssuedDistinctIff`.
- CicadaTheorems.CicadaSerializable: assumes that every thread's first timestamp is at least the initial version's plus 2, which the clock provides at start-up.
- CicadaExecutor.TxExecutor.PrecheckHalf: which records are omitted by the continuing_commit_ counters is a parameter.
- CicadaExecutor.TxExecutor.LeaderWork: the flags that decide when the leader and the collectors run are not modelled; both may run at any time their owner is between transactions.
- CicadaExecutor.TxExecutor.SettleVersions: a version's payload copy and its status store are one step, and so are the two loads of the early-abort test in twrite().
- TicTocExecutor.TxExecutor.Read: a payload copy is one step; torn copies are not modelled, here and in the other protocols.
- TicTocExecutor.TxExecutor.LockWriteSet: transactions marked `wonly_`, which wait for a locked record instead of aborting; the flag is declared false (tictoc/include/transaction.hh:34) and never set.
- FifoDeterminism.HeadLoadSafe: covers only that the list is not empty; that the unguarded load of the head may run while an append moves the list's storage is not modelled.
- FifoExecutor.Worker.ExecuteAll: the stored value, a constant in the repository, is given by the transaction, so that the theorems say something about values.
- MoccExecutor.TxExecutor.LockWriteSet: commit phases 2 and 3 of MOCC, which repeat Silo's with temperatures, are not modelled; nor is the building of the retrospective list, which is any ascending list of existing keys.
- MoccExecutor.TxExecutor.Lock: an upgrade succeeds whenever the transaction is the only reader; the weak compare-exchange of the repository may also fail without cause.
- StrictLockingExecutor.TxExecutor.Write: the value of a second write to a record is dropped, as in the repository, where every write of a thread stores the same bytes; likewise in the other protocols.
- Weak memory: sequential consistency is assumed throughout.
- Fixed widths of timestamps, TIDs, epochs and counters are not modelled, except TicToc's 15-bit delta, MOCC's 32-bit threshold and Cicada's thread byte.
- TicToc's TIMESTAMP_HISTORY: its check compares neither with the timestamp read nor with the word at lock time.
- The waiting variants: NO_WAIT_OF_TICTOC, strict two-phase locking with DLR0.
- Cicada's inline versions, promotion, group commit and logging; Silo's logging.
- When all prepared transactions are drawn, a worker of the deterministic schedulers returns with the giant lock held; the model ends there. A quit flag, thread start-up and back-off are not modelled.
- The index is a fixed map from key to record: Masstree, inserts, deletes and scans are not part of this model.
- si/ and ermia/ (a begin timestamp can pass a committer still stamping its versions), the queue lock of mocc/lock.cc, fair_ss2pl/ (writes are in place and not undone), tpcc_silo/, single_lock_manager/ and the other copies of the lock-based protocols.
- Workload generation, statistics, memory allocation, file I/O and flags.
