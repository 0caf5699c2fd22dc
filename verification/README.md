# Protocols and data structures of the apue.3e programs, verified

This project models the state-changing cores of the programs under `more01/apue.3e` and proves what they are for.
Check it with `dafny verify dfyconfig.toml`.

**The database library** (`db/db.c`) is a persistent hash table in two flat files, shared by any number of processes.

- `DbFormat` has the byte formats: pointer fields, index records, and the reader with all its aborts. `CText` is the
  part of the C text functions it needs.
- `DbFiles` and `DbEffects` have the two files as linked records: 137 hash chains and a free list that partition all
  records, and what each of the writes does to that. A ghost shape says which list each record is on, because the
  offsets along a chain are in no order.
- `DbSpec` is the plain map the database is compared with, and what comes of it, told of calls and answers alone.
- `DbBytes` ties those records to the bytes of the files. `DbSeparators` is what a separator in a key does.
- `DbLibrary.Db` is the library as one process runs it: a class with the fields of the handle and the two files, one
  method for each C function, proved against a plain map from keys to data. `DbHistory` runs any sequence of calls.
- `DbProcesses` is the library as many processes run it: a state machine whose steps are the single lock, read and
  write calls. `DbInvariant` says what holds between any two steps, the `Db...Steps` modules show that each kind of step
  keeps it, and `DbInterleaving` draws the conclusions. `DbMoves` and `DbCalls` follow the calls of a run,
  `DbRunBytes` the bytes of the files, `DbScans` what a scan passes over and answers, and `DbReuse` when a store writes
  over old data, takes a free record or lets the files grow. While a deletion is under way the record is on its chain
  and on the free list at the same time; `DbInterleaving.Logical` is the state as if the last write of the deletion had
  been made, and every step of the files is shown to be a step of that state.

**The semaphores** (`lib/semaph.c`, `Semaphore`): a kernel set of three members with undo adjustments, and any
interleaving of creates, closes, operations and deaths of processes.

**The reference-counted table** (`threads/mutex3.c`, `threads/mutex2.c`): `FooSingleLock.Foos` is the version with one
lock as a class over the hash chains; `FooTwoLocks` is the version with two levels of locks as a state machine, and
`FooTwoLocksProof` and `FooTwoLocksCalls` show that each of its runs is one the other version allows.

**The rot13 programs** (`advio/rot13a.c`, `advio/rot13c2.c`): `Rot13` is the synchronous loop, `Rot13Async.Pipeline` the
eight buffers; the order of completions is a function the caller gives.

**Smaller cores**: the print queue (`PrintQueue`), the merge of sorted segments (`Merge`), the tree walk over one
growing buffer (`TreeWalk`), the memory stream (`MemStream`), the poll loop with its two arrays (`PollLoop`), and the
protocol for messages, error codes and descriptors (`FdProtocol`).

What the code does that its own comments do not say:

- A key with `:` in it is stored without complaint, and every later read of its record aborts
  (`DbFormat.RecRoundTrip`, an if and only if). From then on every call aborts whose key has the same hash value, and
  no other does for that reason (`DbLibrary.Db.FindAndLock`); so does every scan (`DbLibrary.Db.Scan`). It cannot be
  undone: a deletion of that key aborts as well (`DbHistory.StuckForGood`).
- `_db_findfree` takes only records of exactly the two lengths; the comment at `db.c:677` speaks of "big enough".
- A scan does not return a key that consists of blanks only, though `db_fetch` finds it (`DbLibrary.Db.Scan`).
- The undo at exit does not always restore `[0]`: a signal can outlive its process, when another one has already
  consumed it (`Semaphore.DeathConservesIff` says exactly when, `Semaphore.SignalCanOutliveItsProcess` is such a run).
- Of the processes racing with a removal, the one that has not yet asked for the lock starts again, as the comment at
  `semaph.c:115` promises; the one that is already waiting fails (`Semaphore.OnlyWaitersFail` says exactly when,
  `Semaphore.WaiterFails` is such a run).
- `ftw8.c` reports a directory that cannot be read twice, the second time with a slash behind its path
  (`TreeWalk.ReportedTwice`), and reports everything once exactly when there is none (`TreeWalk.OnceEachIff`).
- `loop.poll.c` looks for the user id of a request in `client[]` at the index of the poll array. Once a client other
  than the last one polled has hung up that can be another client's entry (`PollLoop.PackAligned`,
  `PollLoop.WrongUser`).

## Model

| member | source | states |
|---|---|---|
| `DbFormat.Hash` | more01/apue.3e/db/db.c:306-316 | the hash value is always an index of the table |
| `DbFormat.HashIsWeighted` | more01/apue.3e/db/db.c:306-316 | it is the sum of the signed characters, each times its place in the key, in a word of 64 bits, modulo the size of the table |
| `DbFormat.BodyRoundTrip` | more01/apue.3e/db/db.c:396-416 | key, data offset and data length read back if and only if the key has no separator; otherwise the reader aborts |
| `DbFormat.RecRoundTrip` | more01/apue.3e/db/db.c:567-612 | an index record written anywhere in a file reads back field for field if and only if its key has no separator; otherwise every read of it aborts |
| `DbFormat.PtrRoundTrip` | more01/apue.3e/db/db.c:618-631 | every pointer from 0 to PTR_MAX survives its 7-byte field, and no other byte of the file changes |
| `DbFormat.FirstRecordBytes` | more01/apue.3e/db/db.c:567-606 | the bytes of one index record, written out |
| `DbFormat.ReaderAccepts` | more01/apue.3e/db/db.c:343-418 | whatever the bytes, the reader accepts a record only with a length in the limits, all of it in the file, a newline at its end, a key without a separator and a data length in the limits; it reports the end exactly to a sequential read that stands there |
| `DbFiles.EmptySound` | more01/apue.3e/db/db.c:146-160 | a new table has 138 empty, disjoint lists |
| `DbFiles.UnlinkSound` | more01/apue.3e/db/db.c:782-790 | writing the successor into the slot in front of a record takes just that record off its list; all lists stay finite, acyclic, disjoint and complete |
| `DbFiles.PushSound` | more01/apue.3e/db/db.c:683-687 | a record whose pointer is the head of a list, written to that head, is the new front of that list and of no other |
| `DbFiles.DeleteSound` | more01/apue.3e/db/db.c:486-522 | after the four writes of a deletion the record is off its chain and the front of the free list, and everything else is as it was, although the files are not sound in between |
| `DbFiles.SearchMissed` | more01/apue.3e/db/db.c:289-300 | a search that passes every element of the chain of a key's hash proves the key absent |
| `DbEffects.DeleteKeeps` | more01/apue.3e/db/db.c:463-525 | a deletion removes exactly its key from the map of the chains, and the free list stays exactly the blanked records |
| `DbEffects.InsertKeeps` | more01/apue.3e/db/db.c:675-688 | an appended record, linked in front of its chain, adds exactly its entry to the map |
| `DbEffects.ReuseKeeps` | more01/apue.3e/db/db.c:694-698 | a free record rewritten with equal lengths and linked adds exactly its entry, in the same extents |
| `DbEffects.OverwriteKeeps` | more01/apue.3e/db/db.c:732-738 | data of equal length written over the old changes exactly that entry |
| `DbBytes.ReadRecBytes` | more01/apue.3e/db/db.c:343-418 | a record of a well-formed index file reads back field for field, unless its key has a separator; no other abort of the record reader is reachable |
| `DbBytes.ReadDataBytes` | more01/apue.3e/db/db.c:424-435 | the data reader finds the data and its newline where the record says |
| `DbBytes.WriteRecBytes` | more01/apue.3e/db/db.c:595-606 | a record rewritten by one of equal size changes the bytes of that record only |
| `DbBytes.WritePtrBytes` | more01/apue.3e/db/db.c:618-631 | a pointer written at a list head or at the front of a record changes that pointer only, in the bytes and in the records |
| `DbBytes.AppendRecBytes` | more01/apue.3e/db/db.c:590-606 | an appended record leaves all others where they are |
| `DbBytes.WriteDataBytes` | more01/apue.3e/db/db.c:546-555 | data of equal length rewritten in place touches no other extent |
| `DbBytes.FileIsConcatenation` | more01/apue.3e/db/db.c:22-26 | the index file is exactly the pointer table, a newline, and whole records one behind the other |
| `DbSeparators.StuckIff` | more01/apue.3e/db/db.c:369-416 | a chain has a key with a separator exactly when its first record does; if there is none the whole chain can be read |
| `DbSeparators.InsertBehind` | more01/apue.3e/db/db.c:675-688 | a record linked in front of a chain that can be read leaves at most the first record of any chain with a separator |
| `DbSeparators.DeleteBehind` | more01/apue.3e/db/db.c:463-525 | so does a deletion, wherever on its chain the record was |
| `DbSpec.StoreMeans` | more01/apue.3e/db/db.c:637-746 | 0 if and only if the flag is valid, an insert finds its key absent and a replace finds it there; 1 if and only if an insert finds it there; -1 otherwise; with 0 the entry is written, and else nothing changes |
| `DbSpec.LastWriteWins` | more01/apue.3e/db/db.c:637-746 | after any calls with such answers a key has the data of the last call that touched it, if that was a store, and none otherwise, told of the calls and their answers alone |
| `DbSpec.AnswersMean` | more01/apue.3e/db/db.c:233-253 | so each answer is told by the calls and answers before it: a fetch finds what was written last and not removed since, and a delete or a store finds the key there exactly then |
| `DbLibrary.Db.constructor` | more01/apue.3e/db/db.c:134-165 | creating and truncating gives a database without entries, positioned at the first record |
| `DbLibrary.Db.ReadPtr` | more01/apue.3e/db/db.c:323-334 | reads the pointer the slot stands for, which is at most PTR_MAX |
| `DbLibrary.Db.WritePtr` | more01/apue.3e/db/db.c:618-631 | fails exactly beyond PTR_MAX, and otherwise sets that pointer and nothing else |
| `DbLibrary.Db.ReadIdx` | more01/apue.3e/db/db.c:343-418 | fills the handle with the record at the offset or, for offset 0, with the next one; reports the end of the file only there, and aborts exactly at a key with a separator |
| `DbLibrary.Db.WriteIdx` | more01/apue.3e/db/db.c:567-612 | for every key: aborts exactly on a pointer or a length out of range; otherwise writes or appends that one record |
| `DbLibrary.Db.WriteDat` | more01/apue.3e/db/db.c:531-560 | overwrites or appends that one extent and sets offset and length in the handle |
| `DbLibrary.Db.SearchChain` | more01/apue.3e/db/db.c:289-296 | the search ends; it stands at the first record with the key, with the slot in front of it in the handle, or has passed them all, or aborts at a record with a separator |
| `DbLibrary.Db.FindAndLock` | more01/apue.3e/db/db.c:258-301 | aborts if and only if some key in the database has a separator and the same hash value; otherwise returns 0 if and only if the key has an entry |
| `DbLibrary.Db.FindFree` | more01/apue.3e/db/db.c:752-805 | takes the first record of exactly these two lengths off the free list; returns -1 if and only if no free record has them, and then changes nothing |
| `DbLibrary.Db.DoDelete` | more01/apue.3e/db/db.c:463-525 | removes the entry that was found and no other; neither file changes its length |
| `DbLibrary.Db.Fetch` | more01/apue.3e/db/db.c:233-253 | aborts exactly when the chain is stuck by a separator; otherwise answers with the data of the entry, or that there is none; changes neither file |
| `DbLibrary.Db.Delete` | more01/apue.3e/db/db.c:440-456 | aborts exactly when the chain is stuck by a separator; otherwise removes the entry and says whether there was one |
| `DbLibrary.Db.Store` | more01/apue.3e/db/db.c:637-746 | for every key, on each of its paths: the answer is 0, 1 or -1 by the flag and by whether the key is there, as written out in its clauses, and the map has the new entry or is unchanged; the files grow only as far as the path demands, and not at all when data of equal length or a free record of the right lengths is written over; aborts when the chain is stuck by a separator, and otherwise only when a limit is reached |
| `DbLibrary.Db.NextRec` | more01/apue.3e/db/db.c:835-875 | gives the next record with a real key, with its data; only blank records are skipped; reports the end only there, and aborts only at a key with a separator |
| `DbLibrary.Db.Scan` | more01/apue.3e/db/db.c:812-875 | aborts if and only if some key in the database has a separator; otherwise the rows are exactly the entries with a key that is not all blanks, each once, in file order |
| `DbHistory.Apply` | more01/apue.3e/db/db.c:233-253 | for every call and key: it answers as the plain map does, or aborts; it aborts exactly when its chain is stuck, or for a store that reaches a limit |
| `DbHistory.RunAll` | more01/apue.3e/db/db.c:637-746 | for every sequence of stores, fetches and deletes with any keys on a new database all answers are those of a plain map; the run is cut short by the first call whose chain is stuck by a separator, and otherwise only by a store that reaches a limit, which no short run does |
| `DbHistory.StuckForGood` | more01/apue.3e/db/db.c:440-456 | once a key with a separator is in the database no call that returns takes it out |
| `DbInvariant.SteadyAtStart` | more01/apue.3e/db/db.c:134-165 | the invariant of the interleaved processes holds on a new database |
| `DbInvariant.Exclusive` | more01/apue.3e/db/db.c:276-283 | the lock table lets two processes be only in places that do not disturb each other |
| `DbInvariant.LocalSpared` | more01/apue.3e/db/db.c:289-300 | what a process has found out about its chain, its free record and its data survives every step of every other process |
| `DbLockSteps.KeepsUnlock` | more01/apue.3e/db/db.c:742-745 | the unlock that ends a call keeps the invariant and makes the chain agree with the map after that call |
| `DbWriteSteps.KeepsOverwrite` | more01/apue.3e/db/db.c:732-738 | the overwriting write keeps the invariant |
| `DbWriteSteps.KeepsReuseRec` | more01/apue.3e/db/db.c:694-696 | rewriting the taken record, which nobody else can reach, keeps the invariant |
| `DbWriteSteps.KeepsFreeTake` | more01/apue.3e/db/db.c:781-790 | taking a record off the free list keeps the invariant; the record is then this process's own |
| `DbWriteSteps.KeepsLinkHead` | more01/apue.3e/db/db.c:683-687 | linking the finished record keeps the invariant, and now the chain has what the store leaves |
| `DbWriteSteps.KeepsAppDat` | more01/apue.3e/db/db.c:542-559 | the append to the data file keeps the invariant |
| `DbWriteSteps.KeepsAppIdx` | more01/apue.3e/db/db.c:590-611 | the append to the index file keeps the invariant |
| `DbDeleteSteps.KeepsCut` | more01/apue.3e/db/db.c:486-489 | blanking the data, taken together with the bridging of the chain, keeps the invariant |
| `DbDeleteSteps.KeepsDelRec` | more01/apue.3e/db/db.c:504-509 | blanking the record and aiming it at the free list keeps the invariant |
| `DbDeleteSteps.KeepsDelFreeHead` | more01/apue.3e/db/db.c:511-514 | putting the record at the head of the free list keeps the invariant |
| `DbInterleaving.Simulates` | more01/apue.3e/db/db.c:463-525 | whoever moves while a deletion has not yet bridged its chain finds and does what it would find and do had it been bridged |
| `DbInterleaving.RunInOrder` | more01/apue.3e/db/db.c:258-301 | every state of every run of any number of processes satisfies the invariant |
| `DbInterleaving.CallsAreAtomic` | more01/apue.3e/db/db.c:637-746 | in every run each fetch, store and delete takes effect on one plain map in one step, and answers what that map answers at that step |
| `DbInterleaving.CommitsAtUnlock` | more01/apue.3e/db/db.c:742-745 | that step is the call's own unlocking of its chain, which enters its operation and its answer, and no other step changes the map |
| `DbInterleaving.UnlockedChain` | more01/apue.3e/db/db.c:276-283 | a chain nobody is writing to is, in the files, a finite list of exactly the committed entries of its hash value |
| `DbInterleaving.ChainFrozen` | more01/apue.3e/db/db.c:289-296 | while a process has a chain, or the free list, locked no other process changes that list or the process |
| `DbInterleaving.SearchAdvances` | more01/apue.3e/db/db.c:289-296 | each step of a search goes one place further along that list and never beyond its end, so the search ends |
| `DbInterleaving.CallsEnd` | more01/apue.3e/db/db.c:289-300 | each step of a call brings it nearer to its end and no step of another process takes it further away, so a call needs only finitely many steps of its own |
| `DbInterleaving.WaitsOnlyFor` | more01/apue.3e/db/db.c:276-283 | a call waits if and only if some process is in a place that excludes it: fetches share a chain, scans share the free list, and calls on different chains do not wait for each other's chains |
| `DbInterleaving.RecordsAccountedFor` | more01/apue.3e/db/db.c:752-805 | at every moment each record is on exactly one list, once, or in the hands of exactly one process that is storing or deleting it; the pointers in the index file spell those lists, the free list always and the chains once a pending deletion is bridged; and free records have blank keys and blank data |
| `DbInterleaving.FilesWellFormed` | more01/apue.3e/db/db.c:531-612 | at every moment the index file is whole records end to end, each data extent belongs to one record or one process, and no two extents share a byte |
| `DbInterleaving.ReadsFind` | more01/apue.3e/db/db.c:369-416 | no process ever reads where no record or no data is |
| `DbInterleaving.ScanSeesEntries` | more01/apue.3e/db/db.c:842-868 | what a scan returns amid other processes is an entry of the map as its chain has it, or the entry an unfinished store is about to add |
| `DbScans.LookAtNext` | more01/apue.3e/db/db.c:850-864 | a look of a scan ends it with nothing exactly at the end of the file, passes just one record if its key is all blanks, and otherwise takes that record |
| `DbScans.ScanStarts` | more01/apue.3e/db/db.c:812-842 | a call of db_nextrec goes on where the process's cursor stands, and a rewind puts that at the first record |
| `DbScans.AnswerOfScan` | more01/apue.3e/db/db.c:866-868 | the answer is then that record's data |
| `DbScans.ScanReturns` | more01/apue.3e/db/db.c:835-875 | in every run, amid any other processes: every record between where a call of db_nextrec began and where it ended was blank when it looked at it; it answers nothing only if it met the end of the file there, and otherwise the data of the record it came to, whose key was not blank |
| `DbCalls.HistoryIsCalls` | more01/apue.3e/db/db.c:637-746 | in every run each entry of the history is one call: some process was idle, began just that operation, and entered it with that answer by its own unlocking before it was idle again |
| `DbRunBytes.BytesFollow` | more01/apue.3e/db/db.c:531-631 | each step of each process writes at most one stretch of one file, and the bytes are then those of the records after the step |
| `DbRunBytes.BytesRead` | more01/apue.3e/db/db.c:323-435 | what a process reads next it reads from the bytes: the record reader passes all its checks, and data ends in its newline |
| `DbRunBytes.RunBytes` | more01/apue.3e/db/db.c:531-631 | in every run within the limits and without separators in keys, the bytes of the two files are at every moment those of the linked records |
| `DbRunBytes.SizesStayOn` | more01/apue.3e/db/db.c:369-393 | in every run no record ever moves, or changes its length, the length of its key, or where and how long its data is |
| `DbReuse.WaysOfStoring` | more01/apue.3e/db/db.c:674-738 | in every run a store writes over the old data only if the new is as long, deletes the record only if it is not, takes a free record only if that has just its lengths, and lets the files grow only for a key that is absent or has data of another length |
| `DbReuse.GrowsOnlyIfItMust` | more01/apue.3e/db/db.c:674-698 | in every run, when a store sets out to append for an absent key, the whole free list, which it has locked, holds no record of its lengths |
| `DbReuse.OnlyAppendsGrow` | more01/apue.3e/db/db.c:531-612 | no other step changes the length of a file |
| `DbInterleaving.NoDeadlock` | more01/apue.3e/db/db.c:483-524 | while any process is in a call some process can go on: chain, then free list, then append range |
| `Semaphore.UndoBalances` | more01/apue.3e/lib/semaph.c:49-81 | every operation table keeps value plus adjustment, for each member |
| `Semaphore.LockTable` | more01/apue.3e/lib/semaph.c:49-54 | succeeds only with [2] at 0, and sets it |
| `Semaphore.EndCreateTable` | more01/apue.3e/lib/semaph.c:56-61 | counts one open and unlocks |
| `Semaphore.CloseTable` | more01/apue.3e/lib/semaph.c:67-71 | succeeds only with [2] at 0; locks and counts one close |
| `Semaphore.OperateMeans` | more01/apue.3e/lib/semaph.c:283-291 | an operation goes on if and only if the value does not fall below zero; it changes [0] by just its amount, with its undo, and nothing else |
| `Semaphore.AfterSetVal` | more01/apue.3e/lib/semaph.c:138-153 | the two initialising calls keep the invariant and happen only while nobody has the set open |
| `Semaphore.AfterRemove` | more01/apue.3e/lib/semaph.c:248-249 | the removal keeps the invariant and happens only while nobody has the set open |
| `Semaphore.AfterDeath` | more01/apue.3e/lib/semaph.c:49-75 | a death at any point of any call gives back the opens and the lock of the process, and nothing else |
| `Semaphore.RunKeeps` | more01/apue.3e/lib/semaph.c:89-163 | every state of every run with fewer than BIGCOUNT opens satisfies the invariant |
| `Semaphore.CountersTrue` | more01/apue.3e/lib/semaph.c:124-159 | in every run [1] is BIGCOUNT minus the live opens once initialised, and [2] is 1 exactly while some process, and then only one, holds the lock |
| `Semaphore.RemovedOrSetOnlyUnused` | more01/apue.3e/lib/semaph.c:222-253 | in every run a set is removed, and each of the two initialising calls made, only while no process has it open; the count is set at most once |
| `Semaphore.InitialisedBy` | more01/apue.3e/lib/semaph.c:138-148 | in every run [0] of a set with a count was set to the value with which that sem_create was called whose two calls initialised this set |
| `Semaphore.LastAndFirst` | more01/apue.3e/lib/semaph.c:135-153 | exactly the closer that finds nobody else removes the set, and exactly the creator that finds no count initialises it, to the value it was called with |
| `Semaphore.OnlyWaitersFail` | more01/apue.3e/lib/semaph.c:115-128 | in every run a call fails if and only if it was waiting for the lock when the set was removed; a creator that had not yet asked starts again, and users never find the set gone |
| `Semaphore.WaiterFails` | more01/apue.3e/lib/semaph.c:115-128 | a run of two processes that ends so |
| `Semaphore.HolderGoesOn` | more01/apue.3e/lib/semaph.c:155-160 | whoever holds the lock never waits |
| `Semaphore.WaitsOnlyFor` | more01/apue.3e/lib/semaph.c:124-128 | a create or a close waits if and only if it has asked for the lock of a set that is still there and somebody holds it |
| `Semaphore.CallsEnd` | more01/apue.3e/lib/semaph.c:114-163 | each step brings a call nearer to its end, but for that of a creator that begins again |
| `Semaphore.DeathReleases` | more01/apue.3e/lib/semaph.c:49-61 | in every run a crash at any step releases what was held |
| `Semaphore.CallsConserve` | more01/apue.3e/lib/semaph.c:77-81 | no call changes value plus pending undo of [0] |
| `Semaphore.DeathConservesIff` | more01/apue.3e/lib/semaph.c:77-81 | a death keeps value plus pending undo of [0] if and only if the value is not below what the process signalled more than it waited |
| `Semaphore.SemaphoreConserved` | more01/apue.3e/lib/semaph.c:77-81 | in every run whose deaths are of that kind [0] plus pending undo is always its initial value |
| `Semaphore.SignalCanOutliveItsProcess` | more01/apue.3e/lib/semaph.c:77-81 | a run of two processes after which [0] is one too high for good |
| `FooTable.PushChained` | more01/apue.3e/threads/mutex2.c:38-41 | the new object becomes the first of its chain and is on no other |
| `FooTable.SkipChained` | more01/apue.3e/threads/mutex2.c:93-101 | the unlinking write takes exactly that object off exactly that chain |
| `FooTable.BucketOfInt` | more01/apue.3e/threads/mutex2.c:11-11 | the chain of every int identifier, negative ones included |
| `FooSingleLock.Foos.Alloc` | more01/apue.3e/threads/mutex3.c:18-41 | the table has one more object, with one reference |
| `FooSingleLock.Foos.Hold` | more01/apue.3e/threads/mutex3.c:43-49 | one more reference to that object |
| `FooSingleLock.Foos.Find` | more01/apue.3e/threads/mutex3.c:51-65 | returns the first object with the identifier, with one more reference, or null if there is none |
| `FooSingleLock.Foos.Unlink` | more01/apue.3e/threads/mutex3.c:75-83 | the walk meets the object before it meets null, and only that object leaves its chain |
| `FooSingleLock.Foos.Rele` | more01/apue.3e/threads/mutex3.c:67-90 | one reference fewer; the object is unlinked and freed exactly with the last one |
| `FooSingleLock.ReleUndoesHold` | more01/apue.3e/threads/mutex3.c:43-90 | giving a reference back undoes taking it |
| `FooSingleLock.AllocThen` | more01/apue.3e/threads/mutex3.c:18-90 | a new object is what a find for its identifier returns, and releasing it at once leaves the table as it was |
| `FooTwoLocksProof.UnlinkWalk` | more01/apue.3e/threads/mutex2.c:97-100 | in every interleaving the object is ahead on the chain, so the unlink loop never meets null and ends at the object in front |
| `FooTwoLocksProof.FreedByLast` | more01/apue.3e/threads/mutex2.c:102-105 | at the moment of the free no other thread has, or can reach, a reference, a lock or a pointer to the object, the unlink walker's pointer included |
| `FooTwoLocksProof.StepRefines` | more01/apue.3e/threads/mutex2.c:25-110 | one step of each call is the whole call of the one-lock version at that moment, with the same result; all other steps leave the table alone |
| `FooTwoLocksProof.RunRefines` | more01/apue.3e/threads/mutex2.c:25-110 | every interleaving of allocs, finds, holds and releases is one the one-lock version allows; the address an alloc enters is new to the table |
| `FooTwoLocksCalls.CommitsOnce` | more01/apue.3e/threads/mutex2.c:25-110 | in every run each call takes exactly one step that is the whole call, between its beginning and its return, and what it returns is what that step found |
| `FooTwoLocksProof.CountsAreRefs` | more01/apue.3e/threads/mutex2.c:80-110 | in every run the count of an object is the number of outstanding references, also between unlock and relock; no reference is to a freed object |
| `FooTwoLocksProof.FreedExactlyAtLast` | more01/apue.3e/threads/mutex2.c:81-105 | a step frees an object if and only if it ends the release of its last reference |
| `FooTwoLocksProof.NoDeadlock` | more01/apue.3e/threads/mutex2.c:1-5 | while any thread is in a call some thread can go on |
| `FooTwoLocksProof.WaitsOnlyFor` | more01/apue.3e/threads/mutex2.c:25-110 | a thread waits if and only if another one has the lock it asks for |
| `FooTwoLocksProof.TableLockForLastOnly` | more01/apue.3e/threads/mutex2.c:80-110 | a release goes for the table lock if and only if it finds that it holds the last reference there is |
| `FooTwoLocksCalls.CallsEnd` | more01/apue.3e/threads/mutex2.c:25-110 | each step brings a call nearer to its end, and no walk is longer than its chain |
| `FooTwoLocksCalls.ChainsFrozen` | more01/apue.3e/threads/mutex2.c:15-22 | while a thread has the table locked no other one changes a chain |
| `Rot13.RotTwice` | more01/apue.3e/advio/rot13a.c:9-23 | translating twice gives back the text |
| `Rot13.TranslateMoves` | more01/apue.3e/advio/rot13a.c:9-23 | letters move by 13 within their case, and nothing else changes |
| `Rot13.TranslateTable` | more01/apue.3e/advio/rot13a.c:9-23 | the translation of every byte, written out by ranges |
| `Rot13.TranslateBuffer` | more01/apue.3e/advio/rot13a.c:38-39 | the first n bytes are translated in place and the others are not touched |
| `Rot13.Synchronous` | more01/apue.3e/advio/rot13a.c:37-46 | the output is the translation of the whole input, for every length |
| `Rot13Async.CountsPut` | more01/apue.3e/advio/rot13c2.c:69-141 | how each change of a buffer's state changes the number of busy buffers and of completions to come |
| `Rot13Async.WriteBlock` | more01/apue.3e/advio/rot13c2.c:111-116 | a block written at its own offset is then right, and blocks written before stay right, in any order |
| `Rot13Async.AllWritten` | more01/apue.3e/advio/rot13c2.c:142-144 | when every block is written the output is the translation of the input |
| `Rot13Async.Pipeline.Begin` | more01/apue.3e/advio/rot13c2.c:71-89 | an unused buffer takes the next block if there is one |
| `Rot13Async.Pipeline.Translated` | more01/apue.3e/advio/rot13c2.c:91-117 | a completed read becomes a pending write of its translation; the short-read exit is not reachable |
| `Rot13Async.Pipeline.Flushed` | more01/apue.3e/advio/rot13c2.c:119-139 | a completed write puts its block at its own offset and frees the buffer |
| `Rot13Async.Pipeline.Run` | more01/apue.3e/advio/rot13c2.c:67-149 | for every input and every order of completions the loop ends, with no buffer busy, each block written exactly once, and the output translated |
| `Rot13Async.Asynchronous` | more01/apue.3e/advio/rot13c2.c:42-149 | for every order of completions the output is that of the synchronous program |
| `PrintQueue.Queue.AddJob` | more01/apue.3e/printer/printd.c:275-294 | the new job is the last of the list, read forwards and backwards |
| `PrintQueue.Queue.ReplaceJob` | more01/apue.3e/printer/printd.c:301-313 | the job is the first of the list |
| `PrintQueue.Queue.RemoveJob` | more01/apue.3e/printer/printd.c:320-331 | from any place exactly that job is taken out and the rest keeps its order |
| `PrintQueue.Spooler.TakeJob` | more01/apue.3e/printer/printd.c:688-695 | the first job passes from the queue to the thread; nothing is lost |
| `PrintQueue.Spooler.Defer` | more01/apue.3e/printer/printd.c:832-839 | a deferred job is again before all that wait |
| `PrintQueue.Spooler.Happen` | more01/apue.3e/printer/printd.c:684-840 | printing or cancelling finishes the job in hand and nothing else finishes one; a deferred job is again before all that wait; a pick-up takes the first job if none is in hand; a new job goes to the end |
| `PrintQueue.DoneAreEndings` | more01/apue.3e/printer/printd.c:825-830 | the number of jobs done with is that of the events that found a job in hand and ended it |
| `PrintQueue.BusyIffHeld` | more01/apue.3e/printer/printd.c:684-695 | a job is in hand if and only if some pick-up found one waiting and nothing has ended or deferred it since |
| `PrintQueue.Serve` | more01/apue.3e/printer/printd.c:684-840 | for every interleaving: finished jobs, then the one in hand, then the queue, are exactly the jobs added, in the order they were added; finished are the first ones, as many as events ended one |
| `Merge.RestStep` | more01/apue.3e/threads/barrier.c:82-83 | taking the first of a segment takes just that number from what is left |
| `Merge.RestAbove` | more01/apue.3e/threads/barrier.c:75-81 | a number not above the first of every segment is not above anything left |
| `Merge.MergeRound` | more01/apue.3e/threads/barrier.c:74-84 | a round keeps: the output is sorted, nothing left is below it, and output and rest together are the input |
| `Merge.Least` | more01/apue.3e/threads/barrier.c:75-81 | the inner loop finds a segment with a number left, whose first is least; no index leaves its segment |
| `Merge.MergeSegments` | more01/apue.3e/threads/barrier.c:66-85 | for any number of sorted segments of any size with numbers below LONG_MAX the output is a sorted permutation of the input |
| `TreeWalk.CallStopsAtFirst` | more01/apue.3e/filedir/ftw8.c:93-94 | the calls are all the visits, or those up to the first that is not answered with 0, whose answer is the result |
| `TreeWalk.EachNodeOnce` | more01/apue.3e/filedir/ftw8.c:76-121 | apart from the second report of a directory that cannot be read, the visits are as many as the nodes of the tree, with different paths |
| `TreeWalk.TruePaths` | more01/apue.3e/filedir/ftw8.c:76-121 | a visit is made if and only if its path spells a sequence of names that leads to a node of the tree, and its kind is that node's |
| `TreeWalk.VisitsInOrder` | more01/apue.3e/filedir/ftw8.c:90-115 | a directory comes before everything below it, and what is below it comes in one piece |
| `TreeWalk.SiblingsInOrder` | more01/apue.3e/filedir/ftw8.c:108-115 | everything below one name comes before everything below a name that the directory lists later |
| `TreeWalk.WalkWithin` | more01/apue.3e/filedir/ftw8.c:90-115 | and deeper down it is the same: the visits from any node on are, in one piece, those of a walk that begins there |
| `TreeWalk.LeafReports` | more01/apue.3e/filedir/ftw8.c:84-94 | what is reported of a file, of a path that cannot be looked at, and of an empty directory |
| `TreeWalk.OnceEachIff` | more01/apue.3e/filedir/ftw8.c:93-106 | the visits outnumber the nodes by the directories that cannot be read; each node is reported once if and only if there is none |
| `TreeWalk.ReportedTwice` | more01/apue.3e/filedir/ftw8.c:102-106 | a directory that cannot be read, reported twice, the second time with a slash |
| `TreeWalk.OtherName` | more01/apue.3e/filedir/ftw8.c:108-112 | different names in a directory never lead to the same path |
| `TreeWalk.Walker.constructor` | more01/apue.3e/filedir/ftw8.c:59-66 | the buffer is long enough and holds the starting path |
| `TreeWalk.Walker.AddSlash` | more01/apue.3e/filedir/ftw8.c:96-103 | after one doubling there is room for any name, and the path is kept |
| `TreeWalk.Walker.DoPath` | more01/apue.3e/filedir/ftw8.c:76-121 | the calls are those of the visits of the tree, no write leaves the buffer, and the path is restored |
| `TreeWalk.Myftw` | more01/apue.3e/filedir/ftw8.c:56-68 | for every tree, every starting path and every callback: the visits in order up to the first answer other than 0, which is returned |
| `MemStream.TypeToFlags` | more01/apue.3e/exercises/fmemopen.c:96-138 | accepts exactly the modes that are one of r, w, a followed by any + and b, with their meaning |
| `MemStream.Modes` | more01/apue.3e/exercises/fmemopen.c:96-138 | what the usual modes mean, written out |
| `MemStream.WriteThenRead` | more01/apue.3e/exercises/fmemopen.c:153-229 | seeking back to where a write began and reading gives what was written |
| `MemStream.ReadIsNext` | more01/apue.3e/exercises/fmemopen.c:153-171 | a read gives what follows the position, as much as is asked for or there is, and moves behind it |
| `MemStream.SeekTargets` | more01/apue.3e/exercises/fmemopen.c:206-229 | seeking by 0 from the position answers the position; from the end, the size, and leaves nothing to read; relative seeks add to an absolute one; and it fails exactly outside the content, and then changes nothing |
| `MemStream.SeekUndoesRead` | more01/apue.3e/exercises/fmemopen.c:206-229 | seeking back over what was read gives back the file as it was |
| `MemStream.WriteIsLocal` | more01/apue.3e/exercises/fmemopen.c:173-204 | a write begins at the position, or at the end when appending, takes all that fits, puts it there, makes the content just as much longer as needed, and changes nothing else; appending never changes old content |
| `MemStream.Stream.constructor` | more01/apue.3e/exercises/fmemopen.c:56-85 | where each mode begins: at the first null, at nothing, or at the whole buffer |
| `MemStream.Stream.Read` | more01/apue.3e/exercises/fmemopen.c:153-171 | reads from the position to the end of the content at most |
| `MemStream.Stream.Write` | more01/apue.3e/exercises/fmemopen.c:173-204 | in the modes that can also read, a write to the abstract file, and a null behind it when it grows; in the others, the same but for the null that may hit the content, and where it falls; no other byte behind the content changes |
| `MemStream.Stream.Seek` | more01/apue.3e/exercises/fmemopen.c:206-229 | answers position plus distance, from the start, the position or the end, exactly when that is within the content, and then moves there; otherwise -1, and stays |
| `MemStream.Session` | more01/apue.3e/exercises/fmemopen.c:153-229 | in the modes with a plus every sequence of reads, writes and seeks is that sequence on a file, results and all |
| `MemStream.Open` | more01/apue.3e/exercises/fmemopen.c:36-94 | refuses exactly a size of zero, a malformed mode, and a mode without plus when it has to bring the buffer |
| `PollLoop.NoMorePolled` | more01/apue.3e/ipc2/opend/loop.poll.c:78-92 | the index of a polled descriptor is always an index of client[] as well |
| `PollLoop.DueMeans` | more01/apue.3e/ipc2/opend/loop.poll.c:68-92 | a hang-up closes whatever else is reported, a read of nothing closes, any other read is a request, and a descriptor of which nothing is reported gets nothing |
| `PollLoop.ScanEntry` | more01/apue.3e/ipc2/opend/loop.poll.c:68-95 | examining an entry, also when the last one then takes its place, keeps: every descriptor is seen or still ahead with what poll reported, and those seen have got their due once |
| `PollLoop.Server.ClientAlloc` | more01/apue.3e/ipc2/opend/client.c:5-22 | ten more entries, all available, and the old ones kept |
| `PollLoop.Server.ClientAdd` | more01/apue.3e/ipc2/opend/client.c:27-46 | the first available entry takes the descriptor, growing the array if there is none, and no other entry changes |
| `PollLoop.Server.ClientDel` | more01/apue.3e/ipc2/opend/client.c:51-63 | the first entry with the descriptor becomes available; it fails exactly if there is none |
| `PollLoop.Server.GrowPollfd` | more01/apue.3e/ipc2/opend/loop.poll.c:6-22 | ten more entries that poll ignores, and the old ones kept |
| `PollLoop.Server.Accept` | more01/apue.3e/ipc2/opend/loop.poll.c:52-64 | both arrays have the new descriptor with its user id, with nothing reported of it, and still agree; arrays in the same order stay so |
| `PollLoop.Server.HangUp` | more01/apue.3e/ipc2/opend/loop.poll.c:76-89 | both arrays lose that descriptor and still agree; client_del never fails here |
| `PollLoop.Server.Examine` | more01/apue.3e/ipc2/opend/loop.poll.c:69-92 | what is done for one entry, and which user id goes with a request: the one at the same index of client[] |
| `PollLoop.OwnUid` | more01/apue.3e/ipc2/opend/loop.poll.c:90-92 | while the two arrays are in the same order that is the user id the descriptor came with |
| `PollLoop.PackAligned` | more01/apue.3e/ipc2/opend/loop.poll.c:83-89 | the end of a connection leaves them in the same order if and only if it was the last one polled |
| `PollLoop.WrongUser` | more01/apue.3e/ipc2/opend/loop.poll.c:69-92 | two users connect, the first hangs up, and the next request of the second is handed over under the first one's id |
| `PollLoop.Server.Scan` | more01/apue.3e/ipc2/opend/loop.poll.c:68-95 | each reported descriptor is dealt with exactly once, whatever swapping goes on |
| `PollLoop.Server.Turn` | more01/apue.3e/ipc2/opend/loop.poll.c:48-96 | after a round the two arrays hold the same distinct descriptors: those before, less those closed, and the newcomer; the program ends if and only if accept or a read fails |
| `PollLoop.Server.Serve` | more01/apue.3e/ipc2/opend/loop.poll.c:48-96 | the same over any number of rounds, with the record falling into one part for each round |
| `FdProtocol.CodeKept` | more01/apue.3e/lib/sendfd.c:27-33 | a code ends up in -255..-1, and is the one sent if and only if that was in this range |
| `FdProtocol.Channel.SendFd` | more01/apue.3e/lib/sendfd.c:27-46 | a null and the status byte, with the descriptor beside them exactly if there is one |
| `FdProtocol.Channel.SendErr` | more01/apue.3e/lib/senderr.c:8-24 | the message and then the two bytes of a code that is negative |
| `FdProtocol.NotLast` | more01/apue.3e/lib/recvfd.c:54-57 | a first null anywhere but in the last place but one is an error of format |
| `FdProtocol.Examine` | more01/apue.3e/lib/recvfd.c:54-68 | the scan of a buffer tells text from the final two bytes and both from an error, and never reads beyond what was received |
| `FdProtocol.RecvFd` | more01/apue.3e/lib/recvfd.c:20-74 | what is handed over and returned, for any chunks and any user function |
| `FdProtocol.EveryCut` | more01/apue.3e/lib/recvfd.c:49-72 | for every message without nulls and every cut of the stream: all of the message is handed over and the status or descriptor is returned if and only if the final two bytes come together (with the descriptor, where there is one); otherwise the receiver gives up |
| `FdProtocol.EndsEarly` | more01/apue.3e/lib/recvfd.c:41-46 | when the stream ends, or recvmsg fails, before the final bytes have come, -1 is returned and what came before has been handed over |
| `FdProtocol.StopsAtRefusal` | more01/apue.3e/lib/recvfd.c:69-70 | when the user function does not take a piece -1 is returned at that piece, even if the final bytes came with it |
| `FdProtocol.DumpsAtMalformed` | more01/apue.3e/lib/recvfd.c:54-62 | a null in any other place, or a promised descriptor that has not come, makes the receiver give up, and nothing of that chunk is handed over |
| `FdProtocol.ErrorArrives` | more01/apue.3e/lib/senderr.c:8-24 | an error sent with its message arrives: the message byte for byte, and a code in -255..-1 that is the one sent if that was in this range |
| `FdProtocol.DescriptorArrives` | more01/apue.3e/lib/recvfd.c:59-62 | a descriptor sent behind any text arrives as what came beside the last chunk |

## Left out

- System calls: each read, write, lock, semaphore and poll call is one atomic step, and files are byte sequences; errors and short transfers, and failing allocations, are not modelled.
- `db.c`: opening without both create and truncate, the statistics counters, and other calls mixed into a scan by the same process. The header with the length limits is not part of this model; their customary values stand in `DbFormat`.
- `db.c`: in `DbLibrary` the exits for a pointer beyond PTR_MAX or a length out of range end the run (`Aborted`); the state machine of `DbProcesses` has files without these limits and begins a call behind the length checks, which precede every access to the files.
- `db.c`: the state machine works on linked records; `DbRunBytes` ties its runs to the bytes for keys without separators. With such a key the processes that meet its record would abort and give up their locks, which the machine does not have; what then happens is proved for one process.
- `db.c`: reading a record is one step of the state machine and two calls of `_db_readidx`; `DbProcesses` says why that is no loss.
- `db.c`: the text of an index record is printed into its buffer before its length is checked (`db.c:577`), so a key longer than the buffer is written past its end; here the length check comes first.
- `db.c`: locks wait without any promise of fairness, so `DbInterleaving.NoDeadlock` is about the system and not about each process.
- `semaph.c`: `sem_open`, which joins without the lock, `sem_rm` called by users, BIGCOUNT and more opens, the limits on values and adjustments, and reuse of set identifiers.
- `mutex2.c`, `mutex3.c`: failing malloc and mutex initialisation, and the initialisation that may follow the linking in `foo_alloc`.
- `rot13c2.c`: an operation takes effect when the program finds it complete, not at some earlier time; nothing else can observe the difference, since each block has its own place. A file that changes its length while it is read is not modelled.
- `printd.c`: the contents of jobs, the printer's answers, the spool files, restarting, signals, and waiting on the condition variable, which here is a pick-up that finds nothing.
- `barrier.c`: the sorting of the segments, the threads and the barrier, and numbers equal to LONG_MAX, which the inner loop cannot tell from nothing found.
- `ftw8.c`: the tree is a value that lstat and readdir describe and that does not change during the walk; the counting callback is left out.
- `fmemopen.c`: sizes are not truncated to int, and a buffer the stream brings itself starts as zeros.
- PollLoop.Server.Turn: says nothing of the user ids handed to the request handler, which are not always those of the client; `PollLoop.Server.Examine` says which they are.
- `loop.poll.c`: what is done with a request, and the message and open-file handling behind it.
- FdProtocol.RecvFd: a receiver's buffer of 4096 bytes stands for MAXLINE, whose header is not part of this model.
- The rest of the repository: shells, terminal programs, web servers, signal and fork demonstrations, and listings, whose behaviour is single system calls; the token bucket and the turn-taking programs, whose invariants are of one line.
