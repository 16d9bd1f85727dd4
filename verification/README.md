# Verified models of an APUE-style C and C++ collection

Each part models one program of the repository in the form the program has: classes and loops where
it updates state in place, step systems where processes or threads interleave, functions and lemmas
for the formats and specifications they are proved against.

* **The key/value database** (`Decimal`, `DbFormat`, `DbImage`, `DbLists`, `DbHeap`, `DbMoves`, `Db`,
  `DbRuns`, `DbHistory`). `Database.Db` works on the two file images byte by byte, as the library does. The files are
  shown to hold a heap of records in 137 hash chains and a free list, and that heap to stand for a map;
  every operation is proved against the map, and so is every run. `DbHistory` says what the answers of a run
  are without the map, by the calls before them.
* **The same database under many processes** (`DbProcesses` to `DbConcurrent`, `DbBarred`). Every lock, read and
  write is one atomic step of one of any number of processes. Calls linearise to the table of `DbRuns`.
  `DbBarred` says which calls end their process. `DbFiles` to `DbFileRuns` put the bytes of both files under
  it (`DbIndexFile`, `DbEffects`), with the two reads of an index record, and the seek and the write of an
  append, as separate steps.
* **The reference-counted hash table** (`FooTable` to `FooRuns`), in the version that drops the object
  lock and rechecks and in the version with one lock. Every lock, unlock, read and write is one step
  of any number of threads; both versions implement the atomic table of `FooTable`. `FooHistory` says what its
  searches find, by the calls before them.
* **Process-counted semaphores** (`Semaph`, `SemaphValues`): create, open, close and operations as atomic
  updates of a three-member set with undo values, with a crash between any two system calls; and what the
  value adds up to over a run.
* **The INI file** (`IniText`, `IniRoundTrip`, `IniParser`, `IniStore`): a grammar, an in-place tokenizer
  on an array proved against it, an ordered store on maps, a printer, and the round trip, for the printer's
  layout and any other.
* **The streaming untar** (`TarNumbers`, `Untar`, `UntarArchive`): a block machine fed arbitrary pieces.
* **The print spooler** (`JobLists`, `Spool`, `SpoolThreads`): doubly linked lists on the heap, the life
  of a job, and the threads around one mutex and one condition variable.
* **Two loops** (`Merging`, `LineReader`): the merge behind a barrier and the buffered line reader.

`Options`, `Sequences`, `CStrings` and `Hashing` are shared by these. A large predicate gives its value a name
before it returns it (`var holds := ...; holds`): the verifier then keeps it closed in contracts and unfolds it
where a proof needs what it says.

Where the code does not do what it is for, the model keeps the code and proves when it does:

* A key with a separator in it is stored, but makes its record unreadable (`DbFormat.ReadBackRecord`): from
  then on every call that looks for a key of its chain ends the process, and no other call does on its
  account (`DbRuns.SeparatorBarsItsChain`, `DbRuns.Run`; among many processes `DbBarred.EndsIffBarred`).
* A `sem_create` that meets an initialised set with all opens taken initialises it again
  (`Semaph.ReadKeepsUnlessFull`, `Semaph.FullGoesWrong`, `Semaph.FullIsReachable`).
* A tar size is exact below 587202560 bytes (`TarNumbers.SizeIsExact`), a modification time only when it
  is a single octal digit (`TarNumbers.TimeIsExact`), each with one coincidental exception.
* A file of size zero in an archive takes the header of the next member for its content
  (`UntarArchive.EmptyTakesNext`).
* A blank key is stored and fetched like any other, but `db_nextrec` does not list it (`DbRuns.Scan`).

## Model

| member | source | states |
|---|---|---|
| `DbRuns.Run` | apue.3e/db/db.c:233-253 | Refinement over whole runs: any sequence of fetches, deletes and stores on a new database gives exactly the answers of a finite map and leaves files that stand for that map, whatever the keys; a call ends the process if its chain holds a key with a separator, otherwise only a store can, and none does when stored keys have no separator and keys, data and file sizes are within the limits; what is left then is the map, the key of that store at most gone |
| `DbRuns.SeparatorBarsItsChain` | apue.3e/db/db.c:396-408 | Once a key with a separator is stored, every later call that looks for a key of its chain ends the process |
| `DbLists.ClosedIsFoul` | apue.3e/db/db.c:285-300 | The map has a key with a separator on a chain if and only if the first record of that chain has one, so the walk meets it before anything else |
| `DbRuns.Perform` | apue.3e/db/db.c:638-660 | One call answers like the map, keeps the files valid, grows each by at most one record; it ends the process if its chain holds a key with a separator, and otherwise only for a store of bad data length or one whose appended record does not fit; the files then still stand for the map, the key of a store at most gone |
| `DbHistory.AnswersAreTrue` | apue.3e/db/db.c:233-253 | What those answers are, in terms of the calls before: a fetch gives the data of the last store of its key that was done, or nothing if there is none or a delete came after it; a delete gives 0 exactly if there was such data and -1 otherwise; a store gives 1 for an insert of a key that is there, -1 for a replacement of one that is not or for a bad flag, 0 otherwise |
| `DbHistory.TableIsHistory` | apue.3e/db/db.c:637-746 | After any calls a key is in the table exactly if its last change was a store, with the data stored then |
| `Database.Db.Fetch` | apue.3e/db/db.c:233-253 | Returns the mapped data or nothing, or ends the process if and only if the chain holds a key with a separator; leaves both files and so the map unchanged |
| `Database.Db.Delete` | apue.3e/db/db.c:440-456 | Removes exactly the key from the map and says whether it was there, or ends the process with the map as it was if and only if the chain holds a key with a separator; changes the size of neither file; afterwards a deleted record of that key length and data length is there to be used again |
| `Database.Db.Store` | apue.3e/db/db.c:637-746 | Returns the 0, 1 or -1 that the flag demands, leaves the map the flag calls for, for any key; ends the process if and only if the data length is bad, the chain holds a key with a separator, or a record has to be appended and cannot be, and then the files stand for the old map, without the key where its old record was already deleted; the data file grows by the new data and its newline unless the old data has the same length or, for a new key, a deleted record has both lengths |
| `Database.Db.StoreNew` | apue.3e/db/db.c:661-699 | A new key: a free record of exactly these lengths is reused if there is one, otherwise one is appended; the process ends if and only if neither is possible, with the map as it was and perhaps bytes at the ends of the files that no pointer leads to |
| `Database.Db.StoreOver` | apue.3e/db/db.c:700-739 | An existing key: same length overwrites in place, another length deletes and appends; the new map has the new data and every other key as before; if the append ends the process, the old record is gone and the rest is as before |
| `Database.Db.FindAndLock` | apue.3e/db/db.c:259-301 | Finds the record of a key if and only if the map has it, with the pointer that leads to it; ends the process if and only if the chain holds a key with a separator |
| `Database.Db.Walk` | apue.3e/db/db.c:285-300 | The chain walk stops at the first record with the key, proves that no record of the chain has it, or ends the process if and only if the chain starts with a key with a separator |
| `Database.Db.DoDelete` | apue.3e/db/db.c:463-525 | The exact bytes of both files after the blanked data, the blanked index record, the free-list pointer and the bypassing pointer were written |
| `Database.Db.RemoveFound` | apue.3e/db/db.c:463-525 | Those bytes are the record unlinked from its chain and pushed on the free list, with no neighbour moved or overwritten |
| `Database.Db.FindFree` | apue.3e/db/db.c:752-805 | Succeeds if and only if the free list has a record of exactly these key and data lengths, and then takes it off the list and keeps the map |
| `Database.Db.WalkFree` | apue.3e/db/db.c:764-776 | Finds a free record of exactly these lengths or proves that there is none |
| `Database.Db.InsertAtEnd` | apue.3e/db/db.c:673-688 | Appending to both files and linking succeeds if and only if the record fits, and adds exactly this key; otherwise both files keep what they held, with bytes at their ends that no pointer leads to |
| `Database.Db.InsertInFree` | apue.3e/db/db.c:689-699 | Filling a record taken off the free list adds exactly this key and changes the size of neither file |
| `Database.Db.ReadIdx` | apue.3e/db/db.c:343-418 | Leaves in the handle the fields the record stands for, or ends the process, or reports the end of the file |
| `Database.Db.WriteIdx` | apue.3e/db/db.c:567-612 | Ends the process if and only if the pointer or the record length is out of range, otherwise writes exactly the formatted record at the offset |
| `Database.Db.WritePtr` | apue.3e/db/db.c:618-631 | Ends the process if and only if the pointer does not fit seven columns, otherwise writes just those columns |
| `Database.Db.ReadSequential` | apue.3e/db/db.c:851-856 | Reading at the file offset steps from one record to the next until the end of the file |
| `Database.Db.NextRec` | apue.3e/db/db.c:835-875 | Returns the next record whose key has a character other than a space, in file order, and passes over records whose keys have none; ends the process if and only if that key has a separator |
| `Database.Hash` | apue.3e/db/db.c:306-316 | The loop with its unsigned wrap-around computes the bucket of the key |
| `DbLists.BucketIs` | apue.3e/db/db.c:306-316 | The bucket in figures: each signed character times its position, summed up modulo 2 to the power 64 and then 137 |
| `Database.AppendLimits` | apue.3e/db/db.c:567-583 | The limits in figures: a record is appended if and only if its text is 6 to 1024 bytes and its offset is at most 9999999 |
| `Database.AllBlank` | apue.3e/db/db.c:861-864 | The scan tells exactly whether every character of the key is a space |
| `DbRuns.Scan` | apue.3e/db/db.c:812-875 | From a rewind to the end of the file: every live key with a character other than a space exactly once with its data, and nothing else, up to the first key with a separator if the map has one: then, and only then, the process ends |
| `DbRuns.ListingIsContents` | apue.3e/db/db.c:835-864 | The records in file order whose key is not blank are exactly the map, blank keys aside, each key once |
| `DbRuns.ListingDistinct` | apue.3e/db/db.c:835-864 | No key is listed twice |
| `DbRuns.ModestFits` | apue.3e/db/db.c:567-583 | Calls within the stated limits never meet the record or pointer limits |
| `Decimal.AtolOfPad` | apue.3e/db/db.c:323-334 | Reading a padded decimal field gives back the number printed, at any width |
| `Decimal.DecWidth` | apue.3e/db/db.c:618-625 | Numbers within the limit never widen their field |
| `DbFormat.ReadBackRecord` | apue.3e/db/db.c:343-418 | Round trip: what `_db_writeidx` printed, anywhere in a file, reads back as the same key, pointer, offset and length if and only if the key has no separator; with one, the process ends |
| `DbFormat.ParseBadText` | apue.3e/db/db.c:396-408 | Every key with a separator in it makes its record unreadable |
| `DbFormat.RecBytesParts` | apue.3e/db/db.c:577-583 | A record is its pointer in seven columns, its length in four, and its text |
| `DbFormat.RecordLooks` | apue.3e/db/db.c:572-583 | The bytes of one record, as an example |
| `DbImage.RecordAt` | apue.3e/db/db.c:590-606 | Index records tile the index file from the end of the hash table to the end of the file |
| `DbImage.DataAt` | apue.3e/db/db.c:546-555 | The data ranges that the index records name are disjoint and tile the data file |
| `DbImage.ReadRecord` | apue.3e/db/db.c:343-418 | Reading at the offset of a record returns that record |
| `DbImage.ReadData` | apue.3e/db/db.c:424-435 | Reading at the data offset of a record returns its data |
| `DbImage.SetNext` | apue.3e/db/db.c:618-631 | Writing a pointer changes one record in its pointer and nothing else |
| `DbImage.SetRecord` | apue.3e/db/db.c:567-606 | Writing a record of the same size rewrites exactly its bytes; the rest of the file stays |
| `DbImage.SetData` | apue.3e/db/db.c:531-555 | Writing data of the same length rewrites exactly its bytes |
| `DbImage.SameLayout` | apue.3e/db/db.c:463-515 | Blanking or reusing a record moves no record in either file |
| `DbImage.Append` | apue.3e/db/db.c:680-681 | Appending to both files adds one record at the end of each |
| `DbLists.Unlink` | apue.3e/db/db.c:516-522 | Bypassing one record leaves every list well formed and removes exactly its key |
| `DbLists.Push` | apue.3e/db/db.c:683-697 | A record in hand goes to the front of its list and adds exactly its key |
| `DbLists.Overwrite` | apue.3e/db/db.c:732-737 | Overwriting the data of a live record changes the map at its key only |
| `DbHeap.ReadLink` | apue.3e/db/db.c:289-296 | The pointer stored before a position of a list is the offset of the record there |
| `DbHeap.WriteRecord` | apue.3e/db/db.c:567-606 | Rewriting a record in both files is the rewriting of that record in the heap of records |
| `DbMoves.DeleteInAnyOrder` | apue.3e/db/db.c:486-522 | The writes of a deletion come to an unlink, a blanking and a push |
| `DbMoves.DeleteKeeps` | apue.3e/db/db.c:463-525 | A deletion keeps the whole file invariant: tiling, lists and hash placement |
| `DbMoves.DeleteLists` | apue.3e/db/db.c:463-525 | A deletion removes exactly one key from the map |
| `DbMoves.AppendLists` | apue.3e/db/db.c:676-688 | An append adds exactly one key to the map |
| `DbMoves.TakeFree` | apue.3e/db/db.c:778-790 | Taking a free record keeps the map and the file invariant |
| `DbMoves.FillLists` | apue.3e/db/db.c:689-698 | Filling a free record adds exactly one key to the map |
| `DbMoves.FreeListComplete` | apue.3e/db/db.c:770-776 | A full walk of the free list that found no fit means that no deleted record fits |
| `DbConcurrent.RunKeeps` | apue.3e/db/db.c:259-301 | In every state of every interleaving of any number of processes, each lock call and each read or write of a pointer, of an index record or of data one step, processes that end at a key with a separator or at a check of their append included, the lists, the locks and the agreement of the files with the table hold; `DbFileRuns` shows that reading a record in two calls and seeking before an append add nothing |
| `DbConcurrent.StepGood` | apue.3e/db/db.c:463-525 | Every step a process can take keeps that, disturbs no other process, and only a lock call can be unable to go on |
| `DbConcurrent.WhereRecordsAre` | apue.3e/db/db.c:463-525 | Every index record is on exactly one list, the chain of its key or the free list, except the one record the writer of a chain is moving, and records left behind by a process that ended before it could link them |
| `DbConcurrent.RewriterHoldsBoth` | apue.3e/db/db.c:480-524 | A record can be on both lists only while its mover holds the write locks of the chain and of the free list |
| `DbConcurrent.FollowingPointers` | apue.3e/db/db.c:289-296 | Following the pointers of a list that no deletion is rewriting leads through exactly its records |
| `DbConcurrent.ListStable` | apue.3e/db/db.c:273-296 | The chain a lock holder walks is changed by no other process |
| `DbConcurrent.NoDeadlock` | apue.3e/db/db.c:480-484 | The lock order, a chain and then the free list or an append lock, admits no deadlock: some process can always step |
| `DbConcurrent.NoWaitHolding` | apue.3e/db/db.c:542-559 | The holder of the free list or of an append lock never waits |
| `DbConcurrent.WhoWaits` | apue.3e/db/db.c:273-283 | A lock call waits if and only if another process is where that lock keeps it out: past the lock of the same chain, unless both calls fetch, at the free list, or at the end of the same file |
| `DbConcurrent.StepsRunOut` | apue.3e/db/db.c:259-301 | Every step of a call brings it nearer to its end, so a call that keeps stepping returns |
| `DbConcurrent.OthersDoNotDelay` | apue.3e/db/db.c:273-283 | Steps of other processes leave a call where it is |
| `DbConcurrent.EffectsOnce` | apue.3e/db/db.c:637-746 | A call in progress has taken effect at most once since it began |
| `DbConcurrent.Linearizable` | apue.3e/db/db.c:637-746 | The calls of all processes, in the order in which they took effect, get the answers of one table; each takes effect once, between its start and its return, with the answer it returns |
| `DbConcurrent.TakesEffectInTime` | apue.3e/db/db.c:637-746 | A call that returns took effect as the call it was started as, with the answer it returns, after everything that had taken effect when it was started: calls that do not overlap take effect in their order in time |
| `DbConcurrent.AnswersInRuns` | apue.3e/db/db.c:233-253 | In every run of any number of processes, each answer is the one that the calls which took effect before it, and their answers, call for, in the terms of `DbHistory.AnswersAreTrue` |
| `DbConcurrent.QuietFilesHoldTable` | apue.3e/db/db.c:259-301 | When no process is in a call, the chains hold exactly the table that the calls made |
| `DbConcurrent.NoLocksLeft` | apue.3e/db/db.c:277-283 | A process whose call returned, or that ended, holds no lock |
| `DbBarred.SeparatorsKeep` | apue.3e/db/db.c:285-300 | Among any number of processes too, a key with a separator is the first on its chain in every state, and no call gets past it |
| `DbBarred.EndsIffBarred` | apue.3e/db/db.c:396-408 | Reading a record of its chain ends the process of a call if and only if the table has a key with a separator on that chain, and then at the first record and without an effect |
| `DbBarred.BarredCallEnds` | apue.3e/db/db.c:285-300 | A call whose chain has such a key is waiting for its lock, reading the head or the first record, or leaving; never further |
| `DbBarred.EffectsAreOpen` | apue.3e/db/db.c:637-746 | Of the calls that took effect in a run, none was barred by a key with a separator in the table it met |
| `DbInsertSteps.FailKeeps` | apue.3e/db/db.c:567-612 | A process that ends at a check of its append keeps the invariant: its record is on no list, and a store whose old record was deleted already counts as that deletion |
| `DbIndexFile.ReadsBack` | apue.3e/db/db.c:343-418 | The two reads at the offset of a record give its pointer, length, key, data offset and data length, or end the process at a separator |
| `DbIndexFile.RecordWritten` | apue.3e/db/db.c:567-606 | Writing an index record of the same length over another changes that record and no other byte |
| `DbIndexFile.NextWritten` | apue.3e/db/db.c:618-631 | Writing a pointer at the offset of a record changes its chain pointer and no other byte |
| `DbIndexFile.RecordAppended` | apue.3e/db/db.c:590-611 | Writing a record at the end of the file adds it after all others |
| `DbIndexFile.StandApart` | apue.3e/db/db.c:590-606 | No two index records overlap |
| `DbFileRuns.FilesKeep` | apue.3e/db/db.c:424-631 | With the bytes of both files in the state, an index record read in two calls, and the seek and the write of an append apart: in every state of every run the index file is its header and its records without a gap, each within the limits of its fields, no two data ranges overlap, every range holds the data of its record, and an end that was sought is still the end |
| `DbFileRuns.FileStepGood` | apue.3e/db/db.c:424-631 | Every step on the files keeps that and is a step of the database or only a read or a seek, and only a lock call can be unable to go on: what is read is what the database goes by, and what is written fits its field |
| `DbFileRuns.FilesRunDatabase` | apue.3e/db/db.c:424-631 | A run on the files is a run of the database, seeks and first reads aside, so what is proved of those runs holds of these |
| `DbFileRuns.IndexIsRendered` | apue.3e/db/db.c:577-606 | The index file, byte for byte: the header with the pointers of all lists, and the records in the order of their appends, each once |
| `DbFileRuns.IndexReads` | apue.3e/db/db.c:323-418 | Reading the index file at a list head or at a record gives what the database goes by there |
| `DbFileRuns.FrontIsTheRecord` | apue.3e/db/db.c:363-388 | The pointer and length read before the text of a record are still those of the record when the text is read |
| `DbFileRuns.SoughtIsTheEnd` | apue.3e/db/db.c:542-559 | The end that an append sought under its lock is the end when it writes |
| `DbFiles.OneAppends` | apue.3e/db/db.c:590-611 | No two processes are between seek and unlock of the same file: this is what the append locks are for |
| `DbFileReads.TextReading` | apue.3e/db/db.c:382-418 | The second read of a record, parsed, is what the walk of the database goes by; it gives the handle the data offset |
| `DbFileWrites.DataWriting` | apue.3e/db/db.c:531-555 | Writing over the data of a record leaves every other range as it was |
| `DbFileWrites.RecordRewriting` | apue.3e/db/db.c:567-606 | Rewriting an index record in place fits its fields and leaves every other record as it was |
| `DbFileWrites.PointerWriting` | apue.3e/db/db.c:618-631 | A pointer write fits its field and changes just that pointer |
| `DbFileWrites.DataAppending` | apue.3e/db/db.c:542-559 | Appended data lies past every range there is, and leaves all of them as they were |
| `DbFileWrites.IndexAppending` | apue.3e/db/db.c:590-611 | An appended index record lies past every record there is, and takes over the range of the data appended before it |
| `DbFileRuns.RecordsApart` | apue.3e/db/db.c:531-612 | Index records and the data they name never overlap, whichever processes wrote them |
| `DbFileRuns.FetchReadsData` | apue.3e/db/db.c:424-435 | The bytes a fetch reads, at the data offset in its handle, are the data of the record it found, and a newline |
| `DbFileRuns.FilesNoDeadlock` | apue.3e/db/db.c:531-612 | Some process can always take its next step on the files |
| `DbQuietSteps.LockKeeps` | apue.3e/db/db.c:277-283 | Taking and giving up locks keeps the invariant |
| `DbQuietSteps.WalkKeeps` | apue.3e/db/db.c:289-296 | Walking a chain or the free list keeps the invariant |
| `DbLogSteps.DecideKeeps` | apue.3e/db/db.c:661-705 | Deciding what to do with the outcome of a walk keeps the invariant, and an answer given here is the table's |
| `DbWriteSteps.DelIdxKeeps` | apue.3e/db/db.c:509-509 | Rewriting the index record of a deletion keeps the invariant while the chain still leads to it |
| `DbWriteSteps.DelLinkKeeps` | apue.3e/db/db.c:522-522 | Bypassing the record completes the deletion |
| `DbInsertSteps.FreeTakeKeeps` | apue.3e/db/db.c:789-790 | Taking a free record keeps the invariant |
| `DbInsertSteps.LinkHeadKeeps` | apue.3e/db/db.c:683-697 | Linking a filled record at the head of its chain makes the store take effect |
| `DbInsertSteps.OverwriteKeeps` | apue.3e/db/db.c:732-737 | Overwriting data in place makes the store take effect |
| `FooRuns.StepGood` | apue.3e/threads/mutex2.c:44-104 | No step of any thread, in both designs, touches a freed object, follows a null pointer, or unlocks or destroys a mutex wrongly; none is destroyed that another thread holds or awaits |
| `FooRuns.RunKeeps` | apue.3e/threads/mutex2.c:19-104 | Every state of every run of any number of threads keeps the protocol of locks, chains and counts |
| `FooRuns.CountsAreReferences` | apue.3e/threads/mutex2.c:74-102 | The count of a published object is the number of references held to it, in the unlock and relock window too; with one lock it differs only while a last release unlinks the object |
| `FooRuns.ChainsHoldThePublished` | apue.3e/threads/mutex2.c:58-63 | The pointers from a table entry lead through exactly the published objects with that hash value |
| `FooRuns.ImplementsTable` | apue.3e/threads/mutex3.c:18-90 | Both designs implement one atomic table: the calls in the order they took effect are allowed by it and return what it returns |
| `FooRuns.EffectsOnce` | apue.3e/threads/mutex3.c:18-90 | Every call takes effect exactly once |
| `FooRuns.NoDeadlock` | apue.3e/threads/mutex2.c:74-97 | The order, the table lock before the lock of an object, never deadlocks |
| `FooRuns.HolderRuns` | apue.3e/threads/mutex2.c:44-50 | A thread that has the lock of an object never waits |
| `FooTable.ReferencesBalance` | apue.3e/threads/mutex2.c:44-104 | Conservation: an object stays in the table exactly as long as more references were taken than given back |
| `FooTable.SoundApply` | apue.3e/threads/mutex2.c:19-104 | Every call keeps each object on exactly the chain of its id, once, with a reference |
| `FooTable.FirstFound` | apue.3e/threads/mutex2.c:58-63 | A search returns the first object of the chain with the id |
| `FooHistory.EveryFind` | apue.3e/threads/mutex2.c:53-66 | In any log the table allows, a search finds the object allocated last among those with the id to which more references were taken than given back, and NULL exactly when there is none |
| `FooHistory.RunAges` | apue.3e/threads/mutex2.c:19-42 | Objects keep the id they were allocated with, and on every chain the later ones come first |
| `FooObjects.FreeKeeps` | apue.3e/threads/mutex2.c:98-99 | Freeing an object that has left the table keeps the protocol |
| `FooCuts.CutWriteKeeps` | apue.3e/threads/mutex2.c:87-95 | Unlinking removes exactly the object, whether first on its chain or later |
| `Semaph.RunKeeps` | apue.3e/lib/semaph.c:89-253 | With processes killed between any two system calls, every run on which no creator meets an initialised set with all opens taken keeps the protocol of lock, counter and undo values |
| `Semaph.StepKeeps` | apue.3e/lib/semaph.c:105-162 | No system call inside a critical section finds its set removed, and the counter is never found above BIGCOUNT |
| `Semaph.LockMeansOne` | apue.3e/lib/semaph.c:49-54 | The lock member is 1 exactly when one live process is in its critical section |
| `Semaph.CounterAddsUp` | apue.3e/lib/semaph.c:56-71 | In an initialised set the counter and the outstanding opens add up to BIGCOUNT; otherwise both are zero |
| `Semaph.RemovalIsSafe` | apue.3e/lib/semaph.c:232-252 | Without sem_rm, no close removes a set that a process joined through sem_create still has open |
| `Semaph.InitialisesOnce` | apue.3e/lib/semaph.c:135-153 | A creator initialises the set if and only if that is still to be done |
| `Semaph.CrashUndoes` | apue.3e/lib/semaph.c:49-61 | A process killed in its critical section leaves the lock free and a half-finished initialisation to be redone |
| `Semaph.DieKeeps` | apue.3e/lib/semaph.c:56-65 | Exit or kill at any point keeps the protocol: the kernel gives back the lock and the opens |
| `Semaph.SetCountKeeps` | apue.3e/lib/semaph.c:138-153 | Setting the counter of a new set clears no undo value that is still needed |
| `Semaph.ReadKeepsUnlessFull` | apue.3e/lib/semaph.c:135-138 | The step that reads the counter keeps the protocol if and only if the set is not initialised with all BIGCOUNT opens taken |
| `Semaph.FullGoesWrong` | apue.3e/lib/semaph.c:138-153 | In that case the creator sets a counter that no longer matches the opens |
| `Semaph.FullIsReachable` | apue.3e/lib/semaph.c:174-197 | A concrete run that gets there: one process opens the set as often as the counter allows, another creates it |
| `SemaphValues.ValueAddsUp` | apue.3e/lib/semaph.c:283-291 | In every state of every run the value of the set is what it was last set to, plus the amounts of all operations that went through since, plus what the kernel gave back for processes that exited, and is not negative; what the kernel holds for a process is the negative of what that process added |
| `SemaphValues.StartsAsCreated` | apue.3e/lib/semaph.c:138-148 | That initial value is the one a creator asked for, in every initialised set of a run on which no creator meets a full set |
| `SemaphValues.WaitsAndSignals` | apue.3e/lib/semaph.c:255-276 | While no process exits and the set stays: the value falls by one for each wait and rises by one for each signal, so never more waits go through than there were signals and the value to begin with; with the value one at most one more |
| `SemaphValues.NotNegative` | apue.3e/lib/semaph.c:283-291 | The value is never negative |
| `SemaphValues.WhoWaits` | apue.3e/lib/semaph.c:45-81 | A process blocks if and only if it wants the lock while another is in its critical section, opens a set with all 10000 opens taken or not initialised, or its operation would take the value below zero |
| `SemaphValues.LastCloses` | apue.3e/lib/semaph.c:243-252 | A close goes on to remove the set if and only if nobody has it open any more |
| `IniRoundTrip.PrintedIsReadBack` | cpp/recept/SimpleIni.h:2369-2492 | Reading what the printer wrote gives back the same sections, keys and values in the same order, multi-line values included |
| `IniRoundTrip.AnyLineEnds` | cpp/recept/SimpleIni.h:1754-1815 | A tagged block yields its lines joined by single newlines for any mix of LF, CR and CRLF, the line of the end tag included, and leaves the text after that line |
| `IniRoundTrip.WrittenIsRead` | cpp/recept/SimpleIni.h:1502-1633 | A store written in any layout is loaded back the same, order included: comments, blank lines, lines without = and lines without a key before its entries and at the end, blanks before and around names and values, anything after the bracket of a section line, either line end, values on their line or in blocks with any tag that is none of their lines |
| `IniRoundTrip.NotesSkipped` | cpp/recept/SimpleIni.h:1515-1595 | Any number of lines that are blank, start with ; or #, have no = and no bracket first, or nothing before the =, change nothing that is loaded from what follows them |
| `IniRoundTrip.EntryLoaded` | cpp/recept/SimpleIni.h:1571-1632 | One section line or key, in any layout, has just its effect on the store |
| `IniRoundTrip.SectionFound` | cpp/recept/SimpleIni.h:1531-1567 | A section line, blanks and all, is found as its name |
| `IniRoundTrip.KeyRead` | cpp/recept/SimpleIni.h:1571-1627 | A key line, blanks and all, is found as its key and value, or leads to its block |
| `IniRoundTrip.TagFound` | cpp/recept/SimpleIni.h:1622-1625 | A value in a tagged block is found as its lines |
| `IniRoundTrip.BlockRead` | cpp/recept/SimpleIni.h:1754-1815 | The lines of a block are read up to the end tag |
| `IniRoundTrip.BlockUnended` | cpp/recept/SimpleIni.h:1754-1815 | A block without its end tag goes to the end of the text |
| `IniRoundTrip.EntriesTaken` | cpp/recept/SimpleIni.h:1845-1948 | Adding the entries of a store one after the other to an empty one gives that store |
| `IniRoundTrip.PrintedIsWritten` | cpp/recept/SimpleIni.h:2369-2492 | What is printed is one of those layouts: two empty lines before each section but the first |
| `IniRoundTrip.SplitLines` | cpp/recept/SimpleIni.h:2496-2521 | Splitting a value at newlines and joining the lines again is the identity |
| `IniParser.Tokenizer.FindEntry` | cpp/recept/SimpleIni.h:1502-1633 | The in-place tokenizer finds what the grammar of the text says is next, leaves the rest unread and what was read before unchanged |
| `IniParser.Tokenizer.LoadTagText` | cpp/recept/SimpleIni.h:1694-1816 | A tagged block becomes one string behind the read pointer; it fails exactly for an empty tag at an empty line |
| `IniParser.Tokenizer.MoveLine` | cpp/recept/SimpleIni.h:1759-1772 | Moving a line down never changes a byte that is not read yet |
| `IniParser.Tokenizer.TakeLine` | cpp/recept/SimpleIni.h:1754-1815 | One line of a block is compared with the tag and joined to the ones before |
| `IniParser.Tokenizer.LoadComment` | cpp/recept/SimpleIni.h:1722-1752 | A comment and the blank lines inside it are skipped to where the grammar says |
| `IniParser.Tokenizer.ReadSection` | cpp/recept/SimpleIni.h:1531-1567 | A section line gives its trimmed name, or is passed when it has no closing bracket |
| `IniParser.Tokenizer.ReadKey` | cpp/recept/SimpleIni.h:1571-1595 | A key line gives its trimmed key and its value; other lines are passed |
| `IniParser.Tokenizer.ReadValue` | cpp/recept/SimpleIni.h:1597-1632 | The value of a key is the trimmed rest of its line, or a tagged block |
| `IniParser.Tokenizer.CutRight` | cpp/recept/SimpleIni.h:1551-1556 | Ending a string before its trailing whitespace changes nothing that is not read yet |
| `IniParser.Tokenizer.SkipNewLine` | cpp/recept/SimpleIni.h:1170-1172 | A line end of one or two characters is passed |
| `IniParser.Tokenizer.Less` | cpp/recept/SimpleIni.h:2631-2666 | The loop over two strings decides the order of the comparison classes |
| `IniParser.SameIsNeitherBefore` | cpp/recept/SimpleIni.h:1774-1778 | Neither of two strings is less than the other exactly when they are equal, ASCII case apart if so chosen |
| `IniText.SameMeans` | cpp/recept/SimpleIni.h:2631-2666 | Two names are the same exactly when they are equal or, where case does not matter, differ only in the case of ASCII letters |
| `IniStore.Ini.AddEntry` | cpp/recept/SimpleIni.h:1845-1948 | A new section comes last and a new key last in its section; a key that is there keeps its place and the name it was first loaded with and gets the value; nothing else changes; says whether anything was inserted |
| `IniStore.Ini.Delete` | cpp/recept/SimpleIni.h:2523-2581 | Deleting removes exactly the key or the section and says whether it was there: without prune every section stays, and every other key keeps its place and value; with prune a section goes with its last key |
| `IniStore.NamesApart` | cpp/recept/SimpleIni.h:1845-1948 | No two sections of the store, and no two keys of a section, have the same name |
| `IniStore.Ini.LoadData` | cpp/recept/SimpleIni.h:1381-1455 | Loading a text adds its entries one after the other to the ordered store; for texts in any layout `IniRoundTrip.WrittenIsRead` says which these are |
| `IniStore.Ini.LoadEntry` | cpp/recept/SimpleIni.h:1440-1443 | Each entry strictly advances the read pointer, so loading ends |
| `IniStore.Ini.Save` | cpp/recept/SimpleIni.h:2367-2492 | Printing goes through sections and keys in load order |
| `IniStore.Ini.SaveKey` | cpp/recept/SimpleIni.h:2459-2485 | A key is printed with its value, tagged when it does not fit on a line |
| `IniStore.Sorted` | cpp/recept/SimpleIni.h:2377-2387 | Sorting the entries of a map by load order gives the order in which they were first loaded |
| `IniStore.IsMultiLineData` | cpp/recept/SimpleIni.h:1648-1683 | Tells exactly the values that start or end with whitespace or have a line end in them |
| `IniStore.OutputMultiLineText` | cpp/recept/SimpleIni.h:2494-2521 | Prints each line of a value with the platform's line end |
| `IniStore.SaveAndLoad` | cpp/recept/SimpleIni.h:2367-2492 | What was saved and loaded into a new store is the same store |
| `UntarArchive.ArchiveUnpacked` | cpp/recept/zn_untar.cpp:17-112 | However an archive of regular files with short or GNU long names is cut into pieces and whatever follows it, the calls of `on_write` carry each member's name and time, concatenate to its exact bytes, and only the last has as many bytes left as it is given; headers of other kinds and blocks that are no headers, before, between and after the members, make no difference |
| `UntarArchive.OtherKindPassed` | cpp/recept/zn_untar.cpp:46-51 | A header of another kind without data, or a block that is no header, leaves no trace between members |
| `UntarArchive.OthersPassed` | cpp/recept/zn_untar.cpp:17-51 | Any number of such blocks, with any size field, change at most the size read last |
| `UntarArchive.EmptyTakesNext` | cpp/recept/zn_untar.cpp:78-91 | A file of size zero takes the next block, whatever it is, for its content, and makes one empty call |
| `UntarArchive.PackedFilesReturn` | cpp/recept/zn_untar.cpp:17-112 | Round trip: plain files packed with standard headers come back as they were |
| `UntarArchive.AnyInputIsOrderly` | cpp/recept/zn_untar.cpp:78-92 | For any input, archive or not: every call is a whole block or the last part of a member, and goes on from the call before it |
| `UntarArchive.MemberFed` | cpp/recept/zn_untar.cpp:28-107 | From between two members, one member makes exactly its calls and leads back there |
| `UntarArchive.LongNameFed` | cpp/recept/zn_untar.cpp:93-107 | The blocks of a long name, NUL-ended or not, give exactly the name |
| `UntarArchive.MemberDelivered` | cpp/recept/zn_mailbox_dump.cpp:37-44 | The calls for a member tell its end exactly at the last one |
| `UntarArchive.EndFed` | cpp/recept/zn_untar.cpp:69-72 | Two blocks of zeros end the archive, one does not |
| `UntarArchive.PackedIsGood` | cpp/recept/zn_tar_internal.hpp:1-21 | A standard header is one the archive theorem covers |
| `Untar.FedTwice` | cpp/recept/zn_untar.cpp:54-112 | feed(a) and feed(b) give the state and calls of feed(a+b), and before the end of the archive the same leftover bytes |
| `Untar.FedInPieces` | cpp/recept/zn_untar.cpp:54-112 | The same for any number of pieces |
| `Untar.EofStays` | cpp/recept/zn_untar.cpp:60-63 | After the end of the archive no input changes the state |
| `Untar.UntarStream.Feed` | cpp/recept/zn_untar.cpp:54-112 | The loop over blocks takes the state and the buffer where the machine leads on buffer and input |
| `Untar.UntarStream.SetTarInfo` | cpp/recept/zn_untar.cpp:17-52 | What a header block sets, and whether it is one the program handles |
| `Untar.UntarStream.TakeBlock` | cpp/recept/zn_untar.cpp:65-110 | One block in any state: header, content or long name |
| `Untar.FeedPieces` | cpp/recept/zn_untar.cpp:54-112 | A stream fed piece by piece ends in the state of the whole input |
| `Untar.BufferedStream.Shift` | cpp/recept/zn_stream.hpp:41-51 | Takes exactly the bytes asked for off the front, or none |
| `Untar.BufferedStream.Unshift` | cpp/recept/zn_stream.hpp:53-56 | Puts bytes back in front |
| `Untar.BufferedStream.ShiftAll` | cpp/recept/zn_stream.hpp:36-39 | Takes the whole buffer |
| `Untar.AllZero` | cpp/recept/zn_untar.cpp:174-184 | Tells exactly whether all bytes are zero |
| `TarNumbers.SizeIsExact` | cpp/recept/zn_untar.cpp:138-172 | The size read from an octal field is exact if and only if it is below 587202560, or is the one size that the largest unsigned int happens to convert to |
| `TarNumbers.TimeIsExact` | cpp/recept/zn_untar.cpp:31-31 | The time field is never converted from octal, so it is exact if and only if it is a single digit, or the largest unsigned int |
| `TarNumbers.FieldReads` | cpp/recept/zn_untar.cpp:138-159 | A field is read as a decimal numeral, cut off at the largest unsigned int, whatever zeros, spaces and NULs surround it |
| `TarNumbers.SignRead` | cpp/recept/zn_untar.cpp:138-159 | A plus sign before the digits changes nothing, a minus sign wraps the number around |
| `TarNumbers.Ascii2Uint` | cpp/recept/zn_untar.cpp:138-159 | The erasing loops compute that reading |
| `TarNumbers.Base8To10` | cpp/recept/zn_untar.cpp:161-172 | The loop computes the value of the digits in base eight and stays in range |
| `TarNumbers.Base8Undoes` | cpp/recept/zn_untar.cpp:161-172 | Converting undoes reading an octal numeral as a decimal one |
| `SpoolThreads.JobsStayInOrder` | apue.3e/printer/printd.c:684-735 | In every run of any number of clients and the printer thread: the jobs that were printed or cancelled, then the one at the printer, then the list are the jobs in the order they were queued |
| `SpoolThreads.StuckMeansDone` | apue.3e/printer/printd.c:688-695 | No wakeup is lost and nothing deadlocks: when no thread can go on, every job has left, in order |
| `SpoolThreads.OnlyEarnedEnds` | apue.3e/printer/printd.c:716-839 | In every run, by its attempts: a job leaves as cancelled only after an attempt that could not open its file or get its status, and as printed only after one that the printer accepted with every send before it successful; every other attempt leaves the job next, at the printer or first in the list, and the next attempt is for that same job |
| `SpoolThreads.TriedOf` | apue.3e/printer/printd.c:716-832 | What `tried`, the history behind that, means: an attempt joins it exactly when the printer thread makes it |
| `SpoolThreads.RunKeeps` | apue.3e/printer/printd.c:285-313 | Every state of every run keeps mutual exclusion, the promise of a wakeup and the order of jobs |
| `SpoolThreads.OneAtATime` | apue.3e/printer/printd.c:285-292 | One thread at a time works on the list |
| `SpoolThreads.SomeoneGoes` | apue.3e/printer/printd.c:688-695 | While a job is listed or a client is at work some thread can go on |
| `SpoolThreads.LinkedOf` | apue.3e/printer/printd.c:285-292 | What `linked`, the history that the order of jobs is measured against, means: a job joins its end exactly when its client links it to the list |
| `Spool.TakeConserves` | apue.3e/printer/printd.c:688-695 | Taking a job neither loses nor overtakes one |
| `Spool.SettleConserves` | apue.3e/printer/printd.c:832-839 | Printing, cancelling or putting back a job neither loses nor overtakes one |
| `Spool.SubmitConserves` | apue.3e/printer/printd.c:275-294 | Queueing a job puts it after all others |
| `Spool.Spooler.AddJob` | apue.3e/printer/printd.c:275-294 | Appends to the linked list, whose head, tail, next and prev keep representing the queue |
| `Spool.Spooler.ReplaceJob` | apue.3e/printer/printd.c:301-313 | Puts a job back at the head of the linked list |
| `Spool.Spooler.RemoveJob` | apue.3e/printer/printd.c:320-331 | Unlinks a job from anywhere in the list |
| `Spool.Spooler.TakeJob` | apue.3e/printer/printd.c:688-695 | Takes the first job, or finds none |
| `Spool.Spooler.SettleJob` | apue.3e/printer/printd.c:716-839 | Each way an attempt can go: cancelled if the file cannot be opened or has no status, printed if everything after that succeeds, put back at the head otherwise |
| `JobLists.Queue.Insert` | apue.3e/threads/rwlock.c:37-49 | Inserts at the head of a doubly linked list |
| `JobLists.Queue.Append` | apue.3e/threads/rwlock.c:54-66 | Appends at its tail |
| `JobLists.Queue.Remove` | apue.3e/threads/rwlock.c:71-89 | Removes from anywhere, all four shapes |
| `JobLists.Queue.Find` | apue.3e/threads/rwlock.c:94-108 | Finds the first job of a thread, or proves that there is none |
| `JobLists.Queue.Init` | apue.3e/threads/rwlock.c:20-32 | Makes the queue empty and passes on what the initialisation of the lock returns |
| `Merging.Merge` | apue.3e/threads/barrier.c:59-78 | For any number and length of equal sorted ranges, fills the output with a sorted permutation of the input and never indexes outside a range |
| `Merging.Smallest` | apue.3e/threads/barrier.c:68-74 | The scan picks the first range with the least next number, and keeps its old choice if and only if no next number is below LONG_MAX |
| `Merging.MergedMore` | apue.3e/threads/barrier.c:75-76 | Taking the least next number keeps the output sorted, below what is left, and the whole a permutation |
| `Merging.LeastOfLeft` | apue.3e/threads/barrier.c:69-74 | The least next number of sorted ranges is the least of all that is left |
| `LineReader.Reader.ReadLine` | unpv13e/lib/readline.c:28-49 | Stores exactly the next line of the stream, however reads split or interrupt it, and NUL-ends it: up to and with its newline, or to the end of the stream, or exactly one byte less than the room; after an error the bytes read so far are a lost prefix of that line |
| `LineReader.Reader.MyRead` | unpv13e/lib/readline.c:8-26 | Hands out the next byte of the stream, or reports its end or an error without losing any |
| `LineReader.Reader.Fill` | unpv13e/lib/readline.c:12-21 | Reading again after EINTR loses nothing |
| `LineReader.ReadLines` | unpv13e/lib/readline.c:28-49 | Any number of successive calls, going on after errors: what they stored and what is still to come are, joined, the stream, and without an error they stored its lines |
| `LineReader.LineEnds` | unpv13e/lib/readline.c:35-47 | A newline is only ever last, and a line without one ends where the stream or the room ends |
| `LineReader.LinesAreTheStream` | unpv13e/lib/readline.c:35-47 | What successive calls store is, joined, a prefix of the stream |
| `LineReader.LastLine` | unpv13e/lib/readline.c:40-42 | With room enough, a result without a newline means that the whole stream was read |

## Left out

- Characters stand for bytes. The order in which the INI comparison puts bytes from 128 up is that of
  unsigned characters; whether two names are equal does not depend on it.
- Failing system calls and allocation failures in the database: `err_dump` and `err_quit` are the outcome
  `Halted`, reached only by the checks the code makes on its own data. `db_open` of an existing file,
  the statistics counters, and several handles in one process are not part of this model.
- Database.Db.Store: a key so long that `sprintf` overruns the index buffer before the length check is
  rejected by that check here; the overrun is not modelled, nor is a `long` overflow in `atol`.
- DbConcurrent.RunKeeps: `db_nextrec` beside writers is not part of the interleaving, nor are stores whose data
  length is out of range, which end their process before it takes a lock.
- DbConcurrent.StepsRunOut: fairness of locks is not modelled; a waiting process may wait as long as
  others keep taking the lock.
- FooRuns.CountsAreReferences: counts are unbounded integers; more than `INT_MAX` references to one object
  are not modelled.
- FooRuns.StepGood: calls are made only with references the thread holds, which is what the program
  demands of its callers.
- Semaph.RunKeeps: permissions and full tables in `semget`, values above the system's limits, reuse of set
  identifiers, `sem_rm` and `IPC_PRIVATE` keys are not modelled; a process that joined through `sem_open`
  takes no lock and is not protected from removal. A process blocked on the lock while the set is removed
  gets EIDRM and ends in `err_sys`; here it ends by being killed at that point, or comes back to find the
  set gone and starts over, as it does when it arrives later.
- IniRoundTrip.WrittenIsRead: a section line with an empty name, and lone carriage returns at the ends of lines
  outside of blocks, are not among its layouts.
- IniRoundTrip.PrintedIsReadBack: names and keys are trimmed and free of delimiters and no two are the
  same, an unnamed section comes first and has a key, no '\r' is in a value, no single-line value starts
  with "<<<", and no line of a value is the end tag; outside of this the printed text means something else.
- IniStore.Ini.LoadData: says nothing of a text with an empty tagged block or a section line without ']',
  after which the code's current section is whatever the buffer holds.
- IniStore.Sorted: the library sort is modelled by selecting the least order again and again.
- Several values for one key, the text of comments, character converters, numeric accessors and the
  bookkeeping of copied strings of the INI store.
- UntarArchive.ArchiveUnpacked: members are non-empty regular files without a prefix field, and sizes are
  those read exactly; see `UntarArchive.EmptyTakesNext` for an empty one.
- TarNumbers.Base8To10: the powers of eight, computed in floating point, are modelled as integers; they
  are exact at this size.
- The subclass of the untar stream that renames folders, and writing the files.
- Spool.Spooler.SettleJob: each outcome of opening, connecting, sending and answering is an input; HTTP and
  IPP headers, the reading of the printer's answer and the reread of the configuration are left out.
- SpoolThreads.StuckMeansDone: the work on the list inside one critical section is one step, as mutual
  exclusion makes it; the spool directory, job numbers and the list of worker threads are left out.
- Merging.Merge: the sort of each range is assumed, and all numbers are below `LONG_MAX`. The scan cannot
  pick a number that is not (`Merging.Smallest`), but the program makes its numbers with `random`, which stays
  far below a `LONG_MAX` of 64 bits.
- LineReader.Reader.ReadLine: one descriptor uses the static buffer, and the stream does not grow after
  its end was seen.
- The remaining programs of the repository: wrappers of system calls and libraries, terminal code,
  network clients and short examples.
