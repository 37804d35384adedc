# BOS arrays and FPACK files: model and proofs

A Dafny model of the event I/O library in `src/bosio/bosio.s` of this repository, with proofs of
what the library promises, and of the DMA buffer lists in `src/jvme-release-3.0`.  Four components
are modelled.

* **The BOS array**, a bank allocator inside one flat array of integers.  Named banks grow up from
  `inm` to `igp`, work banks grow down from the top to `iwk`, and the gap lies between.  A bank is
  addressed by the index of its length word; five header words lie below it.  A negative length
  marks a dropped bank.  Banks of one name form a chain, linked in ascending order of their
  numbers.  Link banks are work banks that cache a long chain as a sorted table.
* **FPACK files**, sequences of blocks.  A logical record of banks is written as it is, or split
  into record segments; a bank at the end of a block is split into data segments.  Reading puts
  the pieces together again.
* **The word converter**, an interpreter of nested repeat groups of type codes that converts data
  words between two byte orders.
* **DMA buffer partitions**, lists of buffers that are linked through themselves.  Several clients
  take buffers from them, put them on other lists and free them, under one lock.

## How the model is built

`BankLayout`, `Chains` and `NamedArea` describe the named banks as a value: tilings, chains, and
what each elementary change of the array does to the invariant and to the meaning.  The meaning
of an array is, for every name, the list of its banks (number, columns, rows, data) in chain
order; `Directory` says how such a list changes.  `WorkArea`, `WorkBanks` and `LinkTables` do the
same for work banks, their handles and the cached tables.  `BosArrays` has the array object with
its system words; its `Valid()` is the conjunction of all these invariants, and `Contents()` is
its meaning.  `Dropping`, `ListDropping`, `Creating`, `Compaction`, `Garbage`, `WorkBankOps`,
`Linking` and `Initialising` hold the operations, as methods on that object with the source's own
loops and writes.  `Records`, `Splicing` and `Loading` model `bosins`, which turns the data words
of one bank into many banks where they lie.  `Runs` puts calls together to whole runs.

While `bosins` is at work the array is looked at with the record bank empty and the named area
ending at the next fragment (`BosArrays.BosArray.Seen`).  Everything proved about the array in
order then holds in the middle of the operation too.

`Segments` says what a sequence of data segments makes up.  `Splitting` and `EtWriting` model the
writer, `EtReading` the reader, `FileTransfer` joins them, for any sequence of writes and flushes.
Writer and reader are both related to `Segments.Assemble`, which knows about neither.  A block that
was written without a record stands in the stream of segments as one segment without banks, whose
header is what was left over in its place (`EtWriting.Leavings`): that is what a reader takes it for.
Of the writer's two output buffers, which are used in turn, `buf` is always the one in use and
`spare` has the words of the other.  The ghost field `mark` says where the last split record begins, and
what its writer has put into the words that number its segments.  `DdReading` is the second reader, which joins
whole record segments; it is proved against the same notion, so that both readers agree.

Array and file meet in `EventUnloading` (`bos2et`), `EventLoading` (`et2bos`), `BosWriting`
(`bosWrite`) and `BosReading` (`bosRead`).  What all four transfer is the list of banks of the
listed names; `EventTransfer` proves that it arrives in another array on every way: through a
flat record, through a flat record and a file, and through a file alone.  `Repetition` says what
becomes of a bank that is in a record several times.  `FormatCodes` relates the format texts that
are written to the words that the array and the flat record give a bank.  `HeaderTexts` treats the format texts in bank
headers, byte by byte on a little-endian machine, and `EventWalking` the way of `et2bos` through a
flat record, in the course of which it changes the event buffer.  `GapEnds` says what a bank header
does that is written where the gap has no room for it.

`EtBanks` has the functions that find, enumerate and add banks inside a flat record, and
`FileNames` the expansion of lists of file names.

`DmaLists` has the linked nodes as objects, with the list's own assignments.  `DmaPartitions` proves
every operation against a value: queues of buffers, and buffers held by clients.  Since every
operation holds the lock, an interleaving of clients is a sequence of operations.

`Formats` defines the type that a format gives to every word of an unbounded stream;
`Interpreting` and `Converting` prove that the interpreter computes it.  `WordConversion` treats
single words as 32-bit vectors, with the arithmetic right shift of the source.

## What was found

* `bosWdrop` only marks a bank: the loop that should regain space (`boswdrop.c:55`) tests the
  handle, which has just been cleared.  The zeroing loop of `bosWcreate` (`boswcrea.c:128`) takes
  a length for an end index; it clears few words or none, and never one outside the fresh part
  of the bank.
* In the binary search of `bosNlink` the test of the lower end after the loop
  (`bosnlink.c:129`) never succeeds.
* `mamind` accepts one name more than there is room for (`mamind.c:62`): a full list takes a new
  name, and the array, which has no place for its chain, is not in order any more
  (`Creating.Mamind`).
* Conversion of words of types A, K and J there and back restores exactly those in which no sign
  bit moves to the top, and the word with all bits set; words of type F are restored unless they
  are the smallest integer, which becomes zero (`WordConversion.ThereAndBack`).
* `et2bos` ends the format text of every bank with a NUL in the event buffer, before it copies the
  data (`et2bos.c:72-75`).  When the text fills its header words, the NUL hits the first byte of the
  data.  `bos2et` makes such headers itself, of every text without a blank whose length is a multiple
  of four (`HeaderTexts.TextStops`): a bank with format "2I,F" and the data word 1 arrives with 0
  (`EventTransfer.FourCharacters`).  A bank arrives as it is if and only if it has no data, or it
  stands alone and its text leaves room for the NUL or the first byte of its data is zero anyway
  (`EventTransfer.CopiedBank`).  Behind a bank without data the NUL hits the next header; the
  walk comes to every bank if and only if no bank but the last is of this kind
  (`EventWalking.OnTrack`, `EventWalking.OffTrack`).  `bosRead`, which ends the text in a copy of
  the header, is not affected.
* `etFlush` with nothing to write puts a block without records into the file.  A reader takes what
  is left over in it for a record header.  Everything written is read back if and only if all such
  blocks have a code there that a reader goes past (`FileTransfer.RoundTrip`); there are none if
  and only if no flush follows a flush.  From the third block on the words are those of the last
  block but one (`FileTransfer.LeavingsAre`), so that a record and three flushes are enough to
  mislead the reader (`FileTransfer.FlushedAgain`).
* A name that is listed twice in a row and has a single bank: `bos2et` writes the bank twice,
  `bosins` takes the two for fragments of one bank, and it arrives with its data doubled.  The
  exact condition is `EventTransfer.CopiedBank`, the smallest case `EventTransfer.ListedTwice`.
* `et2bos` writes five header words of a bank before it looks whether there is room
  (`et2bos.c:83-91`).  The lowest work bank keeps its words if and only if five are left
  (`GapEnds.FiveWords`).  The first three of them are never looked at; the array is out of order
  afterwards if and only if fewer than two words are left and a work bank follows
  (`EventLoading.Et2bos`).  With one word left behind the header of the record bank, or none, that
  happens with every record (`EventLoading.LoadIntoNothing`).
* `bos2et` writes the header of a bank before it compares with the size of the event buffer
  (`bos2et.c:89-137`).  For the first bank that does not fit it writes behind that size if and only if
  header and blanks end there (`EventUnloading.BehindTheEnd`); `EventUnloading.Bos2et` says from which
  word on the buffer is as it was, and asks for no more than that it has the words before.
* `bosWrite` with a list that has no bank returns an error, but a record header stays counted in
  the block (`fpack.h:227-229`).  The next record puts the count right, if and only if it ends in
  the same block; else a block goes to the file that counts words too many (`BosWriting.BosWrite`,
  with the concrete case `BosWriting.WriteAfterNothing`).
* `etWrite` numbers the record segments by block times 100 plus segment (`fpack.h:212-214`), but it has
  lowered the count of segments before it numbers a continued one (`etwrite.c:207-217`): segment `j` of a record
  that begins in block `k` gets `100 * (k + j) - 1`, a number of the block before its own.  `bosWrite`
  has not, and gives it `100 * (k + j)`.  The number of the segment in a first one is 0 or 1 in a file of
  `etWrite` (`FileTransfer.RoundTrip`); `bosWrite` counts every record that it begins in a block, and from the
  hundredth on runs into the next hundred (`BosWriting.BosWrite`).  Only `etWrite` counts the segments of a
  record (`irNPHYS`).
* `bosWrite` copies the text of a format and three blanks into a buffer of 61 characters
  (`boswrite.c:89`, `boswrite.c:106-113`): 58 characters are the longest text, from 59 on it writes
  behind the buffer.  The model asks for at most 58.
* `ddGetLogRec` sets the code of a bank to zero as soon as it has joined two data segments
  (`ddgetlogrec.c:246`), and then refuses a third one: it fails exactly for the records that have a
  bank in more than two blocks (`DdReading.DdGetLogRec`).  The reader then stands on a segment that
  continues a record, and the next call does not return: the search ends if and only if the reader
  does not stand on such a segment, and does not come to one at the beginning of a block
  (`DdReading.SearchEnds`; `ddgetlogrec.c:95-141`).  On a file of the library's own making the call behind the
  first refused record hangs (`FileTransfer.RoundTripDd`).
* `etNformat` leaves in a slot of the table what was saved there of another event
  (`etbosio.c:227-251`), and `etNnext` takes the first entry with the index it is given
  (`etbosio.c:645-652`), whatever its name.  With a format declared between `etOpen` and `etNamind`
  the first bank of a name may be lost (`EtBanks.Forgotten`).  The answer is that for the name under
  the exact condition of `EtBanks.NextRight`, and the whole enumeration is right under that of
  `EtBanks.Enumerate`: an entry in front may stand only at the last bank of the name, if its own name
  has none behind and, should that bank be the first as well, if it has just been set.  As long as
  only `etNamind` fills the table there is no such entry (`EtBanks.Session`).  `etNformat` for a name
  that is known replaces the text but not the number of bytes that was found for the old one.
* `etNcreate` and its relatives look at a first bank without asking whether the record has one
  (`etbosio.c:350-369`, `459-493`).  On an empty record `etNlink` finds the bank that was there before,
  exactly if the name and number left over are the ones asked for (`EtBanks.Nlink`), and `etNcreate` goes past
  it: the record begins with the new bank if and only if the sizes left over are zero
  (`EtBanks.Ncreate`).  The test for room leaves out the words of the record header.
* `etNcreate` copies the text of a format as a string: a text that fills its words clears the first byte
  behind the header, with a bank without data the one behind the record (`etbosio.c:414`,
  `EtBanks.PutHeader`).
* `dmaPIncr` counts buffers in `total` also when none could be made (`dmaPList.c:336`).
  `dmaPFreeItem` looks into the node after it has set the pointer to zero, if the node has no
  owner (`dmaPList.c:515-527`).

## Model

| member | source | states |
|---|---|---|
| `BankLayout.TilesApart` | src/bosio/bosio.s/bos.h:7-13 | banks that follow each other without a gap do not overlap |
| `BankLayout.TilesHole` | src/bosio/bosio.s/bosncrea.c:146-153 | the unused end of a bank, marked as dropped, is a bank of the tiling and its words are counted |
| `Chains.ChainInsert` | src/bosio/bosio.s/bosncrea.c:113-119 | a bank linked in at the slot of its number leaves an ascending chain of banks of one name |
| `Chains.ChainRemove` | src/bosio/bosio.s/bosndrop.c:43-44 | a chain with one bank unlinked is an ascending chain without it |
| `BosArrays.Nindex` | src/bosio/bosio.s/nindex.c:10-30 | the walk ends at the slot of the number: all before are smaller, none after is; it returns the bank there or zero, and what links to it |
| `BosArrays.NameIndex` | src/bosio/bosio.s/namez.c:10-32 | the position of a name, or the number of names if it is not there |
| `NamedArea.AppendBank` | src/bosio/bosio.s/bosncrea.c:111-119 | a bank made at the gap and linked in keeps tiling, accounts and all chains |
| `NamedArea.RemoveBank` | src/bosio/bosio.s/bosndrop.c:43-55 | a bank unlinked and marked keeps tiling and chains; dropped words and lowest dropped bank are right |
| `NamedArea.Truncate` | src/bosio/bosio.s/bosldrop.c:55-85 | a trailing run of dropped banks may be given to the gap: accounts and chains stay right |
| `Directory.LookupPut` | src/bosio/bosio.s/bosncrea.c:103-184 | a list with a bank put in answers like a map update and stays sorted |
| `Directory.LookupDelete` | src/bosio/bosio.s/bosndrop.c:40-58 | a list with a bank deleted answers like a map without its number |
| `Dropping.DropSound` | src/bosio/bosio.s/bosndrop.c:40-58 | unlinking, marking or giving back, and emptying the link bank keep all invariants and delete exactly one bank |
| `Dropping.Ndrop` | src/bosio/bosio.s/bosndrop.c:24-61 | the bank with this name and number is gone if it was there, nothing else changes, also while a record is being taken apart |
| `ListDropping.DropChain` | src/bosio/bosio.s/bosldrop.c:36-49 | all banks of a name are gone, every other list is the same, no word is given back |
| `ListDropping.Regain` | src/bosio/bosio.s/bosldrop.c:55-85 | contents stay; the area ends with a live bank; the gap and the dropped-word count change by the same amount |
| `ListDropping.Ldrop` | src/bosio/bosio.s/bosldrop.c:22-89 | the lists of exactly the given names are emptied, and no dropped bank is left at the end |
| `Creating.Mamind` | src/bosio/bosio.s/mamind.c:36-74 | a known name is found, a new one gets an empty chain; nothing else changes; the array is in order afterwards if and only if the name was known or the list was not full |
| `Creating.ChangeLength` | src/bosio/bosio.s/bosncrea.c:125-191 | fails exactly when there is no room, changing no bank; otherwise the first words are kept, added words are zero when asked for, all other banks are the same, on all four paths |
| `Creating.MoveSound` | src/bosio/bosio.s/bosncrea.c:157-176 | a bank copied to the gap and marked where it was is the same member of its chain; everything stays in order |
| `Creating.Ncreate` | src/bosio/bosio.s/bosncrea.c:27-198 | an index if and only if there is room for the bank, by the test of the path it takes; then it has the shape asked for, the words that its format packs the values into, and what it may keep of its data, in its list; else no bank has changed |
| `Creating.Packed` | src/bosio/bosio.s/bosncrea.c:43-58 | words of a bank: one for each value, for two or for four, rounded up; for negative products rounded as C does |
| `Creating.ThreeByFive` | src/bosio/bosio.s/bosncrea.c:43-58 | the words of a bank of 3 by 5 values, and of negative shapes |
| `Creating.IndexMeans` | src/bosio/bosio.s/nindex.c:10-30 | the index of a bank is zero if and only if its list does not have it, else the bank is there |
| `Compaction.FlushStep` | src/bosio/bosio.s/bosngarb.c:38-43 | carrying out a pending copy puts every bank passed so far where it belongs |
| `Compaction.RelinkStep` | src/bosio/bosio.s/bosngarb.c:74-77 | lowering one link while copies are pending keeps every other link and all data right |
| `Compaction.MidChain` | src/bosio/bosio.s/bosngarb.c:69-70 | between copies every chain can be walked, through old and new addresses |
| `Compaction.CompactedInv` | src/bosio/bosio.s/bosngarb.c:84-87 | at the end live banks tile the area without holes and every chain has moved along |
| `Garbage.Ngarbage` | src/bosio/bosio.s/bosngarb.c:16-89 | contents are the same, no dropped bank is left, the area has shrunk by exactly the dropped words |
| `Records.LookupLoad` | src/bosio/bosio.s/bosread.c:330-387 | a loaded record answers like a map override: its last bank under a key wins, other keys are as before |
| `Records.GroupedData` | src/bosio/bosio.s/bosread.c:338-351 | joining adjacent fragments loses, doubles and reorders no data of any bank |
| `Records.GroupedApart` | src/bosio/bosio.s/bosread.c:338-351 | joining leaves no two neighbours of one bank |
| `Splicing.InsertUnderway` | src/bosio/bosio.s/bosread.c:377-382 | linking the next fragment where it lies makes it a bank of its list; the array seen so far stays in order |
| `Splicing.MergeUnderway` | src/bosio/bosio.s/bosread.c:340-351 | squeezing out a header joins the data of two fragments; the array seen so far stays in order |
| `Splicing.FindPlace` | src/bosio/bosio.s/bosread.c:358-376 | the place for the fragment's number is found, a bank that has the number is dropped first |
| `Loading.TakeOver` | src/bosio/bosio.s/bosread.c:330-387 | one round of the bank loop: joined to the bank before it exactly when name and number agree, else entered; the outcome for the whole record is unchanged |
| `Loading.Splice` | src/bosio/bosio.s/bosread.c:321-387 | after the bank loop the lists are the old ones with the grouped record loaded |
| `Loading.Ins` | src/bosio/bosio.s/bosread.c:223-399 | the record's banks lie in place as ordinary banks, chains are overridden by them, the record bank is gone, all else is the same; without a record nothing changes |
| `WorkArea.WTilesApart` | src/bosio/bosio.s/bos.h:15-17 | work banks that follow each other by their number words do not overlap |
| `WorkBanks.GrowTiles` | src/bosio/bosio.s/boswcrea.c:98-116 | after a growth the work area is tiled; dropped words and end of the highest dropped bank are right |
| `WorkBanks.SetHandles` | src/bosio/bosio.s/boswcrea.c:117-122 | every handle leads to its bank again, no other word changes |
| `WorkBanks.GrownInv` | src/bosio/bosio.s/boswcrea.c:89-123 | a growth keeps the invariant of the work area, every lower bank having moved |
| `WorkBanks.GrownHolding` | src/bosio/bosio.s/boswcrea.c:89-123 | a growth keeps the used data of every live work bank |
| `WorkBanks.MarkedInv` | src/bosio/bosio.s/boswdrop.c:40-48 | a dropped work bank is counted, and the end of the highest dropped bank is right |
| `WorkBankOps.Wcreate` | src/bosio/bosio.s/boswcrea.c:39-133 | the work bank has the length asked for and what it may keep; a new one has the name WORK, and a new or grown one the columns and rows asked for; words that are added have what was there, or zero where the source's loop clears them; every other bank holds what it held and keeps its columns, rows and name; named banks are untouched; fails exactly when there is no room, for a new bank and for one that is there, by the test of each |
| `WorkBankOps.Wdrop` | src/bosio/bosio.s/boswdrop.c:17-64 | the work bank is gone, every other bank holds what it held and keeps its header |
| `LinkTables.LinksKept` | src/bosio/bosio.s/bosncrea.c:187-191 | an operation that empties the link bank of the chain it changes keeps every cached table right |
| `Linking.TableIsRight` | src/bosio/bosio.s/bosnlink.c:84-97 | in every array that is in order a link bank that is not empty is the table of its chain |
| `Linking.SearchTable` | src/bosio/bosio.s/bosnlink.c:100-133 | the binary search with stride two ends and finds the bank of the number, or zero if the chain has none |
| `Linking.Rebuild` | src/bosio/bosio.s/bosnlink.c:55-98 | the table is the chain's, or the link bank is given up and the chain is walked; no named bank changes |
| `Linking.Nlink` | src/bosio/bosio.s/bosnlink.c:28-134 | the answer is that of a walk along the chain; contents stay |
| `Initialising.Init` | src/bosio/bosio.s/bosinit.c:25-133 | the array is empty and in order, with the five system banks at its top, or it is too small, by an exact condition, or no size was given |
| `Runs.Run` | src/bosio/bosio.s/bosinit.c:25-133 | there is an array if and only if it has room for the system banks; from then on, after any sequence of calls, all invariants hold, exactly the calls that must be refused are, and every other did to the array what it says, codes included |
| `Runs.EffectShape` | src/bosio/bosio.s/bosncrea.c:43-58 | in a run, a bank that was created has the shape asked for and columns times rows words |
| `Segments.AssemblePrefix` | src/bosio/bosio.s/fpack.h:61-107 | what has been put together so far is the beginning of what will be |
| `Segments.GotNext` | src/bosio/bosio.s/etread.c:131-147 | the code of the next data segment tells whether a bank begins, goes on or is complete, and the complete bank is the record's next |
| `Splitting.PartWayPart` | src/bosio/bosio.s/etwrite.c:196-205 | a part of a bank in a segment of its own, with codes and count of previous words, is understood as the bank's next words |
| `Splitting.PartWayEnd` | src/bosio/bosio.s/etwrite.c:230-233 | the segments of a finished record have codes 0 or 1, 2 .. 2, 3 and make up its banks |
| `EtWriting.SplitBank` | src/bosio/bosio.s/etwrite.c:196-226 | the full block is written; the next one begins with both headers and the count of words already written |
| `EtWriting.PutData` | src/bosio/bosio.s/etwrite.c:167-228 | a bank is written in as many data segments as it takes, each with at least one word |
| `EtWriting.EtWrite` | src/bosio/bosio.s/etwrite.c:24-237 | what is appended are pieces of the record, verbatim or split; split ones have the pattern, the format word, the numbers of block and segment and their count, and lie in consecutive blocks from the present or the next one on; blocks stay well formed |
| `EtWriting.EtFlush` | src/bosio/bosio.s/etwrite.c:245-264 | what is in the buffer goes to the file, or a block without records; the file stays in order if and only if no words are counted too many |
| `EtReading.GetDataHeader` | src/bosio/bosio.s/fpack.h:61-107 | the next data segment of the record is found, in this record segment, the next, or the next block; the end is noticed exactly |
| `EtReading.ReadBank` | src/bosio/bosio.s/etread.c:126-148 | a bank is put together from its segments; header and length are those of the whole bank |
| `EtReading.EtRead` | src/bosio/bosio.s/etread.c:37-199 | whatever pieces a record is in, the event buffer gets its banks word for word, pattern and format word of the first piece, and its number rounded to hundreds; segments of earlier records are skipped, and so are blocks without records, unless they mislead the reader; a buffer without room for the first piece is left alone, with an error, and the reader goes on with the next record |
| `FileTransfer.RoundTrip` | src/bosio/bosio.s/etread.c:37-199 | for every sequence of writes and flushes and every block size, all records are read back in order and then the end of the file, if and only if the reader goes past all blocks written without a record; there are such blocks if and only if a flush follows a flush; of a split record the header has the pattern, the format word and the number of the block in which it begins, of another its own |
| `FileTransfer.LeavingsAre` | src/bosio/bosio.s/fpack.h:155-167 | a block without records has the words of the last block but one; a reader goes past it if and only if that one begins with a segment that continues a record |
| `FileTransfer.FlushedAgain` | src/bosio/bosio.s/etwrite.c:245-264 | a record and three flushes: the third block misleads the reader |
| `EtWriting.BlockMore` | src/bosio/bosio.s/etwrite.c:123-233 | in every block that is written only the first record segment continues a record, and only the last is continued |
| `Splitting.TidyMore` | src/bosio/bosio.s/fpack.h:264-305 | in every record segment only the first data segment continues a bank, and only the last is continued |
| `BosWriting.PutDataHeader` | src/bosio/bosio.s/fpack.h:231-262 | the header of a bank goes into this block or the next, with at least one word left for data; into the next exactly if the counted words leave no room |
| `BosWriting.PutBankData` | src/bosio/bosio.s/fpack.h:264-305 | a bank of the array is written in as many data segments as it takes; in one exactly if the counted words leave room |
| `BosWriting.BosWrite` | src/bosio/bosio.s/boswrite.c:27-150 | what is appended are pieces of the record of the listed banks, the one that bos2et makes, numbered by block and segment in consecutive blocks; without a bank an error, and a header stays counted; a block that counts words too many is written exactly if such a block is left before the next record ends |
| `BosWriting.WriteAfterNothing` | src/bosio/bosio.s/boswrite.c:134-142 | a list without a bank, then one with banks: the file is in order if and only if the record would end in the first block with one more header in front |
| `HeaderTexts.FormatHeader` | src/bosio/bosio.s/boswrite.c:87-117 | the format words are the text, filled up with blanks, for texts of at most 58 characters |
| `FormatCodes.CodeWords` | src/bosio/bosio.s/boswrite.c:98-102 | the header words for the three codes and for a name without a format |
| `FormatCodes.SameWords` | src/bosio/bosio.s/bos2et.c:108-115 | the text written for a code is read back as values of 32, 16 or 8 bits, and takes as many data words as bosNcreate gives for that code |
| `BosReading.ReadRawBank` | src/bosio/bosio.s/bosread.c:135-172 | a bank is put together in the gap from its data segments, whatever is above the gap stays |
| `BosReading.BosRead` | src/bosio/bosio.s/bosread.c:42-220 | whatever pieces the record is in, the lists are the old ones overridden by its banks; at the end of the file only an old record bank goes |
| `EventUnloading.Ldump` | src/bosio/bosio.s/bosldump.c:99-156 | the indices of exactly the banks of the listed names, in order |
| `EventUnloading.LdumpAll` | src/bosio/bosio.s/bosldump.c:21-98 | the indices of all banks, in order of their names' first use |
| `EventUnloading.Bos2et` | src/bosio/bosio.s/bos2et.c:39-160 | the flat record has the listed banks word for word; with too little room exactly the first ones that fit, and behind them the header of the next; no word of the buffer changes behind what is written; the array keeps its contents |
| `EventUnloading.BehindTheEnd` | src/bosio/bosio.s/bos2et.c:89-137 | a header, whatever it says, changes no word from a place on if and only if it ends before, blanks included |
| `EventLoading.SetNames` | src/bosio/bosio.s/et2bos.c:119-139 | every bank of the record bank gets the index of its name, new names are entered in order, nothing else changes |
| `HeaderTexts.TextStops` | src/bosio/bosio.s/bos2et.c:117-127 | a text leaves a blank in its header words if and only if its length is not a multiple of four, or it has one |
| `HeaderTexts.TextBack` | src/bosio/bosio.s/etbosio.c:566-571 | a text is read back from its header words if and only if it does not end with a blank, or has no second character |
| `HeaderTexts.ReadText` | src/bosio/bosio.s/etbosio.c:566-571 | the loop leaves out the blanks at the end, the first character excepted, and the text ends at a NUL |
| `HeaderTexts.SpillIs` | src/bosio/bosio.s/bos2et.c:117-127 | how many of the three blanks behind a text come to lie behind the header words |
| `HeaderTexts.BlanksThere` | src/bosio/bosio.s/bos2et.c:117-127 | blanks written behind the header words take the first bytes of the next word and leave the others |
| `HeaderTexts.NulThere` | src/bosio/bosio.s/et2bos.c:71-75 | a NUL clears one byte of a word and leaves the others |
| `EventWalking.OnTrack` | src/bosio/bosio.s/et2bos.c:63-106 | the walk through the flat record comes to every bank if and only if no bank but the last is without data and without room for the NUL |
| `EventWalking.OffTrack` | src/bosio/bosio.s/et2bos.c:72-75 | behind such a bank the walk loses the record |
| `EventWalking.EndText` | src/bosio/bosio.s/et2bos.c:71-75 | the scan ends at the end of the text, and the NUL is put there, in the format, the data or behind them |
| `EventLoading.Et2bos` | src/bosio/bosio.s/et2bos.c:25-143 | if and only if all fit, the lists are the old ones overridden by the banks of the flat record, the first byte of their data lost where the format leaves no room for the NUL; else an error, by exact conditions, only names and the old record bank being changed; the array is not in order afterwards if and only if fewer than two words were left for the header of the first that did not fit and a work bank follows; the event buffer has the NULs |
| `EventLoading.LoadIntoNothing` | src/bosio/bosio.s/et2bos.c:83-91 | with at most one word left behind the header of the record bank, and a work bank there, every record leaves the array out of order |
| `GapEnds.FiveWords` | src/bosio/bosio.s/et2bos.c:83-87 | five words that are written leave all words behind the gap as they are, whatever they say, if and only if five are left |
| `GapEnds.HeaderOrder` | src/bosio/bosio.s/et2bos.c:83-91 | the array is in order with the five words written, its lists the same, if and only if two were left or no work bank follows |
| `Repetition.GroupedSnoc` | src/bosio/bosio.s/bosread.c:338-351 | one more fragment is joined to the last group exactly if it is of the same bank |
| `Repetition.LastGrouped` | src/bosio/bosio.s/bosread.c:330-387 | a bank that stands several times in a row is loaded with its data as often |
| `EventTransfer.ArrivedBank` | src/bosio/bosio.s/bosread.c:330-387 | a bank of a record that is loaded word for word arrives with its columns and rows, and with its data as often as it stands in a row at its last place |
| `EventTransfer.CopiedBank` | src/bosio/bosio.s/et2bos.c:62-141 | a listed bank arrives with its columns and rows, and with its data if and only if it has none, or stands alone at its last place and its format leaves room for the NUL or its first byte is zero |
| `EventTransfer.ArrivedDistinct` | src/bosio/bosio.s/bosread.c:42-220 | if no name is listed twice, every bank of a record that is loaded word for word arrives as it is |
| `EventTransfer.CopiedDistinct` | src/bosio/bosio.s/et2bos.c:62-141 | if no name is listed twice, every listed bank arrives as it is if and only if every format leaves room for the NUL or the data have nothing to lose |
| `EventTransfer.FourCharacters` | src/bosio/bosio.s/et2bos.c:72-75 | a bank with the format "2I,F" and the data word 1 arrives with the data word 0 |
| `EventTransfer.OtherCopied` | src/bosio/bosio.s/et2bos.c:62-141 | banks that are not in the record stay as they were |
| `EventTransfer.ListedTwice` | src/bosio/bosio.s/bos2et.c:84-153 | a single bank listed twice in a row arrives with the copied data doubled |
| `EventTransfer.CopyBanks` | src/bosio/bosio.s/et2bos.c:25-143 | et2bos after bos2et: the listed banks arrive in the other array as et2bos copies them |
| `EventTransfer.CopyByFile` | src/bosio/bosio.s/etread.c:37-199 | bos2et, etWrite, etFlush, etRead and et2bos: the same banks arrive as without the file, for every block size |
| `EventTransfer.CopyByBlocks` | src/bosio/bosio.s/bosread.c:42-220 | bosWrite and bosRead: the listed banks arrive as they are, for every block size |
| `EventTransfer.EitherWay` | src/bosio/bosio.s/boswrite.c:82-137 | an event read from what bosWrite wrote and one made by bos2et, of the same banks, have the same words |
| `EventTransfer.BothWays` | src/bosio/bosio.s/boswrite.c:82-137 | bos2et into one buffer, bosWrite, etFlush and etRead into another: banks and length have the same words, and so have run, event and trigger if there is a HEAD bank to take them from |
| `DdReading.MergedWords` | src/bosio/bosio.s/ddgetlogrec.c:233-250 | patching count and code of the last header and adding words makes one bank of two data segments |
| `DdReading.JoinNext` | src/bosio/bosio.s/ddgetlogrec.c:186-290 | the next piece is joined unless it continues a bank that was continued before; the integrity check on the count of previous words never fails |
| `DdReading.DdGetLogRec` | src/bosio/bosio.s/ddgetlogrec.c:20-323 | the record that etRead delivers, with its own format word, if and only if no bank is in more than two data segments; else an error, and the reader stands on a segment that continues a record; the call does not return if and only if the search does not end |
| `DdReading.SearchEnds` | src/bosio/bosio.s/ddgetlogrec.c:95-141 | the rounds of the search come to an end if and only if the reader does not stand on a segment that continues a record, and comes to no block that begins with one |
| `DdReading.Find` | src/bosio/bosio.s/ddgetlogrec.c:95-141 | the search skips what is left of a record and blocks it goes past, and stops at the next record or at the end of the file |
| `FileTransfer.RoundTripDd` | src/bosio/bosio.s/ddgetlogrec.c:20-323 | for every sequence of writes and flushes, the second reader gives all records and then the end of the file, if and only if no record has such a bank and all blocks without records let it go on; behind the first record that it refuses the next call does not return; headers as etRead gives them, but for the format word |
| `EtBanks.Nlink` | src/bosio/bosio.s/etbosio.c:449-501 | the data index of the first bank with this name and number, or zero; in an empty record that of the bank left over, exactly if it has this name and number |
| `EtBanks.Ncreate` | src/bosio/bosio.s/etbosio.c:335-428 | a bank is added behind the others, which stay as they are, with the format of its name and the words that shape and format take, if and only if it is not there, its name has a format and there is room; in an empty record the banks left over count as well, and the record begins with the new bank if and only if they have no words |
| `EtBanks.PutHeader` | src/bosio/bosio.s/etbosio.c:401-415 | the header is put with the text as a string: a text that fills its words clears the first byte behind them, nothing else changes |
| `EtBanks.CreatedFound` | src/bosio/bosio.s/etbosio.c:449-501 | after a bank was created, it is found where it was put, and every other is found where it was |
| `EtBanks.CreateAndLink` | src/bosio/bosio.s/etbosio.c:335-501 | etNlink finds the bank at the index that etNcreate gave; without an index it finds one exactly if it was there |
| `EtBanks.Open` | src/bosio/bosio.s/etbosio.c:111-122 | no slot of the table is in use, what is saved in the slots stays |
| `EtBanks.Nformat` | src/bosio/bosio.s/etbosio.c:197-257 | the format is declared; the table belongs to the record afterwards if and only if what was saved in the slot does |
| `EtBanks.WordsFor` | src/bosio/bosio.s/etbosio.c:239-242 | a text that begins with B16 takes the least number of words for values of two bytes, one with B8 or B08 for bytes, every other a word for each value |
| `EtBanks.FourShorts` | src/bosio/bosio.s/etbosio.c:239-242 | four values of two bytes take two words |
| `EtBanks.DeclareAndCreate` | src/bosio/bosio.s/etbosio.c:374-412 | a bank of a name just declared has the header asked for, the text declared, and the least number of words for its values |
| `EtBanks.NextRight` | src/bosio/bosio.s/etbosio.c:645-692 | etNnext answers for the name of an entry if and only if it is the first with the index, or both entries have just been set, or neither name has a further bank; the entry moves on exactly in the first case |
| `EtBanks.Session` | src/bosio/bosio.s/etbosio.c:111-692 | from etOpen on, with etNamind and etNnext alone, no entry stands in front of another at its bank |
| `EtBanks.Forgotten` | src/bosio/bosio.s/etbosio.c:227-251 | with a format declared in between, the first bank of a name is not given |
| `EtBanks.OneEntry` | src/bosio/bosio.s/etbosio.c:645-652 | in a table that belongs to the record, the entry of a name is the first and only one with its index |
| `EtBanks.Namind` | src/bosio/bosio.s/etbosio.c:516-611 | the entry of the name stands at its first bank, an old one or a new one with the text of its header; nothing else in the table changes |
| `EtBanks.Nnext` | src/bosio/bosio.s/etbosio.c:630-692 | the first entry with the index moves to the next bank of its name; the first call after etNamind gives the first |
| `EtBanks.Enumerate` | src/bosio/bosio.s/etbosio.c:516-692 | etNamind and repeated etNnext give exactly the banks of the name in order of address, then zero, if and only if no entry in front of that of the name does harm: one that stands at a bank of the name stands at the last, has no further bank of its own name, and has just been set exactly if that bank is the first too |
| `EtBanks.RightFromFirst` | src/bosio/bosio.s/etbosio.c:630-692 | the answers of etNnext from the first bank of a name on are its banks if and only if no entry in front does harm |
| `FileNames.OrderOfValues` | src/bosio/bosio.s/bosopen.c:154 | the order of strings is that of the numbers, so that the loop ends |
| `FileNames.RangeExact` | src/bosio/bosio.s/bosopen.c:142-183 | a range has all extensions between the bounds, no other, and each once |
| `FileNames.ParseListFN` | src/bosio/bosio.s/bosopen.c:116-204 | all names of all elements in order, unless the list is full |
| `FileNames.ForRange` | src/bosio/bosio.s/bosopen.c:142-183 | a name, a point and two bounds with a letter in front and a minus between them stand for exactly the names with the extensions between the bounds, in order, each once |
| `FileNames.TwentyThree` | src/bosio/bosio.s/bosopen.c:142-183 | X.A90-B12 stands for 23 names, from X.A90 over X.A99 and X.B00 to X.B12 |
| `FileNames.ForItself` | src/bosio/bosio.s/bosopen.c:144-150 | an element stands for itself alone if it is not of this form |
| `FileNames.ElementsOf` | src/bosio/bosio.s/bosopen.c:131-141 | the elements are what stands between the commas |
| `Interpreting.StepRevert` | src/bosio/bosio.s/cnvr14.c:46-52 | at its end the format goes on with the last outermost group that was closed |
| `Interpreting.StepMany` | src/bosio/bosio.s/cnvr14.c:79-86 | the shortcut for a last group of one code does not change the type of any word |
| `Converting.Fetch` | src/bosio/bosio.s/cnvr14.c:44-89 | the fetch loop ends and gives the next type of the unbounded expansion |
| `Converting.Convert` | src/bosio/bosio.s/cnvr14.c:91-160 | every word is converted by the type at its position behind the skipped ones |
| `Converting.Cnvr14` | src/bosio/bosio.s/cnvr14.c:19-163 | conversion from IEEE to DEC, word by word by the unbounded expansion of the format |
| `Converting.Cnvr41` | src/bosio/bosio.s/cnvr41.c:21-168 | conversion from DEC to IEEE, word by word by the unbounded expansion of the format |
| `Converting.ConvertedParts` | src/bosio/bosio.s/cnvr14.c:5-8 | words may be converted in two parts, the second with a skip count |
| `Converting.ConvertedAt` | src/bosio/bosio.s/cnvr14.c:129-149 | in each word the bytes are reversed, the halves exchanged, or nothing is changed, by its type |
| `Converting.ConvertedBack` | src/bosio/bosio.s/cnvr41.c:119-157 | conversion there and back restores exactly the words that survive it |
| `WordConversion.ThereAndBack` | src/bosio/bosio.s/cnvr41.c:119-157 | a word is restored if and only if it survives: by type, no sign bit is dragged along, or all bits are set |
| `WordConversion.WordConverted` | src/bosio/bosio.s/cnvr14.c:129-149 | byte by byte and half by half what a word becomes, with the sign bit that is dragged along, and the single word of type F that changes |
| `WordConversion.OneWordEach` | src/bosio/bosio.s/cnvr14.c:129-149 | the word 0x01020304 becomes 0x04030201 as text and 0x03040102 as two integers |
| `DmaLists.ListGet` | src/jvme-release-3.0/dmaPList.h:100-110 | the head of the list is taken, the rest stays linked in both directions |
| `DmaLists.ListAdd` | src/jvme-release-3.0/dmaPList.h:133-146 | the node becomes the tail, the list stays linked in both directions |
| `DmaPartitions.GetItem` | src/jvme-release-3.0/dmaPList.c:575-597 | the client holds the first free buffer, if there is one; nothing else changes, no length either |
| `DmaPartitions.Append` | src/jvme-release-3.0/dmaPList.c:606-620 | a buffer on no list becomes the last of one; no other list is touched |
| `DmaPartitions.AddItem` | src/jvme-release-3.0/dmaPList.c:606-620 | the buffer goes from the client to the end of the list, with its length; no other buffer changes its own |
| `DmaPartitions.FreeItem` | src/jvme-release-3.0/dmaPList.c:494-531 | the buffer is the last on the list of its owner, with length zero; no other length changes |
| `DmaPartitions.Incr` | src/jvme-release-3.0/dmaPList.c:322-479 | buffers carved do not overlap, lie in their block, are free and have length zero; exactly when the allocator fails fewer are made; whether they have blocks of their own |
| `DmaPartitions.Create` | src/jvme-release-3.0/dmaPList.c:136-191 | sizes are multiples of eight with room for item and header; other partitions are as they were |
| `DmaPartitions.FirstInFirstOut` | src/jvme-release-3.0/dmaPList.c:494-619 | over any interleaving every list is a queue: what was there and came is what went and is there, in order |
| `DmaPartitions.CountAll` | src/jvme-release-3.0/dmaPList.c:494-619 | counts of lists and buffers held add up to the buffers carved |
| `DmaPartitions.Interleaved` | src/jvme-release-3.0/dmaPList.c:494-619 | any interleaving of clients does what the queues of values say; every buffer is in one place, with the length that it was given last |
| `DmaPartitions.HandedOver` | src/jvme-release-3.0/dmaPList.c:494-619 | over any interleaving a buffer comes off a list with the length with which it was put there, or with zero if it was freed |

## Left out

- Ncreate: does not model compaction of work banks (`boswgarb.c:51-66` copies from the wrong entries); the call is made only when no work bank is dropped or there is room, and the same holds for Wcreate and Nlink.
- Ndrop: is told in ghost parameters whether a record is being taken apart; the program needs no such hint.
- Wdrop: one handle at a time (`jw1` at most one).
- Ins: the list of name indices in a work bank (`bosread.c:258-306`) is not kept; the record bank must be the last one, which its callers see to, and its words must be whole fragments, which they check.
- Run: work banks of the user are not among its calls.
- Et2bos: asks for a record that the walk does not lose and, if all banks fit, for room for the link banks of the record name too; of `bosNformat` only the name is entered: the text is not stored in a work bank, for which a format that is new to the array takes room, and its bit code is not taken over.
- Receive: as Et2bos.
- BosRead: as Et2bos for names, formats and room; 200 words are left, which the program wants before every bank.
- DdGetLogRec: a record in a single segment is delivered as a copy, not in place; memory is not modelled; what it does with leftover words that it takes for the beginning of a record (`lost`) is not followed.
- BosWrite: the record header given by `bosWriteRecord` and the list "0", which is etFlush, are not modelled; nor is etWrite after a bosWrite that found no bank (EtWrite asks that no words are counted too many).
- Bos2et: formats are given per name; a format of a name has at most 60 words.
- CopyBanks, CopyByFile and CopyByBlocks ask for a target with room for the record, and for a record name that is not listed; CopyBanks, CopyByFile and BothWays for an event buffer that is longer than the size given by the largest bank header.
- Incr: what the allocator gives is a parameter; blocks that it gives do not overlap; byte counts are unbounded, and the window of a VME slave is not modelled.
- FreeItem: every buffer has an owner; commands called on adding and freeing are not modelled.
- `dmalistSnip`, `dmaPFree` and `dmaPReInit`, which are not for lists in use by clients.
- EtWrite: file splitting by size is not modelled.
- EtRead: what it does with leftover words that it takes for the beginning of a record (`lost`) is not modelled, nor what it does to a buffer that has room for the first piece of a split record, but not for the record and a word more; decompression, byte swapping and format conversion of whole blocks are the identity, as for a local file.
- Convert: for a format of a single code at most 999999999 words, skipped ones included; past that the source uses counters left by an earlier call.
- Names are found in a list; the hash table of `mamind.c`, `namez.c` and `namen.c` is not modelled.
- `bosNcreate` with `jw1 == 3` (renaming) and `bosWcreate` with `jw1 == 4`.
- Nnext: an entry that was saved at an address where the present record has no header is not followed; Enumerate asks for a table in which no such entry is met.
- Namind: asks for a record with a bank, as Nnext and Enumerate do; names have four characters; the functions that pass a BOS array on to `bosNcreate`, `bosNlink` and so on are not modelled.
- ParseListFN: leading blanks are cut off before; memory is not modelled.
- Files, tapes, networks, printing and the FORTRAN entry points.
- Everything else outside `src/bosio/bosio.s` and the DMA buffer lists.
