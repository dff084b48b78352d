# The concurrent and in-place core of a messaging proxy, modelled and proved

This project models the code on which an MTProto proxy's correctness rests, and proves what that code is for.

- **The lock-free queue** (`Mpq*.dfy`): blocks of (safe bit, index, value) cells chained into a list, with
  tickets drawn by fetch-and-add and a hand-made semaphore in front. The model is a state machine with one step
  for every read, compare-and-swap and fetch-and-add of every thread; the theorems are about all runs.
- **Jobs** (`Job*.dfy`, `Subclass*.dfy`): the flag word of a job, its reference count and its class queues; and
  the draining of subclass queues, one of which excludes all others. Again one step for every atomic operation.
- **Raw messages** (`Rope*.dfy`): copy-on-write chains of reference-counted windows into reference-counted
  buffers. Every operation is an imperative method on one heap; its contract says what sequence of bytes every
  message means afterwards, of those that share parts with the changed one too.
- **Ciphers and records** (`Ciphers.dfy`, `RopeCipher.dfy`, `Tls*.dfy`): the block
  walker that enciphers from one message into another, and the sender and receiver of TLS-framed streams.
- **CRC-32** (`Gf32*.dfy`, `Crc32*.dfy`): arithmetic modulo the CRC polynomial, which is proved primitive, the
  table-driven checksum, combination of checksums and repair of a single flipped bit.
- **The buffer allocator** (`BufferTree.dfy`, `BufferChunk.dfy`): the counting tree over free buffers and the
  inverse modulo 2^32 that turns an address into an index.
- **The table of external connections** (`Rings.dfy`, `HashChains.dfy`, `ExtConnections.dfy`): one set of
  connections under five indices made of pointers.
- **The event heap** (`EventHeap.dfy`), **IPv6 addresses as text** (`Ipv6Text.dfy`) and **the workers' statistics in
  shared memory** (`Worker*.dfy`), a state machine again.

`Options.dfy`, `Sequences.dfy` and `Arithmetic.dfy` hold what several of them need. Whatever the environment
decides (which thread steps next, what an allocator or a random generator answers, how a stream is cut) is a
parameter and is quantified over.

## Model

| member | source | states |
|---|---|---|
| MpqTheorems.StepInv | c-original/common/mp-queue.c:279-392 | Any step of any thread, inside a block push, a block pop, the list, the semaphore or an emptiness check, keeps the invariant that places every untaken value in its cell under its own ticket, ties every drawn ticket to the pop holding it, and balances the semaphore. |
| MpqTheorems.RunInv | c-original/common/mp-queue.c:395-417 | From a fresh queue, gated or not, the invariant holds in every state of every run. |
| MpqTheorems.NothingLostOrDuplicated | c-original/common/mp-queue.c:279-392 | In every state of every run: a taken value is the value pushed under the same ticket; a pop that left its ticket empty-handed had nothing to take; every other pushed value is still in its cell, and if its ticket is drawn the drawer is still at it. All that was ever taken or pushed stays recorded unchanged, and each step takes at most one value, through a ticket drawn by that very thread and never used before, so nothing is returned twice. |
| MpqTheorems.SettledAlongRun | c-original/common/mp-queue.c:301-392 | Each step of a run leaves all earlier pushes and takes alone and takes at most one value, by the thread that drew the value's ticket. |
| MpqTheorems.GatedPopFindsValue | c-original/common/mp-queue.c:624-680 | Behind the semaphore no thread is ever at the null return: the assertion on the popped value cannot fail. The proof is the pigeonhole between semaphore units and ticket-holding pops. |
| MpqTheorems.HeadPassesOnlyDrainedBlocks | c-original/common/mp-queue.c:459-504 | A block with a successor is closed; every value, present or still to come, of a block that the head pointer has passed belongs to a pop already holding its ticket. |
| MpqTheorems.Fifo | c-original/common/mp-queue.c:459-622 | If the push of x was over before the push of y began, then the pop of y is not over before the pop of x begins. |
| MpqTheorems.EarlierIsPromised | c-original/common/mp-queue.c:459-622 | While the earlier value is still in the queue and the later one is taken, a pop in progress holds the earlier one's ticket. |
| MpqTheorems.EveryValuePromised | c-original/common/mp-queue.c:301-354 | A pop that failed at ticket h and reads a tail of at most h + 1 in the last block knows that every value in the queue belongs to some other pop in progress. |
| MpqAnswers.EmptyAnswer | c-original/common/mp-queue.c:508-553 | When the emptiness check decides for 1, every value in the queue belongs to a pop in progress at that moment. |
| MpqAnswers.NullMeansPromised | c-original/common/mp-queue.c:459-504 | A pop that returns null has, in the same call, passed a moment at which every value in the queue belonged to another pop in progress. |
| MpqCalls.PushDelivers | c-original/common/mp-queue.c:557-622 | In every run: a push call that has returned has, by its own steps, put exactly one value on record, the one it was given, under a new ticket and within the time of the call; it has posted the semaphore exactly once if there is one, and taken nothing. |
| MpqCalls.PopTakesOne | c-original/common/mp-queue.c:624-680 | In every run: a pop call that has returned has taken exactly one value for exactly one unit; or nothing, with the semaphore as it was, because it found no unit or, without a semaphore, because the queue gave null. |
| MpqCalls.QuietBalance | c-original/common/mp-queue.c:124-187 | When no call is in progress, the semaphore is the number of values in the queue. |
| MpqCalls.NotEmptyAnswer | c-original/common/mp-queue.c:508-553 | When the emptiness check decides for 0, the tail of the block is above the head that the same call read earlier. |
| MpqCalls.FixRaisesTail | c-original/common/mp-queue.c:279-299 | A pop that is done fixing a block has found it closed or the head not above the tail, or has raised the tail to the head it read. |
| MpqCalls.TailPointerLeaves | c-original/common/mp-queue.c:605-612 | A push that has linked a block does not leave the tail pointer on the block before it. |
| MpqAlone.EveryCallFinishes | c-original/common/mp-queue.c:279-691 | Lock freedom's core: from every state of every run, wherever the other threads have stopped, a thread that runs alone finishes its call in finitely many steps, unless it waits for a semaphore without units. |
| JobTheorems.StepInv | c-original/jobs/jobs.c:626-840 | Every step of every thread keeps the invariant on flags, queues, pending signals and reference count. |
| JobTheorems.MutualExclusion | c-original/jobs/jobs.c:626-719 | In no reachable state do two threads run the job's handler. |
| JobTheorems.NoLostSignal | c-original/jobs/jobs.c:640-795 | While an allowed signal is pending on an unlocked job, the job is in a queue whose queued bit is set, or some thread is about to queue it or committed to try the lock. |
| JobTheorems.QuietMeansDone | c-original/jobs/jobs.c:640-840 | When all threads have left and the queues are empty, the job is unlocked, nothing allowed is pending and no queued bit is set. |
| JobTheorems.RunsWhereAllowed | c-original/jobs/jobs.c:640-719 | The signal a thread is about to handle is pending and allowed, and its class is in the mask of the thread's class. |
| JobTheorems.CountIsExact | c-original/jobs/jobs.c:804-823 | The count is at least 1 for a thread that uses the job, and it is 1 exactly when nobody else holds a reference. |
| JobTheorems.FinishOnLastReference | c-original/jobs/jobs.c:804-813 | The branches that raise JS_FINISH because the count is 1 are taken only by the holder of the last reference. |
| JobTheorems.FinishHandlerIsAlone | c-original/jobs/jobs.c:640-719 | Unless somebody sent JS_FINISH, its handler starts when no other reference exists. |
| JobTheorems.SendAssertionHolds | c-original/jobs/jobs.c:772-795 | The assertions at the start of sending signals hold in every reachable state. |
| JobSignals.ChosenAsHighest | c-original/jobs/jobs.c:646-687 | In every run a thread about to start a handler has, in the same tenure of the lock, read a state in which that signal was the highest pending allowed one. |
| JobSignals.HigherOnlyByArrival | c-original/jobs/jobs.c:646-687 | A higher allowed signal is pending when the handler starts if and only if one arrived after that read. |
| JobSignals.HigherSignalCanArrive | c-original/jobs/jobs.c:646-687 | A run in which the handler of signal 0 starts while the allowed signal 5 is pending: "always the highest" is false of the code. |
| JobSignals.UnlockDecides | c-original/jobs/jobs.c:646-733 | With the flag word it has read: no allowed signal pending, the handler of the highest one here, or the queue; here exactly if the class allows it, the thread is not in a handler or the signal is fast, and the subclass has not changed. |
| JobCalls.SignalsBecomePending | c-original/jobs/jobs.c:772-795 | When a sender leaves, by whichever branch, all signals it was given are pending. |
| JobCalls.GoesOnlyToHandler | c-original/jobs/jobs.c:626-719 | A pending signal goes away only in the step that starts its handler, or with the job. |
| JobCalls.HandlerConsumes | c-original/jobs/jobs.c:684-693 | A handler starts only for a pending signal and takes it away. |
| JobCalls.SentIsServed | c-original/jobs/jobs.c:626-840 | In every run: when the job is quiet again, each signal that was sent and is allowed has had its handler started since the call, or the job was destroyed. |
| JobCalls.ReturnedIsServed | c-original/jobs/jobs.c:710-718 | The same for the signals that a handler returns with. |
| JobCalls.FirstRunIsServed | c-original/jobs/jobs.c:1096-1146 | The same for JS_RUN, with which the job was created. |
| JobCalls.Accounts | c-original/jobs/jobs.c:772-840 | In every run, references in the hands of others, entries of each queue and the status are what the calls so far make them. |
| JobAlone.NobodyWaits | c-original/jobs/jobs.c:626-840 | In every reachable state, wherever the other threads have stopped, a thread at work comes to an end or to a handler by its own steps. |
| JobAlone.QueuedWhereRunnable | c-original/jobs/jobs.c:722-745 | The job is put into a queue such that every thread that may serve the queue may run the signal. |
| SubclassProof.StepInv | c-original/jobs/jobs.c:984-1045 | Every step of announcing and draining keeps the invariant on counters, locks and semaphore units. |
| SubclassProof.OneDrainer | c-original/jobs/jobs.c:984-1045 | At most one thread drains a subclass. |
| SubclassProof.NeverNull | c-original/jobs/jobs.c:1017-1024 | A drainer never pops from an empty queue. |
| SubclassProof.ExclusiveAlone | c-original/jobs/jobs.c:1004-1045 | While subclass -1 is drained, no other subclass is. |
| SubclassProof.NothingLeft | c-original/jobs/jobs.c:746-761 | When all threads have left and no token is queued, every announced job of every subclass has been processed, and the semaphore is whole. |
| SubclassProof.AnnouncedAreRun | c-original/jobs/jobs.c:746-761 | In every run: when all is quiet, as many jobs of each subclass have been run as were announced. |
| SubclassProof.CountersAreCounts | c-original/jobs/jobs.c:984-1024 | In every run, the total, the processed count and the tokens of a subclass count the announcements, the jobs run and the tokens put and taken. |
| SubclassProof.NoDeadlock | c-original/jobs/jobs.c:1004-1045 | While some thread is at work, some thread can take a step, although units are taken one by one. |
| RopeStore.Store.Decref | c-original/net/net-msg.c:95-125 | Drops one reference and frees what nobody refers to any more; counts stay exact and every message keeps its bytes. |
| RopeStore.Store.LockLast | c-original/net/net-msg.c:129-158 | Afterwards the last part can grow at its end, because it is locked or the whole chain is the message's own; no message's bytes change. |
| RopeStore.Store.LockFirst | c-original/net/net-msg.c:160-189 | Afterwards the first part begins where the message begins; no message's bytes change. |
| RopeStore.Store.Fork | c-original/net/net-msg.c:252-322 | Afterwards every part of the message is its own, with the same bytes, and no other message changes. |
| RopeStore.Store.PushData | c-original/net/net-msg.c:363-480 | Appends the bytes, or a prefix of them if buffers run out; no other message changes, though the bytes may go into a buffer that others read. |
| RopeStore.Store.PushFront | c-original/net/net-msg.c:487-552 | Prepends the bytes; no other message changes. |
| RopeStore.Store.Clone | c-original/net/net-msg.c:342-354 | The new message has the bytes of the old one. |
| RopeStore.Store.Move | c-original/net/net-msg.c:356-361 | The bytes go to the new name, and the old name is empty. |
| RopeStore.Store.Free | c-original/net/net-msg.c:193-201 | The message is gone and no other message changes. |
| RopeStore.Store.Clear | c-original/net/net-msg.c:325-340 | The message is empty and no other message changes. |
| RopeStore.Store.Union | c-original/net/net-msg.c:803-837 | The first message gets the bytes of both, even when the two share parts; the second is gone; no other message changes; chains stay free of cycles, because ranks fall along them. |
| RopeStore.Store.SplitMessage | c-original/net/net-msg.c:738-794 | The message is cut after the given number of bytes into two; too short a message is left whole, with the error code. |
| RopeStore.Store.SplitHead | c-original/net/net-msg.c:796-801 | The first bytes go to a new message and the old one keeps the rest. |
| RopeStore.Store.Process | c-original/net/net-msg.c:908-1054 | Reads the bytes in the given range, through the last part or along the chain; the message keeps them, loses everything up to their end or is cut before them, as the mode says; no other message changes. This is fetch, look-up, skip, fetch-back and truncate. |
| RopeModel.ContentFrame | c-original/net/net-msg.h:37-51 | A chain whose parts keep their windows reads the same after any change: what the rules for changing shared parts must ensure. |
| RopeCipher.Walker.Feed | c-original/net/net-msg.c:1236-1332 | After any portion of input the target message holds its old bytes and the cipher's output for all whole blocks given so far, and the unfinished block is kept. |
| RopeCipher.CryptTo | c-original/net/net-msg.c:1335-1378 | The whole blocks among the wanted bytes leave the source, and the target gets the cipher's output for them, whatever the block size, the way the source is cut into parts, the sizes of the buffers and the sharing of parts; no other message changes. |
| Ciphers.SinceJoin | c-original/net/net-msg.c:1270-1330 | Input in two portions of whole blocks gives the same output as in one. |
| Ciphers.CtrUndoes | c-original/net/net-tcp-connections.c:235-303 | Counter mode undoes itself. |
| TlsConnection.Connection.EncryptOutput | c-original/net/net-tcp-connections.c:235-263 | Everything queued for output leaves it; the wire gets it enciphered, and for TLS in records, each the bytes 23, 3, 3, the length with the high byte first, and a body of 1 to 1425 bytes, all full but the last; no other message changes. |
| TlsConnection.Connection.DecryptInput | c-original/net/net-tcp-connections.c:266-303 | Records of any peer, with lengths up to 65535, are deciphered to the end; in general state, plaintext and left-over input are those of the reader as a function of the input, and the bytes asked for are those missing of a header. |
| TlsLayout.WireFramed | c-original/net/net-tcp-connections.c:243-258 | The sender's stream has the record layout, given byte by byte. |
| TlsLayout.ReadAtHeader | c-original/net/net-tcp-connections.c:274-299 | At a header the receiver fails if and only if the first three bytes are not 23, 3, 3; otherwise exactly the number of bytes that the next two name go through the cipher before the next header. |
| TlsLayout.RecordsRead | c-original/net/net-tcp-connections.c:266-303 | Any sequence of records with the layout is read to the end. |
| TlsLayout.NeedExactly | c-original/net/net-tcp-connections.c:275-278 | The receiver asks for more exactly when it stopped before a header, for the bytes missing of it. |
| TlsFraming.PortionsDoNotMatter | c-original/net/net-tcp-connections.c:266-303 | However the stream is cut into arrivals, the receiver ends up where one arrival of the whole would have taken it, including failure. |
| TlsFraming.StreamRoundTrip | c-original/net/net-tcp-connections.c:235-303 | For all flushes of the plaintext and all fragmentations of the wire: the receiver never fails, at any time has a prefix of the plaintext, and has all of it, with nothing left over, when the whole wire has arrived. |
| TlsFraming.CtrStreamRoundTrip | c-original/net/net-tcp-connections.c:235-303 | The same for counter mode with one key stream on both sides. |
| Gf32.GfMul | c-original/common/crc32.c:692-703 | The shift-and-add loop is the product of polynomials modulo the given one. |
| Gf32Ring.MulComm | c-original/common/crc32.c:692-703 | That product is commutative for every polynomial. |
| Gf32Ring.MulAssoc | c-original/common/crc32.c:692-703 | That product is associative for every polynomial. |
| Gf32Ring.GfPow | c-original/common/crc32.c:705-712 | Repeated squaring computes the k-fold product. |
| Gf32Order.DistinctPowers | c-original/common/crc32.c:979-1019 | The powers x^0 up to x^(2^32 - 2) are all different modulo the CRC-32 polynomial: the polynomial is primitive. |
| Crc32.Partial | c-original/common/crc32.c:367-402 | The four-table loop over words, and the loop over the last bytes, compute the bit-by-bit register of the data. |
| Crc32.ComputeCrc32 | c-original/common/crc32.h:44-46 | The checksum is that of section 8 of RFC 1952, bit by bit. |
| Crc32Check.CheckValue | c-original/common/crc32.h:44-46 | The checksum of 123456789 is 0xcbf43926, which fixes polynomial, bit order and both complements. |
| Crc32.CrcConcat | c-original/common/crc32.c:761-771 | The checksum of A followed by B is x^(8 times the length of B) times that of A, plus that of B. |
| Crc32Combine.ComputePowers | c-original/common/crc32.c:714-744 | Row n of the table is the matrix of multiplication by x^(2^n) for every n. |
| Crc32Combine.Advance | c-original/common/crc32.c:761-771 | Multiplying by the matrices chosen by the bits of the length advances a checksum over that many bytes. |
| Crc32Combine.Combiner.Combine | c-original/common/crc32.c:806-819 | For all A and B the combination of their checksums and the length of B is the checksum of A followed by B. |
| Crc32Repair.FindCorruptedBit | c-original/common/crc32.c:964-1019 | Baby steps, giant steps and binary search find k if and only if x^k is the difference for some k searched, and then return it. |
| Crc32Repair.RepairBit | c-original/common/crc32.c:1021-1039 | Flips exactly the bit that stands k bits before the end, or nothing, with the right error code. |
| Crc32Repair.CheckAndRepair | c-original/common/crc32.c:1041-1068 | The outcome is the diagnosis as a function of data and checksum; it reports a repaired message exactly when one bit was flipped and the checksum matches now, so the assertion inside cannot fail; otherwise the data are as they were. |
| Crc32Repair.SingleErrorIsRepaired | c-original/common/crc32.c:1041-1068 | Any single flipped bit of any message within the size limit is found and flipped back. |
| BufferTree.Build | c-original/net/net-msg-buffers.c:253-260 | The new tree has one in every leaf of a buffer, zero in the others, and sums above. |
| BufferTree.TakeRank | c-original/net/net-msg-buffers.c:454-467 | The descent selects the buffer with exactly the given number of free ones before it, and takes one off along the path, with no counter below zero. |
| BufferTree.TakeNext | c-original/net/net-msg-buffers.c:407-454 | The search selects the smallest free index above the neighbour, or else the smallest free one. |
| BufferTree.RankUnique | c-original/net/net-msg-buffers.c:454-467 | No other buffer has that number of free ones before it. |
| BufferTree.NextUnique | c-original/net/net-msg-buffers.c:407-454 | No other index satisfies what the neighbour search promises. |
| BufferTree.GiveBack | c-original/net/net-msg-buffers.c:504-513 | Adds one along the path of the leaf. |
| BufferTree.LeavesDecide | c-original/net/net-msg-buffers.c:253-260 | The whole tree is a function of its leaves. |
| BufferTree.TakeAndGiveBack | c-original/net/net-msg-buffers.c:504-513 | Taking a leaf and giving it back restores every counter. |
| BufferChunk.PrepareInverse | c-original/net/net-msg-buffers.c:106-118 | For every size the squaring loop ends with the inverse of its odd part modulo 2^32 and its power of two. |
| BufferChunk.Chunk.BufferNo | c-original/net/net-msg-buffers.c:336-342 | The index of every buffer of the chunk is recovered from its address. |
| BufferChunk.Chunk.Allocate | c-original/net/net-msg-buffers.c:407-488 | The buffer was free and is the one that rank or neighbour asks for; nothing else changes. |
| BufferChunk.EachIsPicked | c-original/net/net-msg-buffers.c:455-457 | The random rank can be each of the first sixteen free buffers. |
| BufferChunk.Chunk.BuffersApart | c-original/net/net-msg-buffers.c:477-478 | The buffers of a chunk do not overlap. |
| BufferChunk.Chunk.Release | c-original/net/net-msg-buffers.c:504-513 | Frees exactly the buffer at the address; the counters change along its path only. |
| BufferChunk.Chunk.CountersAreShort | c-original/net/net-msg-buffers.c:253-260 | All counters of a chunk fit an unsigned short. |
| ExtConnections.Tables.ByInConnId | c-original/mtproto/mtproto-proxy.c:418-494 | For each mode: what is found, created or removed, and nothing else; a new connection gets an id never handed out before; all indices stay consistent. |
| ExtConnections.Tables.FindByOutId | c-original/mtproto/mtproto-proxy.c:496-505 | Finds exactly the live connection with that id. |
| ExtConnections.Tables.FindByInFd | c-original/mtproto/mtproto-proxy.c:404-415 | Finds the only connection of the descriptor. |
| ExtConnections.Tables.CreateConn | c-original/mtproto/mtproto-proxy.c:508-527 | Adds one connection, bound to the backend and last on its list. |
| ExtConnections.Tables.Remove | c-original/mtproto/mtproto-proxy.c:531-561 | Removes exactly that connection from all indices, and the other lists keep their order. |
| ExtConnections.Tables.ClientReady | c-original/mtproto/mtproto-proxy.c:1194-1211 | Opens an empty list for the backend. |
| ExtConnections.Tables.ClientClose | c-original/mtproto/mtproto-proxy.c:1213-1234 | Removes exactly the connections bound to the backend, though each removal changes the list that is being walked. |
| ExtConnections.Tables.LruInsert | c-original/mtproto/mtproto-proxy.c:2120-2126 | The connection becomes the most recently used; the others keep their order. |
| ExtConnections.Tables.LruDelete | c-original/mtproto/mtproto-proxy.c:2112-2118 | The connection leaves the list; the others keep their order. |
| ExtConnections.NeverResolvesAgain | c-original/mtproto/mtproto-proxy.c:481-487 | An id handed out whose connection is gone stands for nothing in any later state, even after its slot is used again. |
| ExtConnections.FollowsTransitive | c-original/mtproto/mtproto-proxy.c:418-561 | What every operation guarantees about ids, that an id once handed out stands for one connection or nothing, adds up over any sequence of operations. |
| ExtConnections.FreeSlotExists | c-original/mtproto/mtproto-proxy.c:461-484 | While fewer connections live than there are slots, the search for a free slot can end. |
| Rings.UnlinkOk | c-original/mtproto/mtproto-proxy.c:433-442 | Unlinking one node keeps all circular lists whole and takes that node out of its list. |
| HashChains.CutOk | c-original/mtproto/mtproto-proxy.c:420-445 | Redirecting the pointer to an entry keeps all chains and takes that entry out of its bucket. |
| EventHeap.EventQueue.Pop | c-original/net/net-events.c:96-125 | Returns an event with the lowest priority number among those queued and, among these, the earliest time, and removes it alone; heap order and places stay exact. |
| EventHeap.EventQueue.Hollow | c-original/net/net-events.c:127-146 | The event leaves a hole that sinks to a leaf; order and places of all others are kept, whatever the event's own key is now. |
| EventHeap.EventQueue.Remove | c-original/net/net-events.c:127-163 | Removes exactly that event, even after its key was changed. |
| EventHeap.EventQueue.Put | c-original/net/net-events.c:165-182 | Queues the event, or restores the order after its key was changed arbitrarily; the array is never exceeded. |
| EventHeap.EventQueue.PutAt | c-original/net/net-events.c:184-187 | A new time stamp for an event that may be queued already. |
| EventHeap.AnyKeyChange | c-original/net/net-events.c:390-397 | Any change of an event's own key leaves the order among the others intact. |
| EventHeap.RoomForOneMore | c-original/net/net-events.c:169-170 | While some event is not queued the array has a free slot: the assertion on the index holds. |
| Ipv6Text.ParsedExactly | c-original/mtproto/mtproto-proxy.c:1384-1442 | A text is accepted with value a if and only if it is groups of one to four hexadecimal digits, eight of them or fewer with one "::", that denote a. |
| Ipv6Text.Parse | c-original/mtproto/mtproto-proxy.c:1384-1442 | The parser writes the sixteen bytes of that value, the high byte of each group first, and consumes the whole text, or returns -1. |
| Ipv6Text.DigitsSpelled | c-original/mtproto/mtproto-proxy.c:1409-1411 | The sixteen digits, in both cases, and their values. |
| Ipv6Text.MostSignificantFirst | c-original/mtproto/mtproto-proxy.c:1408-1416 | The first digit of a group is the most significant. |
| Ipv6Text.Print | c-original/net/net-events.c:848-886 | Prints the address with the first of the longest runs of zeros before some other group as "::"; what it prints is parsed back to the address unless that is IPv4-mapped, and then it is ::ffff: with the last four bytes in decimal, in order. |
| Ipv6Text.RoundTrip | c-original/net/net-events.c:848-886 | Parsing what was printed gives the address if and only if the address is not IPv4-mapped; for a mapped one it fails. |
| Ipv6Text.DottedIsQuad | c-original/net/net-events.c:864-866 | The dotted form holds the last four bytes, in order, as decimal numbers without leading zeros. |
| WorkerStats.StepInv | c-original/mtproto/mtproto-proxy.c:631-673 | Every memory access of the worker or of a reader keeps the invariant that ties a copy's counter to the complete values it has had, and a reader's partial copy to the value its counter stands for. |
| WorkerStats.SnapshotIsWhole | c-original/mtproto/mtproto-proxy.c:758-784 | In every run what a reader accepts is one complete value of one copy, field by field. |
| WorkerStats.SomeCopyReadable | c-original/mtproto/mtproto-proxy.c:750-756 | At every moment at least one of the two copies has an even counter. |
| WorkerUpdates.EveryUpdateReachesBoth | c-original/mtproto/mtproto-proxy.c:750-756 | After k complete updates both copies have had k values after the first; the first copy is one ahead only while the second is being updated. |
| WorkerUpdates.ValuesAreGiven | c-original/mtproto/mtproto-proxy.c:631-673 | Value number j of a copy is, field by field, what the worker was given in its update number j. |
| WorkerUpdates.SnapshotIsRecent | c-original/mtproto/mtproto-proxy.c:758-784 | In every run what a reader accepts is what the worker was given in one update, and that is not older than the last update complete when the reader's call began. |
| WorkerUpdates.ReaderFinishes | c-original/mtproto/mtproto-proxy.c:765-783 | While the worker pauses, wherever it is, a reader gets its snapshot. |

## Left out

Assumptions of the models:

- Memory is sequentially consistent and 64-bit counters do not wrap.
- Queue blocks are never reused: hazard pointers, the recycling of blocks and recursion of the allocator are not part of the model. Waiting on the semaphore's futex is a retry.
- Operations on raw messages run one at a time; a part found locked by another thread is taken as such, but the branch of rwm_lock_last_part that checks again after taking the lock does not occur.
- RopeStore.Store.PushData: the bytes to copy are given; leaving room without copying (a null pointer) is not modelled, nor are temporary messages (RM_TMP).
- RopeStore.Store.PushFront: an allocation must not fail, as in the code, which asserts it; RopeCipher.CryptTo too.
- RopeStore.Store.Union: the two messages are different ones.
- RopeStore.Store.SplitMessage: the number of bytes is positive.
- RopeCipher.CryptTo: the bytes are taken from the source before the target is locked, not part by part in between; the portions given to the walker are quantified over. Masks with a power of two are remainders, for any block size up to 128.
- Ciphers are functions of the input so far, one block of output for each block of input; AES itself is not modelled.
- JS_FINISH is always allowed; a handler destroys the job only when it holds the last reference; interrupting a running handler by a Unix signal is not modelled.
- The tables of CRC-32 are defined by their recurrence; the CLMUL and SSE4.2 variants are not modelled.
- Crc32Repair.FindCorruptedBit: the sorted table is made by insertion, not by the library's sort, and the square root is the rounded root; the size in bits stays below 2^31, as in the code.
- BufferChunk.Chunk.Allocate: chooses within one chunk; the lists of chunks and their free-block queues are not modelled.
- EventHeap: the difference of two priorities does not overflow an int.
- ExtConnections.Tables.ByInConnId: what the code asserts is required (fewer connections than half the slots, an empty list of the incoming descriptor for a new connection); the random generator comes across a free slot some time; ids do not wrap 64 bits; the counters of keys and clients for each secret are not modelled.
- ExtConnections.Tables.Remove: notifications to the two peers are not modelled; removing an inner connection with a notification aborts in the code and is excluded.
- Ipv6Text: the code accepts "::" that stands for no group at all, against section 2.2 of RFC 4291; the model does what the code does.

What the repository does besides:

- Sockets, epoll, accepting and reconnecting, HTTP, name resolution, configuration, statistics and worker processes.
- SHA and Diffie-Hellman, and the RPC and MTProto packet formats.
- The per-secret counters of distinct keys and clients, and the summing of the workers' statistics.
- The remaining helpers on raw messages (block pointers, I/O vectors, TL strings, dumps).
