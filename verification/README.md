# A verified model of the IRC server

The server is a single-process IRC server (RFC 1459) written in C++98. This project models its three cores in
Dafny and proves what they promise, and, where the code falls short of its own comments, exactly when it does.

* **Ownership and allocation.** `FixedMemoryPool.dfy` and `FlexibleFixedMemoryPool.dfy` are the chunked free-list
  pool; `Ownership.dfy` is the pair of hand-written shared and weak pointers over a heap of control blocks, with
  destructors that re-enter the pointers.
* **Byte streams.** `Separator.dfy` cuts the received bytes into messages, `Tokeniser.dfy` (over `CString.dfy`) and
  `CommaSplitter.dfy` take a message apart in place, `MsgBlocks.dfy` and `SendQueues.dfy` send shared blocks to
  clients in pieces, `Sending.dfy` says on values what that does and what holds over runs of it, and `Registrations.dfy` is
  the queue of deferred write-filter changes.
* **The server state machine.** `ServerState.dfy` holds the objects of the server, their values and what is invariant of
  them; `Transitions.dfy` says on values what each command does; `Membership.dfy` is the server's own code, proved to do
  that; `ModeCommand.dfy` is the MODE loop and `Names.dfy` packs the NAMES lists. `Sessions.dfy` puts the commands and the
  events of the loop together into whole runs, `Draining.dfy` follows a client with unsent bytes to its end, and
  `Scenarios.dfy` has runs in which a promise fails. `Joint.dfy` runs the server's state and its sending side together.
  `Standing.dfy` has what outlives the rename of a member. `Effects.dfy` and `ModeEffects.dfy` say what each command and event
  means on the fields of clients and channels, without the notions the transitions are written in. `Lifetimes.dfy` derives from the counts of `Ownership.dfy` which
  clients and channels exist in such a state.

The invariant has three parts. The core (`ServerState.Core`) holds in every state of every run. That every active client is
filed and listed in the channels it holds (`ServerState.Firm`) is lost exactly at a removal from the directory by name that
hits another client which goes on existing. That nobody else is listed, and nobody under another name (`ServerState.Neat`),
is lost from sync exactly at the rename of a client that is in a channel.

Objects that the program updates in place are classes, loops are loops over arrays, sequences and maps, and each
method is proved against a functional specification or an invariant. Assertions of the program are either proved,
or shown to fail and on which inputs.

Where the code departs from its comments, the model follows the code:

* The early return at Source/Server/Server.cpp:493 also fires when the front block is spent at byte 512. The reset at
  line 499 that was meant to handle this is never reached with a cursor out of range (`Separator.RecvQueue.SeparateMsgs`
  asserts so), and a message received after that point may never be separated (`Separator.SecondMessageStuck`).
  `Separator.CutsDoNotMatter` says exactly when the cuts do no harm.
* If the skip loop at Source/Server/Server.cpp:540-561 runs out of blocks, the program goes on over the last block
  with a full message buffer. Here the meant line is modelled: the scan is finished. The result `bRanOut` tells when this
  happens: exactly when 512 bytes or more are pending without a terminator.
* Source/Server/Server.cpp:596 asserts a body of fewer than 510 bytes. The separator emits one of 510
  (`Separator.LongestBodyIsEmitted`), and 510 is what the tokeniser is proved for.
* Source/Server/Server.cpp:613 takes a ':' word right after the command for a prefix (`Tokeniser.TokensUndoPrint`).
* Source/Server/Server.cpp:640-643 makes no progress on a NUL inside a token (`Tokeniser.LoopEndsExactly`).
* USER asserts that its four arguments are not empty; a trailing part can be (`Tokeniser.LastArgumentOfUserMayBeEmpty`).
* `Expired` never answers true for a handle that is not null, and a block that is still weakly held when its object dies
  is never freed, because the strong count stays at 1 (`Ownership.Heap.Expired`, `Ownership.CorpsesStay`). Assigning a
  `SharedPtr` to itself leaves it null (`Ownership.Heap.AssignShared`).
* NICK erases the new key in each channel instead of the old one (`Scenarios.RenameLeavesOldKey`).
* A directory entry is erased by name, not by identity, and the directory owns its clients. So closing a client can destroy
  another that has its nickname, or leave it out of the directory (`Scenarios.NamesakeDestroyed`,
  `Scenarios.NamesakeUnfiled`); `Transitions.ForceDisconnectDestroys` and `ForceDisconnectedKeeps` say exactly when.
* A lookup erases the entry of an expired client, which destroys it if nothing else owns it, also while it still has
  bytes to send. The comment at Source/Server/Server.cpp:410 promises that its connection is closed after that;
  `Scenarios.DrainingLost` is a run in which it is not, and `Draining.EndsInClose` says exactly when it is.
* Closing a client reorders the pending registrations of others, and may leave one of its own behind. Two entries of one
  client are pending when it drained and was refilled in one batch (`Registrations.OvertakingExactly`,
  `Registrations.StaleEntryExactly`). A client that loses its wake-up that way gets nothing more until something else
  closes it (`Sending.StuckForGood`).
* A message of exactly 511 bytes is not truncated, so its CR-LF does not fit (`MsgBlocks.FitsUnless511`).
* MODE 'o' looks only at the number of arguments, not at how many are used up (`ModeCommand.OverrunsExactly`).

## Model

| member | source | states |
|---|---|---|
| Ownership.Heap.MakeShared | Source/Core/SharedPtr.hpp:85-123 | A new, unexpired control block with one strong handle; every count in the heap still equals the number of handles. |
| Ownership.Heap.CopyShared | Source/Core/SharedPtr.hpp:184-196 | A copy of a handle names the same block and raises its count; a copy of null is null; no object dies. |
| Ownership.Heap.ResetShared | Source/Core/SharedPtr.hpp:280-306 | Reset of any strong handle, even inside a running destructor, terminates (fewer unexpired blocks), keeps all counts, runs each destructor once, frees nothing twice, touches only handles and objects that the loss takes down, and frees the block exactly when no weak handle is left. |
| Ownership.Heap.Destroy | Source/Server/ClientControlBlock.hpp:51-66 | The implicit destructor: the members are reset in any order, cascading into other objects, while the dying block itself stays. |
| Ownership.Heap.ResetWeak | Source/Core/WeakPtr.hpp:119-136 | Dropping a weak handle lowers the weak count only; the asserted count is positive, and nothing dies. |
| Ownership.Heap.DropShared | Source/Core/SharedPtr.hpp:221-224 | The objects destroyed are exactly the least set closed under losing the handle. |
| Ownership.Heap.AssignShared | Source/Core/SharedPtr.hpp:226-237 | Assignment resets the target, with its cascade, then shares the source; self-assignment gives null. |
| Ownership.Heap.SwapShared | Source/Core/SharedPtr.hpp:317-322 | Swap exchanges two handles without touching a count, and all counts stay right. |
| Ownership.Heap.CopyWeak | Source/Core/WeakPtr.hpp:25-48 | A weak handle made from a strong or weak one names the same block; the branch for a zero strong count is never taken. |
| Ownership.Heap.AssignWeak | Source/Core/WeakPtr.hpp:55-86 | Weak assignment drops the old handle and weakly shares the source; self-assignment gives null. |
| Ownership.Heap.Lock | Source/Core/WeakPtr.hpp:98-108 | Lock gives null exactly when the weak handle is null or its object has been destroyed. |
| Ownership.Heap.Expired | Source/Core/WeakPtr.hpp:110-117 | Expired is true only of a null handle, so its answer is right if and only if the handle is null or its object is not dead. |
| Ownership.Heap.FindClient | Source/Server/ChannelControlBlock.hpp:68-82 | A lookup through a map of weak handles gives null exactly when the name is absent, its handle is null or its object dead; the entry is erased, with the operator entry, exactly when the handle is null, so dead entries stay. |
| Ownership.Heap.Step | Source/Core/SharedPtr.hpp:173-306 | Each handle operation does what it is for (handles, counts, the cascade of deaths) and keeps every count; the logs of destructors and freed blocks only grow. |
| Ownership.Heap.Run | Source/Core/WeakPtr.hpp:25-136 | Any program of make, copy, assign, swap, lock and reset leaves a trace from the state before to the state after in which each step did what its operation is for, and at every point counts equal handles, an unexpired block has a strong handle, an expired one has none, no handle names a freed block, and each destructor ran once. |
| Ownership.MarkExpired | Source/Core/SharedPtr.hpp:286-288 | Setting bExpired on the last strong handle keeps the counts, with that handle as the one in flight. |
| Ownership.NotOwnerOfStack | Source/Core/SharedPtr.hpp:286-291 | A dying object owns no handle whose reset is still running, and is none of the objects that are kept up. |
| Ownership.ReleaseStep | Source/Core/SharedPtr.hpp:293-305 | After the destructor the last handle goes, the counts are right again, and the cascades before and after it compose. |
| Ownership.ReleaseFrees | Source/Core/SharedPtr.hpp:294-297 | The block is freed exactly when no weak handle on it is left. |
| Ownership.DropOneOfMany | Source/Core/SharedPtr.hpp:299-302 | Lowering the count by one matches the handle that goes. |
| Ownership.DropWeakHandle | Source/Core/WeakPtr.hpp:121-125 | Both asserted counts are positive and the weak count matches after the decrement. |
| Ownership.CascadeThen | Source/Core/SharedPtr.hpp:280-306 | Two cascades in a row are one cascade: deaths, dropped handles and freed blocks add up. |
| Ownership.DeadSetIsLeast | Source/Core/SharedPtr.hpp:280-306 | No object dies that some closed set leaves alive. |
| Ownership.DeadSetIsClosed | Source/Core/SharedPtr.hpp:280-306 | No object survives that is held by dead objects and the dropped handle alone. |
| Ownership.KeptIffRestClosed | Source/Core/SharedPtr.hpp:226-237 | When a handle that is a member of an object may be reset from outside: the owner survives if and only if it lies outside the closed set. |
| Ownership.LivesWhileHeld | Source/Core/SharedPtr.hpp:280-306 | Between operations an object is alive exactly while some strong handle names it. |
| Ownership.DeadHoldsNothing | Source/Core/SharedPtr.hpp:286-291 | A handle that is a member has a living owner. |
| Ownership.CorpsesStay | Source/Core/WeakPtr.hpp:126-132 | A block whose object died while it was weakly held is freed by no later cascade. |
| FixedPool.FixedMemoryPool.constructor | Source/Core/FixedMemoryPool.hpp:24-34 | After the fill loop the whole index stack is free and no slot is live. |
| FixedPool.FixedMemoryPool.Allocate | Source/Core/FixedMemoryPool.hpp:47-59 | A slot that was not live becomes live; null exactly when all are. |
| FixedPool.FixedMemoryPool.Deallocate | Source/Core/FixedMemoryPool.hpp:65-79 | A live slot stops being live; the cursor asserted not to be 0 is not. |
| FixedPool.FixedMemoryPool.GetUsed | Source/Core/FixedMemoryPool.hpp:91-94 | The cursor is the number of live slots. |
| FixedPool.SlotsFitAndAreDisjoint | Source/Core/FixedMemoryPool.hpp:102 | Every slot lies inside the raw pages and no two share a byte. |
| FixedPool.CursorCountsLive | Source/Core/FixedMemoryPool.hpp:81-84 | The pool is full exactly when every slot is live. |
| FixedPool.TakeKeepsPartition | Source/Core/FixedMemoryPool.hpp:49-51 | The free part of the stack stays free of duplicates and, with the live slots, partitions all slots. |
| FixedPool.ReturnKeepsPartition | Source/Core/FixedMemoryPool.hpp:71-73 | The same after a free, in any order of frees. |
| FixedPool.StalePrefixRepeats | Source/Core/FixedMemoryPool.hpp:71-73 | The used part of the stack may hold duplicates. |
| FlexiblePool.ChunkHoldsMinimum | Source/Core/FlexibleFixedMemoryPool.hpp:107-108 | Rounding to pages never leaves a chunk with fewer than the asked number of blocks. |
| FlexiblePool.FlexibleFixedMemoryPool.Allocate | Source/Core/FlexibleFixedMemoryPool.hpp:52-79 | Never fails; the block was not live; the number of chunks is the peak of live blocks divided by the chunk capacity, rounded up. |
| FlexiblePool.FlexibleFixedMemoryPool.Grow | Source/Core/FlexibleFixedMemoryPool.hpp:63-65 | A new empty chunk appears only when every chunk is full. |
| FlexiblePool.FlexibleFixedMemoryPool.Take | Source/Core/FlexibleFixedMemoryPool.hpp:73-78 | The block is stamped with the index of the chunk that owns it. |
| FlexiblePool.FlexibleFixedMemoryPool.Deallocate | Source/Core/FlexibleFixedMemoryPool.hpp:81-97 | The block goes back to its chunk, and every chunk before the cursor is still full. |
| FlexiblePool.FlexibleFixedMemoryPool.ChunkFacts | Source/Core/FlexibleFixedMemoryPool.hpp:109-112 | Live blocks never outnumber the slots, and equal them when all chunks are full. |
| FlexiblePool.TakeAccounts | Source/Core/FlexibleFixedMemoryPool.hpp:75-78 | Live blocks are exactly the live slots of the chunks, told apart by the chunk's pages. |
| FlexiblePool.ReturnAccounts | Source/Core/FlexibleFixedMemoryPool.hpp:88-96 | The stamped index names the chunk whose pages hold the block. |
| FlexiblePool.LiveWithinSlots | Source/Core/FlexibleFixedMemoryPool.hpp:54-64 | Counting live blocks over the chunks. |
| FlexiblePool.LiveBlocksShareNoByte | Source/Core/FlexibleFixedMemoryPool.hpp:73-78 | Two live blocks share no byte, in one chunk or in two, if the pages of the chunks lie apart. |
| FlexiblePool.FlexibleFixedMemoryPool.LiveBlocksApart | Source/Core/FlexibleFixedMemoryPool.hpp:52-79 | No two live blocks of the pool share a byte. |
| FlexiblePool.SizedTake | Source/Core/FlexibleFixedMemoryPool.hpp:54-64 | The chunk count follows the peak of live blocks when one more is taken. |
| FlexiblePool.SizedIsCeil | Source/Core/FlexibleFixedMemoryPool.hpp:63-64 | The chunk count is exactly the rounded-up quotient. |
| Separator.SplitResumes | Source/Server/Server.cpp:504-508 | The reference split may be interrupted anywhere and resumed from what was left. |
| Separator.SplitOneMore | Source/Server/Server.cpp:518-532 | One more byte completes a frame or lengthens the tail. |
| Separator.BodiesAreShort | Source/Server/Server.cpp:534-536 | Every emitted body has at most 510 bytes and no CR-LF. |
| Separator.LongestBodyIsEmitted | Source/Server/Server.cpp:596 | A body of 510 bytes is emitted, so the assertion of fewer than 510 fails on it. |
| Separator.LongerBodyIsDropped | Source/Server/Server.cpp:534-561 | A body of more than 510 bytes is dropped, and nothing after it is lost. |
| Separator.SplitUndoesEncode | Source/Server/Server.cpp:504-532 | Splitting undoes sending a list of bodies, less those too long for a block. |
| Separator.EveryStreamIsEncoded | Source/Server/Server.cpp:504-565 | Every stream is some bodies and a tail, and the split finds exactly those. |
| Separator.ConsumedUpToFirstSpent | Source/Server/Server.cpp:492-496 | A run of separator calls stops consuming for good at the first call that leaves the cursor at byte 512. |
| Separator.CutsDoNotMatter | Source/Server/Server.cpp:492-502 | However the stream is cut, the calls consume what one split of everything received consumes, if and only if every call that left the cursor spent had already consumed it all. |
| Separator.SecondMessageStuck | Source/Server/Server.cpp:492-496 | Two messages, the first of exactly 512 bytes: separated one after the other, the second is lost. |
| Separator.EarlyReturn | Source/Server/Server.cpp:492-496 | The early return is taken exactly when nothing is pending or the cursor is spent. |
| Separator.SpentIffCursorAtEnd | Source/Server/Server.cpp:498-502 | The cursor stands at 512 exactly when a positive multiple of 512 bytes has been consumed. |
| Separator.SkipInvalid | Source/Server/Server.cpp:534-561 | The skip ends at the terminator of the overlong message, which is dropped, or finds that there is none. |
| Separator.Scan | Source/Server/Server.cpp:504-565 | The nested loops find the frames of the reference split, end where the last terminator ends, and run out exactly when 512 bytes are pending. |
| Separator.StripAll | Source/Server/Server.cpp:573-577 | Every message loses exactly its terminator. |
| Separator.RecvQueue.Recv | Source/Server/Server.cpp:299-348 | Received bytes are appended, as many as fit the last block or a new one, across 512-byte blocks; nothing is lost or reordered; ignored exactly with eight blocks pending or when expired. |
| Separator.RecvQueue.SeparateMsgs | Source/Server/Server.cpp:485-580 | After a call all messages emitted so far are the reference split of all bytes received so far and the rest is its tail, unless the cursor was spent; then nothing changes. |
| Tokeniser.TokensUndoPrint | Source/Server/Server.cpp:598-645 | The scan gives back exactly the parts a message was printed from if and only if it has no trailing part or at least one middle parameter. |
| Tokeniser.SkipPrefix | Source/Server/Server.cpp:612-619 | A prefix is dropped and remembered as dropped. |
| Tokeniser.FirstArgumentNotEmpty | Source/Server/ClientCommand/NICK.cpp:41-42 | The first argument of any message is not empty, which is what NICK asserts. |
| Tokeniser.ArgsAreShort | Source/Server/Server.cpp:600-601 | No argument is longer than the message. |
| Tokeniser.LastArgumentOfUserMayBeEmpty | Source/Server/ClientCommand/USER.cpp:44-45 | A USER message with an empty trailing part reaches the assertion that no name is empty. |
| Tokeniser.LoopEndsExactly | Source/Server/Server.cpp:603-645 | The loop ends if and only if no word taken as command or argument holds a NUL. |
| Tokeniser.LoopEndsWithTokens | Source/Server/Server.cpp:603-645 | Then it ends within one pass more than there are bytes, with the tokens. |
| Tokeniser.PassKeepsNul | Source/Server/Server.cpp:639-643 | A NUL that a token starts on is never passed. |
| Tokeniser.NoNulToTake | Source/Server/Server.cpp:603-645 | A message without NUL always ends the loop. |
| Tokeniser.WordEnd | Source/Server/Server.cpp:639-642 | The inner loop stops at the end of the word. |
| Tokeniser.Tokenise | Source/Server/Server.cpp:594-646 | The NULs written into the block make the pointers read as exactly the tokens of the message. |
| CommaSplitter.SplitUndoesJoin | Source/Server/ClientCommand/PART.cpp:29-45 | Splitting undoes joining any list of non-empty names without commas. |
| CommaSplitter.PiecesAreLossless | Source/Server/ClientCommand/JOIN.cpp:48-67 | For any argument, the pieces are non-empty, free of commas, and in order make the argument without its commas. |
| CommaSplitter.SplitCommas | Source/Server/ClientCommand/JOIN.cpp:30-46 | The loop writes NULs only inside the argument, and its pointers read as exactly the pieces. |
| MsgBlocks.FitsUnless511 | Source/Server/MsgBlock.hpp:35-39 | CR-LF fits the block unless the message has 511 bytes and needs it. |
| MsgBlocks.NormalisedTwice | Source/Server/Server.cpp:941-953 | Normalising again changes nothing if and only if the message fits. |
| MsgBlocks.TerminatedUnlessHalf | Source/Server/Server.cpp:947-953 | The message ends in CR-LF if and only if its last two bytes are not half of one. |
| MsgBlocks.SentBytes | Source/Server/Server.cpp:935-953 | Of a message of 512 bytes or more exactly the first 510 go out, of a shorter one all, and at most CR-LF after them. |
| MsgBlocks.MsgBlock.constructor | Source/Server/MsgBlock.hpp:43-53 | The block holds the message, cut to 510 bytes if it has 512 or more. |
| MsgBlocks.MsgBlock.Normalise | Source/Server/Server.cpp:941-953 | The block is cut and terminated in place, without writing past its end. |
| Registrations.RemoveRegistrations | Source/Server/Server.cpp:748-757 | The loop over the vector computes the removal function, last element into the gap. |
| Registrations.OthersKeepEntries | Source/Server/Server.cpp:748-757 | No registration of another client is lost or doubled. |
| Registrations.RemovalKeepsFilter | Source/Server/Server.cpp:748-757 | A client with at most one pending registration keeps the filter it is going to have. |
| Registrations.RemovedLeaves | Source/Server/Server.cpp:748-757 | The removal in closed form: the k-th entry of the closed socket is replaced by the k-th from the end of the queue, for any number of entries. |
| Registrations.OvertakingExactly | Source/Server/Server.cpp:753-755 | Whatever is in the queue and however many entries are removed, another client's filter ends up wrong if and only if the change of its that is put last asks for the other state than the one that used to be last. |
| Registrations.OvertakingByParity | Source/Server/Server.cpp:753-755 | Where each change turns the filter over, that is: an odd number of its changes used to come after the one put last. |
| Registrations.WakeUpLost | Source/Server/Server.cpp:753-755 | A client that drained and refilled in one batch loses its wake-up when another is closed. |
| Registrations.StaleEntryExactly | Source/Server/Server.cpp:749-757 | An entry of the closed socket is left behind if and only if one of its entries is replaced by another of them. |
| Registrations.StaleEntryLeft | Source/Server/Server.cpp:749-757 | A client that drained and was refilled in one batch leaves its wake-up behind when it is closed. |
| Sending.PushedKeeps | Source/Server/Server.cpp:955-970 | A queued block extends the unsent bytes by its text; wire and unsent bytes stay what was enqueued. |
| Sending.AdvancedKeeps | Source/Server/Server.cpp:399-405 | A partial send moves bytes from the front of the unsent to the wire, in order; wire and unsent bytes stay what was enqueued. |
| Sending.SentAllDelivers | Source/Server/Server.cpp:973-988 | A broadcast reaches every member but the excepted one and the expired ones once for each of its entries; nobody else gets anything. |
| Sending.SentAllRequests | Source/Server/Server.cpp:955-966 | It pushes exactly one request for each member reached whose queue was empty, in the order in which they first come. |
| Sending.OthersGet | Source/Server/Server.cpp:713-834 | A write event, a QUIT or a close gives any other client the QUIT message, if one goes out, once for each of its entries, and changes nothing else for it. |
| Sending.SendingExactly | Source/Server/Server.cpp:929-971 | On the fields: one text more for a client that has not expired, and a request exactly if its queue was empty; nothing else. |
| Sending.AcceptingExactly | Source/Server/Server.cpp:267-283 | On the fields: a client with nothing queued, and its read filter asked for. |
| Sending.ClosingExactly | Source/Server/Server.cpp:737-757 | On the fields: the flags, one call of close, the filters gone from the kernel; of others only the order of what is pending. |
| Sending.QuittingExactly | Source/Server/Server.cpp:811-831 | On the fields: the client expires, nothing of its queue changes, and the QUIT delivery asks for exactly its requests. |
| Sending.PerformKeeps | Source/Server/Server.cpp:354-429 | Every act keeps each client's bytes, its life and the sockets in order. |
| Sending.SoundAlways | Source/Server/Server.cpp:929-988 | Over any interleaving of connections, enqueues, broadcasts, partial and failing sends, quits, closes and turns of the loop, for each client: wire and unsent bytes are what was enqueued; closed implies expired; an expired client that is not closed has something to send; a socket is closed once. |
| Sending.RunOnward | Source/Server/Server.cpp:936-939 | Over any run bytes on the wire are never taken back; an expired client gets nothing more and what it has left only shrinks from the front; a closed one is left alone. |
| Sending.CutsCloses | Source/Server/Server.cpp:713-834 | Which act closes a client, exactly. |
| Sending.AppliedWakes | Source/Server/Server.cpp:146-153 | The turn of the loop makes each client's filter what it was going to be, and in order again exactly for those that will wake. |
| Sending.DroppedWakes | Source/Server/Server.cpp:748-757 | A close changes the wake-up of another client if and only if it overtakes it. |
| Sending.StepWakes | Source/Server/Server.cpp:145-153 | One act, exactly, for each open client by itself: it will wake if it would before or its queue turned from empty to not empty or back, and the other way round for exactly those that a close overtakes. |
| Sending.NoLostWakeUp | Source/Server/Server.cpp:408-426 | Over any run, whatever happens to others, a client that no close overtakes goes on being woken exactly while it has something to send. |
| Sending.NewClientWakes | Source/Server/Server.cpp:267-283 | So does a new connection, if no leftover of a closed client that had its socket asks for the filter. |
| Sending.LightlyPending | Source/Server/Server.cpp:748-757 | A client with at most one registration pending is not overtaken. |
| Sending.LostIsStuck | Source/Server/Server.cpp:146-153 | At the turn of the loop a client with something to send is stuck exactly if its wake-up was lost. |
| Sending.StuckForGood | Source/Server/Server.cpp:955-966 | A stuck client gets not one byte more over any run, however much is enqueued for it, until something else closes it, since a request is made only for an empty queue. |
| SendQueues.Client.Push | Source/Server/Server.cpp:955-970 | The queue and its texts grow by the block at the end. |
| SendQueues.Client.Advance | Source/Server/Server.cpp:399-405 | The cursor moves, and a block leaves the queue exactly when it is sent completely. |
| SendQueues.Delivery.NormaliseShared | Source/Server/Server.cpp:941-953 | Normalising a block that other queues hold changes none of their bytes, nor anything else. |
| SendQueues.Delivery.SendMsgToClient | Source/Server/Server.cpp:929-971 | The whole sending side ends up as `Sent` of what it was: an expired client gets nothing, another the normalised message after all it was sent before. |
| SendQueues.Delivery.RequestWrite | Source/Server/Server.cpp:417-425 | Exactly one change of the client's write filter is pushed. |
| SendQueues.Delivery.SendMsgToChannel | Source/Server/Server.cpp:973-988 | The loop over the members is `SentAll`, whose meaning is `Sending.SentAllDelivers` and `SentAllRequests`. |
| SendQueues.Delivery.ApplyRegistrations | Source/Server/Server.cpp:146-153 | The whole sending side ends up as `Applied` of what it was, whose meaning is `Sending.AppliedWakes`. |
| SendQueues.Delivery.CloseSocket | Source/Server/Server.cpp:737-757 | The flags, the kernel and the removal loop are `Dropped`, whose meaning is `Sending.DroppedWakes`. |
| SendQueues.Delivery.ForceDisconnect | Source/Server/Server.cpp:713-789 | The whole sending side ends up as `Forced` of what it was: QUIT goes out unless the client had expired, with the registrations it asks for before the removal; then the close; nothing if closed before. |
| SendQueues.Delivery.Disconnect | Source/Server/Server.cpp:791-834 | The whole sending side ends up as `Quitted` of what it was: the client expires, and is closed at once if and only if nothing is left to send. |
| SendQueues.Delivery.BytesSent | Source/Server/Server.cpp:399-427 | `Written`: the front block moves on; a drained queue closes the client if it is expired and turns its filter off otherwise. |
| SendQueues.Delivery.WriteEvent | Source/Server/Server.cpp:354-429 | The whole sending side ends up as `Writing` of what it was, over any sends, partial, refused or failing. |
| SendQueues.Delivery.Connect | Source/Server/Server.cpp:267-283 | A new client joins with its read registration. |
| SendQueues.Run | Source/Server/Server.cpp:132-433 | The sending side run from its start over any acts ends as they say, so that all of the above holds of it. |
| ServerState.NicknamesAreUnique | Source/Server/Server.cpp:853-861 | Two clients in the directory never share a nickname, in any state. |
| ServerState.ActiveNicknamesAreUnique | Source/Server/Server.cpp:864-865 | Two active clients never share one while every active client is filed, renamed members or not. |
| ServerState.OneLiveChannelPerName | Source/Server/ClientCommand/JOIN.cpp:82-95 | At most one live channel has a given name, and it is the one in the channel directory, in any state. |
| ServerState.FoundChannelIsHeld | Source/Server/Server.cpp:912-927 | The channel found under a name is the one that every client holding a channel of that name holds; none is found exactly when nobody holds one. |
| ServerState.ExpiredHoldsNothing | Source/Server/Server.cpp:830-831 | An expired client is in no channel, in any state. |
| ServerState.SweptKeeps | Source/Server/Server.cpp:134-135 | Destroying the clients that nothing owns keeps the invariants, and leaves exactly the owned ones. |
| Transitions.WithoutIs | Source/Server/Server.cpp:760-769 | Taking the first occurrence out and moving the last element there takes that client out and keeps everyone else. |
| Transitions.LookupKeeps | Source/Server/Server.cpp:896-910 | A lookup keeps the invariants, what every other lookup finds, the state of every client that goes on existing, and every client waiting to be processed. |
| Transitions.LookupDestroys | Source/Server/Server.cpp:903 | A lookup destroys a client if and only if it is expired, filed under that name, and owned by nothing but the directory. |
| Transitions.RegisterFiles | Source/Server/Server.cpp:836-881 | registerClient either changes nothing or files the client under its nickname, takes it off the unregistered list and touches nobody else; only an expired client filed there may be destroyed. |
| Transitions.RegistersExactly | Source/Server/ClientCommand/PASS.cpp:11-32 | PASS and USER, which store what they are given (`Effects.PassStores`, `UserStores`), register the client exactly if names and password are then complete and no unexpired client has the nickname. |
| Transitions.NickedTakes | Source/Server/ClientCommand/NICK.cpp:12-81 | NICK takes the nickname exactly if it is well-formed and free; the directory entry moves; each channel held lists the new key too; nobody else changes. |
| Transitions.NickedKeeps | Source/Server/ClientCommand/NICK.cpp:59-81 | NICK keeps what holds in every state; it keeps the server in sync if and only if it does not rename a client that is in a channel. |
| Transitions.OldKeyLeft | Source/Server/ClientCommand/NICK.cpp:73-74 | After the rename of a member some channel lists the client under a key that is not its nickname. |
| Transitions.LinkedKeeps | Source/Server/Server.cpp:883-887 | Writing both directions keeps membership two-way under the client's one key. |
| Transitions.UnlinkedKeeps | Source/Server/Server.cpp:889-894 | Erasing both directions keeps membership two-way, and takes the operator entry along. |
| Transitions.CreatedKeeps | Source/Server/ClientCommand/JOIN.cpp:93-95 | A new channel under a name that nobody holds keeps the invariants. |
| Transitions.JoinedOneHolds | Source/Server/ClientCommand/JOIN.cpp:70-139 | The client gains the channel exactly if the name starts with '#' and the channel lets it in (not found in it, key, limit, invitation), or is new and short enough; it loses none. What lets it in is `Effects.JoinExactly`. |
| Transitions.JoinedAllKeeps | Source/Server/ClientCommand/JOIN.cpp:69-185 | JOIN of any names keeps the invariants and destroys nobody. |
| Transitions.PartedAllKeeps | Source/Server/ClientCommand/PART.cpp:47-75 | PART keeps the invariants; while active clients are filed and listed where they are, the client holds what it held less exactly the names it gave. |
| Transitions.HeldIsFound | Source/Server/Server.cpp:912-927 | A channel that a client holds is found under its name, and finds the client while held channels list their holders. |
| Transitions.KickTakesOne | Source/Server/ClientCommand/KICK.cpp:29-69 | A KICK by an operator that the channel finds, of a target that is filed and found too, takes exactly this channel from the target, and its key from this channel. |
| Transitions.KickRefused | Source/Server/ClientCommand/KICK.cpp:29-64 | Any other KICK (`Effects.KickElse` has the conditions on the fields) changes no channel and no client. |
| Transitions.InvitedKeeps | Source/Server/ClientCommand/INVITE.cpp:11-85 | INVITE keeps the invariants, with the lookup it makes. |
| Transitions.LookedUpKeeps | Source/Server/ClientCommand/PRIVMSG.cpp:54-98 | The lookups of a PRIVMSG, one after another, keep the invariants. |
| Transitions.ForceDisconnectedKeeps | Source/Server/Server.cpp:713-789 | Closing a client keeps what holds in every state; it keeps the server in sync if and only if no other unexpired client, still owned elsewhere, is filed under its nickname. |
| Transitions.ForceDisconnectDestroys | Source/Server/Server.cpp:770 | Closing a client destroys another one if and only if that is filed under its nickname and owned by nothing else. |
| Transitions.ForceDisconnectEnds | Source/Server/Server.cpp:713-789 | Afterwards the client is closed, expired, in no channel and in no list but the release queue; a second call changes nothing. |
| Transitions.DisconnectedKeeps | Source/Server/Server.cpp:791-834 | Expiring a client keeps the invariants; closing it at once keeps them exactly as said. |
| Effects.UserStores | Source/Server/ClientCommand/USER.cpp:50-54 | USER of four well-formed names stores the two names, registered or not; it registers exactly if names, password and a free nickname are then there. |
| Effects.UserElse | Source/Server/ClientCommand/USER.cpp:12-48 | Any other USER changes nothing. |
| Effects.UserTraps | Source/Server/ClientCommand/USER.cpp:31-46 | The assertion on empty names is reached and fails exactly if an argument is empty and those before it are names. |
| Effects.PassStores | Source/Server/ClientCommand/PASS.cpp:26-31 | PASS stores the password likewise. |
| Effects.NickStores | Source/Server/ClientCommand/NICK.cpp:54-58 | NICK of a well-formed free nickname stores it for a client that has not registered, and registers it exactly if the rest is there. |
| Effects.NickMoves | Source/Server/ClientCommand/NICK.cpp:59-81 | For a registered client it moves the directory entry and adds the new key in exactly the channels held; old keys and operators stay. |
| Effects.NickElse | Source/Server/ClientCommand/NICK.cpp:12-49 | NICK of another kind changes nothing: more than nine characters, another character than a letter, a digit or '_', a nickname in use. |
| Effects.AnyOrderRegisters | Source/Server/Server.cpp:836-881 | In each of the six orders of PASS, NICK and USER a client that has just connected ends up registered with exactly what it gave, filed under the nickname. |
| Effects.JoinExactly | Source/Server/ClientCommand/JOIN.cpp:98-139 | Into a channel that does not find it a client gets exactly if key, limit and invitation, each where asked for, let it; then an invitation that was needed is gone and operators, key, limit and other invitations are as before; otherwise nothing changes. |
| Effects.FoundsChannel | Source/Server/ClientCommand/JOIN.cpp:84-96 | A new channel has no flag, key, limit or invitation and its founder as only member and as operator; a name of more than 200 characters founds none. |
| Effects.JoinRefused | Source/Server/ClientCommand/JOIN.cpp:11-104 | No other JOIN does anything. |
| Effects.JoinNext | Source/Server/ClientCommand/JOIN.cpp:70-73 | Several names are joined one after another, the i-th with the i-th key or none. |
| Effects.PartTakes | Source/Server/ClientCommand/PART.cpp:50-70 | PART takes the channel from the client and the client's key and operator entry from the channel; nothing else changes. |
| Effects.PartElse | Source/Server/ClientCommand/PART.cpp:11-63 | Any other PART does nothing. |
| Effects.PartNext | Source/Server/ClientCommand/PART.cpp:47-72 | Several names are parted one after another. |
| Effects.KickTakes | Source/Server/ClientCommand/KICK.cpp:29-69 | A sender that the channel lists with an existing client and has among its operators takes exactly this channel from a filed target that it lists, and exactly its key and operator entry from the channel. |
| Effects.KickElse | Source/Server/ClientCommand/KICK.cpp:11-60 | Without any one of these conditions no channel and no client changes. |
| Effects.InviteAdds | Source/Server/ClientCommand/INVITE.cpp:29-75 | An operator that the channel lists adds a filed client that it does not list to the invitations under its name; nothing else changes. |
| Effects.InviteElse | Source/Server/ClientCommand/INVITE.cpp:11-72 | Without any one of these conditions no channel and no client changes. |
| Effects.PrivMsgLooks | Source/Server/ClientCommand/PRIVMSG.cpp:54-98 | Exactly the receivers that are no channels lose the directory entry of an expired client. |
| Effects.Closing | Source/Server/Server.cpp:713-789 | A loss, a last write, a failed one, or a QUIT with nothing to send: the client is expired, closed, in no channel, queued for release and off the list, its directory entry gone; each channel that it held loses exactly the key and the operator entry of its nickname, and no other channel changes. |
| Effects.Expiring | Source/Server/Server.cpp:807-831 | A QUIT with something to send makes the client expire and gives up its channels; channels, directory and lists do not change. |
| Effects.NotClosing | Source/Server/Server.cpp:215-218 | Events of a client that has expired or is closed do nothing. |
| Effects.Connecting | Source/Server/Server.cpp:267-272 | A new client has nothing given and is on the list of unregistered ones. |
| Effects.Receiving | Source/Server/Server.cpp:301-348 | A client that sends is queued for processing unless it has expired or is closed. |
| Effects.Clearing | Source/Server/Server.cpp:134-135 | The clearing of a queue destroys exactly the clients that no other container holds, and changes nothing else. |
| Effects.CoreSays | Source/Server/Server.cpp:836-910 | The core on the fields: who exists; directory keys; names and password of registered clients; who holds channels and under which names; keys of channels that are not private. |
| Membership.RemoveUnordered | Source/Server/Server.cpp:760-769 | The removal loop computes `Without`, whose meaning is `Transitions.WithoutIs`. |
| Membership.Server.FindClientGlobal | Source/Server/Server.cpp:896-910 | Finds the unexpired client filed under the name; an expired entry goes, and the client with it when nothing else owns it. |
| Membership.Server.FindChannelGlobal | Source/Server/Server.cpp:912-927 | Gives null exactly when no existing client holds a channel of that name, and otherwise the channel that all its holders hold. |
| Membership.Server.RegisterClient | Source/Server/Server.cpp:836-881 | The checks, the lookup and the removal loop leave the whole server as `Register` of its old state, whose meaning is `Transitions.RegisterFiles`; true exactly if it registered. |
| Membership.Server.Pass | Source/Server/ClientCommand/PASS.cpp:11-32 | The handler leaves the whole server as `Passed` of its old state, whose meaning is `Effects.PassStores`. |
| Membership.Server.User | Source/Server/ClientCommand/USER.cpp:12-55 | The same for `Introduced`, whose meaning is `Effects.UserStores`; the assertion on empty names fails exactly if an empty argument comes before any that is no name. |
| Membership.Server.Nick | Source/Server/ClientCommand/NICK.cpp:12-81 | The handler, with its loop over the channels, leaves the whole server as `Nicked` of its old state, whose meaning is `Effects.NickStores` and `NickMoves`. |
| Membership.Server.RenameInChannels | Source/Server/ClientCommand/NICK.cpp:68-80 | The loop over the client's channels lists it also under the new key in exactly those it holds. |
| Membership.Server.LeaveChannels | Source/Server/Server.cpp:772-781 | The loop ends, each turn taking exactly the entry it looked at; exactly the channels held lose the client's key and operator entry (`Effects.Closing`). |
| Membership.Server.ForceDisconnect | Source/Server/Server.cpp:713-789 | The removals from lists, directory and channels leave the whole server as `ForceDisconnected` of its old state, whose meaning is `Effects.Closing` and `Transitions.ForceDisconnectDestroys`. |
| Membership.Server.Disconnect | Source/Server/Server.cpp:791-834 | An expired client is left alone; with bytes to send the client expires and gives up its channels, but channels go on listing it; otherwise it is closed (`Effects.Expiring`, `Closing`). |
| Membership.Server.ReleaseClients | Source/Server/Server.cpp:134-135 | The clients that only the release queue owned are destroyed. |
| Membership.Server.JoinOne | Source/Server/ClientCommand/JOIN.cpp:70-139 | One turn of the loop leaves the whole server as `JoinedOne` of its old state, whose meaning is `Effects.JoinExactly`, `FoundsChannel` and `JoinRefused`, with a new object for a new channel. |
| Membership.Server.Join | Source/Server/ClientCommand/JOIN.cpp:69-139 | The loop is `JoinedAll`: names in order, the i-th with the i-th key or none (`Effects.JoinNext`). |
| Membership.Server.Part | Source/Server/ClientCommand/PART.cpp:11-75 | The loop is `PartedAll`, whose meaning is `Effects.PartTakes` and `PartNext`; an inactive client changes nothing. |
| Membership.Server.Kick | Source/Server/ClientCommand/KICK.cpp:11-69 | The checks in their order, with the lookup they make, leave the whole server as `Kicked` of its old state, whose meaning is `Effects.KickTakes` and `KickElse`. |
| Membership.Server.Invite | Source/Server/ClientCommand/INVITE.cpp:11-85 | An operator that the channel finds adds a filed target that it does not find to the invitations, and nothing else changes but for the lookup (`Effects.InviteAdds`, `InviteElse`). |
| Membership.Server.PrivMsg | Source/Server/ClientCommand/PRIVMSG.cpp:54-98 | The loop looks up exactly the receivers that are no channels, in order. |
| Lifetimes.StepTyped | Source/Core/SharedPtr.hpp:173-306 | Every handle operation that the compiler lets through leaves each handle naming an object of its declared class. |
| Lifetimes.RunTyped | Source/Core/WeakPtr.hpp:25-136 | So it is at every point of every run. |
| Lifetimes.HoldersByClass | Source/Server/ClientControlBlock.hpp:66 | Between commands a strong handle on a channel is a member of a living client, and one on a client is a variable of the server. |
| Lifetimes.ClientLives | Source/Server/Server.hpp:320-330 | From the counts: a client object is alive exactly while one of the server's containers owns it, or a local variable. |
| Lifetimes.ChannelLives | Source/Server/ClientControlBlock.hpp:66 | From the counts: a channel object is alive exactly while an existing client holds it, or a local variable. |
| Lifetimes.FindChannel | Source/Server/Server.cpp:912-927 | Testing and locking the weak handle of the directory gives a handle on exactly the channel that the state says is found, and null when it finds none. |
| Lifetimes.DropsSweep | Source/Core/SharedPtr.hpp:280-306 | Whatever owners are dropped, the objects whose destructors run are exactly the clients swept from the state and the channels that thereby lost their last holder. |
| Lifetimes.ClearList | Source/Server/Server.cpp:135 | Clearing a list of strong handles is one cascade. |
| Lifetimes.ReleaseClients | Source/Server/Server.cpp:134-135 | The clearing of the release queue runs the destructors of exactly what it takes out of the state. |
| Lifetimes.EraseEntry | Source/Server/Server.cpp:896-910 | The erase of a directory entry, in whatever state and whatever the running functions hold, runs the destructors of exactly the clients that nothing else owns. |
| Lifetimes.LookupIsErase | Source/Server/Server.cpp:903 | That is what a lookup does to the state, since what the handler holds is owned anyhow. |
| Lifetimes.CloseErases | Source/Server/Server.cpp:770 | On the state that forceDisconnectClient has reached there, the erase destroys exactly those that the whole of it does. |
| Lifetimes.AcceptClient | Source/Server/Server.cpp:267-272 | Made in a local variable, copied to the list, the local gone: the heap holds the state with one client more. |
| Lifetimes.MakeChannel | Source/Server/ClientCommand/JOIN.cpp:93-95 | Made in a local variable with its weak members, filed weakly, held by its creator, the local gone: the heap holds the state with the channel created. |
| Names.ListedExactlyOnce | Source/Server/ClientCommand/JOIN.cpp:156-166 | The live members, and only they, are listed once each with the right operator mark. |
| Names.ElementMarks | Source/Server/ClientCommand/JOIN.cpp:164-165 | An operator is marked with '@', another member with '+'. |
| Names.ReadPush | Source/Server/ClientCommand/JOIN.cpp:163-173 | A receiver reads an appended element back as that member. |
| Names.FewestLines | Source/Server/ClientCommand/JOIN.cpp:168-172 | Filling each line needs no more lines than any other way of spreading the members in order. |
| Names.FullerLine | Source/Server/ClientCommand/JOIN.cpp:168-172 | Starting with a fuller line never saves a line and costs at most one. |
| Names.LimitsLeaveRoom | Source/Server/ClientCommand/JOIN.cpp:86-91 | With the limits on channel names and nicknames there is room on every line if and only if the server name has at most 291 bytes. |
| Names.ShortLineIsWhole | Source/Server/MsgBlock.hpp:43-53 | A line of at most 510 bytes is neither cut nor left without CR-LF. |
| Names.PackNames | Source/Server/ClientCommand/JOIN.cpp:152-179 | Reading the lines back gives the live members in map order; the lines fit if and only if a template and any one member fit; then none is bare, all are sent whole, and no division uses fewer. |
| ModeCommand.RunIsReplay | Source/Server/ClientCommand/MODE.cpp:56-208 | The modes end up as the fold of exactly the reported letters. |
| ModeCommand.ChangedByOperator | Source/Server/ClientCommand/MODE.cpp:73-78 | Every change was made while the sender was an operator. |
| ModeCommand.NothingAfterSelf | Source/Server/ClientCommand/MODE.cpp:89-96 | A sender that takes the privilege from itself changes nothing more. |
| ModeCommand.KeyStaysWithPrivate | Source/Server/ClientCommand/MODE.cpp:132-162 | The loop keeps the key empty while the channel is not private; `Sessions.CoreAlways` carries that over every run. |
| ModeCommand.EveryLetterAnswered | Source/Server/ClientCommand/MODE.cpp:56-208 | Each letter is reported or refused, once, and the reported ones keep their order. |
| ModeCommand.ParametersInOrder | Source/Server/ClientCommand/MODE.cpp:80-87 | Each argument serves at most one change, in order, and operators are clients of the directory. |
| ModeCommand.OverrunsExactly | Source/Server/ClientCommand/MODE.cpp:67-81 | The arguments are overrun if and only if the sender is an operator, a parameter is given, some 'o' comes after as many parameter-taking letters as there are parameters, and the sender does not lose the privilege first. |
| ModeCommand.OneParameterForTwo | Source/Server/ClientCommand/MODE.cpp:67-81 | "+oo" with one parameter overruns. |
| ModeCommand.ModeOperator | Source/Server/ClientCommand/MODE.cpp:64-100 | The case for 'o' checks, reads its argument, looks the target up and changes the operators in the order of the specification's step; the directory keeps its unexpired clients. |
| ModeCommand.ModeFlag | Source/Server/ClientCommand/MODE.cpp:102-201 | The cases for 'i', 't', 'k' and 'l' change the flag, key or limit, or refuse, as the specification's step does, whose meaning is `ModeEffects.LetterMeans`. |
| ModeCommand.ChangeModes | Source/Server/ClientCommand/MODE.cpp:53-208 | The loop computes the run of the letters, and its report is the sign and the letters changed. |
| ModeCommand.LookupKeepsFiled | Source/Server/ClientCommand/MODE.cpp:82 | The lookups of the loop leave the unexpired clients of the directory as they are. |
| ModeCommand.ModedReplays | Source/Server/ClientCommand/MODE.cpp:11-222 | MODE changes at most the named channel, to the replay of exactly what it reports, each change made while the sender was an operator; it reads past its arguments exactly when said; no client changes. |
| ModeCommand.ModedKeeps | Source/Server/ClientCommand/MODE.cpp:11-222 | MODE keeps the invariants. |
| ModeCommand.Mode | Source/Server/ClientCommand/MODE.cpp:11-222 | The handler leaves the whole server as `Moded` of its old state, whose meaning is `ModeEffects.ModeChanges` and `LetterMeans`, and reports the sign and letters of the changes and the refusals of its loop. |
| ModeEffects.ModeChanges | Source/Server/ClientCommand/MODE.cpp:11-222 | On the fields of the channel: each flag is as the sign says if its letter is reported, else as before; key and limit are those of the last reported letter; the operators gain or lose exactly the named filed clients; name, members and invitations stay. |
| ModeEffects.LetterMeans | Source/Server/ClientCommand/MODE.cpp:56-208 | Each letter, met while the sender is an operator, is reported with the argument that is its own, or refused for want of one; met while it is not, it is refused. |
| ModeEffects.ModeElse | Source/Server/ClientCommand/MODE.cpp:11-52 | A MODE that reaches no channel does nothing. |
| ModeEffects.AtoiReads | Source/Server/ClientCommand/MODE.cpp:184 | A limit printed in decimal is read back, after spaces, with a sign or none. |
| Sessions.CommandedKeeps | Source/Server/Server.cpp:582-711 | Any command keeps what holds in every state, and keeps the server in sync if and only if it neither renames a member nor takes another client that goes on existing out of the directory. |
| Sessions.CommandedFirm | Source/Server/Server.cpp:582-711 | Active clients stay filed, and listed in the channels they hold, if and only if the command is not of the second kind: a rename does not disturb that. |
| Standing.RefiledFirm | Source/Server/ClientCommand/NICK.cpp:59-81 | A rename moves the entry and lists the client under its new nickname wherever it is. |
| Standing.ForceDisconnectedFirm | Source/Server/Server.cpp:713-789 | A close leaves active clients filed and listed if and only if it takes no other one that goes on existing out of the directory. |
| Sessions.ApplyKeeps | Source/Server/Server.cpp:132-433 | So does any event of the loop. |
| Sessions.CoreAlways | Source/Server/Server.cpp:132-433 | In every world of every run, whatever came before: exactly the owned clients exist; directory keys are nicknames of registered clients, which gave names and password; only active clients hold channels, each under its name the one channel of the directory; a closed client is expired; keys of channels that are not private are empty. |
| Sessions.InSyncUntil | Source/Server/Server.cpp:132-433 | A run that starts in sync is in sync up to its first event of either kind, and not right after it; that nobody else is listed, and nobody under another name, is lost exactly at renames of members. |
| Sessions.FirmUntil | Source/Server/Server.cpp:132-433 | Whatever renames there are, every active client is filed, and listed where it is, up to the first event of the second kind, and not right after it. |
| Sessions.Step | Source/Server/Server.cpp:132-433 | The server does to each event what the transitions say. |
| Sessions.Run | Source/Server/Server.cpp:132-433 | From the start, any sequence of connections, received bytes, commands, losses, write events and queue clearings makes a run, with one world per event, that ends in the server's state. |
| Draining.CommandStays | Source/Server/Server.cpp:896-905 | No command takes a draining client off the unregistered list or the process queue; it takes it out of the directory if and only if it looks up or erases its nickname. |
| Draining.EventStays | Source/Server/Server.cpp:896-905 | The same of any event that does not close the client, but for the clearing of the process queue. |
| Draining.DrainingOwners | Source/Server/Server.cpp:896-905 | A draining client exists exactly while the unregistered list, the process queue or the directory owns it. |
| Draining.EndsInClose | Source/Server/Server.cpp:410-414 | Over any run in which nothing else closes it, the write event that sends its last byte closes an expired client if and only if it was not registered, or is still in the process queue, or no event before looked its nickname up; otherwise it has been destroyed. |
| Joint.StepTied | Source/Server/Server.cpp:132-433 | Whatever happens in the event loop, the server's state and its sending side agree on who is expired and closed. |
| Joint.ServerRuns | Source/Server/Server.cpp:132-433 | A run of the two is a run of the server in which whether a client that quits has drained, and which write event drains or fails, is read off its queue. |
| Joint.WriteShrinks | Source/Server/Server.cpp:384-405 | Each write event that gives send n bytes of an expired client leaves n fewer, and closes it exactly when none is left. |
| Joint.DrainsWhileOwned | Source/Server/Server.cpp:410-414 | Over any run in which nothing closes it, a client that quit with bytes to send gets no more, has never nothing left, what is left only shrinks, and it exists at the end if and only if an owner outlasts the run. |
| Joint.LastWriteCloses | Source/Server/Server.cpp:410-414 | If it exists, the write event with the last of its bytes closes it, on both sides. |
| Joint.LostForGood | Source/Server/Server.cpp:903 | If it has been destroyed, what it had left is never sent and its socket never closed. |
| Scenarios.DrainingLost | Source/Server/Server.cpp:903 | A run from the start in which a message to the nickname of a client that has quit destroys it, with its socket open. |
| Scenarios.NamesakeDestroyed | Source/Server/Server.cpp:770 | A run from the start in which the loss of an unregistered client destroys an active one that took the same nickname, with its socket open. |
| Scenarios.NamesakeUnfiled | Source/Server/Server.cpp:770 | The same while that client waits to be processed: it goes on, active and in no directory. |
| Scenarios.RenameLeavesOldKey | Source/Server/ClientCommand/NICK.cpp:73-74 | A run from the start after which a channel lists one client under two nicknames. |

## Left out

- Sockets, kqueue, the clock and startup: what `recv` and `send` return and which events come are parameters;
  the kernel is a set of sockets whose write filter is on.
- `destroyResources`, `CreateServer` and `main`: range checks and shutdown.
- Logging, colours, macros, the text of replies other than NAMES and the MODE report, and error codes.
- Source/Core/ControlBlock.hpp: a second definition that is not used.
- TOPIC: a single branch. QUIT is the disconnection modelled here.
- PRIVMSG beyond its splitting, its lookups and its delivery.
- Operators are not a subset of the members, because MODE +o takes any client; no such claim is made.
- Object layout, alignment and placement new beyond slot offsets; failing allocation and exceptions.
- The heap of `Ownership` is a finite map of blocks and of handle locations; an object is the set of handles that are its members.
- The fields of a client appear in three modules (receiving, sending, membership), each with the fields its operations use;
  `Joint.dfy` ties sending to membership, receiving is tied to neither.
- In `Joint.dfy` the messages a command sends are given with it, to any clients that exist; that a handler sends its replies
  to the right ones is said only of NAMES and the MODE report.
- Events of a client that has been destroyed: the program reads through a dangling pointer in the event (Source/Server/Server.hpp:164-168);
  here they do nothing.
- SendQueues.Delivery.Disconnect: does not say that the draining client lives until its bytes are out; Joint.DrainsWhileOwned says when it does.
- SendQueues.Delivery.WriteEvent: presumes that the client exists, as does the program.
- Sessions.InSyncUntil: after the rename of a member nothing more is said of who else is listed; what is filed and held goes on.
- Membership.Server.PrivMsg: the lookups only; what a receiver gets is SendQueues.Delivery.SendMsgToClient and SendMsgToChannel.
- Lifetimes.DropsSweep: the heap is followed through the release queue, the erases, accept and the creation of a channel; that
  the other handle operations of the handlers keep it in step with the state is not carried out.
- Separator.Scan: a skip that runs out of blocks ends the scan; the program's next pass over the last block is not modelled.
- Separator.RecvQueue.SeparateMsgs: the vector of separated messages is empty at the call, as it is at its only call site.
- Tokeniser.Tokenise: the in-place loop is proved for messages without NUL; what it does with one is said of the functional loop.
- SendQueues.Delivery.SendMsgToClient: asks for a message that fits its block with CR-LF; by MsgBlocks.FitsUnless511 that
  leaves out only 511 bytes without a terminator, for which the program writes past the block.
- Sending.SoundAlways: skips acts with such a message, a second open connection with one socket, and a `send` that takes more
  than it was given.
- ModeCommand.ChangeModes: stops where the program would read past its arguments; `atoi` does not overflow here.
- Membership.Server.Nick: `isalnum` is that of the C locale.
