# wirecall, modelled and proved in Dafny

wirecall is a small RPC library in C: a server with per-core workers, a blocking client, a binary packet
format with a checksum and a MAC, and a typed payload encoding. This project models the parts of it where a
mistake would be hard to see by reading, and proves what they promise. `dafny verify dfyconfig.toml` checks
everything.

| part | files | shape |
|---|---|---|
| route table with deferred reclamation | `RouteTable`, `RouteInvariant`, `RouteSteps`, `RouteMutation`, `RouteTheorems`, `RouteReaders`, `RouteCalls`, `RouteLeaks`, `RouteLeakExample`, `RouteCopy`, `RouteDestroy`, `RouteFates`, `RouteOutcomes`, `RouteIndexing` | step machine: any number of readers and mutators, interleaved at every atomic access and every node |
| worker, connections, deferred calls | `Worker`, `WorkerInvariant`, `WorkerSteps`, `WorkerTheorems`, `WorkerResults`, `WorkerWakes`, `WorkerStuck`, `WorkerAnswers` | step machine: the event loop against any number of completing threads |
| packet header, checksum, SipHash, signing | `Words`, `Headers`, `Checksum`, `SipHash`, `Integrity`, `Vectors` | functions, with the loops and the streaming hash as methods |
| stream framing | `Framing`, `FramingTheorems` | functions on byte streams |
| server connection buffers | `Serving`, `Buffers`, `Sockets`, `Outgoing`, `Connection` | class with array buffers |
| client | `Client`, `EndToEnd` | class with an array buffer, send loops |
| payload codec | `Payload`, `PayloadWriter`, `PayloadDecoder` | functions, a growing writer class, a decoder over an explicit heap |
| scheduler and arena | `Rounds`, `CallMemory`, `Scheduling`, `Arena` | linked ready queue and arena classes, calls with their memory |

Conventions. `size_t` is 64 bits and the host is little-endian. A machine word is a bit vector; a length is a
`nat` with its limit written out. recv, send and poll follow scripts that the theorems quantify over. An
allocation succeeds or fails as the environment says. A handler is a deterministic oracle over the packets
handled so far. An f64 is its 64-bit pattern. A coroutine is the number of times it still yields. The step
machines assume sequential consistency.

What the step machines say, in short. A route lookup never loads a field of a freed node, nor walks a chain with
a finalized registration, in any interleaving; a registration is finalized at most once, never while it is in the
table, and exactly once by the end of `destroy` unless an allocation of a retired node failed; lookups and
mutations are linearizable to a plain map, and a mutation fails only for want of memory or of something to remove; no
retired chain is forgotten. A connection's `pending_deferred` is the
number of its undrained calls, its slot is returned once, and a deferred call is won, queued and drained once,
however its completions race, and answered with the result of the completion that won if and only if its connection
can still take the answer; the worker serves every event of a poll, and never sleeps on a completed call without a
wake pending or about to come.

Where the code falls short of a plain reading of its interface, the model keeps the code, shows a case, and says
exactly when the plain reading holds:

- A stream is not handled the same way for every recv chunking: a DISCONNECT marks the connection, but packets
  behind it in the same buffer are still handled. The chunkings agree if and only if no whole packet follows the
  first DISCONNECT (`SameUnlessTrailing`); `ByeThenPing` gives a stream for every server, `Serving.Example` one
  for a concrete server.
- An add or remove can return -1 after it has taken effect, when the retired node cannot be allocated. A call
  returns -1 with the map changed if and only if its own allocation failed (`ReturnValue`). The old chain then stays
  in memory for good with nothing leading to it (`NeverFreed`), and the registration it was to finalize is never
  finalized (`NeverFinalized`). After `destroy`, memory is empty if and only if no such allocation failed in the
  whole run, and a registration that was ever in the table is finalized if and only if the allocation for its chain
  did not fail (`Lifetime`). `LeakyRun` is a run that leaks.
- A failed bytes or string write leaves its 5-byte prefix in the writer if and only if the prefix itself fitted
  (`PayloadWriter.Writer.WriteText`); `StrayPrefix` and `StrayPrefixTooLong` are two cases.
- A packet whose payload append fails leaves its header in the write buffer. What a connection puts out is the
  packets it queued if and only if that never happened (`OutputIffNoStray`); `QueuePacket` says when it happens,
  `StrayExample` is a case. When the reply was to a deferred call the return code is dropped and the connection
  goes on; when it was to the packet being handled the connection is closing from there on.
- A connection that is to be closed waits for its output to be sent. If the loop iteration that decides to close it
  does not get to send everything, nothing sends the rest: the connection stays attached and closing in every later
  state, and its slot is never returned (`ClosedNowOrNever`, `StuckForever`). A send error or a stray header brings
  it there (`FailedSendSticks`, `StraySticks`); `StuckRun` is such a run.

## Model

| member | source | states |
|---|---|---|
| RouteTheorems.RunInv | src/routes.c:39-271 | one inductive invariant holds in every state of every run of lookups, adds and removes |
| RouteTheorems.NeverTouchesFreed | src/routes.c:253-262 | in every reachable state the node a reader is about to load is allocated, and its chain is published, or out of the table while the reader count is positive; the node a thread is about to free is allocated |
| RouteTheorems.ReaderSafe | src/routes.c:257-262 | the invariant ties each walking reader's node to a visible generation and a positive reader count |
| RouteTheorems.SlotReadable | src/routes.c:149-169 | behind every slot memory always holds the well-formed chain that was last published there |
| RouteTheorems.FinalizedOnce | src/routes.c:17-28 | no finalizer runs twice, none for a registration still in the table, distinct ids hold distinct registrations, and every live registration is in the table, although nodes are copied from generation to generation |
| RouteTheorems.TableDenoted | src/routes.c:131-175 | walking the slot of any proc_id finds exactly the binding of the abstract map |
| RouteTheorems.LookupLinearizes | src/routes.c:246-271 | in every run a lookup returns the value of the map at some state between its call and its return |
| RouteCalls.MutationLinearizes | src/routes.c:131-175 | a mutation past its store applied its operation to the map in exactly one step of its own since its call, no other own step changing the map; a remove found its binding there |
| RouteCalls.FailedMutation | src/routes.c:140-163 | a mutation that fails before publishing leaves the map as it was in every one of its steps |
| RouteCalls.ReturnValue | src/routes.c:53-71 | in every run, a call that returns 0 took effect; it returns -1 with the map changed if and only if its own allocation of a retired node failed; and it changed the map if and only if it applied its operation, once; `MutationResult` says when it returns what |
| RouteOutcomes.MutationResult | src/routes.c:131-243 | in every run an add or remove returns -1 if and only if one of its own steps found no memory for a page, for its copy or for the retired node, or, for a remove, found no page or no binding of the id in the map; else 0 |
| RouteOutcomes.AddResult | src/routes.c:131-175 | an add returns 0 if and only if none of its own steps went without memory, and then its id is bound to its registration at some state of the call |
| RouteOutcomes.SeenIsMap | src/routes.c:149-168 | whatever chain a mutation reads, it holds the id if and only if the map does |
| RouteTheorems.StoredRemove | src/routes.c:234-240 | a remove that reaches its store removes a binding that is there |
| RouteCalls.MissedRemove | src/routes.c:208-240 | a remove that returns -1 without effect, by an absent page or an absent node, has a state between call and return where the id is not in the map, unless an allocation of its copy failed there |
| RouteReaders.ReadersSeeLive | src/routes.c:246-271 | in every reachable state no registration on a chain a lookup is walking, and none it has found and not yet carried out of the counted region, has been finalized, by whichever of the generations that share it |
| RouteTheorems.NotStranded | src/routes.c:39-71 | a non-empty retired list implies a positive reader count, a mutator still inside retirement, or a last reader that still owes its `free_retired` |
| RouteTheorems.PageAllocated | src/routes.c:136-149 | in every state of every run the page whose slot a thread is about to load or store has been allocated |
| RouteTheorems.QuiescentClean | src/routes.c:39-71 | when no call is running the retired list is empty and memory holds the published chains only, except what a failed allocation leaked |
| RouteLeaks.NextTight | src/routes.c:53-71 | only a failed allocation of a retired node leaks a chain or loses a registration |
| RouteLeaks.ShortLeaks | src/routes.c:60-68 | and such a failure always does: the step leaks the old chain and loses the registration it was to finalize |
| RouteLeaks.LeakStays | src/routes.c:39-71 | no later step of any thread recovers a leaked chain |
| RouteLeaks.TightIffNeverShort | src/routes.c:53-71 | in the history of a run a chain is marked leaked or a registration lost if and only if some retired node of it could not be allocated |
| RouteFates.StatusMoves | src/routes.c:17-71 | a registration is in flight, then failed for good or live, then dying, then finalized or lost for good, under every step of every thread; and only the failed allocation for its own chain loses it |
| RouteFates.Fate | src/routes.c:53-71 | in every state of every run: a registration is published or past that if and only if it has been in the table, and lost if and only if a retired node was not allocated for a chain that bound its id to it and was to finalize it |
| RouteFates.NeverFinalized | src/routes.c:53-71 | a registration so lost is in no later finalizer log |
| RouteFates.NeverFreed | src/routes.c:53-71 | the chain whose retired node was not allocated reads the same in memory in every later state, and no slot, retired node or free list leads to it |
| RouteFates.LeaksIffShort | src/routes.c:53-71 | a run leaves a leaked node in memory if and only if some retired node of it could not be allocated |
| RouteFates.Lifetime | src/routes.c:94-125 | for every run that ends with no call running, after `destroy`: memory is empty if and only if every retired node could be allocated, and exactly the registrations that were ever in the table and not lost to a failed allocation are finalized, once each |
| RouteLeakExample.LeakyRun | src/routes.c:53-71 | for any placement and id there is a run, an add, a lookup inside the counted region, and an add of the same id whose retired node finds no memory, that ends with the first registration lost |
| RouteSteps.InitInv | src/routes.c:73-92 | the empty table satisfies the invariant |
| RouteMutation.NextInv | src/routes.c:39-271 | every step of every thread keeps the invariant |
| RouteMutation.StoreInv | src/routes.c:169-171 | the slot store keeps it: the new chain is published, the old one unlinked, one registration starts to die |
| RouteMutation.RetireInv | src/routes.c:53-58 | retiring with no reader in sight keeps it |
| RouteMutation.PushInv | src/routes.c:60-68 | putting a chain on the retired list keeps it, also when the allocation fails |
| RouteMutation.FreeInv | src/routes.c:21-28 | freeing a chain node by node, finalizing one, keeps it |
| RouteCopy.CopyChain | src/routes.c:149-168 | the copying loop succeeds if and only if the allocator has as many free nodes to give as the new chain needs; it then builds, out of these, the old chain without the id (an add's node first) and reports whether the id was there; otherwise memory is exactly as before |
| RouteCopy.FreePrivate | src/routes.c:160-163 | freeing an unpublished copy restores memory exactly |
| RouteDestroy.FreeChain | src/routes.c:100-109 | freeing one slot's chain with `finalize_all` finalizes each of its registrations once and frees its nodes only |
| RouteDestroy.Destroy | src/routes.c:94-125 | after `destroy` memory holds exactly the nodes of leaked chains, unchanged, and exactly the registrations neither failed nor lost have been finalized, once each |
| RouteIndexing.SlotIsIndex | src/routes.c:136-138 | page and slot within it are in range and together determine the 32-bit route index |
| RouteIndexing.SharedChain | src/routes.c:30-37 | two ids share a chain if and only if they mix to the same index |
| RouteIndexing.MixInjective | src/routes.c:30-36 | the mixing of ids loses nothing |
| RouteIndexing.SharedIndex | src/routes.c:30-37 | so different ids share an index only if they differ in the half of the mixed word that is dropped |
| Vectors.IndexVector | src/routes.c:30-37 | the index, page and slot of one id, worked out |
| WorkerTheorems.RunInv | src/server.c:829-867 | one inductive invariant holds in every state of every run of the worker against completing threads |
| WorkerTheorems.PendingIsCount | src/server.c:235-298 | `pending_deferred` is the number of undrained calls of the connection; list membership is what `detached` and `write_queued` say, without duplicates; a detached slot is kept only for its calls |
| WorkerTheorems.FreedOnce | src/server.c:268-269 | a connection slot returns to the arena at most once per allocation and never while an undrained call points at it |
| WorkerTheorems.NeverDangling | src/server.c:840-862 | every connection or call the worker is about to dereference is allocated, and so is the call of any thread's attempt once it has won |
| WorkerTheorems.CompletedOnce | src/server.c:575-600 | a call is won once, queued once, drained once in queue order, never lost once completed, and answered at most once, on its own connection with its own ids; `RepliedIff` says when it is |
| WorkerTheorems.ExchangeOutcome | src/server.c:998-1019 | an exchange wins exactly when no earlier one on that call has; a loser changes nothing |
| WorkerAnswers.RepliedIff | src/server.c:575-600 | in every run a call has been answered if and only if it was drained while its connection was attached and not closing and both appends succeeded |
| WorkerAnswers.DrainAnswers | src/server.c:575-600 | draining a call queues exactly one packet then, with the ids of the call and the outcome of its completion, on a connection that the next flush will visit; and none otherwise |
| WorkerAnswers.AnswerQueued | src/server.c:176-200 | so does the reply to the packet being handled: its connection has output and is on the write list |
| WorkerAnswers.FlushEffect | src/server.c:283-298 | a flush takes the connection off the list; it has nothing unsent and is closed if that is due when all was sent, keeps its output otherwise, and is closing after a send error |
| WorkerAnswers.CloseEffect | src/server.c:235-274 | a closing connection with nothing unsent is freed, or detached while it has calls; any other is left alone |
| WorkerAnswers.EventsInTurn | src/server.c:840-856 | in every run the worker turns to every event of a poll before it leaves the batch, in the order of the poll |
| WorkerAnswers.EventServed | src/server.c:850-855 | and an event of a connection has been through `maybe_close` before the worker turns to the next |
| WorkerAnswers.ShutCloses | src/server.c:390-392 | a connection that a packet marks is closing until the end of that visit, when it is gone, detached, or waits for its output |
| WorkerAnswers.ErrorTries | src/server.c:341-344 | a handler that returns an error without having completed its call has the worker fail it with -1 |
| WorkerAnswers.ErrorCompletes | src/server.c:341-344 | when the worker is done with that the call is completed, whoever completed it |
| WorkerResults.ReplyMatchesWinner | src/server.c:575-600 | in every run the reply to a drained call is a response if and only if the one attempt that won the call completed it, and an error if and only if that attempt failed it |
| WorkerResults.RunResults | src/server.c:222-233 | along every run at most one attempt per call wins, and stored results and replies are those of winners |
| WorkerWakes.NeverAsleep | src/server.c:222-233 | whenever the worker is about to block in poll with completed calls waiting, a wake is pending or a thread is between queueing its call and its wake |
| WorkerWakes.WakesNext | src/server.c:829-867 | every step of worker, completing threads and other wakers keeps that |
| WorkerStuck.StuckStays | src/server.c:272-298 | a connection that is closing, attached, with unsent output and off the write list stays so under every step |
| WorkerStuck.StuckForever | src/server.c:272-298 | so in every later state of the run, and its slot is never returned |
| WorkerStuck.ClosedNowOrNever | src/server.c:829-867 | whatever is attached and closing when the worker polls has unsent output and is never closed |
| WorkerStuck.StraySticks | src/server.c:194-197 | a header without its payload, on a connection with nothing queued, brings it there |
| WorkerStuck.FailedSendSticks | src/server.c:283-298 | so does a send error while flushing |
| WorkerStuck.StuckRun | src/server.c:493-518 | a run from the start: accept, one request, a failed send, and the connection is stuck |
| WorkerInvariant.InitInv | src/server.c:624-648 | a fresh worker satisfies the invariant |
| WorkerSteps.NextInv | src/server.c:222-346 | every step of the worker and of every completing thread keeps the invariant |
| WorkerSteps.AttemptInv | src/server.c:222-233 | the exchange, the result store and the push to the completed queue keep it, in any interleaving |
| WorkerSteps.DrainInv | src/server.c:575-600 | draining one call keeps it, including the last call of a detached connection and a reply of which only the header was appended |
| WorkerSteps.FlushInv | src/server.c:283-298 | flushing the write list keeps it |
| Words.GetPut64 | src/protocol.c:34-40 | reading a stored 64-bit word gives it back |
| Words.PutGet64 | src/protocol.c:34-40 | storing a read 64-bit word gives the bytes back |
| Words.ReadU64 | src/payload.c:29-35 | the shifting loop reads the big-endian word |
| Words.LoadReversed | src/protocol.c:42-46 | a native load is the big-endian reading of the reversed bytes |
| Headers.DecodeEncode | src/protocol.c:143-169 | decoding an encoded header gives it back, for every header that can be encoded |
| Headers.EncodeDecode | src/protocol.c:156-169 | encoding a decoded header gives the 34 bytes back: no two byte strings are the same header |
| Headers.EncodeHeader | src/protocol.c:143-154 | writes the layout into the buffer exactly when op and size are valid, and otherwise nothing |
| Headers.StoreU64 | src/protocol.c:148-152 | the store loop of shifted bytes writes the eight bytes and leaves the rest of the buffer alone |
| Headers.ByteOfPut | src/protocol.c:34-40 | the shifts pick the bytes of the big-endian form |
| Checksum.Mix64Injective | src/protocol.c:52-59 | the mixer loses nothing: xorshifts and odd multiplications modulo 2^64 are invertible |
| Checksum.AbsorbInjective | src/protocol.c:69-70 | with state or word fixed, absorbing a word is injective in the other |
| Checksum.CheapHashUpdate | src/protocol.c:67-79 | the loop over words and tail computes the recursive hash that the laws below and `ChecksumVector` are about |
| Checksum.StateInjective | src/protocol.c:67-79 | for any payload, different incoming hashes stay different |
| Checksum.WordInjective | src/protocol.c:67-79 | payloads that differ only within one 8-byte word, or only within the tail, have different 64-bit hashes |
| Checksum.HeaderInjective | src/protocol.c:61-65 | with everything else fixed the 64-bit hash determines proc_id, call_id, and the triple op, flags, size |
| Checksum.PayloadInjective | src/protocol.c:171-176 | the same for one word of the payload of a whole packet, before the 32-bit fold |
| Vectors.ChecksumVector | src/protocol.c:171-177 | the checksum of one packet, worked out |
| SipHash.Hasher.Round | src/protocol.c:87-102 | the fourteen in-place statements are the SipRound of the SipHash paper |
| SipHash.Hasher.CompressWord | src/protocol.c:104-109 | absorbs one word with two rounds, which `PaperVector` fixes |
| SipHash.Hasher.Update | src/protocol.c:111-136 | after any updates the state is that of the concatenated bytes: whole words absorbed, the rest waiting in the tail |
| SipHash.Hasher.Finish | src/protocol.c:204-210 | the finalization yields SipHash-2-4 of everything fed in |
| SipHash.HashChunks | src/protocol.c:111-136 | for every split of a message into chunks, streaming equals one-shot SipHash-2-4, the function of `PaperVector` |
| SipHash.HoldLast | src/protocol.c:204-204 | tail and total length make up the last word of the definition |
| SipHash.LastWordPads | src/protocol.c:204-204 | that word is the rest of the message, zeros, and the length modulo 256 in its top byte |
| Vectors.PaperVector | src/protocol.c:87-136 | SipHash-2-4 of the message and key of appendix A of the SipHash paper is the value printed there |
| Integrity.ComputeMac | src/protocol.c:179-211 | the packet MAC is SipHash-2-4, under the two key words, of the 30 metadata bytes followed by the payload; `MacVector` fixes the order of both |
| Vectors.MacVector | src/protocol.c:179-211 | the MAC of one packet under one key, worked out |
| Integrity.CodesIgnoreThemselves | src/protocol.c:221-248 | the checksum does not depend on checksum and MAC fields, the MAC not on the MAC field |
| Integrity.SignedVerifies | src/protocol.c:221-248 | what is signed is accepted under the same flags and key, and signing changes the two codes only |
| Integrity.VerifyIffSigned | src/protocol.c:233-248 | with both codes on, a packet is accepted if and only if signing it would reproduce it; `VerifyIff` has the other policies |
| Integrity.VerifyIff | src/protocol.c:233-248 | under every policy: acceptance if and only if signing is possible and gives the codes that are on; with the MAC alone, for a cleared checksum field, as signing leaves it |
| Integrity.SignsIff | src/protocol.c:221-231 | signing is possible if and only if the size is that of the payload, within the maximum, and there is a key if the MAC is on; nothing else is accepted |
| Integrity.OneCode | src/protocol.c:233-248 | accepted packets that differ at most in a code that is on are the same |
| Integrity.SomeMac | src/protocol.c:233-248 | where only the MAC is looked at there is one for whatever the checksum field holds |
| Vectors.SignedVector | src/protocol.c:221-231 | one packet signed under both codes, worked out |
| Vectors.LayoutVector | src/protocol.c:143-154 | and its 34 header bytes: which field is where, highest byte first |
| Framing.FrontWire | src/server.c:428-440 | a stream that begins with a genuine packet yields that packet and the rest |
| Framing.FrontGot | src/server.c:428-440 | a stream that yields a packet begins with the wire form of a genuine packet |
| Framing.GotIff | src/server.c:428-440 | so a stream yields a packet if and only if the packet is genuine and the stream begins with its wire form |
| Framing.MoreIff | src/server.c:428-434 | and is inconclusive if and only if the header, or the payload that a valid header announces, is cut short |
| Framing.FrontExtends | src/server.c:428-440 | later bytes never change a verdict |
| Framing.FrontBound | src/server.c:428-434 | only fewer bytes than a largest packet can be inconclusive |
| Framing.ParseUntil | src/server.c:425-446 | one pass agrees with the pass cut off at the first closing event, up to that event |
| FramingTheorems.FeedUntil | src/server.c:455-474 | for every chunking the connection closes exactly when the cut-off parse of the whole stream does, and handles the same packets up to and including the closing event |
| FramingTheorems.ChunkingIndependent | src/server.c:425-474 | for every chunking: the same packets, up to and including the first closing event, as one parse of the whole stream; without a closing event, the same state |
| FramingTheorems.FeedConserves | src/server.c:448-451 | until it closes, the stream is the wire forms of the handled packets followed by exactly the buffered bytes |
| FramingTheorems.SameUnlessTrailing | src/server.c:390-392 | every chunking handles the same packets if and only if no whole packet follows the first DISCONNECT |
| FramingTheorems.OneChunkOrTwo | src/server.c:390-392 | DISCONNECT and PING in one chunk: both handled; in two: only the DISCONNECT |
| FramingTheorems.ChunkingMatters | src/server.c:428-446 | so for such a stream the chunkings do not agree |
| Serving.ByeThenPing | src/server.c:390-392 | on any server that can answer a ping, whatever its flags and key, a DISCONNECT followed by a PING is handled differently by two chunkings |
| Serving.Example | src/server.c:390-392 | the same for a concrete server |
| FramingTheorems.HandledWithin | src/server.c:425-474 | however much of a stream of genuine packets has arrived, in whatever chunks, the packets handled are the first ones sent |
| FramingTheorems.Delivered | src/server.c:425-446 | for every chunking, a stream of genuine packets is handed over unchanged and in order, up to a DISCONNECT |
| FramingTheorems.DeliveredSoFar | src/server.c:425-474 | a prefix of such a stream yields a prefix of the packets and closes nothing |
| Serving.SignedGenuine | src/server.c:181-193 | what `queue_packet` signs is a genuine packet with the requested fields |
| Serving.ReplyAnswers | src/server.c:375-423 | a handled packet is answered at most once and genuinely: with its call_id and proc_id and no flags, an empty response to a ping, the handler's response or an error that decodes to the handler's text, a refusal of other operations, and nothing to a DISCONNECT |
| Serving.AnsweredIff | src/server.c:375-423 | every packet but a DISCONNECT and a deferred call is due an answer; it gets exactly one if that is within the maximum size and the buffer can take it, and fails the connection otherwise; any other packet gets none and fails nothing |
| Serving.RepliesGenuine | src/server.c:375-423 | everything queued in answer to a history is genuine |
| Buffers.Fit | src/server.c:163-174 | reallocation to the doubled capacity keeps the used bytes; nothing changes when it fails |
| Buffers.GrownGood | src/server.c:163-174 | a buffer asked for at most 2 MiB never exceeds 2 MiB |
| Outgoing.OutputLength | src/server.c:194-197 | every stray header lengthens the output by 34 bytes over the queued packets |
| Outgoing.OutputIffNoStray | src/server.c:194-197 | the output is the concatenation of the queued packets if and only if no header went astray |
| Connection.Connection.AppendBytes | src/server.c:144-161 | appends all the bytes or none, and fails exactly when it must grow and cannot |
| Connection.Connection.QueuePacket | src/server.c:176-200 | for any state of the buffer and any outcome of the two reallocations: when it succeeds, and exactly what is appended, the wire form of the signed request, its header alone, or nothing |
| Connection.Connection.Answer | src/server.c:181-199 | queues the signed request or reports failure, and counts a stray header exactly when the second append is the one that fails |
| Connection.Connection.Queue | src/server.c:176-200 | for any room in the buffer and any fate of the two reallocations, `queue_packet` does to the queue what `Answer` does for the outcome these determine |
| Connection.Connection.PutHeader | src/server.c:194-195 | appends the signed header alone, as a stray piece |
| Connection.LosePayload | src/server.c:194-197 | a packet over 4096 bytes on a fresh connection, when the second reallocation fails: failure is reported, nothing is queued and the header is waiting |
| Connection.StrayHeader | src/server.c:194-197 | the next packet is queued behind the stray header |
| Connection.StrayExample | src/server.c:587-592 | a concrete pair of replies: the header of the first, whose payload never follows, waits in front of the second |
| Connection.Connection.Write | src/server.c:493-518 | under any pattern of partial sends and errors: exactly the bytes the answers accept go out, it is done exactly when that is all, and the connection is closing exactly when an answer breaks it; bytes sent are always a prefix of the pieces appended |
| Sockets.AllAccepted | src/server.c:493-518 | a kernel that takes something as often as there are bytes takes them all, and breaks nothing |
| Connection.Connection.HandlePacket | src/server.c:375-423 | hands the packet over, queues its reply, and returns 0 exactly when the reply was queued or none is due, which `AnsweredIff` decides from the packet, the handler and the memory |
| Connection.Connection.ParseAvailable | src/server.c:425-453 | the loop and the memmove leave history, buffer and flag as the one-pass parse says |
| Connection.Connection.Reserve | src/server.c:163-174 | fails exactly when it must grow and cannot; otherwise doubles from 4096 until the need is met, keeping the contents |
| Connection.Connection.MakeRoom | src/server.c:459-465 | an open connection always finds its need within 2 MiB, and every recv is offered at least 4096 bytes |
| Connection.Connection.Read | src/server.c:455-491 | for every script of recv results the connection is in the state that feeding the received chunks gives, with a buffer of at most 2 MiB; sync replies are queued in request order; over a kernel that keeps delivering it closes only if a packet makes it, and reads all there is unless it closes |
| Connection.Connection.ReadOnce | src/server.c:459-488 | one turn: how many bytes it takes, when it closes the connection and when the loop goes on |
| Connection.FeedBound | src/server.c:459-461 | an open connection never buffers as much as a largest packet |
| Client.SendIov | src/client.c:49-82 | under any partial sends exactly the bytes the answers accept go out; success if and only if that is all of one or two pieces, and something |
| Client.Advance | src/client.c:66-75 | stepping over sent pieces leaves exactly the unsent bytes |
| Client.SendPacket | src/client.c:124-169 | succeeds if and only if operation and size are valid and the kernel accepts all of the signed packet's wire form; what went out is the accepted part of it |
| Client.Reader.Reserve | src/client.c:88-106 | keeps the unread bytes; fails exactly when it must grow and cannot; otherwise moves them to the front or doubles from 65536 until the need is met |
| Client.Reader.Fill | src/client.c:108-122 | for any need: succeeds if and only if the need is met; the unread bytes grow by exactly what was received, which is what the loop over the answers comes to; over a kernel that keeps delivering it gives up only at the end of the stream or of the answers; every recv is offered positive space; the extra-growth branch is dead; within 2 MiB for needs within 2 MiB |
| Client.Reader.RecvPacket | src/client.c:171-211 | with w the unread bytes and those just received: a packet is delivered if and only if w begins with one and there is memory for the copy, and it is that one; out of memory if and only if w begins with one and there is none; more is wanted if and only if w is inconclusive; refused if and only if w is bad, as malformed exactly when the header does not decode. What is left is w without the packet. Over a kernel that keeps delivering the same holds of the whole stream. At most 2 MiB |
| EndToEnd.WiresPrefix | src/client.c:171-211 | the wire form has one reading: a prefix of a packet stream holds a prefix of the packets |
| EndToEnd.NeverBad | src/client.c:176-195 | no prefix of a genuine stream is taken for a bad packet |
| EndToEnd.SendAll | src/client.c:124-169 | sending requests one after the other puts out the stream of their signed packets up to the first byte not accepted, and succeeds if and only if every one is accepted in full |
| EndToEnd.PatientTakesAll | src/client.c:124-169 | as it is by a kernel that takes something as often as there are bytes |
| EndToEnd.SendAndHandle | src/server.c:455-491 | sends and reads composed: through any partial sends and any recv results the packets handled are the first of those requested, with the same fields and payloads; all of them once everything got through, as it does when both kernels keep moving bytes |
| EndToEnd.RequestsArrive | src/server.c:425-474 | the stream of signed requests, however it is cut up, reaches the handlers of a receiver with the same flags and key unchanged and in order, up to a DISCONNECT |
| EndToEnd.ConnectionHandles | src/server.c:425-474 | a connection that has received any part of a stream of genuine packets has handled the first of them |
| EndToEnd.ConnectionHandlesAll | src/server.c:425-474 | one that has received all of it, of handlers that take it all, has handled all and buffers nothing |
| EndToEnd.ReaderFollows | src/client.c:171-211 | a client that has received any part of what a connection without stray headers sent has delivered a prefix of the packets queued there, meets no bad packet, and ends with all of them |
| EndToEnd.Conversation | src/server.c:348-373 | over sync routes the server handles the requests as made, and what the client has read are the first of its replies in request order |
| Payload.DecodeOneEncode | src/payload.c:174-237 | one written value in front of anything decodes to itself |
| Payload.Encoded | src/payload.c:90-139 | the bytes of each kind of value: its type byte, then nothing, a flag, a word, or a length and the text |
| Payload.DecodeEncode | src/payload.c:90-250 | decoding what a run of writes produced returns exactly the values |
| Payload.EncodeDecode | src/payload.c:141-250 | writing the values of any accepted byte string reproduces it |
| Payload.AcceptsExactly | src/payload.c:141-250 | the decoder accepts exactly what a writer can produce |
| PayloadWriter.Writer.Reserve | src/payload.c:37-55 | succeeds exactly when the need is within the maximum and memory allows, keeping the contents |
| PayloadWriter.Writer.Push | src/payload.c:57-62 | appends the bytes or leaves the contents alone |
| PayloadWriter.Writer.WriteScalar | src/payload.c:90-121 | appends the encoding of the value or nothing |
| PayloadWriter.Writer.WriteText | src/payload.c:123-139 | succeeds exactly when both pushes fit; a failure leaves the 5-byte prefix exactly when the prefix fitted, and nothing otherwise |
| PayloadWriter.Writer.Write | src/payload.c:90-139 | the call for any value appends its encoding, or a proper part of it on failure; it succeeds exactly when the pushes fit; with memory, exactly when the encoding fits |
| PayloadWriter.StrayPrefix | src/payload.c:123-139 | a 60-byte text whose second allocation fails leaves a prefix that does not decode |
| PayloadWriter.StrayPrefixTooLong | src/payload.c:123-139 | so does, with memory to spare, a text too long for a payload |
| PayloadWriter.WriteAll | src/payload.c:37-139 | a run of write calls appends the whole encoding, or a proper part of it; with memory it succeeds exactly when the whole fits |
| PayloadWriter.WriteThenDecode | src/payload.c:90-250 | what a successful run wrote decodes to exactly the values |
| PayloadWriter.DecodeThenWrite | src/payload.c:141-250 | writing the values of any accepted payload of at most the maximum size reproduces it, and of no larger one |
| PayloadDecoder.DecodePayload | src/payload.c:141-250 | succeeds if and only if the bytes decode and none of its allocations was refused; then the cells spell the decoded values and the sentinel is at `count`; on failure every block is freed |
| PayloadDecoder.DecodeItem | src/payload.c:174-232 | one turn of the switch yields the value at the offset, with its own copy of a text, if there is one and memory for it, and otherwise changes nothing |
| PayloadDecoder.Cleanup | src/payload.c:79-88 | frees each block the cells own, once |
| PayloadDecoder.ValuesFree | src/payload.c:252-259 | the scan recovers the exact count; every block of the decoder is freed once and nothing else |
| PayloadDecoder.DecodeAndFree | src/server.c:348-373 | decoding and freeing leaves the heap as it was, whatever the input and whichever allocations fail |
| Rounds.ServeRound | src/scheduler.c:193-209 | calls that have had their turn wait behind those that have not |
| Rounds.ServeSorts | src/scheduler.c:193-209 | the completion order is the stable bucket sort of the submission order by number of yields |
| Rounds.Stable | src/scheduler.c:193-209 | a call with fewer yields, or as many and submitted earlier, is reported before the other |
| Rounds.ServeOnce | src/scheduler.c:83-86 | each queued call is reported exactly once |
| Rounds.ServeReports | src/scheduler.c:83-86 | the reports are the ids and results of the calls queued, each once |
| Scheduling.Scheduler.Finish | src/scheduler.c:83-86 | reports id and result of the call, once, and gives back its slot and its blocks |
| Scheduling.Scheduler.Enqueue | src/scheduler.c:54-63 | the linked queue gains the call at its end |
| Scheduling.Scheduler.Dequeue | src/scheduler.c:65-72 | the linked queue gives up its head |
| Scheduling.Scheduler.Turn | src/scheduler.c:197-208 | a turn keeps reported-plus-to-come the same, uses up a resume, and frees a slot and blocks only of a finished call |
| Scheduling.Scheduler.RunReady | src/scheduler.c:193-209 | terminates with an empty queue, the reports of all queued calls in service order, and each slot and each block of theirs released once |
| Scheduling.Scheduler.Submit | src/scheduler.c:123-191 | fails exactly without a slot or without memory for the payload; the call is started if and only if, besides, the payload decodes, no allocation was refused and the coroutine was created: then it is queued last, in a fresh slot, with fresh blocks of its own; otherwise it is reported at once and slots and heap are as they were |
| CallMemory.Prepare | src/scheduler.c:146-166 | the payload is copied and the arguments are what it decodes to, in blocks of their own, if and only if it decodes and no allocation was refused; on failure the heap is as before |
| CallMemory.Release | src/scheduler.c:45-52 | frees exactly the blocks of the call, however other calls came and went |
| CallMemory.OthersKeep | src/scheduler.c:45-52 | what leaves its blocks alone changes neither payload nor arguments of a call |
| Scheduling.Scheduler.Destroy | src/scheduler.c:113-121 | frees the slot and the blocks of every queued call, reporting none |
| Arena.AlignLeast | include/arena.h:16-19 | alignment by the mask gives the least multiple of the word size that is large enough, or 0 when no `size_t` is |
| Arena.ClearLowRounds | include/arena.h:16-19 | clearing the three low bits of a word rounds it down to a multiple of eight |
| Arena.FixedArena.Alloc | include/arena.h:39-49 | returns null exactly when `capacity` slots are live, else a slot that was not live; slots below the watermark stay partitioned into live ones and the free list |
| Arena.FixedArena.Free | include/arena.h:51-55 | puts a live slot in front of the free list and changes no other slot's state |
| Arena.FixedArena.Store | include/arena.h:51-55 | whatever the owner of a live slot writes there, the free list stays intact |
| Arena.FixedArena.LiveInside | include/arena.h:44-47 | a live slot is aligned and within the pages |
| Arena.FixedArena.LiveApart | include/arena.h:44-47 | live slots do not overlap |
| Arena.LinkedElsewhere | include/arena.h:41-43 | the list threaded through the free slots survives a write to any other slot |

## Left out

- Weak memory: the route table's acquire and release orderings are modelled as sequentially consistent steps.
- Async routes in the worker: they hold a connection without counting it, so its lifetime is not a property of the code; the scheduler itself is modelled.
- Route `user_data` while a handler runs: lookup copies the route and leaves the counted region, so nothing protects it afterwards.
- Allocation of the new route node in `wirecall_routes_add_ex`: the machine starts with the node at hand; its failure changes nothing.
- Handler, flags and user data of a route: they travel together and are one registration identity in the model.
- Event backends, sockets, threads, mmap, address resolution: the kernel is a script.
- `include/minicoro.h`: a coroutine is its remaining yields; a failing resume is a call that ends there with result -1.
- Null-pointer arguments of the public functions: the model's arguments are always present, except the MAC key.
- Worker shutdown, registration failure on accept, and a `wirecall_backend_wake` that fails, whose result the code drops.
- Tracing, allocator hooks, error texts, demos and the benchmark.
- Cryptographic strength of SipHash and collision rates of the 32-bit checksum.
- Buffers beyond 2^63 bytes, where the doubling loop of `append_bytes` would wrap.
- Connection.Connection.Answer: which of its appends fails is asked of the environment with the packets handled so far; `Queue` shows that the buffer always determines one of those answers.
- Arena.FixedArena.constructor: only for sizes whose product fits the address space; the product is not checked in the code.
- The response writer of a scheduled call, which is modelled on its own, and the stack of its coroutine: neither is part of the scheduler's heap.
