# Pytitect: a model of its reliability protocols

This project models the protocols of Pytitect whose reference stores are in-memory state machines, and proves what
they are for. Every store operation is written twice: once as a function on the value of the store (the modules named
`...Table`, `...Log`, `...Protocol`), and once as a class whose methods update fields, maps and sequences in place, as
the program does, and are proved equal to the functions. Theorems over single calls, over whole runs and over arbitrary
interleavings are lemmas about the functions.

- **Mutation batches** (`Batch*`, `Idempotency*`): a coordinator commits the effect, the receipt and the progress of
  each item in one transaction. A system of any number of workers interleaves at transaction granularity, crashes
  anywhere, loses leases and takes them over; the headline is that every item takes effect exactly once, and that a batch
  that was left half way is completed by whoever resumes it while its receipts are retained.
- **Exact wire documents** (`Text`, `Utf8`, `Wire*`): a bounded recursive parser over an incremental UTF-8 decoder
  (RFC 8259, sections 2 to 7; RFC 3629, sections 3 and 4) and a canonical printer. A stream is accepted, and read as a
  value, exactly if a syntax tree of RFC 8259 within the limits writes it and means the value; the canonical text is the
  tidiest of them; parser and printer undo each other under the same limits, whatever the chunks; integers are converted
  in groups of nine digits from both ends.
- **Event log and projections** (`EventLog`, `EventStore`, `Projection*`): optimistic workers load, read a page, fold and
  compare and set, concurrently with appends and with rebuilds to a fixed watermark. Every loadable state is the plain
  fold of a prefix of the log.
- **Consumer** (`Inbox*`, `WorkTable`, `Consumer*`): duplicate-tolerant consumption with at most one committed decision
  per message.
- **Relay** (`Outbox*`, `Relay*`): byte-budgeted claims, concurrent publication, settlement, and uncertain messages that
  are not published again before someone resolves them, as long as clocks do not go back.
- **Dependency order and closure** (`DependencyGraph`, `Dependencies`).
- **Reference resolution** (`JsonPointer`, `Reference*`, `Resolver`): the walk with its stack and its counter is exactly
  bounded inlining, place by place.
- **Fenced leases** (`Lease*`), **jobs and schedules** (`Job*`) and **trace context headers** (`Trace*`; W3C Trace
  Context, sections 3.2 and 3.3).

Instants and durations are integers, and clock readings are parameters of the operations; unless a theorem says
otherwise they may go back and forth. A random identifier is the next value of a counter that no rollback turns back. A
request fingerprint is the fingerprinted value itself, so that fingerprints are injective. What consumers, handlers,
publishers, reducers and policies answer is a parameter. A section of code that runs under a lock, or without an await,
is one step.

## Where code and documentation differ

`docs/sync.md:46` says that a batch becomes uncertain when the proof of its prefix is no longer possible. The code marks
it and then raises inside the same transaction (`src/pytitect/sync/batches.py:776-782`), so the mark is rolled back. The
model follows the code: no reachable state holds an uncertain batch, and the next request may resume the batch.
`BatchStalled.ProofFails` is a run in which a proof fails, and `BatchStalled.StalledForever` says what follows: such a
batch is never completed, marked or removed.

Four properties hold only under a condition, and the model says which:

- A rebuild publishes the fold if and only if the remaining events lead from the state it was given to where they lead
  from the fold of its starting position; the store does not check this. To begin with that fold is always enough, as a
  rebuild begun at position zero with the initial state does, and it is the only way if the reducer is injective. A
  rebuild over one event shows the failure, and one with a reducer that forgets its state shows why injectivity matters.
- An uncertain message that nobody resolved, or a delivered or failed one, is published again if and only if a relay
  comes to an old claim of it within its round, with authority, and while its clock lies before the end of that claim,
  which a reading had passed already. Authority is a deadline of the round on a monotonic clock
  (`src/pytitect/aio/runtime.py:191`): once it has run out nothing is published, however the wall clock moves. A run
  with a clock that goes back shows such a publication.
- A resolved document is free of references if and only if no `$ref` member that is not a string turns into one.
- Reading an integer token and writing it again loses the sign of minus zero, and nothing else.

## Model

| member | source | states |
|---|---|---|
| Batches.InMemoryMutationBatchStore.PurgeTerminal | src/pytitect/sync/batches.py:466-475 | exactly the completed batches whose retention has ended leave the store |
| Batches.InMemoryMutationBatchStore.Begin | src/pytitect/sync/batches.py:273-319 | the answer and the new store of a begin: replay, conflict, in progress, uncertain, a fresh lease, or a resumed lease with a new token; entries and tokens stay linked |
| Batches.InMemoryMutationBatchStore.Renew | src/pytitect/sync/batches.py:321-337 | a renewal succeeds only under the active, unexpired lease and prolongs it |
| Batches.InMemoryMutationBatchStore.Advance | src/pytitect/sync/batches.py:339-359 | one more receipt and one more step of progress, only under the active lease at the expected index |
| Batches.InMemoryMutationBatchStore.Complete | src/pytitect/sync/batches.py:361-377 | completion only under the active lease with all items done, with its retention |
| Batches.InMemoryMutationBatchStore.MarkUncertain | src/pytitect/sync/batches.py:379-399 | an uncertain mark only under the active lease, with its own retention |
| Batches.InMemoryMutationBatchStore.Purge | src/pytitect/sync/batches.py:401-425 | maintenance removes only purgeable batches, those first whose retention ended first, at most the batch size, and all of them if there are no more |
| BatchCoordinator.MutationBatchCoordinator.RenewBatch | src/pytitect/sync/batches.py:850-863 | renews the lease at an item boundary or ends the transaction as uncertain |
| BatchCoordinator.MutationBatchCoordinator.ReserveItem | src/pytitect/sync/batches.py:880-894 | reserves an item under the identity of its batch and item |
| BatchCoordinator.MutationBatchCoordinator.Prove | src/pytitect/sync/batches.py:758-783 | a loop that replays every retained receipt of a resumed prefix, or raises inside the transaction |
| BatchCoordinator.MutationBatchCoordinator.ApplyReserved | src/pytitect/sync/batches.py:802-848 | one reserved item: mutation, item receipt and batch progress, or the reason to roll back; the loop-free code agrees with the protocol function in world, lease and receipt |
| BatchCoordinator.MutationBatchCoordinator.ReserveNext | src/pytitect/sync/batches.py:785-800 | renewal and reservation of the next item, with the result that ends the transaction otherwise |
| BatchCoordinator.MutationBatchCoordinator.Finish | src/pytitect/sync/batches.py:865-878 | renewal and completion of the batch, and whether both were confirmed |
| BatchCoordinator.MutationBatchCoordinator.PerItem | src/pytitect/sync/batches.py:727-756 | a whole per-item execution, with begin outside and each item inside its own transaction, yields the world and result of the protocol |
| BatchCoordinator.MutationBatchCoordinator.ReserveAll | src/pytitect/sync/batches.py:706-715 | every remaining item is reserved before the first mutation |
| BatchCoordinator.MutationBatchCoordinator.ApplyAndFinish | src/pytitect/sync/batches.py:716-723 | all reserved items are applied and the batch completed, or the reason to roll back |
| BatchCoordinator.MutationBatchCoordinator.AllOrNothing | src/pytitect/sync/batches.py:684-725 | a whole all-or-nothing execution in one transaction yields the world and result of the protocol |
| BatchCoordinator.MutationBatchCoordinator.Rollback | src/pytitect/sync/batches.py:589-596 | a raised transaction restores both stores and the effects, but not the supply of identifiers |
| BatchTheorems.ExactlyOnce | src/pytitect/sync/batches.py:727-848 | over every interleaving of workers, crashes, failures, expiry and takeover: progress equals receipts, receipt k names item k, and the whole effect log holds exactly one effect for each item below the progress and none for the others |
| BatchTheorems.AtMostOncePerEntry | src/pytitect/sync/batches.py:727-848 | for a reused batch identity: at most one effect per item since its entry was created, and a receipt without one stands for an effect from before |
| BatchTheorems.RetainedReceiptIsReplayed | src/pytitect/sync/batches.py:802-848 | while an unexpired receipt of an item is retained, no item transaction repeats its effect, and one that succeeds returns that receipt as replayed |
| BatchTheorems.IdentityFreedOnlyAfterRetention | src/pytitect/sync/batches.py:466-475 | a batch leaves the store only when it was completed and its retention was over |
| BatchTheorems.ReportsAreTrue | src/pytitect/sync/batches.py:740-756 | whatever a worker reports as committed, replayed or unconfirmed is, item by item, the result of a committed effect |
| BatchTheorems.SupersededChangesNothing | src/pytitect/sync/batches.py:427-445 | the next transaction of a superseded worker, the proof of a resumed prefix, an item or the completion, changes nothing and is refused |
| BatchTheorems.TakeoverSupersedes | src/pytitect/sync/batches.py:273-319 | a superseded lease never becomes current again in any run |
| BatchTheorems.AllOrNothingAtomic | src/pytitect/sync/batches.py:684-725 | an all-or-nothing execution that commits adds exactly one effect, in order, for each item that it did not replay, leaves the receipt of each of those in the item store, until its completion plus the time that the request asks for, and no other new receipt, and all receipts in the completed entry, and what it replayed was held before; any other leaves stores and effects as they were, up to expiry on replay |
| BatchStalled.StalledForever | src/pytitect/sync/batches.py:758-783 | once a receipt of a per-item batch has left the item store and no worker holds its current lease, no run ever completes, marks or removes the batch or moves its progress |
| BatchStalled.ProofFails | src/pytitect/sync/batches.py:776-782 | a run in which a proof fails for want of its receipt and the worker reports the batch as uncertain, while its entry stays partially committed for ever |
| BatchAtomicity.ApplyAllAccounts | src/pytitect/sync/batches.py:716-723 | item by item, the effects and the item receipts of a transaction are those that its receipts say, and its lease carries the same receipts |
| BatchAtomicity.ReserveAllIsQuiet | src/pytitect/sync/batches.py:706-715 | reserving every item stores no receipt, and what is to be replayed was held by the item store before |
| BatchTheorems.AllOrNothingNeverHalfWay | src/pytitect/sync/batches.py:684-725 | in every reachable state an all-or-nothing batch is absent or completed with all its effects |
| BatchTheorems.NoBatchStaysUncertain | src/pytitect/sync/batches.py:776-782 | the uncertain mark of a failed proof is rolled back with its transaction: no reachable state holds an uncertain batch |
| BatchTheorems.FailedProofIsForgotten | src/pytitect/sync/batches.py:758-783 | after a failed proof the same request is issued a resumable lease again, with unchanged progress |
| BatchTheorems.RetryCompletesEnvelope | src/pytitect/sync/batches.py:865-878 | a batch whose items are all committed but unconfirmed is completed by a retry within the retention of its receipts, without repeating an effect |
| BatchRuns.StepKeepsGood | src/pytitect/sync/batches.py:598-880 | every transaction of every worker, every crash and every maintenance step keeps the invariant that ties stores to effects |
| BatchRuns.StepEvolves | src/pytitect/sync/batches.py:273-319 | tokens of batches are only ever replaced by new ones |
| BatchRuns.PerItemIsRun | src/pytitect/sync/batches.py:727-756 | a per-item execution of one worker is a run of the interleaved system |
| BatchRuns.AllOrNothingGood | src/pytitect/sync/batches.py:684-725 | the one commit point of an all-or-nothing execution keeps the invariant, and its receipts name committed effects |
| BatchSteps.ApplyReservedGood | src/pytitect/sync/batches.py:802-848 | effect, receipt and progress of one item committed together keep the invariant |
| BatchSteps.ProvePrefixGood | src/pytitect/sync/batches.py:758-783 | a successful proof keeps the world good, commits no effect and returns the stored receipts as replayed |
| BatchTable.BeginKeepsLinks | src/pytitect/sync/batches.py:273-319 | entries and tokens stay linked through begin, and a lease fits the items of its entry |
| BatchRetention.ReceiptIsKept | src/pytitect/sync/batches.py:802-848 | the receipt of an executed item stays until the reading of its completion plus the result retention of its request, in every run whose readings lie before that instant |
| BatchRetention.LeasesLast | src/pytitect/sync/batches.py:273-359 | a lease that is issued, renewed or advanced lasts for the time that the call asks for: until then every other begin of the request is in progress until that very instant, and from then on it takes the batch over as far as the lease had brought it |
| BatchRetention.CommittedIsReplayed | src/pytitect/sync/batches.py:361-377 | a batch that was reported as committed answers every later begin of the same request with its receipts, and every other request with a conflict, for the retention that its request asked for, in every run before that end |
| BatchLedger.ReceiptsOutlive | src/pytitect/sync/batches.py:727-848 | over whole runs from the empty system: a ledger of completion readings and requested retentions says exactly until when the item store holds each receipt of a batch, whatever workers, takeovers and maintenance did |
| BatchResumption.ResumedInTime | src/pytitect/sync/batches.py:727-783 | a batch left half way by any such run, taken over with readings before every end in that ledger, proves its prefix, repeats no effect, and commits the rest in order, each item once |
| Idempotency.InMemoryIdempotencyStore.Pop | src/pytitect/idempotency.py:344-352 | entries and their tokens are removed together, and the two maps stay inverse |
| Idempotency.InMemoryIdempotencyStore.Reserve | src/pytitect/idempotency.py:200-231 | the decision and the new store of a reservation, after expired entries were purged |
| Idempotency.InMemoryIdempotencyStore.Renew | src/pytitect/idempotency.py:233-247 | a renewal succeeds only under a live executing token |
| Idempotency.InMemoryIdempotencyStore.Complete | src/pytitect/idempotency.py:249-266 | a completion stores the value only under a live executing token |
| Idempotency.InMemoryIdempotencyStore.MarkUncertain | src/pytitect/idempotency.py:268-287 | an uncertain mark only under a live executing token |
| Idempotency.InMemoryIdempotencyStore.Abandon | src/pytitect/idempotency.py:289-303 | abandoning removes identity and token only under a live executing token |
| Idempotency.InMemoryIdempotencyStore.Purge | src/pytitect/idempotency.py:305-328 | maintenance removes only purgeable identities, those first that expired first, at most the batch size, and uncertain ones only on request |
| IdempotencyRuns.RunKeepsLinks | src/pytitect/idempotency.py:189-352 | over every run entries and tokens are mutually inverse maps |
| IdempotencyRuns.SpentForever | src/pytitect/idempotency.py:330-342 | once a token has lost its authority every later use of it, at any time, is stale and changes nothing |
| IdempotencyRuns.TokenLeavesOnlyByRelease | src/pytitect/idempotency.py:289-352 | a token loses its authority exactly by abandonment, purge or expiry |
| IdempotencyRuns.ExecuteAgainOnlyAfterRelease | src/pytitect/idempotency.py:200-231 | between two execute decisions for one identity the first token was abandoned, purged or expired, at a position that is returned; the tokens differ and the first is spent |
| IdempotencyRuns.UncertainNeverExecutes | src/pytitect/idempotency.py:268-328 | an uncertain identity is never executed again in any run without a purge that includes uncertain entries |
| IdempotencyPromises.PromisesAreKept | src/pytitect/idempotency.py:200-303 | by the arguments and answers of the calls alone: from an execute decision on, until the last instant that was promised, every other reservation is in progress until exactly that instant, a replay, uncertain or a conflict, the token can be used, and giving it up frees the identity at once; from that instant on the next reservation executes |
| Utf8.DecodeInvertsEncode | src/pytitect/wire.py:191-201 | every text of scalar values survives encoding and strict decoding (RFC 3629, sections 3 and 4) |
| Utf8.EncodeInvertsDecode | src/pytitect/wire.py:265-276 | every byte sequence that decodes is the encoding of what it decodes to |
| Utf8.DecodeInPieces | src/pytitect/wire.py:265-276 | decoding bytes in two pieces, with the unfinished character carried over, is decoding them at once |
| WireValue.NumberShape | src/pytitect/wire.py:65-65 | a number token starts like a number and consists of number characters only |
| WireRoundTrip.QuotedInverts | src/pytitect/wire.py:296-335 | a string written with its escapes is read back under the string limit |
| WireRoundTrip.NumberInverts | src/pytitect/wire.py:379-383 | a number token is read back whole wherever a delimiter follows it |
| WireRoundTrip.ValueInverts | src/pytitect/wire.py:343-384 | the canonical text of any value within the limits is read back as that value, counting its nodes exactly, with whatever follows left over |
| WireRoundTrip.DocumentInverts | src/pytitect/wire.py:393-409 | the canonical text of a document parses to that document |
| WireNormal.CanonSize | src/pytitect/wire.py:151-175 | the byte length of the canonical text is the size of the value |
| WireNormal.ValueTight | src/pytitect/wire.py:343-384 | whatever parses is within depth, item and string limits, and its canonical spelling is no longer than what was read, escapes, white space and repeated keys included |
| Wire.StreamEnds | src/pytitect/wire.py:265-276 | a stream ends without error exactly when its joined bytes are within the limit and well-formed |
| Wire.ParsedIsConstructible | src/pytitect/wire.py:393-409 | the construction after a successful parse never rejects |
| Wire.DecodeMeans | src/pytitect/wire.py:393-409 | a stream decodes to a value exactly when its joined bytes are within the limit, are UTF-8, and parse as that document |
| Wire.DecodeInvertsEncode | src/pytitect/wire.py:185-201 | every constructed document, encoded and cut into any chunks, decodes to itself under the same limits |
| Wire.ChunkingIsInvisible | src/pytitect/wire.py:265-276 | acceptance and the decoded value depend only on the concatenated bytes |
| Wire.NormalForm | src/pytitect/wire.py:185-201 | every accepted input re-encodes, in no more bytes, to a form that decodes to the same value |
| Wire.BytesAreFaithful | src/pytitect/wire.py:178-201 | two documents with the same bytes hold the same value |
| WireReading.PairReads | src/pytitect/wire.py:316-328 | the escapes of the two surrogates of any character above the basic plane, in digits of either case, read back as that character (RFC 8259, section 7) |
| WireReading.NumeralIsNumber | src/pytitect/wire.py:65-65 | every number of the grammar of RFC 8259, section 6, is accepted as a token |
| WireReading.NumberIsNumeral | src/pytitect/wire.py:65-65 | every accepted token is a number of that grammar |
| WireReading.ValueReads | src/pytitect/wire.py:343-384 | whatever a syntax tree within the limits writes, with any white space and any escapes, the parser reads as what the tree means, counting every value written |
| WireSpelling.ValueWritten | src/pytitect/wire.py:343-384 | whatever the parser reads, a syntax tree within the limits writes and means it |
| WireSpelling.AcceptsExactly | src/pytitect/wire.py:393-409 | a text is accepted and read as a value if and only if a document of RFC 8259 within the limits writes the text and means the value; of members with the same key the last one counts |
| WireCanonical.EncodedByTable | src/pytitect/wire.py:191-201 | a character is encoded as the table of RFC 3629, section 3, says, and in no other way |
| WireCanonical.DecodesExactly | src/pytitect/wire.py:393-409 | a stream is decoded to a value if and only if its bytes are within the limit and are those of such a document in UTF-8 |
| WireTidy.TidyIsCanon | src/pytitect/wire.py:151-175 | a text without white space, with each key once and in order, and with no escape but the required ones, of one letter where there is one and else in lower case, is the canonical text of what it means |
| WireCanonical.EncodesExactly | src/pytitect/wire.py:151-201 | the bytes of a document are those of such a tidy text that means its value, and no other bytes are |
| Text.LexOrder | src/pytitect/wire.py:169-169 | keys are ordered by code points at the first place where they differ, and a text comes before those that it starts |
| WireParser.Parser.Next | src/pytitect/wire.py:265-276 | the incremental decoder yields the next character of the joined bytes, or the error they contain |
| WireParser.Parser.Peek | src/pytitect/wire.py:278-281 | the lookahead shows the next character without consuming it |
| WireParser.Parser.TakeChar | src/pytitect/wire.py:283-286 | taking consumes exactly the lookahead |
| WireParser.Parser.Whitespace | src/pytitect/wire.py:288-290 | skips all white space and nothing else |
| WireParser.Parser.String | src/pytitect/wire.py:296-335 | the string loop, with escapes and surrogate pairs, reads what the grammar function reads |
| WireParser.Parser.Hex | src/pytitect/wire.py:337-341 | four hexadecimal digits of either case |
| WireParser.Parser.Units | src/pytitect/wire.py:316-328 | a code unit, or a pair of surrogates combined |
| WireParser.Parser.NumberToken | src/pytitect/wire.py:379-383 | the longest run of number characters, accepted only when it matches the number grammar as a whole |
| WireParser.Parser.Value | src/pytitect/wire.py:343-384 | the recursive parser agrees with the grammar functions in value, remaining input, node count and error |
| WireParser.Parser.MemberLoop | src/pytitect/wire.py:356-373 | the member loop: a repeated key keeps its last value, every value is counted |
| WireParser.Parser.ItemLoop | src/pytitect/wire.py:356-373 | the item loop |
| WireEncoder.FlatIsCanon | src/pytitect/wire.py:151-175 | the pieces put together are the canonical text |
| WireEncoder.EncodeDocument | src/pytitect/wire.py:191-201 | the piecewise encoder refuses exactly the documents above the byte limit and otherwise returns the canonical bytes |
| WireEncoder.Freezer.Visit | src/pytitect/wire.py:116-141 | the counting visit accepts exactly the values within depth, item and string limits, and counts every node once |
| WireEncoder.Construct | src/pytitect/wire.py:185-189 | construction succeeds exactly for documents within all limits |
| WireEncoder.DecodeWireStream | src/pytitect/wire.py:393-409 | the whole decoder agrees with its specification, errors included |
| WireInteger.ToInt | src/pytitect/wire.py:79-89 | reading nine digits at a time from the top yields the plain decimal value, and only integer tokens are read |
| WireInteger.IntegerToken | src/pytitect/wire.py:226-241 | writing nine digits at a time from the bottom yields plain decimal notation |
| WireInteger.TokenInverts | src/pytitect/wire.py:226-241 | every integer survives writing and reading, and what is written matches the integer grammar |
| WireInteger.IntegerInverts | src/pytitect/wire.py:79-89 | reading a token and writing it again gives the token back exactly when it is not minus zero |
| WireInteger.IntegerTokens | src/pytitect/wire.py:65-66 | integer tokens are exactly the number tokens without fraction and exponent |
| EventStore.InMemoryEventStore.Append | src/pytitect/event_sourcing.py:125-161 | the answer and the new log of an append, with the list of each stream and the known identifiers kept equal to those of the log |
| EventStore.InMemoryEventStore.ReadStream | src/pytitect/event_sourcing.py:163-173 | a page of a stream is a slice of the log restricted to the stream |
| EventStore.InMemoryEventStore.ReadAll | src/pytitect/event_sourcing.py:175-181 | a page of the log is a slice of it |
| EventStore.InMemoryEventStore.SaveSnapshot | src/pytitect/event_sourcing.py:187-197 | compare and set of a snapshot that is not ahead of its stream |
| EventLog.AppendKeepsLog | src/pytitect/event_sourcing.py:125-161 | an append keeps positions, versions and identifiers right, only extends the log, and extends only its own stream |
| EventLog.StreamNumbered | src/pytitect/event_sourcing.py:147-161 | the versions of a stream are 1, 2, 3 and so on |
| EventLog.OneWriterPerVersion | src/pytitect/event_sourcing.py:139-142 | of all writers that expect the same version of a stream at most one ever commits, however the log grows |
| EventLog.PagesAreContiguous | src/pytitect/event_sourcing.py:175-181 | a reader that pages over a growing log misses nothing and repeats nothing |
| EventLog.SnapshotsStayBehind | src/pytitect/event_sourcing.py:187-197 | no snapshot is ever ahead of its stream |
| EventLog.OneSaverPerVersion | src/pytitect/event_sourcing.py:187-197 | of two savers that expect the same version only the first saves, unless it left that version in place |
| EventLog.AppendStores | src/pytitect/event_sourcing.py:125-161 | exactly when an append commits, by what is stored and asked for, and what it then stores, with its versions and positions |
| EventLog.StreamPageHolds | src/pytitect/event_sourcing.py:163-173 | a page of a stream holds exactly the stored events of the stream with the next versions, in order, at most the limit; where the next page starts; and whether the stream goes on |
| EventLog.PageHolds | src/pytitect/event_sourcing.py:175-181 | the same of the whole log, by position |
| EventLog.StreamPagesAreContiguous | src/pytitect/event_sourcing.py:163-173 | a reader that pages over one stream of a growing log misses nothing and repeats nothing |
| Projections.InMemoryProjectionStore.Apply | src/pytitect/projections.py:119-149 | compare and set of a projection, with every refusal |
| Projections.InMemoryProjectionStore.BeginRebuild | src/pytitect/projections.py:151-158 | a rebuild is begun once per identifier |
| Projections.InMemoryProjectionStore.AdvanceRebuild | src/pytitect/projections.py:164-206 | progress of a rebuild within its watermark, and publication on completion unless a newer state is active |
| Projections.ProjectionRuntime.ProjectOnce | src/pytitect/projections.py:229-247 | load, page, fold and compare and set in a row |
| Projections.ProjectionRuntime.ResumeRebuild | src/pytitect/projections.py:249-278 | load, batch up to the watermark, fold and advance in a row |
| Projections.Reduce | src/pytitect/projections.py:239-241 | the fold loop applies the reducer to the events in order |
| ProjectionRuns.StepKeepsGood | src/pytitect/aio/projections.py:112-161 | every step of every worker, with its awaits as boundaries, keeps each stored and each remembered state the fold of a prefix of the log |
| ProjectionRuns.EveryStateIsAFold | src/pytitect/projections.py:119-149 | under any interleaving of appends, projections, rebuilds and crashes a loadable state with version v and checkpoint c is the fold, by the reducer of v, of exactly the first c events |
| ProjectionRuns.NeverBackwards | src/pytitect/projections.py:119-206 | no run loses a projection or decreases its version or checkpoint, whatever rebuilds are begun |
| ProjectionRuns.SameCheckpointSameState | src/pytitect/projections.py:249-278 | two runs hold the same state at the same version and checkpoint, whether it came from paging or from a rebuild |
| ProjectionRebuilds.RebuildBound | src/pytitect/projections.py:249-278 | a rebuild from zero completes with exactly max(1, ceil(watermark / batch)) successful resumes at any interleaving, and the step that completes it publishes, if it was begun with the initial state, the fold of the log up to the watermark |
| ProjectionRebuilds.ResumeOutcome | src/pytitect/projections.py:249-278 | exactly when an uninterrupted resume succeeds, lacks coverage or conflicts, and what it then leaves or publishes |
| ProjectionRebuilds.ProjectOutcome | src/pytitect/projections.py:229-247 | exactly when an uninterrupted projection applies, and that it then moves one page on |
| ProjectionRebuilds.PublishedAsBegun | src/pytitect/projections.py:164-206 | at any interleaving a completed rebuild publishes the fold of the remaining events from the state it was given; that is the fold of the log if and only if those events lead from the given state to where they lead from the fold so far; having begun with that fold suffices, and is necessary for injective reducers |
| ProjectionRebuilds.WrongStateIsPublished | src/pytitect/projections.py:151-206 | a rebuild over one event that was begun with another state than the initial one publishes what is not the fold |
| ProjectionRebuilds.ForgetfulReducerMends | src/pytitect/projections.py:151-206 | with a reducer that forgets its state the same rebuild publishes the fold |
| ProjectionRebuilds.SynchronousIsARun | src/pytitect/projections.py:229-278 | the synchronous runtime is the run in which one worker takes its steps in a row |
| Inbox.InMemoryInboxStore.Begin | src/pytitect/inbox.py:101-125 | the decision of a begin and the new inbox |
| Inbox.InMemoryInboxStore.Complete | src/pytitect/inbox.py:127-141 | completion under the token of an unexpired entry, also when it is complete already |
| Inbox.InMemoryInboxStore.Abandon | src/pytitect/inbox.py:143-150 | only an incomplete entry is abandoned, under its token |
| InboxTable.CompletedForever | src/pytitect/inbox.py:101-150 | a completed message stays completed under its token in every run: it is a duplicate for every begin |
| InboxTable.AcceptedIsHeld | src/pytitect/inbox.py:101-150 | an accepted message is held for exactly the time it was accepted for: until then every begin is in progress until that very instant and its token completes it, from then on its token completes nothing and the message begins again, as it does once it is abandoned |
| Consumer.UnitOfWork.ReserveMessage | src/pytitect/aio/uow.py:120-133 | a reservation on the private inbox, remembered when it was accepted |
| Consumer.UnitOfWork.Complete | src/pytitect/aio/uow.py:135-149 | completion of a message reserved in this unit of work only |
| Consumer.UnitOfWork.Save | src/pytitect/aio/uow.py:151-155 | a decision is staged within the capacity |
| Consumer.UnitOfWork.Commit | src/pytitect/aio/uow.py:157-165 | the completion loop runs again before inbox and decisions are published together |
| Consumer.UnitOfWork.Rollback | src/pytitect/aio/uow.py:167-174 | a rollback leaves the shared inbox and decisions untouched |
| WorkTable.CommitNeverFails | src/pytitect/aio/uow.py:157-165 | however a unit of work was used, completing again inside commit never fails and changes nothing |
| Consumer.AsyncConsumer.Process | src/pytitect/aio/runtime.py:365-442 | one delivery with every ending of its handler: the answer to the broker and the new shared state |
| ConsumerRuns.ProcessOutcome | src/pytitect/aio/runtime.py:365-442 | a known message is acknowledged and changes nothing; another is committed once exactly when everything succeeds; otherwise nothing changes and it is not acknowledged |
| ConsumerRuns.EffectivelyOnce | src/pytitect/aio/runtime.py:365-442 | over all redeliveries, failures, timeouts and crashes at most one decision is committed per scope and message, and exactly one for an acknowledged message |
| ConsumerRuns.RunExtends | src/pytitect/aio/uow.py:157-165 | nothing committed is ever undone |
| ConsumerRuns.RedeliveryConverges | src/pytitect/aio/runtime.py:384-421 | a message committed before a crash is acknowledged on redelivery without its handler; one not committed yet is acknowledged exactly when everything succeeds |
| Outbox.InMemoryAsyncOutboxStore.Add | src/pytitect/outbox.py:180-187 | a message is added once |
| Outbox.InMemoryAsyncOutboxStore.Claim | src/pytitect/aio/stores.py:78-110 | the claim loop over the ordered messages without the uncertain ones, and the byte budget |
| Outbox.InMemoryAsyncOutboxStore.KeepWithin | src/pytitect/aio/stores.py:96-110 | claims are kept in order while they fit the bytes; the others are released |
| Outbox.InMemoryAsyncOutboxStore.Delivered | src/pytitect/aio/stores.py:136-141 | recorded only under the current claim |
| Outbox.InMemoryAsyncOutboxStore.Retry | src/pytitect/aio/stores.py:143-154 | one attempt more and a later availability, only under the current claim |
| Outbox.InMemoryAsyncOutboxStore.Defer | src/pytitect/aio/stores.py:156-176 | a later availability without an attempt, only under the current claim |
| Outbox.InMemoryAsyncOutboxStore.Uncertain | src/pytitect/aio/stores.py:178-195 | held back from claims, only under the current claim |
| Outbox.InMemoryAsyncOutboxStore.Failed | src/pytitect/aio/stores.py:221-232 | recorded only under the current claim |
| Outbox.InMemoryAsyncOutboxStore.ResolveUncertain | src/pytitect/aio/stores.py:197-219 | compare and set of the uncertain time |
| OutboxTable.ClaimsAreBatch | src/pytitect/aio/stores.py:78-110 | claims are new, on ready messages only, at most the limit, within the byte budget, and change nothing else than expired claims |
| OutboxTable.OfferedInOrder | src/pytitect/outbox.py:199-202 | messages are offered once each, earliest availability first and then by identifier |
| OutboxTable.OldestFirst | src/pytitect/outbox.py:189-215 | without a byte budget a claim takes exactly the first ready messages |
| OutboxClaims.ClaimsFirstDue | src/pytitect/outbox.py:189-215 | without a byte budget a claim takes exactly the first messages that are open, available by now, not in doubt, and under no claim that has not ended, each until the end of its duration |
| OutboxClaims.ClaimsWhatFits | src/pytitect/aio/stores.py:78-110 | within a byte budget it keeps, in order, exactly those of them that fit beside the ones kept before; the others stay or come free |
| RelayRuns.Conservation | src/pytitect/aio/runtime.py:189-293 | in every reachable state each message is in exactly one of pending, claimed, uncertain, delivered and failed, and the counters of a returning round sum to its claims |
| RelayRuns.PublishOnlyWhileHeld | src/pytitect/aio/runtime.py:205-236 | a publication starts only under a claim that has not ended; if it had not ended by the latest reading of the clock either, the message is claimed by this very claim |
| RelayRuns.ExclusiveClaims | src/pytitect/outbox.py:189-215 | two unsettled claims on one message that had not ended by the latest reading of the clock are the same claim |
| RelayRuns.OutcomeIsRecorded | src/pytitect/aio/runtime.py:232-273 | after a settlement the outbox says of the message what the round counted, and a claim is counted as stale exactly without authority or when it is no longer current |
| RelayRuns.ResolutionDecides | src/pytitect/aio/stores.py:197-219 | a resolution with the right time decides between delivered and pending, and otherwise changes nothing |
| RelayRuns.PhasesOverRuns | src/pytitect/aio/stores.py:78-232 | no message is lost, delivered and failed are final, and uncertain lasts until it is resolved |
| RelayRuns.NeverSilentlyRepublished | src/pytitect/aio/runtime.py:232-243 | an uncertain message until it is resolved, and a delivered or failed one for ever, is published again exactly by a relay that comes to an old claim in time and with authority while its clock lies before the end of that claim, which a reading had passed; so by none whose clock has not gone back |
| RelayRuns.ClockBackRepublishes | src/pytitect/aio/runtime.py:205-243 | with a clock that goes back before the end of an old claim, the uncertain message is published again |
| RelayRuns.RetriesWithinBudget | src/pytitect/aio/resilience.py:46-62 | all retries of all relays and rounds stay within the one allowance |
| RelayRuns.AttemptsStayBelow | src/pytitect/aio/runtime.py:246-270 | no message is tried more often than the policy allows |
| RelayBackoff.StartDecides | src/pytitect/aio/runtime.py:205-220 | before publishing: an ended claim or lost authority changes nothing, a round out of time puts the message back, available at once and without an attempt, and otherwise it is published |
| RelayBackoff.ReportDecides | src/pytitect/aio/runtime.py:232-273 | what each report of a publisher leaves in the outbox and costs the budget, by the state that results |
| RelayBackoff.BackoffIsKept | src/pytitect/aio/runtime.py:246-273 | after a publication that is to be tried again no relay claims the message at a clock before the settlement plus the delay, in any run |
| Relay.RetryBudget.Take | src/pytitect/aio/resilience.py:58-62 | the allowance decreases by one or is empty |
| Relay.RetryBudget.ScheduleRetry | src/pytitect/aio/resilience.py:82-106 | a retry past the deadline spends nothing |
| Relay.AsyncRelay.Publish | src/pytitect/aio/runtime.py:205-273 | one claim from the checks before publication to its settlement |
| Relay.AsyncRelay.RunOnce | src/pytitect/aio/runtime.py:174-204 | a round of one worker counts every claim once; a busy relay does nothing |
| Dependencies.DatasetDependencyGraph.constructor | src/pytitect/sync/graph.py:47-63 | every parent becomes a dataset of its own |
| Dependencies.DatasetDependencyGraph.Order | src/pytitect/sync/graph.py:107-119 | the rounds over the pending map yield the specified order or cycle |
| Dependencies.DatasetDependencyGraph.TopologicalOrder | src/pytitect/sync/graph.py:70-77 | limits and unknown datasets are refused before ordering |
| Dependencies.DatasetDependencyGraph.Validate | src/pytitect/sync/graph.py:65-68 | limits, then the order of the whole graph |
| Dependencies.DatasetDependencyGraph.Select | src/pytitect/sync/graph.py:93-99 | the worklist yields the least parent-closed set that holds what was requested |
| Dependencies.DatasetDependencyGraph.Closure | src/pytitect/sync/graph.py:79-105 | refusals, or the order of the closure |
| DependencyGraph.OrderIsLayered | src/pytitect/sync/graph.py:107-119 | an order lists every selected dataset once, by the length of its longest chain of parents and then by name |
| DependencyGraph.ParentsFirst | src/pytitect/sync/graph.py:107-119 | parents come before their children |
| DependencyGraph.CycleEvidence | src/pytitect/sync/graph.py:107-113 | the reported cycle is the largest set in which every dataset has a parent in the set, sorted, and it contains a directed cycle |
| DependencyGraph.OrderedIffAcyclic | src/pytitect/sync/graph.py:107-119 | an order exists if and only if the selection has no directed cycle |
| DependencyGraph.ClosureAncestorsFirst | src/pytitect/sync/graph.py:79-105 | in the order of a closure all ancestors of a dataset, along any chain of parents, come first, requested or not |
| JsonPointer.Decode | src/pytitect/contracts/resolver.py:226-238 | the decoding loop undoes exactly the two escapes |
| JsonPointer.DecodeInvertsEncode | src/pytitect/contracts/resolver.py:226-238 | every text is the meaning of its encoded token (RFC 6901, section 3) |
| JsonPointer.EncodeInvertsDecode | src/pytitect/contracts/resolver.py:226-238 | a token with a meaning is the encoding of that meaning |
| JsonPointer.EvaluatePointer | src/pytitect/contracts/resolver.py:201-224 | the token loop follows members and items or finds nothing |
| JsonPointer.PointerFinds | src/pytitect/contracts/resolver.py:201-224 | the pointer of every location evaluates to the value there, whatever its keys contain (RFC 6901, section 4) |
| JsonPointer.TokenParts | src/pytitect/contracts/resolver.py:226-238 | what each part of a token means: ~0 a tilde, ~1 a slash, and every other character itself |
| JsonPointer.PointsExactly | src/pytitect/contracts/resolver.py:201-224 | a pointer evaluates to a value if and only if it is the pointer of a location that holds it |
| References.WalkIsInline | src/pytitect/contracts/resolver.py:140-189 | a successful walk, at any depth and with any stack, is the inlining, and counts its references exactly |
| References.NotOnStack | src/pytitect/contracts/resolver.py:168-169 | the cycle test never fires on a value that can be inlined |
| References.ResolveIsInlining | src/pytitect/contracts/resolver.py:59-67 | resolution succeeds exactly when the document has an inlining within the depth limit with no more references than allowed, and yields it |
| ReferencePlaces.PlacedExactly | src/pytitect/contracts/resolver.py:140-189 | a value is resolved to another one if and only if its parts are, each at its place: a reference is replaced by what its target becomes, its siblings follow it as a second object under allOf, keys keep their order, and the references add up |
| ReferenceTheorems.CyclesAreRejected | src/pytitect/contracts/resolver.py:168-169 | a document from which references lead back to where they have been is always rejected |
| ReferenceTheorems.ResultIsReferenceFree | src/pytitect/contracts/resolver.py:140-189 | a result is free of references if and only if nothing inlined hides one, as when every $ref member is a string |
| ReferenceTheorems.HiddenReference | src/pytitect/contracts/resolver.py:156-161 | a $ref member that is itself a reference to a string becomes a string member named $ref |
| Resolver.ResolutionState.Walk | src/pytitect/contracts/resolver.py:140-161 | the recursive walk agrees with its specification in value, count and error |
| Resolver.ResolutionState.WalkReference | src/pytitect/contracts/resolver.py:162-189 | one reference: limit, target, cycle, pointer, deeper walk and siblings |
| Resolver.ResolveDocument | src/pytitect/contracts/resolver.py:59-67 | the whole resolution |
| Leases.InMemoryLeaseStore.Acquire | src/pytitect/leases.py:96-112 | busy under an unexpired lease, else the next token of the resource |
| Leases.InMemoryLeaseStore.Renew | src/pytitect/leases.py:114-126 | only the very current lease is renewed, under its token |
| Leases.InMemoryLeaseStore.Release | src/pytitect/leases.py:128-135 | only the very current lease is released |
| Leases.FencedCommit.CommitUnder | src/pytitect/leases.py:208-223 | a mutation is committed exactly under the authority of its token and owner |
| LeaseTable.FencingHolds | src/pytitect/leases.py:96-112 | tokens of a resource are 1, 2, 3 and so on over any run, and tokens of committed mutations never decrease, even if clocks go back |
| LeaseTable.MutualExclusion | src/pytitect/leases.py:96-135 | when clocks do not go back at most one lease of a resource is current and unexpired, and its mutations are admitted |
| LeasePromises.LeaseIsKept | src/pytitect/leases.py:96-135 | a lease lasts exactly as long as the arguments of its acquisition and renewals say: until then every other owner is told so and its mutations are admitted, from then on, or from its release on, the resource is free and what its holder sends is refused |
| Jobs.InMemoryJobStore.Schedule | src/pytitect/jobs.py:175-181 | a job is scheduled once |
| Jobs.InMemoryJobStore.Claim | src/pytitect/jobs.py:183-204 | the claim loop over the ordered jobs, each with the next fencing token of the job |
| Jobs.InMemoryJobStore.Succeed | src/pytitect/jobs.py:206-217 | state and decision recorded together, under the current claim |
| Jobs.InMemoryJobStore.Retry | src/pytitect/jobs.py:219-243 | one attempt more, or the end at the maximum |
| Jobs.InMemoryJobStore.Terminate | src/pytitect/jobs.py:245-254 | the end under the current claim |
| Jobs.InMemoryJobStore.AddSchedule | src/pytitect/jobs.py:256-262 | a schedule is added once |
| Jobs.InMemoryJobStore.Materialize | src/pytitect/jobs.py:264-299 | due occurrences and their advanced schedules one after the other; a failure keeps what was done |
| JobRuns.OneDecisionPerJob | src/pytitect/jobs.py:206-217 | decisions are recorded at most once per job, for jobs that succeeded |
| JobRuns.JobsOverRuns | src/pytitect/jobs.py:183-254 | no job is lost, final states are final, tokens never decrease, and scheduled jobs stay below their maximum of attempts |
| JobRuns.SettlesOnce | src/pytitect/jobs.py:325-334 | after a settlement with a claim every later use of it is stale |
| JobRuns.TokensIncrease | src/pytitect/jobs.py:198-203 | a returned claim carries the token that is now stored, the next one of its job, and is valid; each claim of a job carries a larger token than every claim of it before, whatever happened in between |
| JobRuns.OccurrencesExactlyOnce | src/pytitect/jobs.py:264-323 | a schedule has created every occurrence up to its sequence, none twice, and a fixed interval was added once per occurrence, whatever failed in between |
| JobRuns.OccurrenceIsFaithful | src/pytitect/jobs.py:283-284 | two occurrences share an identifier only if they are the same occurrence |
| JobClaims.ClaimsFirstDue | src/pytitect/jobs.py:183-204 | a claim takes exactly the first jobs that are scheduled, due, and under no claim that has not ended, by time and then by identifier, each with its next token until the end of the duration |
| JobClaims.RetryIsKept | src/pytitect/jobs.py:219-243 | over any run the time and the attempts of a job are those of the retries that were carried out, no claim before that time takes it, and a retry ends it exactly if no attempt is left |
| JobClaims.SettlementIsKept | src/pytitect/jobs.py:206-262 | what was added is stored as it was given; a success leaves the job succeeded and its decision recorded for ever; an abortion leaves the job ended for ever |
| JobClaims.MaterializesDue | src/pytitect/jobs.py:264-323 | only due schedules create occurrences, at most the limit, each as a new job of the work and time of its schedule; each advances as its kind says; and a due one that stayed comes after all that went on |
| Trace.ParseTracestate | src/pytitect/trace.py:111-133 | the member loop with its limits |
| Trace.ParseInvertsRender | src/pytitect/trace.py:54-60 | parsing what was rendered gives every valid context back |
| Trace.RenderNormalises | src/pytitect/trace.py:82-133 | what is accepted is always a valid context, and parsing its rendering gives it back |
| TraceSyntax.ParentExactly | src/pytitect/trace.py:82-108 | a traceparent is accepted, and read as two identifiers and two flags, if and only if it is written as section 3.2 says, with further fields only in versions above 00 |
| TraceSyntax.StateExactly | src/pytitect/trace.py:111-133 | a tracestate is accepted, and read as some members, if and only if it lists them in this order, with blanks around them and empty parts between them anywhere, within the limits |

## Left out

- The Django, SQLAlchemy, NATS, AWS, FastStream, FastAPI and DRF adapters: their databases and networks are not visible here.
- Argument validation that only raises, UTC checks and calendar formatting: preconditions or types of the model.
- Fingerprints (SHA-256), cursors, signatures and other cryptography.
- Floats and decimals: `ExactNumber.to_float`, `to_decimal`, `_ordinary`, `_legacy_value`, and the logarithm in `RetryPolicy.delay`; a retry delay is an arbitrary natural number, the jitter and a publisher's retry time included.
- Observers, metrics, readiness, and the admission limits and queues of consumer and relay.
- Recursion limits of the interpreter; thread locks and task cancellation, except that a worker may stop at any step.
- Batches.InMemoryMutationBatchStore.Purge: does not say which of several batches whose retention ends at the same instant goes first; the code takes them by name.
- Idempotency.InMemoryIdempotencyStore.Purge: likewise for identities that expire at the same instant.
- The purges of inbox and outbox and the archive of failed messages: the unit of work and the asynchronous store do not offer them.
- WireEncoder.Freezer.Visit: says whether a value is accepted but not which of several errors is reported first, because a mapping of the model has no insertion order.
- WireEncoder.Construct: like the visit, says whether construction succeeds and not which error it raises.
- Wire.ChunkingIsInvisible: does not equate the error classes of rejected inputs, because limits are checked lazily and may be hit in another order.
- Relay.AsyncRelay.RunOnce: one worker takes the claims in order; several workers and relays are steps of the system in `RelayRuns`, where a round's claims may be taken in any order.
- RelayRuns.NeverSilentlyRepublished: speaks of publications that start; one that another relay started under an earlier claim, before that claim ended, may still be under way.
- ConsumerRuns.EffectivelyOnce: the time that a unit of work is waited for and the queue of deliveries are one parameter of a delivery; what quarantine stores is not modelled.
- The resolver's files, YAML, byte limit and URL splitting: a finite map of parsed documents and a function from references to places stand for them; the branch for siblings that are no object cannot be reached.
- The texts of reasons, failures and metadata, and the payloads' JSON validation.
- JobRuns.OccurrencesExactlyOnce: a job that a caller scheduled by hand under the identifier of an occurrence takes its place, as in the code.
- The job runner's loop over claims and the synchronous outbox dispatcher: they add nothing to the stores' protocols.
- Header selection in `trace_context_from_headers`, and the request binding.
- The capacity of the stores as a global bound: several operations check it differently, and the model follows each check.
