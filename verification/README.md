# The socket exchange, verified

A model of a small stock exchange server and proofs about it. Clients log in as traders or subscribe to
market data over line-based TCP connections; one event loop reads commands, a matching engine trades at
exactly equal prices in time priority, and executions are reported through per-connection output queues
that survive slow readers.

`dafny verify dfyconfig.toml` checks everything.

## How it is built

| file | holds |
|---|---|
| `Book.dfy` | the reference book: one flat list of resting orders in arrival order, and its invariant |
| `Index.dfy` | the hash map and the price-level queues, and how they stand for such a list |
| `Store.dfy` | the exchange as total functions on those tables: when and for how long they are the reference |
| `Exchange.dfy` | the class `Exchange`: the same as loops over mutable tables |
| `BookVolumes.dfy` | volumes over whole runs: conservation, the closed form of depth, order independence |
| `BookOrders.dfy` | fill shape, order lifetime, submit and cancel as inverses |
| `BookNotices.dfy` | the transcript of each trader: what the exchange owes it to be told, in order |
| `BookIsolation.dfy` | one instrument and price does not see the others |
| `Protocol.dfy` | tokeniser, strict number parser, messages, and how they undo each other |
| `Framing.dfy` | `LineBuffer` and `OutBuffer`, the splitter and the queue they refine, any chunking |
| `ServerSpec.dfy` | what every handler of the server computes, as functions on a state |
| `ServerConns.dfy`, `ServerRegistry.dfy` | what each connection, and the server as a whole, keeps |
| `ServerTranscript.dfy` | every stream is its owner's transcript, or the tape of its subscriptions |
| `ServerExchange.dfy` | what a line may do to the exchange, and what the reply to it tells |
| `Commands.dfy` | what every line means: its reply, its request, and whom it makes of whom, said of words and texts |
| `ServerRun.dfy`, `ServerTheorems.dfy` | every reachable state of every run, and the main results |
| `Server.dfy` | the class `Server`: the handlers as loops over mutable tables, proved to compute `ServerSpec` |
| `Witnesses.dfy` | runs that reach the corner cases listed below |

The kernel is an oracle. A connection carries the results that `send` will give on it (any number of
bytes, EINTR, EAGAIN, an error); a readable event carries the results of `recv` (a chunk of 1 to 4096
bytes, end of stream, EINTR, EAGAIN, an error); an accept event carries the results of `accept`. A used-up
list means that the call would block. The only thing taken from the kernel is that `accept` does not return
a descriptor that is still open and that `send` does not take more than it was given. So the theorems hold
for every behaviour of the network and of the clients, and a run is any sequence of event batches.

The exchange is modelled twice. `Store.dfy` runs the code's own two tables, in every state they can get into,
and the server is specified and proved on top of that, so everything said about reachable states is said about
the code without exception. `Book.dfy` is the reference that a reader would check by eye. Orders have serial
numbers that never repeat; clients see the serial number modulo 2^32. The tables are the reference for as long as
no order is put to rest under a 32-bit id that is still taken (`RunAgrees`), which a caller can tell beforehand
(`ClashExactly`, `ClashOnTables`) and which cannot happen before 2^32 orders have been accepted (`EarlyRuns`,
`ExchangeIsBook`). Theorems that need the reference, such as conservation, say so with `ClashFree`.

The handlers are not only tied to their own specification. `Commands.dfy` says what a line means in terms of its
words, the text of the reply and what can be observed, with the numbers and texts of the protocol written out;
`Outflow` says what a list of `send` results takes; `ReadMsg` is the client's view of a line. The handlers are
proved to agree with these on every input.

The state carries some history next to the fields of the source: the messages queued to a connection and
the bytes the kernel took from it, the bytes received from it and the lines handed to `handle_line`, when it
listened to which instrument, the requests made to the exchange, the serial numbers of stored orders, the
trades published, and the connections closed. No handler's decision depends on it. `dead_` is a multiset in the specification and a
sequence in the class, so the order in which `publish` walks the table is arbitrary. Input buffers are kept in
a map beside the connections, because only the read loop touches them. Bytes are written as `char`.

The proofs use `hide` to keep each verification condition small; it only takes facts away from the verifier.

## What the code does that a reader might not expect

- **Large order ids cannot be cancelled.** Ids count up over 32 bits but CANCEL accepts ids up to
  2147483647 only. `OwnOrderCancellable` proves that a live trader's CANCEL of its own resting order works if
  and only if the id is at most that, `OutOfReach` that no other line helps, and `UncancellableOrder` gives a
  run of the server that gets there.
- **Whether a line over 65536 bytes is refused depends on how it arrives.** `NeverRefused` proves that a
  stream is safe under every chunking exactly when each of its lines fits, and `SometimesAccepted` that some
  chunking gets it through exactly when every finished line is shorter than 65536 + 4096 bytes and the rest
  fits. In between, `RefusalDependsOnChunking` gives both outcomes for the same bytes.
- **QUIT does not make a connection deaf.** While output is pending, a readable event that completes a line has
  the first such line handled and nothing after it (`ClosingHandlesOneLine`), until the connection is dead and
  not before (`DeafOnlyWhenDead`). In `QuitThenTrade` a client that has quit still places an order. The comment at
  `closing` suggests otherwise; the model follows the code. Since one line goes per event and 4096 bytes may come,
  the bound on input buffers ends with QUIT too: `ClosingBufferUnbounded`.
- **The id counter wraps.** When an order is put to rest under an id that is still taken, `emplace` does nothing
  and `push_back` queues the id again. `ClashExactly` proves that this happens if and only if the order is larger
  than the opposite depth at its price and its id belongs to an order resting somewhere else. Then the book is
  short of exactly the remainder (`WrapLosesRemainder`), and the next order on the other side may be filled by
  that other order, which asked for something else (`WrapFillsStranger`). `WrapHappens` gives a run that gets there.

## Model

| member | source | states |
|---|---|---|
| Book.MatchShrinks | src/book.cpp:16-41 | matching keeps arrival order and positive remainders, and if anything of the new order is left no opposite order rests at its price |
| Book.StepGood | src/book.cpp:5-76 | every operation keeps the book in id order, with positive remainders, ids below the counter, and never crossed |
| Book.RunGood | src/book.cpp:5-76 | the book invariant holds after every run |
| Book.ResolveHits | src/book.cpp:55-60 | an order named by its 32-bit id is one that rests under that id, or there is none |
| ExchangeIndex.MatchStep | src/book.cpp:16-41 | one turn of the loop: the whole matching is a fill of the oldest opposite order followed by the matching of what is left |
| ExchangeIndex.BookInvariant | src/book.hpp:46-49 | an id is in the hash map iff it is in one queue, that of its own instrument, side and price; no queue holds an id twice, queues strictly increase until the counter wraps, no level is empty, no price has both sides |
| ExchangeIndex.IndexUnique | src/book.hpp:46-49 | the flat list determines the hash map and the queues completely |
| ExchangeIndex.RestNeedsFreeId | src/book.cpp:48-51 | with a free id, emplace and push_back index the list with the order added; with a taken one they index no order for it and queue the id a second time |
| ExchangeClass.Find | src/book.cpp:70-70 | the first position of an id in a queue, or its length |
| ExchangeClass.Exchange.constructor | src/book.hpp:46-49 | a new exchange is the empty book with counter 0 |
| ExchangeIndex.Front | src/book.cpp:17-22 | while the tables stand for a list, the id at the front of a queue is stored and is the oldest order there, so the stale-id branch is not taken |
| ExchangeClass.Exchange.MatchLoop | src/book.cpp:13-45 | from any tables the loop, stale-id branch included, ends with the trades, remainder and tables of the sweep, empty level dropped |
| ExchangeClass.Exchange.Submit | src/book.cpp:5-53 | in every state, id, trades and new tables are those of the specified step |
| ExchangeClass.Exchange.Unlink | src/book.cpp:66-73 | the first occurrence of the id leaves its queue, and an empty level is dropped |
| ExchangeClass.Exchange.Cancel | src/book.cpp:55-76 | in every state, verdict and new tables are those of the specified step, for all three outcomes |
| ExchangeClass.Replay | src/book.cpp:5-76 | over every run of requests a new exchange gives the responses and ends with the tables of the specified run, and those of the flat reference if no submit clashed |
| ExchangeStore.SweepAgrees | src/book.cpp:16-41 | while the tables stand for a list of orders with distinct ids, the loop fills and leaves what the reference matching does |
| ExchangeStore.SubmitAgrees | src/book.cpp:5-53 | a submit on such tables has the outcome of the reference, and its book unless the id clashed; then the remainder is lost |
| ExchangeStore.CancelAgrees | src/book.cpp:55-76 | a cancel on such tables has the outcome and the book of the reference |
| ExchangeStore.RunAgrees | src/book.cpp:5-76 | over every run in which no submit clashed, the tables have given the reference's outcomes in order and hold exactly its resting orders |
| ExchangeStore.PerformedKeeps | src/book.cpp:5-76 | over every run, clash or not: stored orders were accepted and have the ids they are stored under, only accepted orders are filled or cancelled, and serial numbers count up from 0 |
| ExchangeStore.PerformedWithin | src/book.cpp:25-51 | over every run, no stored order is empty and every fill is at least 1 and at most the incoming quantity |
| ExchangeStore.ClashExactly | src/book.cpp:47-51 | a submit leaves two orders under one id if and only if its quantity exceeds the opposite depth at its price and its id belongs to an order resting at another level |
| ExchangeStore.ClashOnTables | src/book.cpp:47-51 | the same condition as a look-up in the two tables before the call |
| ExchangeStore.EarlyRuns | src/book.cpp:8-8 | until 2^32 orders have been accepted nothing clashes, and ids mean what they say |
| ExchangeStore.WrapLosesRemainder | src/book.cpp:47-51 | on a clash the stored orders are short of the reference by exactly the remainder at its level and by nothing elsewhere, and the id is queued twice |
| ExchangeStore.WrapFillsStranger | src/book.cpp:16-51 | after a clash at a level with nothing else, an order on the other side there is filled by the older order, which rests at another level |
| BookVolumes.MatchConserves | src/book.cpp:16-41 | matching moves quantity from the opposite level to the trades and nowhere else, for every trader |
| BookVolumes.StepConserves | src/book.cpp:5-76 | one operation accounts for all quantity it moves, per trader and level |
| BookVolumes.Conservation | src/book.cpp:5-76 | over every run, accepted = traded + resting + cancelled, per trader and for all, at every instrument, side and price |
| BookVolumes.ClosedForm | src/book.cpp:16-51 | with B and S the accepted minus cancelled volumes, max(0,B-S) and max(0,S-B) rest and min(B,S) has traded, after every run |
| BookVolumes.OrderIndependence | src/book.cpp:16-51 | without cancels, any two arrival orders of the same orders give the same depth and volume everywhere |
| BookOrders.FifoFills | src/book.cpp:16-41 | fills take a prefix of the opposite queue in order, all but the last completely; the rest of the queue and all other levels are untouched; filled plus left is the quantity |
| BookOrders.StepLifetime | src/book.cpp:5-76 | an operation involves only resting orders or the new one, and a finished order rests no more |
| BookOrders.FinishedForGood | src/book.cpp:37-76 | an id that was filled or cancelled is never involved in any later step of any run |
| BookOrders.IdsConsecutive | src/book.cpp:8-8 | the id of an accepted order is the number of orders accepted before it |
| BookOrders.CancelUndoesSubmit | src/book.cpp:45-76 | cancelling right after submitting leaves what the fills alone left, and the earlier list when there were none; nothing left means unknown order |
| BookIsolation.ApplyAtKey | src/book.cpp:13-76 | seen from one instrument and price, an operation is the same step there, or no step |
| BookIsolation.Isolation | src/book.cpp:5-76 | keeping only the operations addressed to one instrument and price, ids kept, gives the same outcomes, trades and resting orders there |
| BookNotices.NoNotices | src/server.cpp:274-323 | nobody is to be told anything who has not submitted an order |
| BookNotices.TranscriptOrdered | src/server.cpp:274-277 | in every transcript, executions and cancellations of an order come after its announcement, and no order is announced twice |
| BookNotices.AllAnnounced | src/server.cpp:274-276 | every accepted order is announced in its owner's transcript |
| BookNotices.TranscriptReports | src/server.cpp:313-323 | the executions in a transcript add up to what its owner has traded, self-trades on both sides |
| Protocol.SplitWs | src/protocol.hpp:17-28 | the two index walks compute the maximal blank-free words |
| Protocol.TokensAreWords | src/protocol.hpp:17-28 | tokens are never empty and contain no blank |
| Protocol.TokensConcat | src/protocol.hpp:17-28 | tokenising distributes over any cut at a blank |
| Protocol.SplitJoin | src/protocol.hpp:17-28 | splitting undoes joining words with blanks |
| Protocol.SplitLayout | src/protocol.hpp:17-28 | however words are spaced with spaces and tabs, before, between and after, splitting gives the words; any other character may stand in a word |
| Protocol.RejoinStable | src/protocol.hpp:17-28 | every line has the tokens of its normal form |
| Protocol.ParseU32 | src/protocol.hpp:33-43 | accepts exactly 1 to 10 digits with a value in range, and returns that value |
| Protocol.ParsePrint | src/protocol.hpp:33-43 | every printed number in range parses back to itself |
| Protocol.ParsedSpells | src/protocol.hpp:30-43 | a token is taken for a number in range if and only if it is that number written out, perhaps with leading zeros, in at most ten characters |
| Protocol.LeadingZeros | src/protocol.hpp:31-43 | leading zeros change nothing within ten characters |
| Protocol.Instrument | src/protocol.hpp:46-50 | an instrument is recognised by exactly its name |
| Protocol.BodyClean | src/protocol.hpp:56-84 | no message contains a newline or carriage return before its terminator |
| Protocol.ExecRoundTrip | src/protocol.hpp:70-84 | an execution message re-tokenises to its verb, instrument, quantity and price |
| Protocol.ReadBack | src/protocol.hpp:56-84 | every message, acknowledgement, error or execution, is read back whole from its line |
| Framing.SplitConcat | src/framing.hpp:18-28 | splitting can stop anywhere and go on with the rest |
| Framing.SplitUnlines | src/framing.hpp:20-28 | the splitter undoes writing lines out, whatever unfinished line follows |
| Framing.SplitTerminated | src/framing.hpp:20-28 | lines ended by LF or by CR LF, in any mixture, are split into the lines without their ends |
| Framing.FindNewline | src/framing.hpp:21-21 | the first newline, or the length |
| Framing.SplitLine | src/framing.hpp:20-28 | one line without newline and carriage return and the bytes after it, or why there is none; used by LineBuffer and by the server |
| Framing.LineBuffer.Append | src/framing.hpp:18-18 | the bytes are added at the end |
| Framing.LineBuffer.Next | src/framing.hpp:20-28 | one line without newline and carriage return, or why there is none |
| Framing.LineBuffer.Drain | src/client_common.hpp:100-103 | the client loop yields exactly the complete lines and keeps the rest |
| Framing.FeedPrefix | src/server.cpp:127-149 | under every chunking the lines that come out of the buffer are a prefix of the stream's lines, and all of them unless it was refused; ReadLoopFeeds ties this to the server |
| Framing.FeedFits | src/framing.hpp:16-28 | lines that fit are never refused, however they are cut |
| Framing.NeverRefused | src/framing.hpp:16-28 | a stream is never refused under any chunking if and only if every line fits |
| Framing.SometimesAccepted | src/framing.hpp:16-28 | some way of receiving a stream in chunks of 1 to 4096 bytes gets it accepted if and only if every finished line is below 65536 + 4096 bytes and the unfinished rest is at most 65536 |
| Framing.RefusalDependsOnChunking | src/framing.hpp:22-23 | for every line of 65537 to 69631 bytes, one legal chunking that is accepted and one that is refused |
| Framing.ReceiveAll | src/client_common.hpp:91-104 | the client reads the lines of the stream under every chunking |
| Framing.PushPending | src/framing.hpp:42-42 | pushing appends to the pending bytes |
| Framing.ConsumePending | src/framing.hpp:49-53 | consuming drops the front of the pending bytes, compacted or not |
| Framing.OutBuffer.Push | src/framing.hpp:42-42 | the stored bytes and offset after a push |
| Framing.OutBuffer.Empty | src/framing.hpp:44-44 | empty exactly when nothing is pending |
| Framing.OutBuffer.Consume | src/framing.hpp:49-53 | the stored bytes and offset after consuming, in all three cases |
| Framing.OutBuffer.Clear | src/framing.hpp:55-55 | nothing stored, offset 0 |
| Framing.OutBufferIsQueue | src/framing.hpp:40-60 | over every push and consume sequence the buffer is a byte queue; offset at most 4096, at most 4096 dead bytes, at most one compaction per 4097 bytes consumed |
| ServerConns.FlushOk | src/server.cpp:194-226 | under every sequence of send results the output stream stays intact and the connection ends dead, or with write interest exactly while output is pending |
| ServerConns.FlushExactly | src/server.cpp:194-226 | exactly the bytes that the results report are sent, up to EAGAIN, an error or 0, and the others stay pending; write interest, death and the results left over likewise |
| ServerConns.QueueOutExactly | src/server.cpp:180-192 | a connection is dropped exactly if more than 8 MiB would be pending; otherwise what was pending and the new line meet the send results |
| ServerConns.QueueOutOk | src/server.cpp:180-192 | the same for queueing a message, including the backlog cap; the message is in the history of a live connection |
| ServerConns.ClosingOk | src/server.cpp:307-310 | a closing connection is gone when nothing is pending and otherwise waits with write interest on |
| ServerRegistry.PutKeeps | src/server.cpp:338-347 | whatever happens to one connection, including its death, keeps all registries of the server |
| ServerRegistry.LogInKeeps | src/server.cpp:251-255 | logging in a connection without a role under a free name keeps them |
| ServerRegistry.SubscribeKeeps | src/server.cpp:302-304 | subscribing a connection that is not a trader keeps them |
| ServerRegistry.BroadcastStep | src/server.cpp:327-331 | the publish loop may visit the connections in any order, each visit being one queue_out |
| ServerRegistry.PublishKeeps | src/server.cpp:313-332 | publishing a trade keeps the registries and removes no entry of the table |
| ServerRegistry.PlaceOrderKeeps | src/server.cpp:274-277 | so does an accepted order with all its trades |
| ServerRegistry.HandleLineKeeps | src/server.cpp:229-310 | and every line, well formed or not |
| ServerTranscript.PublishEffect | src/server.cpp:313-332 | publishing tells the live buyer, the live seller and every subscriber, each once, and nobody else |
| ServerTranscript.ToldPublish | src/server.cpp:313-332 | publishing one trade pays exactly the two notices due for it, and extends the tape of every listener |
| ServerTranscript.ToldPlaceOrder | src/server.cpp:274-277 | an accepted order is announced first and then every fill told to both sides |
| ServerTranscript.ToldLine | src/server.cpp:229-310 | after every line every live stream is its owner's transcript and its tape, and every dead one an initial part |
| ServerTranscript.FillReporting | src/server.cpp:258-332 | BOUGHT (or SOLD) total queued = traded, for every live trader, instrument, side and price; and accepted = that total + resting + cancelled unless an id has clashed |
| ServerExchange.LineTouchesExchangeOnce | src/server.cpp:229-310 | a line makes at most one request, for a logged-in trader acting for itself with numbers in range; otherwise the exchange is untouched |
| ServerExchange.LineReplyTells | src/server.cpp:258-293 | the first message queued in reply tells what happened: ORDER_ACCEPTED carries the one id used up, ORDER_CANCELLED the one order taken out, and with any other reply tables and id counter are unchanged |
| ServerExchange.OutOfReach | src/server.cpp:280-293 | no line of anybody cancels an order whose 32-bit id is above 2147483647 |
| ServerCommands.LineMeans | src/server.cpp:229-310 | the line a client writes for a command has the words that mean it |
| ServerCommands.LineAnswered | src/server.cpp:229-310 | every line of a live connection is answered first with the text the protocol owes it: which error in which order, OK, ORDER_ACCEPTED with the next id, ORDER_CANCELLED with the id named, or nothing |
| ServerCommands.LineSaysOnce | src/server.cpp:229-332 | a line gets one reply at most, and otherwise nothing is said to anybody but executions |
| ServerCommands.LineRequests | src/server.cpp:258-293 | a line makes a request of the exchange if and only if it comes from a logged-in trader and spells just that: side, instrument, quantity and price in their places, or the id to cancel |
| ServerCommands.LineMoves | src/server.cpp:244-310 | a connection logs in, follows, unfollows or quits if and only if its line asks for that and it may; nothing else about anybody changes |
| ServerCommands.OrderLine | src/server.cpp:258-278 | BUY and SELL with any instrument, quantity and price submit exactly that order, answered with its id |
| ServerCommands.LoginLine | src/server.cpp:244-256 | LOGIN makes a connection without a role the trader of that name if and only if no live trader has the name; otherwise duplicate username, and nobody changes |
| ServerCommands.CancelLine | src/server.cpp:280-293 | CANCEL is answered unknown order, not your order or ORDER_CANCELLED by whose order is stored under the id, and takes out exactly the sender's own |
| ServerCommands.FollowLine | src/server.cpp:295-332 | SUBSCRIBE and UNSUBSCRIBE turn exactly the named instrument on or off, and the next trade is told exactly if its instrument is on |
| ServerCommands.QuitLine | src/server.cpp:307-310 | QUIT is not answered; what is pending meets the send results and the connection is closing, or gone when nothing is left |
| ServerCommands.LongLine | src/server.cpp:138-143 | a line that is too long is answered so, and the connection is closing or gone |
| ServerRun.DrainLinesKeeps | src/server.cpp:135-147 | the line loop keeps everything and leaves an unfinished line of legal length or a connection on its way out |
| ServerRun.InputBound | src/server.cpp:126-149 | for all input, a connection that is not closing never buffers more than 65536 + 4096 bytes |
| ServerRun.ChunkIndependence | src/server.cpp:121-171 | if every line fits, whatever chunks and interruptions the bytes of a readable event come in, the whole server ends in the state that handling the lines one by one leaves, closed then if the peer is gone |
| ServerRun.ReadableEvent | src/server.cpp:121-171 | for all input to a connection alive and not closing: the lines are handled one by one until it is dead or closing; if it outlasts them, too long a rest is refused and the end of the stream closes |
| ServerRun.ReadLoopReceives | src/server.cpp:127-149 | the bytes received after a readable event are those before it and the first so many chunks of the event |
| ServerRun.ReadLoopFeeds | src/server.cpp:121-171 | the read loop hands over an initial part of the lines that `Feed` gives, and all of them, keeping the same rest, if the connection is alive and not closing afterwards |
| ServerRun.ClosingHandlesOneLine | src/server.cpp:121-171 | for every list of recv results on a closing connection: the first line completed is handled and nothing after it; without one, too long a rest is refused, the end of the stream closes, and otherwise nothing happens |
| ServerRun.DeafOnlyWhenDead | src/server.cpp:121-146 | no events hand over another line of a closing connection if and only if it is dead |
| ServerRun.WritableExactly | src/server.cpp:173-176 | a writable event does to a live connection what the send results say, and nothing to anybody else |
| ServerRun.EventsInOrder | src/server.cpp:74-78 | the events of a batch are handled one after the other, in order |
| ServerRun.OnAcceptKeeps | src/server.cpp:86-118 | accepting any number of connections keeps the invariant |
| ServerRun.AcceptExactly | src/server.cpp:86-118 | an accept event adds exactly the connections of its backlog, fresh, with consecutive owner ids, and changes nobody |
| ServerRun.ReapKeeps | src/server.cpp:349-355 | so does reap |
| ServerRun.ReapExactly | src/server.cpp:349-355 | reap takes out exactly the dead connections and leaves everybody else, input buffers included, as they are |
| ServerRun.BatchKeeps | src/server.cpp:74-79 | across any part of a batch no entry leaves the table, descriptors keep their owners, and a dead connection is untouched |
| ServerRun.ReapClosesOnce | src/server.cpp:349-355 | every descriptor in dead_ is listed once, is open, and belongs to an owner never closed before |
| ServerRun.Reachable | src/server.cpp:62-82 | the invariant holds in every reachable state |
| ServerTheorems.RegistriesCoherent | src/server.cpp:244-355 | usernames and owner_fd are exactly the live traders' distinct names and descriptors; only market data has subscriptions |
| ServerTheorems.StreamsIntact | src/server.cpp:180-226 | sent + pending is everything queued while alive, sent is a prefix ever after, and a drained close has sent it all |
| ServerTheorems.NoLostWakeUp | src/server.cpp:194-226 | write interest iff output pending, closing implies pending, at most 8 MiB pending |
| ServerTheorems.NothingTakenBack | src/server.cpp:338-361 | over whole runs connections keep owner, role and name, and their streams and subscription marks only grow, even after they are closed |
| ServerTheorems.FillsAddUp | src/server.cpp:258-332 | fill reporting in every reachable state |
| ServerTheorems.TranscriptTold | src/server.cpp:258-332 | in every reachable state, for every connection the server has or had, its ORDER_ACCEPTED, ORDER_CANCELLED, BOUGHT and SOLD messages are, as a sequence, the transcript of its owner's orders, or an initial part of it once dead |
| ServerTheorems.AcceptedFirst | src/server.cpp:274-277 | order by order, in every such stream, each execution and cancellation comes after the announcement of that very order; none is announced twice and, while the owner lives, every one is |
| ServerTheorems.TapeTold | src/server.cpp:302-332 | the TRADE messages queued are, in order, the trades of its instruments published while it was subscribed and not closing; an initial part of those once dead |
| ServerTheorems.TapeFixed | src/server.cpp:302-332 | the record of who listened when is append-only: from any state on, it says about every earlier trade what it said then, and about the next one what the connection listens to now unless it changes that first |
| ServerTheorems.LinesInOrder | src/server.cpp:121-171 | in every reachable state the lines handed over are a prefix of the lines of the bytes received; all of them, with the rest buffered, while alive and not closing; and nobody whose lines fit is told that a line was too long |
| ServerTheorems.SameBytesSameLines | src/framing.hpp:10-28 | connections that received the same bytes, in whatever chunks, wake-ups and runs, have had the same lines handled |
| ServerTheorems.OwnersUnique | src/server.cpp:103-106 | owner ids are never reused: two connections the server has or had with the same owner id are the same |
| ServerTheorems.ExchangeIsBook | src/server.cpp:258-293 | in every reachable state without a clash, so up to 2^32 accepted orders, the exchange has answered like the reference and holds its resting orders |
| ServerTheorems.IdsInSequence | src/server.cpp:272-276 | the next serial number is the number of orders accepted so far |
| ServerTheorems.RestingOwners | src/server.cpp:258-278 | every stored order belongs to a trader who logged in, connected or not |
| ServerTheorems.Delivery | src/server.cpp:180-226 | whatever part of the sent bytes arrives in whatever chunks, the client reads a prefix of the messages, and all of them once all bytes are there |
| ServerTheorems.EndToEnd | src/server.cpp:180-226 | the same for every connection of every run, open or closed |
| ServerTheorems.MessagesInRange | src/server.cpp:258-332 | every execution ever queued has a quantity and a price from 1 to 2147483647, every receipt a 32-bit id |
| ServerTheorems.ClientReads | src/server.cpp:180-226 | whatever part of the sent bytes has arrived, in any chunks, the client reads back the first so many messages queued to it |
| ServerTheorems.ClientAddsUp | src/server.cpp:180-332 | a trader that has received everything sent to it reads off the bytes, in any chunks, exactly what it has traded at every instrument, side and price |
| ServerTheorems.OwnOrderCancellable | src/server.cpp:280-293 | a live trader's CANCEL of its own stored order takes it out if and only if its 32-bit id is at most 2147483647 |
| ServerTheorems.CancelByReceipt | src/server.cpp:274-293 | for each of its orders a trader that has received everything has an ORDER_ACCEPTED line, and CANCEL with the number in it takes out that very order, if still stored, exactly up to 2147483647 |
| Witnesses.BuysRest | src/server.cpp:258-278 | a client that buys any number of times at one price, up to 2^32, has all its orders stored, with ids 0, 1, 2, ... |
| Witnesses.UncancellableOrder | src/server.cpp:280-288 | a run after which a live trader's own resting order is answered `bad order id` and stays |
| Witnesses.QuitThenTrade | src/server.cpp:121-146 | a run in which a client that sent QUIT is closing, and its next line is still carried out |
| Witnesses.ClosingBufferUnbounded | src/server.cpp:121-149 | for every n, a run after which a closing connection has more than n bytes buffered |
| Witnesses.WrapHappens | src/book.cpp:8-51 | a run without a clash after which every further buy is given an id that is still taken, and loses its remainder |
| ServerClass.InstrumentIndex | src/protocol.hpp:46-50 | the scan finds exactly the named instrument |
| ServerClass.Server.constructor | src/server.cpp:369-375 | a new server is the initial state |
| ServerClass.Server.CloseConn | src/server.cpp:338-347 | marks dead once, releases name and owner, lists the descriptor |
| ServerClass.Server.SendOnce | src/server.cpp:197-219 | one send and what the loop does with its result |
| ServerClass.Server.Drained | src/server.cpp:221-225 | the end of a flush: write interest off, and the close of a closing connection |
| ServerClass.Server.TryFlush | src/server.cpp:194-226 | the flush loop computes the specified flush and ends |
| ServerClass.Server.Queue | src/server.cpp:180-192 | queue_out, with the cap |
| ServerClass.Server.NotifyOwner | src/server.cpp:314-323 | BOUGHT or SOLD to a connected owner, nothing otherwise |
| ServerClass.Server.PublishTrade | src/server.cpp:313-332 | the publish loop in any order computes the specified broadcast |
| ServerClass.Server.PublishEach | src/server.cpp:277-277 | the trades of one order, in order |
| ServerClass.Server.Login | src/server.cpp:244-256 | all refusals in order, and the registration |
| ServerClass.Server.NewOrder | src/server.cpp:258-278 | all refusals in order before the exchange is touched |
| ServerClass.Server.Place | src/server.cpp:274-277 | submit, announce, publish |
| ServerClass.Server.CancelCmd | src/server.cpp:280-293 | all refusals in order, then the exchange's verdict |
| ServerClass.Server.SubscribeCmd | src/server.cpp:295-305 | all refusals in order, then role and subscription |
| ServerClass.Server.Quit | src/server.cpp:307-310 | drain then close |
| ServerClass.Server.Dispatch | src/server.cpp:229-242 | the command table |
| ServerClass.Server.TakeLine | src/server.cpp:137-137 | next_line on one connection's buffer |
| ServerClass.Server.HandleLines | src/server.cpp:135-147 | the line loop, its three ends and its termination |
| ServerClass.Server.ReadAll | src/server.cpp:126-170 | the recv loop under every list of results |
| ServerClass.Server.OnReadEvent | src/server.cpp:121-171 | nothing for a dead or unknown descriptor, the recv loop otherwise |
| ServerClass.Server.OnWriteEvent | src/server.cpp:173-176 | a flush for a live connection |
| ServerClass.Server.OnAcceptEvent | src/server.cpp:86-118 | the accept loop |
| ServerClass.Server.ReapDead | src/server.cpp:349-355 | closes and erases exactly the listed connections |
| ServerClass.Server.OnBatch | src/server.cpp:74-79 | the events of one batch in order |
| ServerClass.Server.Serve | src/server.cpp:62-82 | any run of the event loop goes through exactly the specified states and keeps the invariant |

## Left out

- ServerTheorems.LinesInOrder: covers a connection until the end of the batch in which it dies; its input history goes with its table entry.
- Connections hold their buffers by value; the methods of `LineBuffer` and `OutBuffer` compute the same functions on objects.
- Owner ids are unbounded; the source keeps them in an `int` that overflows after 2^31 connections.
- Sockets, kqueue registration, `init`, `main`, signals, logging and src/netutil.hpp: foreign calls; the write-interest flag and the results of system calls are what is modelled of them.
- A wait for events that fails for another reason than EINTR ends `run` in the source; here a run is any finite sequence of batches.
- Endless EINTR repetition and liveness that depends on the peer or on the kernel: result lists are finite.
- TCP itself: only an ordered byte stream with arbitrary chunking.
- The clients (src/trader.cpp, src/market_data.cpp, src/client_common.hpp) apart from their line loop: input and output plumbing.
- Hash-map and tree costs and iteration order: finite maps, any order.
- `LineBuffer::clear` and `size`, `OutBuffer::ptr`, `Exchange::resting_orders`: accessors without a property of their own.
- Measurement tools, the experiment harness and captured traces.
