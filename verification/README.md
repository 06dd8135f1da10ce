# EasyProspect: a verified model of its service core

The project models the parts of the EasyProspect services that keep state and have loops of their own, and
proves what they promise over all inputs, all runs and all interleavings.  Libraries underneath (sockets, timers,
strands, JSON text, the DOM) appear as nondeterministic events or plain data.

| file | what it models |
|---|---|
| `WriteQueue.dfy` | the outgoing queue of a WebSocket session: one outstanding write, named by a captured index |
| `Broadcast.dfy` | reference-counted messages fanned out to many sessions, from construction to the last write |
| `Shutdown.dfy` | the countdown, signal and stop machine of the web server and of the worker |
| `Wakeup.dfy` | the hand-over from `stop` to the main thread blocked in `run` |
| `Blackjack.dfy`, `Hand.dfy` | the card shoe; hand evaluation and round-robin dealing |
| `Catalog.dfy` | the recursive import of a catalog document over a shared stack of builders |
| `Downstream.dfy` | which session owns which backend connection |
| `ChannelList.dfy`, `Rpc.dfy`, `Chat.dfy` | JSON-RPC requests, channel lookup and the channel handlers |
| `Wrappers.dfy` | a value that may be missing, used by the others |
| `IncbinLines.dfy`, `IncbinOptions.dfy`, `IncbinDirective.dfy`, `IncbinHex.dfy` | the incbin tool: line reader, option loop, directive scan and emitter |

Most modules have three layers: pure functions that give one step and a whole run; lemmas about all runs; and a class
with the fields and loops of the original, whose methods are proved to do what the step functions say.

## Where the code differs from its comments

- The write queue is not first-in first-out; `WriteQueue.FifoIffAlwaysGentle` says exactly when it behaves like one.
- `shutdown` is commented "only callable once", but a call with no seconds left does not count
  (`Shutdown.TakenIffEarlierSpent`, with the run `Shutdown.ShutdownTwice`); and a firing already queued when `stop`
  runs can arm the timer again (`Shutdown.NeverArmedAgainIff` says exactly when; `Shutdown.ArmedAfterStop` is a run).
- `hand::eval` adds card numbers, not values; `Hand.FlagsWrongIff` says exactly when that shows, and
  `Hand.FlagsWrong` gives hands.  Dealing goes on until a hand is full, which ends the program with the 133rd card
  (`Hand.DealsRoundRobin`).
- A request for the blackjack table moves the user and the session into the posted handler, so the user's name is
  lost (`Chat.NameKeptIff`) and the session's next request ends the program (`Chat.NameLost`).
- A session and its wrapper own each other, and only such a move parts them; so what a session has queued when a
  write fails is not freed until then (`Broadcast.FailedQueueStaysLive`).
- A catalog never stores its category, so every category makes a new relationship and replaces the catalog's link
  (`Catalog.RelationshipForEachCategory`, with the input `Catalog.TwoCategories`).
- `get_connection` searches a copy of the pool's list, so connections it creates never enter the pool
  (`Downstream.PoolIsNeverUsed`).
- The incbin option "-p" without a prefix reads through the null pointer in one family of command lines
  (`IncbinOptions.NullReadIff`), and a name that is only white space is replaced by what follows it
  (`IncbinDirective.BlankNameIsRead`).
- A request that is not an object gets no reply, an error reply leaves out a negative id, and a request without
  a numeric id, or with a cid that is not a number, ends the program (`Chat.RepliesIff`, `Chat.OneReply`,
  `Chat.EndsIff`).

## Model

| member | source | states |
|---|---|---|
| WriteQueue.FifoIffAlwaysGentle | easyprospect-service/include/easyprospect-service-shared/session.hpp:731-770 | For a run that ends with everything written: delivery order is send order if in every state on the way at most one message waited behind the one in flight, or two did and the one in flight was at the front; and, for messages that can be told apart, only if |
| WriteQueue.FifoWithOneWaiting | easyprospect-service/include/easyprospect-service-shared/session.hpp:731-770 | With never more than one message waiting behind the one in flight, messages are delivered in the order they were sent, whatever the messages |
| WriteQueue.GentleKeepsOrder | easyprospect-service/include/easyprospect-service-shared/session.hpp:731-770 | Along every run without a write error on which every state was gentle, what was accepted is what was delivered followed by what is pending, in order |
| WriteQueue.NotFifo | easyprospect-service/include/easyprospect-service-shared/session.hpp:758-770 | Concrete run: messages 1, 2, 3, 4 sent at once are written 1, 3, 2, 4 |
| WriteQueue.OrderAlongRun | easyprospect-service/include/easyprospect-service-shared/session.hpp:731-770 | Along every run without a write error: in order while always gentle; once not gentle it stays so until a message overtakes, and stays out of order from then on |
| WriteQueue.UngentleCompletion | easyprospect-service/include/easyprospect-service-shared/session.hpp:758-770 | From an in-order state that is not gentle, the next completion hands some message to the stream before an older one |
| WriteQueue.EveryRunKeepsInv | easyprospect-service/include/easyprospect-service-shared/session.hpp:731-770 | For every interleaving of sends, completions and closing: no handler indexes outside the vector; at most one write is outstanding; before an error one is outstanding exactly when the queue is not empty; and the captured index still names the message being written |
| WriteQueue.EveryRunConserves | easyprospect-service/include/easyprospect-service-shared/session.hpp:731-770 | In every reached state the accepted messages are, as a multiset, those delivered plus those queued |
| WriteQueue.AcceptedIs | easyprospect-service/include/easyprospect-service-shared/session.hpp:731-739 | In every reached state what was accepted is, in order, everything sent before the socket was closed and nothing sent after it; and that is what was delivered or is queued |
| WriteQueue.FinishTakesOne | easyprospect-service/include/easyprospect-service-shared/session.hpp:758-770 | A successful completion removes exactly the written message, wherever the swap moved the others |
| WriteQueue.RemoveSwapTakesOne | easyprospect-service/include/easyprospect-service-shared/session.hpp:764-767 | Swapping with the last and shrinking removes exactly the element at the index |
| WriteQueue.FailureIsFinalForever | easyprospect-service/include/easyprospect-service-shared/session.hpp:758-763 | After a failed write, in every continuation: no write is started, nothing is delivered, and nothing leaves the queue |
| WriteQueue.DrainsCompletely | easyprospect-service/include/easyprospect-service-shared/session.hpp:758-770 | A queue of n messages with nothing new sent drains in exactly n successful completions and no fewer: first the one in flight, then what its removal leaves, from back to front |
| WriteQueue.DrainStep | easyprospect-service/include/easyprospect-service-shared/session.hpp:758-770 | After k of these completions exactly the first k messages of that order have been delivered and the rest are queued |
| WriteQueue.WsSession.constructor | easyprospect-service/include/easyprospect-service-shared/session.hpp:731-770 | A new session has an empty queue, an open socket and nothing outstanding |
| WriteQueue.WsSession.DoSend | easyprospect-service/include/easyprospect-service-shared/session.hpp:731-739 | The session object moves exactly as the queue machine does on a send: dropped when closed, appended otherwise, and a write started only on an empty queue |
| WriteQueue.WsSession.DoWrite | easyprospect-service/include/easyprospect-service-shared/session.hpp:741-756 | Starts one write of the last message and captures its index |
| WriteQueue.WsSession.DoStop | easyprospect-service/include/easyprospect-service-shared/session.hpp:731-735 | Closing the socket changes only that |
| WriteQueue.WsSession.OnWrite | easyprospect-service/include/easyprospect-service-shared/session.hpp:758-770 | The completion handler moves exactly as the queue machine does, on success and on error, and keeps its invariant |
| Broadcast.CountsAreHandles | easyprospect-service/include/easyprospect-service-shared/message.hpp:31-141 | Over every interleaving of broadcasts, posted sends, completions, closing and session ends: no handler touches a freed block; a block is live exactly while some handle (local, posted or queued) refers to it; its count is the number of those handles; a block no longer live was freed exactly once with the size it was allocated with; the block of an outstanding write is live |
| Broadcast.QuiescentFreesEverything | easyprospect-service/include/easyprospect-service-shared/message.hpp:65-75 | No leak: when no local, posted or queued handle is left, every block ever allocated has been freed, once |
| Broadcast.NothingIsLost | easyprospect-service/include/easyprospect-service-shared/session.hpp:723-770 | Over every run in which its socket is not closed nor the session ended, a session discards nothing: everything posted to it has been delivered, or is queued or still posted |
| Broadcast.ClosedTakesNothing | easyprospect-service/include/easyprospect-service-shared/session.hpp:731-735 | Once its socket is closed a session takes nothing more into its queue, in every continuation |
| Broadcast.ClosedSessionShrinks | easyprospect-service/include/easyprospect-service-shared/session.hpp:731-735 | A posted send that runs after the socket was closed leaves the queue as it is |
| Broadcast.FailedQueueStaysLive | easyprospect-service/include/easyprospect-service-shared/session.hpp:758-763 | After a failed write nothing but the end of the session frees what it has queued: in every continuation without that every queued block stays live |
| Broadcast.SentIsAccountedFor | easyprospect-service/include/easyprospect-service-shared/session.hpp:723-770 | What was posted to a session is what was delivered, plus what is queued or still posted, plus what was discarded |
| Broadcast.WriteIsLive | easyprospect-service/include/easyprospect-service-shared/session.hpp:753-770 | The message of an outstanding write is in its session's queue and its block is live |
| Broadcast.UnitsFitExactly | easyprospect-service/include/easyprospect-service-shared/message.hpp:98-100 | The allocation formula is the least number of impl-sized units that holds the header and the text, for any header size |
| Broadcast.ConstructAgrees | easyprospect-service/include/easyprospect-service-shared/message.hpp:90-108 | A new message has a block of its own with count one |
| Broadcast.CopyAgrees | easyprospect-service/include/easyprospect-service-shared/message.hpp:116-121 | Copying a handle keeps counts equal to numbers of handles |
| Broadcast.DestroyAgrees | easyprospect-service/include/easyprospect-service-shared/message.hpp:65-75 | Destroying a handle keeps counts equal to numbers of handles and frees the block with the last one |
| Broadcast.SessionStepKeepsInv | easyprospect-service/include/easyprospect-service-shared/session.hpp:731-770 | Every event at a session keeps its queue invariant, its accounting, and destroys exactly the handles that leave it |
| Broadcast.StepKeepsInv | easyprospect-service/src/easyprospect-web-worker/ws-user.cpp:194-215 | Every event of the system keeps the agreement between the heap and all handles |
| Broadcast.RunKeepsInv | easyprospect-service/src/easyprospect-web-worker/ws-user.cpp:194-215 | The same for every run; no run reaches an access to a freed block |
| Broadcast.Lounge.constructor | easyprospect-service/src/easyprospect-web-worker/ws-user.cpp:194-215 | A worker starts with an empty heap, no handles and no sessions |
| Broadcast.Lounge.MakeMessage | easyprospect-service/include/easyprospect-service-shared/message.hpp:90-108 | A new block with count one, held by one local handle |
| Broadcast.Lounge.DestroyMessage | easyprospect-service/include/easyprospect-service-shared/message.hpp:65-75 | The destructor decrements, and frees with the allocated size at zero |
| Broadcast.Lounge.SendTo | easyprospect-service/include/easyprospect-service-shared/session.hpp:723-729 | One copy of the handle is made and moved into a send posted to that session; nothing else changes |
| Broadcast.Lounge.SendToAll | easyprospect-service/src/easyprospect-web-worker/ws-user.cpp:208-213 | Every listed session that is not gone has one more handle posted and no other session has changed; no other block has changed |
| Broadcast.Lounge.ChannelSend | easyprospect-service/src/easyprospect-web-worker/ws-user.cpp:194-215 | The whole fan-out of channel::send, including the destruction of its own argument at the end |
| Shutdown.ShutdownIsSafe | easyprospect-service/src/easyprospect-web/server.cpp:195-289 | For every interleaving of shutdown and stop calls, signals, firings and queued handlers: the shutdown time is never read before it is set; at most one timer wait and one signal wait are outstanding; the body of stop takes effect at most once; two delivered signals set the stop flag |
| Shutdown.WaitsAreBounded | easyprospect-service/src/easyprospect-web/server.cpp:210-244 | An accepted shutdown of c seconds arms the timer at most ceil(c/10) times, provided timers never fire early |
| Shutdown.TimerStopIsPrompt | easyprospect-service/src/easyprospect-web/server.cpp:215-223 | The timer path never stops before the shutdown time; if the last firing is handled at most L late, it stops before shutdown time + 1s + L + the delay between the clock reading and expires_after |
| Shutdown.NoticesCountDown | easyprospect-service/include/easyprospect-web-worker/worker-server-app.h:129-138 | The worker announces once per wait; the announced seconds are positive, within the cool-down, and fall by at least ten each time |
| Shutdown.PunctualShutdown | easyprospect-service/include/easyprospect-web-worker/worker-server-app.h:95-139 | When no firing is late and no clock runs inside a handler, shutdown(c) announces c, c - 10, and so on, once for each of its ceil(c/10) waits, and stops exactly at the shutdown time |
| Shutdown.SignalsShutDown | easyprospect-service/src/easyprospect-web/server.cpp:246-265 | A signal to a running server begins a countdown of thirty seconds, due then, and waits for the next signal, which stops the server |
| Shutdown.WaitsGoOn | easyprospect-service/src/easyprospect-web/server.cpp:210-265 | In every reachable state with the stop flag clear a running server has exactly one signal wait, and a countdown exactly one timer wait, outstanding or completed and not yet handled |
| Shutdown.StopLeavesNoWait | easyprospect-service/src/easyprospect-web/server.cpp:278-288 | Whatever sets the stop flag in any run leaves no timer wait and no signal wait outstanding |
| Shutdown.StopCancels | easyprospect-service/src/easyprospect-web/server.cpp:267-289 | A stop that finds the flag clear queues every wait there was as aborted, and leaves the firings and signals already queued |
| Shutdown.StopEndsCountdown | easyprospect-service/src/easyprospect-web/server.cpp:267-289 | A stop in a countdown, with no firing queued, ends it: in no continuation is the timer waited for or armed again, and nothing more is announced |
| Shutdown.ArmedIsFinal | easyprospect-service/src/easyprospect-web/server.cpp:202-207 | Once the timer has been armed the shutdown time and the cool-down never change |
| Shutdown.TakenIffEarlierSpent | easyprospect-service/src/easyprospect-web/server.cpp:195-244 | Exact form of "only callable once", over every run: a call of shutdown takes effect if and only if every earlier call found no seconds left, and the timer has been armed if and only if some call found seconds left |
| Shutdown.ShutdownTwice | easyprospect-service/src/easyprospect-web/server.cpp:202-222 | Concrete run from the start: shutdown(0) stops, and a shutdown(30) after it is accepted and arms the timer |
| Shutdown.TimerOutlivesStop | easyprospect-service/src/easyprospect-web/server.cpp:267-289 | From every reachable state with a queued firing, a stop that runs first leaves the timer armed if the firing, handled at any later time, still finds seconds left |
| Shutdown.ArmedAfterStop | easyprospect-service/src/easyprospect-web/server.cpp:210-289 | Concrete run from the start in which this happens: shutdown(30), a firing after ten seconds, stop, and then the firing is handled |
| Shutdown.NeverArmedAgainIff | easyprospect-service/src/easyprospect-web/server.cpp:195-289 | From a reachable state without a timer wait, as stop leaves it, no continuation arms the timer again if and only if the timer has been armed before and no queued firing can find seconds left |
| Shutdown.CeilIsLeast | easyprospect-service/include/easyprospect-service-shared/utility.hpp:40-46 | ceil<seconds>(d) is the least whole number of seconds not below d, also for negative durations |
| Shutdown.ArmLeaves | easyprospect-service/src/easyprospect-web/server.cpp:225-243 | Each wait uses up ten seconds of what remains, or all of it, and expires less than a second past the shutdown time |
| Shutdown.FiringFinds | easyprospect-service/src/easyprospect-web/server.cpp:215-216 | A firing that is not early finds no more seconds than were left at the expiry |
| Shutdown.RunKeepsInv | easyprospect-service/src/easyprospect-web/server.cpp:195-289 | Token, stop, countdown and notice invariants hold in every reachable state |
| Shutdown.Server.constructor | easyprospect-service/src/easyprospect-web/server.cpp:195-204 | A new server has an unarmed timer, no waits and an unset stop flag |
| Shutdown.Server.StartRunning | easyprospect-service/src/easyprospect-web/server.cpp:140-158 | Starting waits for signals once and is refused when already running |
| Shutdown.Server.Shutdown | easyprospect-service/src/easyprospect-web/server.cpp:195-208 | Off the strand it posts itself; on it it moves exactly as the machine does |
| Shutdown.Server.OnTimer | easyprospect-service/include/easyprospect-web-worker/worker-server-app.h:110-139 | An aborted wait does nothing; otherwise stop at zero or arm for min(remain, 10) seconds |
| Shutdown.Server.OnSignal | easyprospect-service/src/easyprospect-web/server.cpp:246-265 | The first signal re-arms the signal wait and begins a 30 second countdown, a later one stops |
| Shutdown.Server.Stop | easyprospect-service/include/easyprospect-web-worker/worker-server-app.h:162-183 | Off the strand it posts itself; on it it takes effect once and cancels both waits |
| Wakeup.NoLostWakeup | easyprospect-service/src/easyprospect-web/server.cpp:154-158 | In every interleaving with stop, once stop has released the mutex the main thread is not asleep and every step it can take brings it closer to leaving the wait |
| Wakeup.OnlyAfterStop | easyprospect-service/src/easyprospect-web/server.cpp:278-283 | The main thread leaves the wait only after the stop flag was set |
| Wakeup.RunKeepsInv | easyprospect-service/src/easyprospect-web/server.cpp:154-158 | Mutual exclusion and the state of the flag along every interleaving |
| Blackjack.ShuffleIsBijection | easyprospect-service/src/easyprospect-web-worker/ws-user.cpp:322-326 | The choices j_i in [i, n) produce an arrangement if and only if it is a permutation of the cards; for distinct cards exactly one sequence of choices produces it |
| Blackjack.ShufflePermutes | easyprospect-service/src/easyprospect-web-worker/ws-user.cpp:322-326 | Every sequence of choices yields a permutation |
| Blackjack.EveryArrangementIsMade | easyprospect-service/src/easyprospect-web-worker/ws-user.cpp:322-326 | For every permutation there are choices that yield it |
| Blackjack.ChoicesUnique | easyprospect-service/src/easyprospect-web-worker/ws-user.cpp:322-326 | For distinct cards two sequences of choices with the same arrangement are equal |
| Blackjack.MixFromIs | easyprospect-service/src/easyprospect-web-worker/ws-user.cpp:322-326 | The loop that swaps positions i and i + c[i] in place, from round i on, equals the recursive Fisher-Yates arrangement |
| Blackjack.ReducedAt | easyprospect-service/src/easyprospect-web-worker/ws-user.cpp:324 | The i-th choice is the i-th random number modulo the number of cards left |
| Blackjack.EveryShuffleIff | easyprospect-service/src/easyprospect-web-worker/ws-user.cpp:316-328 | The cards of a shoe are an arrangement of the whole shoe if and only if some random numbers make the shuffle leave it |
| Blackjack.SameShuffleIff | easyprospect-service/src/easyprospect-web-worker/ws-user.cpp:316-328 | Two sequences of random numbers shuffle the cards of one deck alike if and only if they agree in each round modulo the number of cards left |
| Blackjack.FirstCard | easyprospect-service/src/easyprospect-web-worker/ws-user.cpp:322-326 | The first card is the one that the first random number chooses from the whole shoe |
| Blackjack.FullShoeCount | easyprospect-service/src/easyprospect-web-worker/ws-user.cpp:318-321 | A shoe of d decks holds each card number from 1 to 52 exactly d times |
| Blackjack.DealsAreWholeShoes | easyprospect-service/src/easyprospect-web-worker/ws-user.cpp:304-336 | For any number of deals and any random numbers each consecutive block of 52 * decks deals is a permutation of the whole shoe, and what has been dealt from the present shoe plus what remains is the whole shoe |
| Blackjack.DealtIs | easyprospect-service/src/easyprospect-web-worker/ws-user.cpp:316-335 | For any number of deals the i-th card of the b-th block dealt is the i-th card of the shuffle with which that block began |
| Blackjack.DealsAreFair | easyprospect-service/src/easyprospect-web-worker/ws-user.cpp:304-336 | A card that a shoe of n cards holds d times has been dealt between d * floor(N/n) and d * ceil(N/n) times after N deals |
| Blackjack.EveryCardIsDealtFairly | easyprospect-service/src/easyprospect-web-worker/ws-user.cpp:304-336 | So each card number has been dealt between decks * floor(N/(52 decks)) and decks * ceil(N/(52 decks)) times |
| Blackjack.Shoe.constructor | easyprospect-service/src/easyprospect-web-worker/ws-user.cpp:310-314 | A new shoe holds the given decks, shuffled |
| Blackjack.Shoe.Shuffle | easyprospect-service/src/easyprospect-web-worker/ws-user.cpp:316-328 | The cards are filled in and shuffled in place; the position returns to the first card |
| Blackjack.Shoe.Mix | easyprospect-service/src/easyprospect-web-worker/ws-user.cpp:322-326 | The in-place loop leaves the Fisher-Yates arrangement of what the array held |
| Blackjack.Shoe.DealCard | easyprospect-service/src/easyprospect-web-worker/ws-user.cpp:330-335 | The next card, after a new shuffle when none is left |
| Hand.Eval | easyprospect-service/src/easyprospect-web-worker/ws-user.cpp:368-390 | The loops compute the largest total not above 21 over all 1-or-11 choices for cards equal to 1, or the smallest total when none fits; busted exactly when every choice exceeds 21; twenty_one exactly when some choice is 21; blackjack exactly then with two cards |
| Hand.TotalsAreSumPlusTens | easyprospect-service/src/easyprospect-web-worker/ws-user.cpp:370-385 | The possible totals are the sum with aces as 1 plus ten for any number of the aces |
| Hand.BestDecides | easyprospect-service/src/easyprospect-web-worker/ws-user.cpp:387-389 | The best total exceeds 21 exactly when every total does, and is 21 exactly when some total is |
| Hand.RawTotalsIff | easyprospect-service/src/easyprospect-web-worker/ws-user.cpp:360-390 | eval uses card numbers instead of value(): it chooses among the totals of the blackjack hand if and only if no card number exceeds 10 |
| Hand.FlagsWrongIff | easyprospect-service/src/easyprospect-web-worker/ws-user.cpp:360-390 | When the flags of eval differ from those of the blackjack hand, over all hands of cards 1 to 52: a hand is wrongly busted if and only if its values sum to at most 21 and its numbers to more, and is never wrongly kept; 21 is wrongly found or missed if and only if exactly one of the two sums makes 21 |
| Hand.FlagsFromSums | easyprospect-service/src/easyprospect-web-worker/ws-user.cpp:370-389 | Some total is 21 exactly when the sum is 21, or is 11 and there is an ace; every total exceeds 21 exactly when the sum does |
| Hand.FlagsWrong | easyprospect-service/src/easyprospect-web-worker/ws-user.cpp:368-390 | Inputs: a jack and a queen are busted, an ace and a jack are not a blackjack, an eight and a king are one |
| Hand.ValuesSum | easyprospect-service/src/easyprospect-web-worker/ws-user.cpp:360-366 | Card values sum to no more than card numbers, and to the same exactly when no number exceeds 10 |
| Hand.ValueIs | easyprospect-service/src/easyprospect-web-worker/ws-user.cpp:360-366 | With thirteen ranks to a suit, an ace to a ten count as their rank and a court card as ten |
| Hand.DealsRoundRobin | easyprospect-service/src/easyprospect-web-worker/ws-user.cpp:614-620 | For any number of deals: up to 132 cards are dealt, card k to seat k mod 6, and the 133rd deal, and no earlier one, ends the program with the exception of a full hand that nothing catches |
| Hand.DealOneInTurn | easyprospect-service/src/easyprospect-web-worker/ws-user.cpp:614-620 | One deal keeps this |
| Hand.Game.constructor | easyprospect-service/src/easyprospect-web-worker/ws-user.cpp:591-592 | Six seats with empty hands, the dealer to be dealt first |
| Hand.Game.DealCard | easyprospect-service/src/easyprospect-web-worker/ws-user.cpp:614-620 | One card to the seat whose turn it is, and the turn moves on; or the exception of a full hand |
| Catalog.ImportIs | easyprospect-service/src/easyprospect-service-plugin-salesforce/easyprospect-service-plugin-salesforce.cpp:612-874 | Importing succeeds exactly for legal nesting; it leaves the stack as it was, overlays on the enclosing builder the links the document gives it, adds the builders the document describes, and returns the builder pushed for the node or none |
| Catalog.ImportAllIs | easyprospect-service/src/easyprospect-service-plugin-salesforce/easyprospect-service-plugin-salesforce.cpp:854-860 | The same for the loop over the children |
| Catalog.StackIsAncestors | easyprospect-service/src/easyprospect-service-plugin-salesforce/easyprospect-service-plugin-salesforce.cpp:612-874 | At every node of a legal tree the stack holds exactly the builders of its pushing ancestors, root first: the ones returned for those ancestors |
| Catalog.DocumentIs | easyprospect-service/src/easyprospect-service-plugin-salesforce/easyprospect-service-plugin-salesforce.cpp:612-874 | A whole document: success exactly for legal nesting, an empty stack at the end, and the described builders |
| Catalog.DocumentIds | easyprospect-service/src/easyprospect-service-plugin-salesforce/easyprospect-service-plugin-salesforce.cpp:553-576 | All builders of a legal document that got a row have different ids, all above the ids that existed before, increasing in document order |
| Catalog.DocumentLinks | easyprospect-service/src/easyprospect-service-plugin-salesforce/easyprospect-service-plugin-salesforce.cpp:656-777 | After a legal document has been imported, the builder of every pushing element, at any path, stores as header, category, image-settings and internal-location link the id of the builder made for the last such child, and no link where there is none |
| Catalog.RelationshipForEachCategory | easyprospect-service/src/easyprospect-service-plugin-salesforce/easyprospect-service-plugin-salesforce.cpp:690-703 | After a legal document has been imported there are exactly as many relationships for categories as category elements: none is ever used for a second category |
| Catalog.TwoCategories | easyprospect-service/src/easyprospect-service-plugin-salesforce/easyprospect-service-plugin-salesforce.cpp:670-708 | Input: a catalog with two categories gets two relationships and keeps the link to the second |
| Catalog.FullCatalogIs | easyprospect-service/src/easyprospect-service-plugin-salesforce/easyprospect-service-plugin-salesforce.cpp:636-839 | Input: a document with every element, nested as deep as they go, and exactly the builders, row ids and links it leaves |
| Catalog.MayStandBelow | easyprospect-service/src/easyprospect-service-plugin-salesforce/easyprospect-service-plugin-salesforce.cpp:656-757 | A header or category is imported only below a catalog, image settings only below a header, an internal location only below image settings, and any other element anywhere |
| Catalog.LinksAreLast | easyprospect-service/src/easyprospect-service-plugin-salesforce/easyprospect-service-plugin-salesforce.cpp:656-777 | The links a node leaves in its enclosing builder are the ids stored in the builders made for the last header, category relationship, image settings and internal location |
| Catalog.LinksOfAllAreLast | easyprospect-service/src/easyprospect-service-plugin-salesforce/easyprospect-service-plugin-salesforce.cpp:656-777 | The same for a sequence of nodes |
| Catalog.EnterIffNeeds | easyprospect-service/src/easyprospect-service-plugin-salesforce/easyprospect-service-plugin-salesforce.cpp:619-839 | Entering an element succeeds exactly when the builder on top of the stack is of the kind it needs; then it links its row into that builder and pushes its own |
| Catalog.ImportKeepsStack | easyprospect-service/src/easyprospect-service-plugin-salesforce/easyprospect-service-plugin-salesforce.cpp:862-873 | A completed import leaves the stack it found |
| Catalog.ExpectedIds | easyprospect-service/src/easyprospect-service-plugin-salesforce/easyprospect-service-plugin-salesforce.cpp:553-576 | Row ids increase through the builders of a node, within the rows it inserts |
| Catalog.Importer.constructor | easyprospect-service/src/easyprospect-service-plugin-salesforce/easyprospect-service-plugin-salesforce.cpp:612-617 | An importer starts with no builders, an empty stack and the rows that exist |
| Catalog.Importer.NewParserObject | easyprospect-service/src/easyprospect-service-plugin-salesforce/easyprospect-service-plugin-salesforce.cpp:553-576 | A new builder with a new row's id, pushed only when there is a stack to push it on |
| Catalog.Importer.EnterNode | easyprospect-service/src/easyprospect-service-plugin-salesforce/easyprospect-service-plugin-salesforce.cpp:619-839 | The switch over element names, with the shared stack and builders changed in place |
| Catalog.Importer.FromXml | easyprospect-service/src/easyprospect-service-plugin-salesforce/easyprospect-service-plugin-salesforce.cpp:612-874 | The recursion on the shared stack refines the recursive import and leaves the stack as it was |
| Catalog.Importer.ImportChildren | easyprospect-service/src/easyprospect-service-plugin-salesforce/easyprospect-service-plugin-salesforce.cpp:854-860 | The loop over the children refines the import of the sequence |
| Downstream.NoSharing | easyprospect-service/include/easyprospect-web/easyprospect-server-downstream.h:190-289 | After any run of requests from any state that satisfies the invariant, no two sessions share a connection |
| Downstream.PoolIsNeverUsed | easyprospect-service/include/easyprospect-web/easyprospect-server-downstream.h:215-255 | From the state in which the server is made the pool stays empty, so every session with a connection got one made new for one of its own requests |
| Downstream.RunKeepsInv | easyprospect-service/include/easyprospect-web/easyprospect-server-downstream.h:190-289 | Every session is filed under its own id and owns the connection it is bound to, in every state of every run |
| Downstream.RunExtends | easyprospect-service/include/easyprospect-web/easyprospect-server-downstream.h:190-289 | A session keeps its first connection forever, an owned connection keeps its owner, and the pool never changes |
| Downstream.OneRequest | easyprospect-service/include/easyprospect-web/easyprospect-server-downstream.h:281-289 | A request is served by the session it names (a new one for the nil id), with that session's connection, or else the first usable one of the backend or a new one; it fails exactly when the session is unbound and the backend does not exist; it claims at most one free connection, from the list of that backend |
| Downstream.EveryBackendIsServed | easyprospect-service/include/easyprospect-web/easyprospect-server-downstream.h:215-223 | After any run every backend that the server was made for is served, and a session without a connection is refused any other |
| Downstream.NewConnectionIff | easyprospect-service/include/easyprospect-web/easyprospect-server-downstream.h:215-255 | A connection is created exactly when an unbound session finds no usable connection in its backend's list |
| Downstream.NoneUsable | easyprospect-service/include/easyprospect-web/easyprospect-server-downstream.h:231-238 | The search fails exactly when no listed connection is free or already the session's |
| Downstream.Server.constructor | easyprospect-service/include/easyprospect-web/easyprospect-server-downstream.h:262-268 | One empty list for each backend |
| Downstream.Server.Acquire | easyprospect-service/include/easyprospect-web/easyprospect-server-downstream.h:42-60 | Claims a free connection, agrees for its owner, and changes nothing for anyone else |
| Downstream.Server.GetSession | easyprospect-service/include/easyprospect-web/easyprospect-server-downstream.h:190-213 | The session with that id, or a new one filed under its id |
| Downstream.Server.GetConnection | easyprospect-service/include/easyprospect-web/easyprospect-server-downstream.h:215-255 | The search claims the first usable connection and no other; otherwise a new one is made; a bad backend changes nothing |
| Downstream.Server.StartRequest | easyprospect-service/include/easyprospect-web/easyprospect-server-downstream.h:281-289 | The binding part of a request refines the specification and keeps its invariant |
| ChannelList.VectorIsMap | easyprospect-service/include/easyprospect-web-worker/worker-server.h:296-331 | After any allowed inserts and erases, looking up a cid in the sparse vector is looking it up in a plain map |
| ChannelList.ApplyIsMapUpdate | easyprospect-service/include/easyprospect-web-worker/worker-server.h:316-331 | Each insert and erase is the map update, across resizing |
| ChannelList.Channels.constructor | easyprospect-service/include/easyprospect-web-worker/worker-server.h:276-282 | Element 0 is unused and the first cid given out is 1001 |
| ChannelList.Channels.NextCid | easyprospect-service/include/easyprospect-web-worker/worker-server.h:311-314 | Cids are given out in increasing order |
| ChannelList.Channels.Lookup | easyprospect-service/include/easyprospect-web-worker/worker-server.h:296-302 | The channel filed under the cid, or none, for any cid |
| ChannelList.Channels.InsertChannel | easyprospect-service/include/easyprospect-web-worker/worker-server.h:316-323 | Files the channel under its cid and keeps all others |
| ChannelList.Channels.EraseChannel | easyprospect-service/include/easyprospect-web-worker/worker-server.h:325-331 | Removes that cid and keeps all others |
| Rpc.ExtractionOfWellTyped | easyprospect-service/src/easyprospect-service-shared/rpc.cpp:121-232 | A well-typed request keeps its id whatever else is wrong; it is rejected with the first applicable error and otherwise holds the id, version, method and parameters of the message |
| Rpc.ThrowsIff | easyprospect-service/src/easyprospect-service-shared/rpc.cpp:121-232 | Exactly which messages make extract throw something other than an rpc_error: a missing or non-numeric id, a version that is not text or not a number, a method that is not text |
| Rpc.Extract | easyprospect-service/src/easyprospect-service-shared/rpc.cpp:121-232 | The step-by-step extraction computes that result |
| Rpc.ToInt | easyprospect-service/src/easyprospect-service-shared/rpc.cpp:137 | Ids are 32-bit two's complement: in range, congruent modulo 2^32, unchanged in range |
| Rpc.ToSize | easyprospect-service/src/easyprospect-web-worker/ws-user.cpp:246 | Cids are 64-bit unsigned: in range, congruent modulo 2^64, unchanged in range |
| Chat.RepliesMatchRequests | easyprospect-service/include/easyprospect-service-shared/session.hpp:1007-1025 | Over any run of well-typed requests not for the blackjack table, from sessions that have not been to it, each session is sent exactly as many replies as it made requests (section 5 of the JSON-RPC 2.0 Specification) |
| Chat.OneReply | easyprospect-service/include/easyprospect-service-shared/session.hpp:1007-1025 | Each such request gets exactly one reply, as the last thing sent, to its own session, with its id: on success and on every error path; an error found by extract is reported with code invalid_request |
| Chat.RepliesIff | easyprospect-service/include/easyprospect-service-shared/session.hpp:1007-1025 | For any message at all that does not end the loop: one reply if it is an object not for the table, and none otherwise |
| Chat.EndsIff | easyprospect-service/include/easyprospect-service-shared/session.hpp:1007-1018 | Exactly which messages end the program: those on which extraction throws; and, when extraction finds nothing wrong, those with a cid that is not a number and those from a session that has been moved to the table |
| Chat.SayIs | easyprospect-service/src/easyprospect-web-worker/ws-user.cpp:217-241 | On a JSON request to say something in a room: the refusals in order; or exactly one notice, to the members that can be reached, with the verb, the channel's cid and name, the speaker's name and the text, and the confirmation |
| Chat.JoinIs | easyprospect-service/src/easyprospect-web-worker/ws-user.cpp:175-183 | On a JSON request to join: the refusals; or the session is a member, everybody including it is told, and the confirmation |
| Chat.LeaveIs | easyprospect-service/src/easyprospect-web-worker/ws-user.cpp:185-192 | On a JSON request to leave: the refusal; or the session is a member no more, the others and the leaver are told, and the confirmation |
| Chat.IdentifyIs | easyprospect-service/src/easyprospect-web-worker/ws-user.cpp:264-282 | On a JSON request to identify: the refusals in order; or the name given is set, the session is a member of System, which is told, and the confirmation |
| Chat.SystemIs | easyprospect-service/src/easyprospect-web-worker/ws-user.cpp:284-300 | A shutdown request asks for thirty seconds and a stop request for a stop, and both are confirmed |
| Chat.UnknownIs | easyprospect-service/include/easyprospect-web-worker/worker-server.h:223-237 | A request for a channel that does not exist, or for a method its kind does not have, is refused with the right code and text |
| Chat.NoChannelIs | easyprospect-service/src/easyprospect-web-worker/ws-user.cpp:243-257 | A request without a parameter object or without a cid is refused with the right text |
| Chat.MembersAre | easyprospect-service/src/easyprospect-web-worker/ws-user.cpp:94-146 | Over any run a session is in a channel if and only if its last successful join, identify or leave there put it in |
| Chat.NamesAre | easyprospect-service/src/easyprospect-web-worker/ws-user.cpp:264-282 | Over any run a user's name is the one its last successful identify gave, and empty after a message for the table |
| Chat.HandlersDoNotReply | easyprospect-service/src/easyprospect-web-worker/ws-user.cpp:153-300 | Channel handlers send notices only |
| Chat.NamesAndMembers | easyprospect-service/src/easyprospect-web-worker/ws-user.cpp:94-282 | Over any run of any messages: a non-empty name has at most 20 characters and stays until its user is moved into a handler of the table; a member of a channel other than System has a name or has been moved; moved are exactly the senders of messages for the table; channels keep cid, name and kind |
| Chat.NameKeptIff | easyprospect-service/src/easyprospect-web-worker/ws-user.cpp:672-702 | Exact condition for a name to stay, on the messages and the starting channels alone: over any run a non-empty name is empty afterwards if its user sent a well-formed request with a table's cid and a method of the table, and unchanged otherwise |
| Chat.NamelessMemberIff | easyprospect-service/src/easyprospect-web-worker/ws-user.cpp:672-702 | After any run a member of a channel other than System has no name if and only if it had been moved before the run or sent such a request |
| Chat.NamesFromStart | easyprospect-service/src/easyprospect-web-worker/ws-user.cpp:94-282 | From the state in which a worker starts, over any run: names have at most 20 characters, and a member of a channel other than System has none if and only if it sent a request for the table |
| Chat.PostedIff | easyprospect-service/src/easyprospect-web-worker/ws-user.cpp:672-702 | Exactly the calls with a table's cid and one of its methods are posted to the table, whoever makes them |
| Chat.ForTableStays | easyprospect-service/src/easyprospect-web-worker/ws-user.cpp:153-300 | Whether a message is for the table does not change over a run |
| Chat.NameLost | easyprospect-service/src/easyprospect-web-worker/ws-user.cpp:674-676 | It happens: after a play request the name is empty, and the next well-formed request of that session ends the program |
| Chat.HandleKeepsInv | easyprospect-service/src/easyprospect-web-worker/ws-user.cpp:153-282 | One message keeps this |
| Chat.JoinKeepsInv | easyprospect-service/src/easyprospect-web-worker/ws-user.cpp:175-183 | Joining with a name, or System, keeps it |
| Chat.IdentifyKeepsInv | easyprospect-service/src/easyprospect-web-worker/ws-user.cpp:264-282 | Identifying with at most 20 characters keeps it |
| Chat.LeaveKeepsInv | easyprospect-service/src/easyprospect-web-worker/ws-user.cpp:185-192 | Leaving keeps it |
| Chat.Worker.InsertSession | easyprospect-service/src/easyprospect-web-worker/ws-user.cpp:94-116 | Joins once and tells everybody including the newcomer; otherwise changes and sends nothing |
| Chat.Worker.EraseSession | easyprospect-service/src/easyprospect-web-worker/ws-user.cpp:118-146 | Removes a member and tells the others and the leaver; otherwise changes and sends nothing |
| Chat.Worker.Join | easyprospect-service/src/easyprospect-web-worker/ws-user.cpp:175-183 | do_join with both of its errors |
| Chat.Worker.Leave | easyprospect-service/src/easyprospect-web-worker/ws-user.cpp:185-192 | do_leave with its error |
| Chat.Worker.Say | easyprospect-service/src/easyprospect-web-worker/ws-user.cpp:217-241 | do_say with its errors in order |
| Chat.Worker.Identify | easyprospect-service/src/easyprospect-web-worker/ws-user.cpp:264-282 | do_identify with its errors in order, and the System membership |
| Chat.Worker.DispatchCall | easyprospect-service/src/easyprospect-web-worker/ws-user.cpp:243-257 | Channel lookup and the handlers of the three kinds of channel |
| Chat.Worker.OnMessage | easyprospect-service/include/easyprospect-service-shared/session.hpp:1007-1025 | One turn of the request loop: the reply or the escape of an exception, and the new state |
| IncbinLines.ReadLines | easyprospect-service/src/incbin/incbin.c:213 | Successive fline calls return exactly the lines of the file and leave nothing unread |
| IncbinLines.LinesDivide | easyprospect-service/src/incbin/incbin.c:18-52 | These are the one division of the text into non-empty lines that end at a newline or the end of the file; their concatenation is the file |
| IncbinLines.LineBuffer.Fline | easyprospect-service/src/incbin/incbin.c:18-52 | One call returns the next line with its length and a terminator, or -1 exactly at the end of the file, and advances by that length |
| IncbinLines.LineBuffer.ReadLoop | easyprospect-service/src/incbin/incbin.c:28-49 | The loop keeps chr == n - (pos - line) across reallocation, leaves room for the terminator, and ends |
| IncbinLines.LineBuffer.Grow | easyprospect-service/src/incbin/incbin.c:30-36 | Reallocation keeps what was read |
| IncbinLines.FirstLineIs | easyprospect-service/src/incbin/incbin.c:39-48 | What the loop stops at, the first newline or the end, is the first line |
| IncbinOptions.ParseLoop | easyprospect-service/src/incbin/incbin.c:134-186 | The loop that deletes consumed arguments from argv refines a recursive parse of the original list: same output name, prefix, style, search paths and files in order, and the same errors |
| IncbinOptions.MeaningIs | easyprospect-service/src/incbin/incbin.c:134-186 | A command line on which the null pointer is not read is parsed if and only if every style is known, no help is asked for and the tables have room; then files and search paths are, in order, the arguments of that kind that no -o or -p consumed, and the last output name, prefix and style decide |
| IncbinOptions.ParseIs | easyprospect-service/src/incbin/incbin.c:134-186 | The same from any point of the loop, for the options collected so far |
| IncbinOptions.WrittenIsParsed | easyprospect-service/src/incbin/incbin.c:122-186 | Round trip: for any output name, undashed prefix, style, search paths and file names that are not options, the command line that writes them is parsed to exactly them |
| IncbinOptions.StyleIff | easyprospect-service/src/incbin/incbin.c:70-79 | A style is known if and only if it is camel, camelcase, snake or snakecase in any mixture of cases |
| IncbinOptions.NullReadIff | easyprospect-service/src/incbin/incbin.c:142-163 | The comment promises "-p" with no prefix; the null pointer is read exactly when "-p" comes last and every argument before it was taken on its own |
| IncbinOptions.PrefixAloneReadsNull | easyprospect-service/src/incbin/incbin.c:148 | The shortest such command line is "-p" alone |
| IncbinOptions.TakeOutfile | easyprospect-service/src/incbin/incbin.c:135-141 | "-o" takes the next argument if there is one |
| IncbinOptions.TakePrefix | easyprospect-service/src/incbin/incbin.c:142-163 | "-p" before a dash leaves the argument alone unless it is "-", and takes any other |
| IncbinOptions.DeleteNext | easyprospect-service/src/incbin/incbin.c:138-139 | memmove deletes one element in place and leaves the rest of the array |
| IncbinOptions.DeletedLeaves | easyprospect-service/src/incbin/incbin.c:138-139 | What remains after position i is the old arguments without the deleted one, and the slot behind them repeats the last |
| IncbinDirective.WrittenIsRead | easyprospect-service/src/incbin/incbin.c:216-234 | Round trip: for INCBIN(name, "path") with any white space inside the parentheses, a name without commas and a path without a closing parenthesis, and text around it, the scan shows exactly that name and quoted path and opens exactly that path |
| IncbinDirective.BlankNameIsRead | easyprospect-service/src/incbin/incbin.c:220-234 | The same line with only white space for a name: the name shown is the comma and the quoted path |
| IncbinDirective.NamelessDirective | easyprospect-service/src/incbin/incbin.c:220-234 | An input: INCBIN( ,"x") shows the name ,"x" |
| IncbinDirective.NameShownIff | easyprospect-service/src/incbin/incbin.c:220-227 | The name shown is the trimmed name if and only if the part is empty or not merely white space |
| IncbinDirective.Scan | easyprospect-service/src/incbin/incbin.c:216-234 | On any line: a directive is found exactly when INCBIN, "(", "," and ")" come in this order; its name, file and path are the trimmed text between the marks and the inside of the file; for a part that is merely white space they are exactly what the pointers then read |
| IncbinDirective.CutParts | easyprospect-service/src/incbin/incbin.c:220-229 | The pointer loops find the ends of both parts and the terminators written there leave the rest of the line |
| IncbinDirective.ReadParts | easyprospect-service/src/incbin/incbin.c:230-233 | The strings read from the cut line, and from it with the second cut before the closing quote, are those of the specification, for blank parts too |
| IncbinDirective.MarksFound | easyprospect-service/src/incbin/incbin.c:216-219 | The marks of a written directive are the ones written |
| IncbinDirective.FoundIff | easyprospect-service/src/incbin/incbin.c:216-219 | Marks are found if and only if INCBIN, a parenthesis, a comma and a closing parenthesis are on the line in order, and then the first of each is found |
| IncbinDirective.IsSpaceIff | easyprospect-service/src/incbin/incbin.c:222-228 | White space is the space and the characters from the tab to the carriage return |
| IncbinDirective.FindDirective | easyprospect-service/src/incbin/incbin.c:216 | strstr finds the first INCBIN |
| IncbinDirective.IndexOf | easyprospect-service/src/incbin/incbin.c:217-219 | strchr finds the first such character |
| IncbinDirective.SkipForward | easyprospect-service/src/incbin/incbin.c:222-223 | Stops at the first character that is not white space |
| IncbinDirective.CutBack | easyprospect-service/src/incbin/incbin.c:224-229 | Stops after the last character that is not white space and terminates there |
| IncbinHex.Emit | easyprospect-service/src/incbin/incbin.c:256-263 | What the loop prints, twelve constants to a line, reads back as exactly the data, for any non-empty data |
| IncbinHex.EmittedReadsBack | easyprospect-service/src/incbin/incbin.c:256-263 | Reading the comma-separated two-digit constants, across line breaks, undoes the emission |
| IncbinHex.Layout | easyprospect-service/src/incbin/incbin.c:256-263 | Every constant stands at its place, twelve to a line, and each line but the first is begun by a line break and four spaces |
| IncbinHex.HexReads | easyprospect-service/src/incbin/incbin.c:261 | A constant reads back as its byte |
| IncbinHex.EmitOne | easyprospect-service/src/incbin/incbin.c:257-262 | One round prints the break due before byte i, the constant and its separator, and keeps the count on the line |

## Left out

- Boost.Asio and Beast: sockets, TLS, HTTP parsing, the proxy body loop, strands and executors. Completions, firings and the order of ready handlers are nondeterministic events.
- Broadcast.CountsAreHandles: an outstanding write is taken to hold no handle of its own, because what the stream copies is not shown; this is the worst case for the block's lifetime. Atomic increments are single steps; the copied text itself is not followed. `sizeof(impl)` is taken as 24.
- Broadcast.Lounge.ChannelSend: the member list is the one copied under the channel's mutex; sessions that join or end during the loop are events of `Broadcast.Step`, not of this method.
- make_message: JSON text is assumed to fit its 16384-byte buffer.
- WriteQueue.FifoIffAlwaysGentle: the direction from FIFO to gentle needs messages that can be told apart, so for that direction messages are required to be distinct.
- Shutdown.TimerStopIsPrompt: the clock is read again inside `expires_after`, so the bound has that delay as an extra term; with no delay it is shutdown time + 1s + lateness.
- Shutdown.NoticesCountDown: channel 1, to which the worker announces, is assumed to exist, as the code does.
- The rest of `run`: creating threads, stopping the services, joining.
- Blackjack.Shoe.Shuffle: the quality of `rand` is not modelled; random numbers are arbitrary non-negative integers.
- `game::join`, `leave` and `surrender`, and the table's strand with the replies to requests posted to it: they act on a copy of the seats.
- Catalog attributes, base paths, text content, import ids, XPath, XSLT, schema loading and both catalog splitters. Builders that are neither pushed nor given a row (display names) have no effect here.
- Catalog.ImportIs: a missing parent or a failed cast is one outcome, `Crash`; in the original it is a null or empty-stack access.
- Downstream.NoSharing: identifiers are assumed fresh and not nil; initialising the connection and the request itself are not modelled, nor is expiry of sessions.
- Chat.NamesAndMembers: one message is handled at a time, so the unguarded write to a user's name does not race; every session has its own user; disconnecting is not modelled. A string that has been moved from is taken to be empty.
- Rpc.Extract: numbers are integers; `std::stof` is a parameter that says whether the version text is a number, and 1, 2 or another one. Parsing and printing of JSON text are not modelled. On a 64-bit build the JSON library converts true and false to `int` but not to `size_t`.
- Chat.OneReply: the text of error codes found by `extract` is a parameter; the result of a successful call is always empty in the modelled handlers.
- IncbinLines.LineBuffer.Fline: allocation and reading do not fail, and sizes are unbounded integers, so a line longer than the range of `int` is not modelled.
- IncbinOptions.ParseLoop: arguments are assumed to fit the fixed buffers they are copied to.
- IncbinDirective.Scan: lines with a NUL character are not modelled.
- incbin's symbol names, search paths, reading of data files and the text around the initializer.
- Configuration, the SQLite layer, V8 and its conversions, the mime table, logging, Windows pipes and process launching: easy or foreign.
