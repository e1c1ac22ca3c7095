# Verification of the per-topic publish/subscribe engine

A Dafny model of event_watch's core and proofs about it. An event is ingested under one mutex
(append, reduce, save state, fan out); subscribers register with the hub first and read history
afterwards, without that mutex; each session forwards its queue behind a fence. What the project
proves is that this design delivers what it promises, and exactly where it does not.

- **The step machine.** `Types`, `Topics`, `Registry`, `Log`, `Subscriptions` and `Engine` define the
  server as atomic steps of publishers, hub turns, sessions, forwarders and writers. `Serving` proves
  every step keeps the invariants; `Delivery`, `Outboxes`, `Ledger` and `Submissions` state what follows
  for every interleaving: no gap, no duplicate, state equals fold, exact drop accounting, order under loss,
  no lost updates, and a log that holds what was submitted, filled in. `Catalog` is what folding the registered reducers means, and `States` joins the two: what
  stored states and live frames say.
- **Clients.** `Resume` runs the documented resume protocol for one topic across disconnects on top of that
  machine. `GoResume` puts the Go client on it, with the send channel that outlives its connections, and
  `BrowserResume` the browser client, with its offline queue: each proves when its client keeps to the
  protocol. `GoClient` and `BrowserClient` are the refcounting clients as classes, over the shared
  `CallbackTable`; the browser client's offline queue is proved to converge with the server. `WireFrom` is
  the seed printer and parser.
- **Runs.** `Scenes` builds runs of the machine step by step; `Witnesses`, `GoWitnesses` and
  `BrowserWitnesses` use it for complete runs, for any published event, on which a documented promise fails.
- **The imperative code.** `Hubs`, `Brokers` and `Sessions` are the hub, broker and session as classes
  over mutable tables and channels, with `MemoryStore` and `RedisStore` refining one log (`Log`). A hub
  turn is proved equal to a step of the machine (`Hubs.OfferedIff`), and `Refinement` proves that replay,
  forwarding, ingest and the session's sends are its steps too. `Sessions.Server` keeps the bookkeeping of all sessions, the
  hub and the gauge together.
- **Reducers.** `PullRequests`, `Builds`, `Chats`, `Jobs` and `Counters` hold each reducer as the program
  writes it, proved equal to a step function, and closed forms for whole runs. `Sequences` has the
  slices they share.

Under "history" a state carries fields no step reads (what was offered, issued, seen); properties are
stated with them.

## Where the code differs from its documentation

- `client/client.go:4-6` and `client/client.go:409-410` promise that a reconnect leaves no gap. Every frame of
  the Go client goes through one channel that outlives connections, a writer stops at its first failed
  write or ping, and a reconnect appends its subscribes behind what is left. The session keeps the first
  subscribe of a topic and refuses the rest with an error the client ignores. So when an older subscribe of
  the topic is still on the channel, the topic opens at that one's seed: at latest, which drops what was
  published meanwhile (`GoWitnesses.StaleSubscribeSkips`), or at an old number, which delivers whole ranges
  again (`GoWitnesses.StaleSubscribeReplays`). `GoResume.OpensFreshIff` is the exact condition,
  `GoResume.Covers` what holds otherwise, `Delivery.JoinsIff` what a seed skips and repeats.
- A reconnect of the Go client whose subscribes do not fit the channel blocks for good, before any writer
  runs (`GoClient.Client.ResubscribeAll`, `GoResume.StuckForever`).
- `docs/wire-protocol.md:155-158` and `docs/clients.md:520` promise no duplicates on resume. Even a client that
  keeps to the protocol can be handed the last event it saw a second time, when it resubscribes while that
  event is stored but not yet fanned out. `Witnesses.ResumeCanRepeat` is the run, `Resume.RepeatIff` the exact
  condition, and `Resume.ResumeExactlyOnce` what holds otherwise.
- `docs/wire-protocol.md:69` promises that `from_seq` starts at exactly that number. A seed beyond the end of
  the log as read backfills nothing, so there is no fence, and every event fanned out afterwards is
  delivered, however many lie below the seed: a subscriber asking for 100 on an empty topic is handed 1 to
  99 first. `Delivery.DeliversExactlyIff` and `Delivery.ExactSeedIff` give the exact condition for either
  back end, `Ledger.ExactSeedMemoryIff` its form on the memory store in the log lengths at registration and
  reading, and `Witnesses.SeedCanBeOverrun` the run.
- `clients/browser/README.md:71` and `clients/browser/src/client.js:214` offer `"seq:N"`. The server reads it as
  latest (`WireFrom.SeqTextMeansLatest`). Seq(0) is read as latest too.
- `internal/store/memory/store.go` returns everything for Latest(n) with n <= 0, Redis nothing; a `last:N` of
  2^63 or more reaches them as a negative number (`RedisStore.LatestAgreesIff`, `Log.AsInt`).
- A browser table may hold topics the server refuses: the client checks only for a slash, and it ignores
  the error frame that follows a failed read of the store (`BrowserClient.Converges` says when the two
  agree).
- `clients/browser/src/client.js:5-7` promises no gaps. Frames queued while offline are replayed after the
  resubscriptions, so a queued unsubscribe closes a wanted topic until its queued subscribe opens it
  afresh, and what is published in between is never delivered (`BrowserWitnesses.StaleUnsubscribeSkips`).
  `BrowserResume.ReopensIff` is the exact condition and `BrowserResume.Covers` what holds otherwise.
- Lag is reported with the next live event only, so drops after the last event that passes the fence stay
  unreported (`Sessions.ForwardedFacts`).
- A build step's duration may be another step's, or 0. Overlapping steps of one name are one way
  (`Builds.OverlapMistimes`); without any overlap, a finish that reports the step still running forgets its
  start (`Builds.RunningFinishMistimes`). `Builds.ClosesTimedStepIff` is the exact condition.

## Conventions

Sequence counters are unbounded; the resume point, the parsed seed, `int(from.Value)` and the int field are
64-bit. JSON numbers are integers a float64 holds exactly. Times are integers, 0 the zero time. A marshalled
state is a datatype value; `Foreign` stands for bytes its reducer cannot decode. Identifiers and clock readings are
parameters, as are a store's read failure and a Redis append's fault.

## Model

| member | source | states |
|---|---|---|
| Serving.NextKeeps | internal/broker/broker.go:43-119 | every atomic step of the server (publisher sub-steps, hub fan-out turns, session and forwarder actions, closing) keeps the server invariant: mutex, logs, states, fan-out copies, and each subscription's flow, queue, replay and live parts |
| Delivery.RunInv | internal/broker/broker.go:43-119 | that invariant holds in every state of every interleaving, with either back end, failed Redis appends included |
| Delivery.GapFree | internal/broker/broker.go:90-119 | for every interleaving, an undropped subscription has issued, and has in transit, exactly one contiguous stretch of its topic's log, each event once |
| Delivery.DeliversIff | internal/hub/hub.go:99-123 | an undropped subscription delivers event k of the log iff k lies between its start and its end |
| Delivery.JoinsIff | internal/broker/broker.go:98-115 | against the place a subscription should join on, p events into the log: it skips events iff it starts beyond the place, and delivers earlier ones iff it starts before it and delivers any |
| Delivery.ReachesTheEnd | internal/broker/broker.go:55-79 | an open subscription's stretch ends at the end of the log, or one short of it while a publish is between Append and fan-out |
| Delivery.CoversFromSeq | internal/broker/broker.go:106-107 | a FromSeq seed: nothing at or above it precedes the stretch; if anything was backfilled, everything from there on reaches the seed |
| Delivery.CoversLastN | internal/broker/broker.go:104-105 | a FromLastN(n) seed with 1 <= n < 2^63: the stretch begins min(n, length) events before the end of the log as read |
| Delivery.DeliversToTheEnd | internal/broker/broker.go:86-119 | open, undropped and with no publish in flight, a subscription delivers the log from its start to the end, each event once and in order |
| Delivery.DeliversFromSeq | internal/broker/broker.go:106-107 | such a subscription from a sequence number delivers every logged event numbered at or above it, once and in order |
| Delivery.DeliversLastN | internal/broker/broker.go:104-105 | from last:N it delivers exactly the newest N events of the log as read, and everything after |
| Delivery.DeliversLatest | internal/broker/broker.go:98-103 | from latest it delivers exactly the log from the place at registration, which is its end, or one short of it while an append is not yet fanned out |
| Delivery.ExactSeedIff | internal/broker/broker.go:98-115 | an event below a FromSeq seed lies in the stretch iff the log as read ended below the seed (so nothing was backfilled and there is no fence), the place in the log at registration lies below it too, and something was fanned out since |
| Delivery.DeliversExactlyIff | docs/wire-protocol.md:69 | the documented start at exactly the number asked for: what is delivered is the log at or above the seed and nothing else iff the seed is not overrun as in ExactSeedIff |
| Ledger.ExactSeedMemoryIff | docs/wire-protocol.md:69 | on the memory store a seed is overrun iff it exceeds the length of the log as read, exceeds the place at registration by more than one, and something was fanned out since |
| Ledger.FutureSeed | internal/broker/broker.go:106-115 | a memory-store subscriber whose seed lies beyond the log gets no backfill and everything fanned out from registration on; event k lies below the seed iff k + 1 does |
| Witnesses.SeedCanBeOverrun | docs/wire-protocol.md:69 | the documented start fails: for every seed above 1 and every publishable event there is a loss-free run, with no publish in flight at registration, that hands the subscriber event 1 |
| Delivery.StateIsFold | internal/broker/broker.go:60-65 | whenever no publish on a topic is in flight, its stored state is the fold of its stored events in order |
| Delivery.LiveFrameCarriesFold | internal/broker/broker.go:70-77 | the copy of event k offered to any subscription carries the fold of the log up to and including event k |
| Delivery.StoredEventsStayRaw | internal/broker/broker.go:70-76 | stored events and backfill never gain a state |
| Delivery.DropAccounting | internal/hub/hub.go:109-122 | in every reachable state, offered = finished with + in hand + buffered (at most 256) + lag; the missed counts reported sum to lastLag, and to the lag as read whenever a live event is about to be issued |
| Delivery.PromisedSlice | internal/broker/broker.go:98-115 | subscribe-before-read plus the fence: backfill followed by what the fence passes of the offered copies is a slice of the log |
| Delivery.IssuedPlusTransit | internal/transport/ws.go:198-234 | frames issued plus what replay, hand and queue still hold make up that slice when nothing was dropped |
| Refinement.SendReplayIsSteps | internal/transport/ws.go:198-203 | what SendReplay sends is what Replay steps and one Acknowledge of the machine issue, from a subscription just read to one at its select |
| Refinement.ForwardIsSteps | internal/transport/ws.go:213-234 | whatever forwarder steps take a queue with the lag still from the select to the select with it empty, they issue exactly what Forward sends and leave its lastLag |
| Refinement.ForwardCanFinish | internal/transport/ws.go:213-234 | such steps exist for every prefix of the queue |
| Refinement.IngestIsSteps | internal/broker/broker.go:55-74 | the machine's Append, Load, Reduce and Save, taken in turn, leave the log, state and outgoing copy that Broker.Ingest promises |
| Refinement.IngestCanRun | internal/broker/broker.go:55-74 | and those four steps can be taken from every state |
| Refinement.SendIsPut | internal/transport/ws.go:108-115 | a session's send enters the outbox or is lost exactly when the machine's does: it enters iff fewer than 512 frames wait |
| Refinement.SendsArePuts | internal/transport/ws.go:108-115 | and so does any run of sends |
| Subscriptions.OfferKeepsQueue | internal/hub/hub.go:109-122 | each outcome of the non-blocking send keeps exact accounting and order of the queue |
| Subscriptions.LocalKeepsLive | internal/transport/ws.go:213-234 | each forwarder action keeps: live frames carry exactly the taken events beyond the fence, and lag reports add up |
| Subscriptions.LocalKeepsReplay | internal/transport/ws.go:198-211 | each session action keeps: the frames so far are a prefix of the backfill, then the acknowledgement |
| Outboxes.OrderSurvivesLoss | internal/transport/ws.go:108-115 | whatever the hub drops and the 512-frame outbox swallows, shared as it is with other subscriptions and with pongs, acknowledgements and errors, the event frames of one subscription that reach the writer strictly increase and all backfill precedes all live |
| Outboxes.NothingLost | internal/transport/ws.go:108-115 | an outbox that never overflowed has written or holds every frame the subscription issued, in order |
| Ledger.AcksAreDistinct | internal/broker/broker.go:55-83 | two acknowledged publishers of a topic never share a sequence number, and each acknowledgement names the stored event |
| Ledger.AcksAreOneToN | internal/store/memory/store.go:39-61 | N publishers in any interleaving are acknowledged exactly the sequence numbers 1 to N |
| Ledger.MemoryIsDense | internal/store/memory/store.go:43-54 | event k of a memory log is numbered k + 1 in every reachable state |
| Ledger.LogRises | internal/store/redis/store.go:54-90 | in every reachable state, with either back end and failed appends, sequence numbers strictly rise along a topic's log and lie within 1 and its counter |
| Ledger.CounterSums | internal/objtypes/field.go:84-97 | with only int_incr and int_decr acknowledged, the stored value is the sum, wrapped to 64 bits, of the numbers under "delta", 1 where there is none, negative for int_decr, whatever the schedule |
| Ledger.PlainIncrementsCount | docs/object-types.md:208 | N acknowledged int_incr without a delta leave N, wrapped to 64 bits, whatever the schedule |
| Ledger.SubmissionKept | internal/broker/broker.go:55-83 | no step changes topic, kind, payload or actor of a submitted event |
| Submissions.StoredAsSubmitted | internal/store/memory/store.go:43-54 | in every state of every run each logged event is its publisher's submission: topic, kind, actor, payload and state as submitted, the submitted id and time if it had them, and otherwise the id and clock reading its append was given |
| Submissions.AppendCompletes | internal/store/redis/store.go:54-66 | the machine's append stores the submission so completed, numbered one past the counter, at the end of the log |
| Submissions.FilledIdsDiffer | internal/store/memory/store.go:46-48 | with generated ids never empty and never repeated, events that came without an id have non-empty ids, different for any two in any two logs |
| Catalog.FoldIsMeaning | internal/computed/reducer.go:51-61 | folding the registry over the marshalled state is the typed run of the topic's one reducer, for pr, build, chat, job and int |
| Catalog.ForeignStands | internal/objtypes/chat.go:30-36 | stored bytes that the topic's reducer cannot decode stand as they are, with an error; the int field alone starts anew on them |
| States.StoredStateIsRun | internal/server/server.go:51-56 | in every reachable state outside a publish, the stored state of such a topic is the run of its stored events |
| States.LiveFrameShowsRun | internal/broker/broker.go:70-77 | every live event a subscriber is shown is a logged event with the run of the log up to it |
| Resume.ClientRunInv | docs/wire-protocol.md:155-158 | every run of the server with one topic of a client that reconnects by the documented protocol, cut off any number of times, keeps the client invariant |
| Resume.ResumeFromIsWire | client/client.go:353-366 | the seed used at every (re)subscription is what the printed subscribe frame means to the server's parser |
| Resume.ResumeCovers | docs/wire-protocol.md:155-158 | the protocol covers: over any number of disconnects without a lost frame, every logged event between the first and the last seen was handed over |
| Resume.ResumeExactlyOnce | docs/wire-protocol.md:155-158 | the protocol does not go back: numbers handed over never fall, and strictly rise if no publish was between Append and its hub snapshot at any registration |
| Resume.ResumeJoins | internal/transport/ws.go:191-210 | a resumed stretch joins on to the last event seen with nothing skipped |
| Resume.RepeatIff | internal/broker/broker.go:98-115 | a resumed subscription hands out an event already seen iff nothing was backfilled, an append was not yet fanned out at registration, and its event was offered; it is then the last event seen |
| Witnesses.ResumeCanRepeat | docs/wire-protocol.md:155-158 | the documented promise of no duplicates fails: for every publishable event there is a loss-free run in which a resumed client is handed it twice |
| GoResume.Covers | client/client.go:409-423 | over every run of the Go client with its send channel: while a topic stays in the table, if nothing about it was under way when it entered and at every writer's start and failed read the first subscribe of it still to come asked for the resume point, and no frame was lost to a full queue of the server, the callbacks got every logged event from the first to the last seen, in order, and once each if no publish was in flight at a registration |
| GoResume.OpensFreshIff | client/client.go:178-194 | the topic opens after a reconnect at the seed of the first older subscribe of it on the channel, else at the resume point: so where it should iff there is none or it asks for just that (no subscribe of it about to be sent, the topic staying in the table) |
| GoResume.StartsCleanIff | client/client.go:178-183 | the condition of Covers at a writer's start, read off the channel at the reconnect: no stale subscribe of the topic comes first there |
| GoResume.MoveKeeps | client/client.go:145-237 | every server, caller, channel, writer, session and reader step keeps the invariant behind Covers |
| GoResume.RunInv | client/client.go:145-237 | that invariant holds in every state of every run |
| GoResume.StuckForever | client/client.go:177-183 | once the frames left on the channel and one for each topic exceed its 256 places at a reconnect, no later state has a connection up |
| GoWitnesses.StaleSubscribeSkips | client/client.go:4-6 | the documented reconnect fails: for every publishable event there is a run of one caller and one topic, loss-free and quiet at registrations, in which the callbacks get events 1 and 3 of three and never 2 |
| GoWitnesses.StaleSubscribeReplays | client/client.go:4-6 | and a run in which they get events 1 and 2 and then both again |
| BrowserClient.Converges | clients/browser/src/client.js:145-158 | in every run, reads of the store failing at will, while the socket is open nothing stays queued, and once the server has handled all frames its topics are the valid ones of the table but for those whose read failed: all of the table's iff nothing failed and every topic is valid |
| BrowserResume.Covers | clients/browser/src/client.js:244-249 | over any number of disconnects without a lost frame, a topic entered in the table while no unsubscribe of it was queued or unhandled has handed its callbacks every logged event from the first to the last seen since, in order, and once each if no publish was in flight at a registration |
| BrowserResume.MoveKeeps | clients/browser/src/client.js:77-86 | every server, client, socket and session step keeps the invariant: while the topic is unsubscribed, whichever subscribe of it comes first asks for just what the client needs next |
| BrowserResume.RunInv | clients/browser/src/client.js:77-86 | that invariant holds in every state of every run |
| BrowserResume.NoneAheadIff | internal/transport/ws.go:182-248 | the condition of Covers on a topic the session holds: no unsubscribe is ahead iff at no point of handling what is ahead the session is without it |
| BrowserResume.ReopensIff | clients/browser/src/client.js:77-86 | after a reconnection the session opens every valid table topic by its resubscription, and then gives it up at some point of the flushed queue iff an unsubscribe of it was queued |
| BrowserWitnesses.StaleUnsubscribeSkips | clients/browser/src/client.js:5-7 | the documented reconnect fails: for every publishable event there is a run, loss-free and quiet at registrations, with the topic in the table, in which the callbacks get events 1 and 3 of three and never 2 |
| BrowserClient.ReplayConverges | clients/browser/src/client.js:77-86 | resubscribing the table and then replaying the stale queue leaves the server with exactly the table's accepted topics |
| BrowserClient.NextKeeps | clients/browser/src/client.js:217-249 | every client, socket and server step keeps the convergence invariant |
| BrowserClient.ReplayDecides | clients/browser/src/client.js:153-158 | after a replay a topic is subscribed iff its newest frame says so; untouched topics stay |
| BrowserClient.Accounts | internal/transport/ws.go:191-196 | each frame handled keeps accepted and refused topics apart, and together they are what a session without failing reads would hold |
| BrowserClient.Client.SendFrame | clients/browser/src/client.js:145-151 | a frame goes to an open socket, else to the end of the queue |
| BrowserClient.Client.FlushQueue | clients/browser/src/client.js:153-158 | the whole queue is sent in order when the socket is open; otherwise nothing changes |
| BrowserClient.Client.Subscribe | clients/browser/src/client.js:217-232 | fresh handle id, callback added to those there, one subscribe frame for a topic's first callback only; a topic without '/' is refused untouched |
| BrowserClient.Client.RemoveCallback | clients/browser/src/client.js:234-242 | the last callback takes the topic with it and sends one unsubscribe; anything else sends nothing |
| BrowserClient.Client.Dispatch | clients/browser/src/client.js:173-185 | the mark moves forward only, and exactly the topic's callbacks run |
| BrowserClient.CallbacksAreHeld | clients/browser/src/client.js:217-242 | in every run a topic's callbacks are exactly those of the handles opened on it and not closed since |
| BrowserClient.FramesWithFirstAndLast | clients/browser/src/client.js:217-242 | in every run a subscribe goes out or waits exactly with the first open handle of a topic, an unsubscribe exactly when the last one is closed |
| BrowserClient.EntryKept | clients/browser/src/client.js:217-232 | in every run an entry keeps the seed of the subscribe that entered it, and the highest number seen since |
| BrowserClient.Client.ResubscribeAll | clients/browser/src/client.js:244-249 | sends one subscribe per table topic, resuming after the last event seen |
| BrowserClient.Client.OnOpen | clients/browser/src/client.js:77-86 | a new socket first carries the resubscriptions, then the queue, which ends empty |
| BrowserClient.Client.Drop | clients/browser/src/client.js:103-112 | losing the socket keeps table and queue |
| GoClient.FramesAlternate | client/client.go:331-384 | over every sequence of subscribes, closes and events, a topic's frames alternate starting with subscribe, and its entry, with a callback, exists exactly while the last is a subscribe |
| GoClient.CallbacksAreHeld | client/client.go:331-384 | over every sequence of calls, a topic's callbacks, which an event on it runs, are exactly those of the handles opened on it and not closed since; ids count the accepted subscribes |
| GoClient.FramesWithFirstAndLast | client/client.go:331-384 | a subscribe is sent exactly with the first open handle of a valid topic, with the seed it asked for, an unsubscribe exactly when the last one is closed |
| GoClient.EntryKept | client/client.go:331-344 | an entry keeps the seed of the subscribe that entered it, and the highest number seen since |
| GoClient.CloseAgain | client/client.go:35-40 | closing a handle again, after anything else, changes and sends nothing |
| GoClient.Client.Subscribe | client/client.go:331-351 | callback registered under a fresh id beside those there; only a topic's first sends a frame; invalid topics change nothing |
| GoClient.Client.RemoveCallback | client/client.go:368-384 | exactly the last callback removes the entry and sends unsubscribe |
| GoClient.Client.Dispatch | client/client.go:246-267 | the mark moves forward only, and exactly the topic's callbacks run |
| GoClient.Client.ResubscribeAll | client/client.go:409-423 | it gets through iff the frames already on the channel and one for each topic fit its 256 places; the frames put there name different topics, each seeded just after the last event seen (in 64-bit arithmetic), one for every topic if it gets through |
| CallbackTable.RemovedAbsent | client/client.go:368-384 | removing a callback that is not there changes nothing and is never the last |
| CallbackTable.HeldIff | client/client.go:331-384 | the table both clients keep, over any run of opens, closes and events: an id is among a topic's callbacks iff an open of the topic was given it and no later close names it |
| CallbackTable.LastIff | client/client.go:368-384 | a close takes the topic's entry iff its handle is open and no other is |
| CallbackTable.EntryOf | client/client.go:335-345 | an entry's seed is that of the open that entered it, its mark the highest number among the events since |
| WireFrom.SubscribeFrame | client/client.go:353-366 | the printed seed: resume point first, else the seed's own form |
| WireFrom.ParseFrom | internal/transport/ws.go:162-180 | the digit loop, wrapping at 64 bits, computes the seed the text means, and any malformed text means Latest |
| WireFrom.RoundTripIff | internal/transport/ws.go:162-180 | parsing a printed seed returns it, for every seed except Seq(0), which returns Latest |
| WireFrom.ResumeRoundTrip | client/client.go:356-357 | with a resume point s > 0 the parsed seed is Seq(s) |
| WireFrom.LastNExactIff | internal/transport/ws.go:169-177 | "last:N" of any size is read as N modulo 2^64, so exactly iff N < 2^64 |
| WireFrom.LastFifty | docs/wire-protocol.md:63-68 | the documented "last:50" is what a seed of the newest 50 prints to and parses from |
| WireFrom.SeqTextMeansLatest | internal/transport/ws.go:162-180 | "seq:N" is read as Latest |
| WireFrom.DecimalValue | client/client.go:360-361 | reading back a decimal numeral gives the number printed |
| Hubs.Hub.Subscribe | internal/hub/hub.go:63-81 | a fresh open subscription under a never-used id joins the table; all else is kept |
| Hubs.Hub.Remove | internal/hub/hub.go:83-94 | the entry goes, and its topic's inner map with the last one |
| Hubs.Hub.Publish | internal/hub/hub.go:99-123 | every subscription registered for the topic gets exactly one non-blocking turn: queued below 256, else counted as lag; no other object changes |
| Hubs.FanOut | internal/hub/hub.go:109-122 | the loop over the snapshot, in any order, gives each subscription one turn |
| Hubs.OfferedIff | internal/hub/hub.go:110-122 | a turn on an open subscription is possible iff it is an Offer step of the machine used for the interleaving proofs |
| Hubs.Subscription.Close | internal/hub/hub.go:34-40 | the subscription leaves the open ones and is marked closed and done; closing again leaves the table as it is |
| Hubs.InsertKeepsShape | internal/hub/hub.go:71-79 | entries stay filed under their own topic and id, ids stay unique, and no inner map is empty |
| Hubs.DeleteKeepsShape | internal/hub/hub.go:86-93 | the same after a removal, which takes out exactly the one subscription |
| Brokers.Broker.Publish | internal/broker/broker.go:43-84 | accepted iff topic and kind are acceptable; then the event is numbered next, given an id and a time if it came without, stored, folded into the state, dated and typed in the topic's record, and every registered subscriber is offered it with that fold; a rejected event leaves no trace |
| Brokers.Broker.Ingest | internal/broker/broker.go:55-74 | append, reduce, save and the record's update keep every stored state equal to the fold of its log |
| Brokers.Broker.Subscribe | internal/broker/broker.go:90-119 | refused for an invalid topic or a failed read, leaving nothing open; otherwise one new open subscription with the specified backfill and fence, and the gauge still counts the open ones of each type |
| Brokers.Broker.Unsubscribe | internal/broker/broker.go:124-129 | one open subscription fewer, the gauge with it |
| Brokers.GaugeUp | internal/broker/broker.go:117-118 | incrementing one type's gauge matches one more open subscription of that type |
| Brokers.GaugeDown | internal/broker/broker.go:125-127 | decrementing matches one fewer |
| Sessions.Session.HandleSubscribe | internal/transport/ws.go:182-211 | accepted iff not already subscribed, valid and readable; then replay and acknowledgement enter the outbox in order, all of them if 512 places suffice and else those that fill it, and the table gains exactly the topic; otherwise one error and no change |
| Sessions.Session.HandleUnsubscribe | internal/transport/ws.go:237-248 | the topic leaves the table, its forwarder is cancelled and its hub subscription closes; unknown topics change nothing |
| Sessions.Session.CloseAllSubs | internal/transport/ws.go:250-259 | afterwards the hub holds none of the session's subscriptions and all of everyone else's, and every forwarder of the table is cancelled |
| Sessions.Session.Forward | internal/transport/ws.go:213-234 | events are taken in order, with the lag read afresh at each, and exactly the forwarded frames enter the outbox, as many as its 512 places take; lastLag is what was reported; only cancelling or closing stops it before the queue is empty |
| Sessions.ForwardedFacts | internal/transport/ws.go:224-231 | whatever the lag reads at each event, the forwarded frames carry exactly the events beyond the fence, and the misses reported take lastLag up to the highest reading taken with a passing event |
| Sessions.Session.Send | internal/transport/ws.go:108-115 | a frame enters the outbox iff fewer than 512 wait there, and is else dropped |
| Sessions.Session.SendReplay | internal/transport/ws.go:199-203 | backfill in order, then the acknowledgement: all of it if the 512 places suffice, else the prefix that fills them |
| Sessions.PushOne | internal/transport/ws.go:108-115 | sending frames one by one through the full-means-drop outbox keeps their longest fitting prefix |
| Sessions.Server.Subscribe | internal/transport/ws.go:182-211 | a subscribe by one session keeps the bookkeeping of all sessions against hub and gauge |
| Sessions.Server.Unsubscribe | internal/transport/ws.go:237-248 | so does an unsubscribe |
| Sessions.Server.Disconnect | internal/transport/ws.go:92-95 | so does the end of a connection, which closes that session's subscriptions and no other |
| Sessions.Server.OneToOne | internal/transport/ws.go:62-70 | between frames, open hub subscriptions and (session, topic) table entries correspond one to one |
| MemoryStore.Store.Append | internal/store/memory/store.go:39-61 | the event is numbered length + 1, given the id and time it came without, stored last and recorded; all else of it, the state and other topics are kept |
| MemoryStore.Store.Search | internal/store/memory/store.go:71 | bisection finds the number of leading events below the bound |
| MemoryStore.Store.Read | internal/store/memory/store.go:63-80 | take limit of the events at or above the bound |
| MemoryStore.Store.Latest | internal/store/memory/store.go:82-97 | the newest n oldest first; everything for n <= 0 |
| MemoryStore.Store.GetState | internal/store/memory/store.go:99-109 | the saved state, if any |
| MemoryStore.Store.SetState | internal/store/memory/store.go:111-119 | saves the state of one topic and touches no log |
| MemoryStore.Store.UpsertMeta | internal/store/memory/store.go:132-147 | given fields are taken; what Append recorded, events and state are kept |
| RedisStore.Store.Append | internal/store/redis/store.go:54-90 | a fault before or after INCR stores nothing; after INCR it leaves a gap; a stored event is numbered one past the counter and given the id and time it came without; sequence numbers rise along every stream and never pass the counter |
| RedisStore.AppendAll | internal/store/redis/store.go:54-90 | any run of Append calls on a topic leaves the counter and events of RedisLog |
| RedisStore.AppendAllInMemory | internal/store/memory/store.go:39-61 | the same calls on the memory store leave MemoryLog |
| RedisStore.AppendBoth | internal/store/redis/store.go:54-90 | after the same calls to both stores, Redis numbers rise within the counter, and the logs are equal iff no call that failed after INCR precedes one that stored |
| RedisStore.Store.Read | internal/store/redis/store.go:92-115 | the scan with skip and break is the same take limit of filter |
| RedisStore.Store.Latest | internal/store/redis/store.go:117-135 | the backwards loop gives the newest n entries that decode, oldest first; nothing for n <= 0 |
| RedisStore.LatestOfUndamaged | internal/store/redis/store.go:117-135 | when every entry decodes, that is the newest n events |
| RedisStore.LatestAgreesIff | internal/store/memory/store.go:89-92 | the back ends agree on Latest(n) iff n >= 1 or the log is empty |
| RedisStore.RedisRises | internal/store/redis/store.go:54-90 | over every run of appends, failed ones included, sequence numbers strictly rise and stay at or below the counter |
| RedisStore.BackendsAgreeIff | internal/store/redis/store.go:54-90 | the back ends number the stored events alike iff no append that failed after INCR precedes a stored one |
| Log.BackfillIsSuffix | internal/broker/broker.go:101-108 | whatever the seed, the backfill is a suffix of the log |
| Log.ReadIsSlice | internal/store/memory/store.go:63-80 | a read is the run of events from the first at or above the bound, cut at a positive limit |
| Log.LatestIsSuffix | internal/store/memory/store.go:82-97 | a latest read is the end of the log: n events or all there are for n > 0, and for n <= 0 everything (memory) or nothing (Redis) |
| Log.Fill | internal/store/memory/store.go:45-51 | numbering, then id and time only where missing, and nothing else |
| Registry.RegisterAllLookup | internal/computed/reducer.go:31-37 | the last registration of a type wins; others keep their entry |
| Registry.Registry.Register | internal/computed/reducer.go:31-37 | the loop computes that table |
| Registry.FoldDependsOnOneReducer | internal/computed/reducer.go:51-61 | a topic's fold depends on the reducer of its object type alone |
| Registry.UnregisteredHasNoState | internal/computed/reducer.go:51-61 | a topic whose object type has no reducer never gets a state, and that is no error |
| PullRequests.Apply | internal/objtypes/pr.go:36-124 | the imperative reducer computes the step function that the run lemmas are about |
| PullRequests.PassedAndFailedCount | internal/objtypes/pr.go:106-117 | passed counts "success", failed counts "failure", "timed_out" and "cancelled", over the whole run |
| PullRequests.PendingIsGreatestSuffix | internal/objtypes/pr.go:106-120 | pending is the greatest net of pending-like minus finished over all suffixes of the run |
| PullRequests.LabelsIff | internal/objtypes/pr.go:91-98 | labels are distinct, and exactly those whose last change was an addition |
| PullRequests.LifecycleIff | internal/objtypes/pr.go:70-105 | the state in closed form: merged and closed only as long as no later event reopened it |
| PullRequests.HeaderIsLatest | internal/objtypes/pr.go:57-74 | title, author, base and head are what the newest event giving them said |
| PullRequests.TalliesCount | internal/objtypes/pr.go:82-90 | approvals, requested changes and comments count their events |
| PullRequests.ReviewersIff | internal/objtypes/pr.go:78-81 | reviewers are distinct, and exactly those ever asked |
| PullRequests.TimesAreLatest | internal/objtypes/pr.go:46-101 | the merge time is the newest merge's, the update time the newest event's |
| Sequences.ReflectIsGreatestSuffix | internal/objtypes/pr.go:110-119 | a counter clamped at zero is the greatest suffix sum |
| Sequences.AddUnique | internal/objtypes/pr.go:126-133 | appends unless present |
| Sequences.RemoveInPlace | internal/objtypes/pr.go:135-143 | the filter that copies down over its own storage keeps exactly the other elements, in order, and leaves the tail cells alone |
| Sequences.WithoutKeepsOthers | internal/objtypes/pr.go:135-143 | removing a value leaves the others in order and as many |
| Sequences.MembersIff | internal/objtypes/pr.go:126-143 | add-unique and remove over any run leave each value present, once, iff its last change was an addition |
| Builds.Apply | internal/objtypes/build.go:73-133 | the imperative reducer computes the step function |
| Builds.CloseFirst | internal/objtypes/build.go:110-116 | the loop closes the first running step of the name, and only that one |
| Builds.StepsChange | internal/objtypes/build.go:95-116 | a start adds a running step; a finish gives the first running step of its name its status, "success" if none is given, and the duration in closed form; no other step ever changes |
| Builds.StepsInOrder | internal/objtypes/build.go:95-116 | steps list the started names in order, and per name they close first-in first-out |
| Builds.RunningIsReflectedWalk | internal/objtypes/build.go:95-116 | the running count of a name is the clamped walk of its starts minus its finishes |
| Builds.StartsFollowRunning | internal/objtypes/build.go:95-119 | every remembered start has a running step, the newest of its name, with its time; a non-empty current step is remembered |
| Builds.DurationIsOwn | internal/objtypes/build.go:106-115 | with one running step of the name, the duration recorded is that step's own |
| Builds.ClosesTimedStepIff | internal/objtypes/build.go:106-116 | for every name with a running step: a finish times the very step it closes iff the name was started and not finished since and its starts outnumber its finishes, never counted below zero, by one; the duration is then that step's own, and it is 0 if nothing was started since the last finish |
| Builds.DurationClosedForm | internal/objtypes/build.go:105-109 | the recorded duration is the time since the name's last start not followed by a finish, or 0 if there is none |
| Builds.CurrentIsNewest | internal/objtypes/build.go:95-119 | the current step is the newest one started, unless a finish of that name came after it |
| Builds.OverlapMistimes | internal/objtypes/build.go:98-115 | two overlapping steps of one name: the first to close gets the second's duration, and the second gets 0 |
| Builds.RunningFinishMistimes | internal/objtypes/build.go:105-115 | no overlap: after a start and a finish that reports the step running, the real finish records 0 |
| Builds.FieldsAreLatest | internal/objtypes/build.go:90-130 | status, start and end are the newest reported, and right after an end the duration is the time between them |
| Builds.DurationChanges | internal/objtypes/build.go:120-130 | the build's duration changes with a finish alone, to the time since the newest start, and only if there was one |
| Chats.Apply | internal/objtypes/chat.go:30-84 | the imperative reducer computes the step function |
| Chats.EditInPlace | internal/objtypes/chat.go:66-72 | edits the first message with the id, in place, and no other |
| Chats.DeleteInPlace | internal/objtypes/chat.go:75-81 | keeps exactly the other messages, in order, over the same storage |
| Chats.ParticipantsIff | internal/objtypes/chat.go:44-51 | participants are distinct, and exactly the users whose last presence event was a join |
| Chats.RecentFacts | internal/objtypes/chat.go:52-82 | over any run, deletes and edits included: at most 50 messages, oldest first, which are exactly the posts that no later delete names and that were never 50 live posts behind; each reads as the last edit that met it as the first kept post with the id left it |
| Chats.PlacesAreKept | internal/objtypes/chat.go:52-82 | the window as the reducer trims and filters it holds exactly those posts, in order |
| Chats.DeleteTakesOut | internal/objtypes/chat.go:73-82 | after a delete no message with the id is left, and the others are the old ones, unchanged, in order and as many |
| Chats.RecentWithoutDeletes | internal/objtypes/chat.go:52-72 | without deletes these are exactly the last 50 posts |
| Chats.PostIsLast | internal/objtypes/chat.go:52-63 | a post comes last, under its own id or else the event's, unedited |
| Jobs.Apply | internal/objtypes/job.go:31-81 | the imperative reducer computes the step function |
| Jobs.LogsAreTail | internal/objtypes/job.go:67-71 | trimming at every line equals trimming the whole log once to its last 50 |
| Jobs.FieldsAreLatest | internal/objtypes/job.go:51-79 | status, name, percent, remaining seconds, start and end are the newest values reported for them |
| Counters.Apply | internal/objtypes/field.go:68-103 | the imperative reducer computes the step function |
| Counters.RunIsWrappedTotal | internal/objtypes/field.go:78-101 | the value is the number last set, or 0 from a delete or the start, plus all amounts since (the number under "delta" or 1, subtracted by int_decr), wrapped once to 64 bits |
| Counters.SetSets | internal/objtypes/field.go:78-82 | int_set with a number under "value" sets exactly that number; without one it changes neither value nor existence |
| Counters.RunExists | internal/objtypes/field.go:79-100 | the field exists iff the last event bearing on it was not a delete |
| Counters.UpdatedIsNewest | internal/objtypes/field.go:71-72 | the update time is the newest event's |
| Types.Wrap64 | internal/objtypes/field.go:89 | two's-complement truncation: congruent modulo 2^64 and in range |
| Topics.ValidTopicHasObjectType | internal/core/topic.go:13-48 | every accepted topic has an object type, the first '/'-segment, so the second validation in Publish never fails |
| Topics.ObjectTypeFacts | internal/core/topic.go:13-22 | the object type is what stands before the first slash, unless that is the first or the last character |
| Topics.ValidTopicIff | internal/core/topic.go:24-48 | accepted iff at most 512 long, made of ASCII letters, digits, '-', '_', '.' and slashes, with a slash and none leading, trailing or doubled |
| Topics.JoinSplit | internal/core/topic.go:28 | joining the segments restores the topic |

## Left out

- Sockets, HTTP, ping and pong, deadlines, backoff and JSON text: a connection is a stream of frames that may be cut at any point.
- The long-poll and short-poll paths: long-poll has an unguarded window between its fetch and its subscribe.
- DeleteTopic and the archiver during runs: a run is one lifetime of each topic, since a delete restarts the numbering.
- Delivery.StoredEventsStayRaw: events are values, so the copy that ingest makes before it sets the state (`internal/broker/broker.go:74`) is implicit; sharing of event objects is not modelled, and each publish submits its own, as every caller of Publish does.
- Authentication, webhooks, configuration, command line, and metrics other than the subscription gauge.
- The deploy, string and time reducers, which are one assignment per event kind.
- The reading of one reducer's stored bytes by another reducer: it is a decoding error here, and cannot occur on a topic, whose object type is fixed.
- Pending requests of the clients and their timeouts; a publish or get_state frame matters to the browser queue only by its place in it.
- A WebSocket send that throws while the browser flushes its queue.
- Concurrent callers of the Go client, callbacks that call it included: its frames are sent after its lock is released, so `GoClient` and `GoResume` speak of one caller at a time, beside the client's own goroutines.
- The Python, Java, Rust, ESP-IDF and Arduino clients, and all user interfaces and deployment files.
- Redis errors other than a failed read or a failed append, and streams whose entries cannot be decoded beyond what Read and Latest do with them.
- Overflow of the sequence counters past 2^64, and time differences beyond a Go Duration.
- Brokers.Broker.Publish: uses the in-memory store, which cannot fail to append; failed appends are steps of `Engine`.
- Events that reach a channel during a call of Forward: they are dealt with by a later call, and by the steps of `Subscriptions` at any moment.
- More than one topic at a time in `Resume`, `GoResume` and `BrowserResume`: topics share a connection but no subscription state, and the other topics' frames are in the channel and the queue. Frames lost to a full queue of the server are excluded from the covering theorems, as they are not resent.
- What the Go client reads for a topic it has closed and entered again while frames about it were under way: `GoResume` follows such a topic only from an entry with nothing under way.
- RedisStore.Store.Latest: promises the newest n events only for streams whose entries all decode, because the code counts undecodable entries against n.
