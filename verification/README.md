# Verified model of the Craxii backend core

A Dafny model of the parts of Craxii where order, concurrency and byte-exactness matter, with proofs
about every run or every input. `dafny verify dfyconfig.toml` checks the whole project.

Connection ownership (`ConnectionRegistry`, `ConnectionProtocol`, `ConnectionInvariant`,
`ConnectionSteps`, `ConnectionSupervision`, `ConnectionTheorems`, `ConnectionProgress`,
`ConnectionHistory`, `ConnectionOrigins`). The registry is an object whose lock sections are methods,
proved against functions on its value. The protocol is a state machine: one action is one
compare-and-exchange, one lock section, or one channel send or receive, and requests, upgrade
callbacks, failed upgrades, dropped records, connection tasks, the server handle and the supervisor
interleave freely. `Past` gathers from the actions of a run what was sent, handled, joined and closed;
it alone decides what the registry shows.

Live drafts (`DraftEvents`, `DraftBroker`, `LiveBroker`, `DraftLedger`, `DraftReadings`,
`DraftQueues`, `DraftStreams`, `DraftFidelity`, `DraftAccounts`, `DraftTheorems`, `DraftRuns`,
`DraftGuarantees`, `DraftOffers`, `DraftPressure`, `DraftFates`, `DraftClosings`, `DraftIsolation`).
`LiveBroker.LiveEventBroker`
updates maps and queues in place and is proved against `DraftBroker.Step`. A subscriber is watched
with its whole history: every frame it was delivered or still queues with the broadcast events it
was made of, and the fate of every event that is in no frame. `Sees` describes one subscriber of one
run: `before` runs, it subscribes, `after` runs.

Drafts on a connection (`DraftFilter`, `DraftPassage`, `DraftTurns`, `DraftRestart`, `DraftWire`). A
run is a sequence of turns: calls on the broker by anyone, the connection's own receives, which feed
its filter, and the durable frames it sends, each of which closes the drafts of the work it is the
last word on, in the filter and in the broker. `DraftWire` puts this together with a whole
connection: `ReplayConnection.Connection` keeps in `fed` what its filter was fed, `Run` ties `fed` to
the signals served and to the frames sent, and where `fed` is the opening followed by what some turns
feed, the theorems about turns decide which drafts are on the wire.

Replay and handoff (`PublicJournal`, `ReplayConnection`, `ClientProjection`). The store, the socket
and shutdown are an environment indexed by time, so a run may meet any failure, lost hint or delay;
a send that fails may still have reached the peer. Every way a connection ends is tied to what the
environment or a signal did (`EndTold`).

Outbound delivery (`Utf8`, `DeliveryPlanner`, `DeliveryWorker`, `DeliveryHistory`), byte encodings and
journal evidence (`Framing`, `InboundMaterial`, `ReplayCursor`, `JournalEvidence`, `StreamHeads`), and
the bounded agent loop (`AgentLoop`), whose every run is told by the answers it got (`Plays`).

Assumptions, all of them parameters or preconditions: channels are FIFO; a join set reports each
task once; a draft id belongs to one conversation, work and invocation (`World.owner`); the journal
grows only at its end, with increasing offsets (`Lawful`); a connection asks for a cursor no later
than the high water, as the upgrade request is refused otherwise; public events have distinct ids
(`Distinct`); SHA-256 does not collide; encoded frame sizes, clocks, the store, the gateway and the
tools are arbitrary functions.

Two findings about the code. First, four defensive checks can never fire: the page checks of the
scan loop, the closing guard of the splitter, the re-print comparison of cursor parsing (each shown
unreachable where it stands), and the sequence-overflow branch of `offer` (`LedgerKept` bounds the
sequence by 4096). Second, the connection's filter does not forward everything the broker delivers
(`BrokerRestarts` gives a run for every draft that fits): when someone else finalizes a work while
the connection shows one of its drafts and the draft is offered again, the broker delivers a second
start, which the filter drops. It forwards the events of a draft exactly when no start of the draft
arrives while the connection shows its last episode (`DraftForwarded`), and that is so whenever the
draft is not offered between another's finalization of its work and the connection's own
(`UndisturbedForwarded`).

## Model

| member | source | states |
|---|---|---|
| `ConnectionRegistry.RegistryCell.InsertReserved` | backend/src/adapters/http.rs:429-446 | The second look at admission, inside the lock: a refused id is never inserted, an admitted one becomes a pending entry. |
| `ConnectionRegistry.RegistryCell.MarkActive` | backend/src/adapters/http.rs:472-487 | Only a pending entry becomes active; any other id is answered false and nothing changes. |
| `ConnectionRegistry.RegistryCell.ObserveCallback` | backend/src/adapters/http.rs:489-513 | A callback is counted once and never for a pending or unknown entry; it removes the entry exactly when its connection already finished. |
| `ConnectionRegistry.RegistryCell.ObserveTerminal` | backend/src/adapters/http.rs:515-546 | An upgrade that ends without a connection completes and leaves at once, and only from a pending entry. |
| `ConnectionRegistry.RegistryCell.ObserveCompletion` | backend/src/adapters/http.rs:548-575 | A completion is consumed once, and its entry leaves exactly when its callback was observed before. |
| `ConnectionRegistry.RegistryCell.BeginClosing` | backend/src/adapters/http.rs:577-590 | The loop moves every active entry to closing and leaves all others as they were. |
| `ConnectionRegistry.RegistryCell.CancelOwned` | backend/src/adapters/http.rs:592-601 | The loop signals every entry and removes none. |
| `ConnectionTheorems.StepKeeps` | backend/src/adapters/http.rs:848-927 | Every action of every party keeps the invariant that ties stages, permits, events, tasks and entries together. |
| `ConnectionTheorems.NoSharedFailure` | backend/src/adapters/http.rs:848-927 | No interleaving makes the registry answer false, so the supervisor never reaches its shared-failure branch, no activation is refused and no permit slot is found empty. |
| `ConnectionTheorems.IssuedFresh` | backend/src/adapters/http.rs:424-446 | On every run an id is issued to one request only, and no id that a request still holds was ever reserved. |
| `ConnectionTheorems.ExactlyOnce` | backend/src/adapters/http.rs:489-575 | Every reserved id has at most one consumed completion and is removed once at most, after it; an activated one only after its callback was observed. |
| `ConnectionTheorems.Quiescence` | backend/src/adapters/http.rs:857-899 | When the supervisor has returned the registry is empty, the channel holds only stop requests, every reservation completed and left exactly once, and no later action changes this or reserves again. |
| `ConnectionTheorems.SealedKeeps` | backend/src/adapters/http.rs:424-446 | Once entries were closed after admission stopped, no request in flight can still reserve, although the flag is stored without the lock. |
| `ConnectionTheorems.Conservation` | backend/src/adapters/http.rs:603-609 | Issued ids are the burned ones, those a request still holds, the unfinished entries and the consumed completions, so the completion counter never passes the issued ids. |
| `ConnectionTheorems.PermitLedger` | backend/src/adapters/http.rs:695-827 | Every permit is free, with a request, or in exactly one of a pending slot, a callback's hand, a queued activation and a live task; none is lost or released twice. |
| `ConnectionProgress.EntryCanLeave` | backend/src/adapters/http.rs:761-846 | From every reachable state in which an id is registered the run can go on so that it leaves the registry. |
| `ConnectionProgress.SupervisorCanReturn` | backend/src/adapters/http.rs:848-927 | From every reachable state the run can go on so that the supervisor returns, with whatever reservations, events and tasks are outstanding. |
| `ConnectionHistory.HandledInOrder` | backend/src/adapters/http.rs:848-898 | Every event sent to the supervisor before it returned was handled once and in order, or is still in its hands or its channel. |
| `ConnectionHistory.EntryHistory` | backend/src/adapters/http.rs:429-601 | On every run an id is registered, pending, active, closing or finished, observed and signalled exactly as the events handled, the tasks joined and the closing and cancelling sections say. |
| `ConnectionHistory.StopsHonoured` | backend/src/adapters/http.rs:888-898 | The supervisor is stopping exactly when it handled a stop, and admission is open exactly until then or until the handle stops it. Every handled stop closes all entries once, every aborting one and no other cancels all once, and between these sections an entry is signalled exactly when an aborting stop was handled. |
| `ConnectionHistory.CountersExact` | backend/src/adapters/http.rs:489-575 | The counters of callbacks, panics and completions are those of the events handled and the tasks joined. |
| `ConnectionOrigins.EventsTrue` | backend/src/adapters/http.rs:685-846 | Each event sent tells of a step its party took, with the outcome that step had, and a joined task is reported as panicked, or as not, only if a task ended so. |
| `ConnectionOrigins.CanReserve` | backend/src/adapters/http.rs:424-458 | From every reachable state with admission open and a permit free a new request can reserve the next id. |
| `ConnectionOrigins.RefusedOnlyStopped` | backend/src/adapters/http.rs:428-446 | A request leaves without an entry only by giving up or because admission was stopped. |
| `ConnectionOrigins.IssuedAfterStop` | backend/src/adapters/http.rs:428-446 | Once admission has stopped, ids are issued only to requests that had seen it open, at most one to each. |
| `ConnectionOrigins.CanServe` | backend/src/adapters/http.rs:730-887 | From every reachable state an upgrade that nobody has decided can go on to an active entry and a running task. |
| `LiveBroker.EnqueueStructural` | backend/src/application/event_delivery.rs:521-539 | The loop makes room by dropping the oldest delta, which it counts, and keeps every structural event, or marks the subscriber overloaded and leaves the queue. |
| `LiveBroker.EnqueueDelta` | backend/src/application/event_delivery.rs:472-519 | A delta that finds the queue full is folded into the last frame of its draft and kind if the frame still fits, or dropped and counted. |
| `LiveBroker.LiveEventBroker.constructor` | backend/src/application/event_delivery.rs:104-117 | A new broker accepts, holds nothing and numbers subscribers from 1. |
| `LiveBroker.LiveEventBroker.Subscribe` | backend/src/application/event_delivery.rs:121-151 | A subscriber gets a fresh id and an empty queue while the broker accepts, and nothing otherwise. |
| `LiveBroker.LiveEventBroker.Offer` | backend/src/application/event_delivery.rs:236-359 | Superseding, announcing, numbering, limits and fan-out, in place over both maps, take the broker to the value one `Step` gives, and the text is exposed exactly while the broker is open. |
| `LiveBroker.LiveEventBroker.SupersedeRivals` | backend/src/application/event_delivery.rs:251-266 | After the loop the work has no other draft, and every eligible subscriber was told. |
| `LiveBroker.LiveEventBroker.GrowDraft` | backend/src/application/event_delivery.rs:278-357 | A delta is numbered and sent, or its episode announced if need be and abandoned at a limit and forgotten. |
| `LiveBroker.LiveEventBroker.Abandon` | backend/src/application/event_delivery.rs:361-395 | An abandoned draft is forgotten and told to exactly the eligible subscribers. |
| `LiveBroker.LiveEventBroker.BroadcastStartedAndAbandoned` | backend/src/application/event_delivery.rs:397-437 | Every subscriber hears the announcement, if it was owed, and then the abandonment. |
| `LiveBroker.LiveEventBroker.FinalizeWork` | backend/src/application/event_delivery.rs:167-184 | The drafts of a work, their eligibility and their queued events are gone, and no other. |
| `LiveBroker.LiveEventBroker.CloseAdmission` | backend/src/application/event_delivery.rs:154-164 | Nothing is admitted and every queue and eligibility is empty. |
| `LiveBroker.LiveEventBroker.Recv` | backend/src/application/event_delivery.rs:573-595 | Overload is answered first, then the oldest event, and waiting only to an empty queue of an open broker; only that queue changes, by its head. |
| `LiveBroker.LiveEventBroker.Drop` | backend/src/application/event_delivery.rs:597-613 | Dropping a subscription removes that subscriber and nothing else. |
| `DraftLedger.EffectsGood` | backend/src/application/event_delivery.rs:154-437 | Every call keeps the stored drafts started, in limits, numbered by their deltas and one per work, and broadcasts starts only of drafts not stored, deltas only with the next number, and ends only of stored ones. |
| `DraftLedger.OfferGood` | backend/src/application/event_delivery.rs:236-359 | The same of `offer`, through supersession, both delivery limits and the frame limit. |
| `DraftGuarantees.LedgerKept` | backend/src/application/event_delivery.rs:62-90 | Over any run: at most one draft per work, `next_sequence == delta_events <= 4096`, and drafts started equal those abandoned, stored and discarded. |
| `DraftGuarantees.OfferTold` | backend/src/application/event_delivery.rs:300-357 | An accepted offer within 262144 octets, 4096 deltas and a frame of 270336 octets is broadcast verbatim under the next number of its draft; the sequence never overflows. |
| `DraftStreams.ListenErases` | backend/src/application/event_delivery.rs:323-437 | Watching a subscriber with its history is what the broker does to the subscriber. |
| `DraftTheorems.ListenFaithful` | backend/src/application/event_delivery.rs:323-437 | Every disciplined broadcast keeps the queue bound, well-formed episodes, provenance, the account of every event and what a reader sees. |
| `DraftGuarantees.StreamEpisodes` | backend/src/application/event_delivery.rs:121-437 | On every run a subscriber's delivered and queued events of each draft are episodes of a start, deltas with increasing sequences and perhaps an end; its queue holds at most 16; it is eligible only for drafts the broker holds. |
| `DraftGuarantees.StreamProvenance` | backend/src/application/event_delivery.rs:472-519 | Every frame is one broadcast structural event or the in-order concatenation of broadcast deltas of one draft and kind ending at its own sequence; frames use disjoint ordered ranges, fit the frame limit, and come only from episodes begun after the subscription. |
| `DraftFates.StreamAccount` | backend/src/application/event_delivery.rs:121-437 | On every run each event of an episode begun since the subscription is in exactly one frame delivered or queued, or lost: a delta to pressure, with a drop counted, by a broadcast that found 16 frames queued and either could not be joined to the last or put a structural event in place of the oldest delta; an event to overload, only if a structural event once found 16 structural frames queued; or to a finalization of its own work or a close that found it still queued; and a reader who lost nothing reads all of it. |
| `DraftFates.StructureKept` | backend/src/application/event_delivery.rs:521-539 | Every structural event of a begun episode has its own frame, unless the subscriber is overloaded, by a structural event that found 16 structural frames queued, or that event was still queued when its work was finalized or the broker closed. |
| `DraftPressure.LostSqueezed` | backend/src/application/event_delivery.rs:472-533 | A delta is lost to pressure only at a broadcast that met a full queue: one that could not be joined to the last frame, being of another draft or kind or too long together, or one in the oldest delta frame when a structural event took its place. |
| `DraftPressure.OverloadMeansFull` | backend/src/application/event_delivery.rs:521-539 | A subscriber is overloaded only if a structural event found its queue full of 16 structural events. |
| `DraftFates.TextKept` | backend/src/application/event_delivery.rs:300-357 | With no drop counted for the subscriber, no overload and no purge of the draft, the text delivered and queued, coalesced or not, is octet by octet the text offered in the episodes begun since it subscribed. |
| `DraftFates.DropsCounted` | backend/src/application/event_delivery.rs:518-533 | The broker's counter of dropped deltas rises by at least the drops of any one subscriber, so while it stands still a subscriber loses no delta to pressure. |
| `DraftOffers.OffersBroadcast` | backend/src/application/event_delivery.rs:236-359 | Over every run the text broadcast of a draft, from its first start on, is the text of the offers within the delivery limits, in order. |
| `DraftOffers.AbandonedFor` | backend/src/application/event_delivery.rs:251-395 | Every end told of an episode was told for the reason it carries: its own abandonment for that reason, an offer of another draft of its work, or an offer past 262144 octets, 4096 deltas or a frame of 270336 octets. |
| `DraftClosings.FinalizeClears` | backend/src/application/event_delivery.rs:167-184 | A finalization takes every frame and draft of its work from every subscriber and from the broker, and leaves the frames, drafts and eligibility of every other work as they were. |
| `DraftClosings.CloseClears` | backend/src/application/event_delivery.rs:154-164 | A close empties every queue and eligibility, forgets every draft and ends admission, and changes nothing else of a subscriber. |
| `DraftClosings.AdmissionExact` | backend/src/application/event_delivery.rs:154-164 | Over any run admission is open exactly until the close, and the closed flag is up exactly once it was raised. |
| `DraftClosings.ClosedSilent` | backend/src/application/event_delivery.rs:236-249 | Once the broker is closed or its flag is up no episode begins or grows any more. |
| `DraftClosings.ClosedJoins` | backend/src/application/event_delivery.rs:121-151 | After the close nobody joins. |
| `DraftAccounts.AccountedPut` | backend/src/application/event_delivery.rs:472-539 | Every event of a begun episode is in exactly one frame or lost for a stated cause, and only deltas are lost to pressure. |
| `DraftIsolation.Isolated` | backend/src/application/event_delivery.rs:236-437 | Two subscribers that start alike and see the same calls on drafts interleaved alike with their own receives are delivered the same and end alike, whatever other subscribers join, stall or leave. |
| `DraftReadings.ReadingMerge` | backend/src/application/event_delivery.rs:483-513 | A coalesced frame reads as the two frames it was made of. |
| `DraftReadings.ScanEvict` | backend/src/application/event_delivery.rs:526-534 | Evicting a delta leaves every draft's episodes well formed. |
| `PublicJournal.ListReplayPage` | backend/src/adapters/sqlite/stage11.rs:286-338 | A page holds the first rows of its range, as many as the limit allows and every row up to where it says it scanned, moves forward, and says it is last only at the end of the range. |
| `PublicJournal.ProjectReplayPage` | backend/src/application/publication.rs:239-266 | A page is projected to its public events in order, exactly when it is consistent and every row can be published. |
| `PublicJournal.ReadReplayPage` | backend/src/application/publication.rs:54-76 | All public events in (after, scanned_through], with scanned_through past `after` and within the range; it fails exactly on an empty range or when one of the first 128 rows cannot be published. |
| `PublicJournal.SelectStable` | backend/src/adapters/sqlite/stage11.rs:297-308 | What lies at or below a past high water is the same at every later time. |
| `PublicJournal.SelectExact` | backend/src/adapters/sqlite/stage11.rs:297-308 | A selection is exactly the rows of the journal in its range. |
| `PublicJournal.PublicRising` | backend/src/application/publication.rs:249-259 | Public events come in strictly increasing cursor order within their range. |
| `ReplayConnection.Connection.FlushOutbound` | backend/src/adapters/http.rs:2320-2330 | Buffered frames go out in order; a failure leaves an initial part of them sent. |
| `ReplayConnection.Connection.SendEvents` | backend/src/adapters/http.rs:2281-2318 | Events are sent in order through a buffer of 16, after closing the drafts of every work they are the last word on, here and in the broker. |
| `ReplayConnection.Connection.ScanAndSend` | backend/src/adapters/http.rs:2232-2279 | Exactly the public events of (scanned, through] are sent, or on failure an initial part of them; the loop ends and its protocol-invariant exits are unreachable. |
| `ReplayConnection.Connection.LiveScan` | backend/src/adapters/http.rs:2206-2230 | One scan catches up to the end of the journal as it was when the scan began, or on failure sends an initial part of what was missing. |
| `ReplayConnection.Connection.DrainHints` | backend/src/adapters/http.rs:1908-1921 | A live scan is called for exactly when a hint beyond the replay, or a loss of hints, comes before the hints run out. |
| `ReplayConnection.Connection.Handoff` | backend/src/adapters/http.rs:1922-1940 | `sync.complete` follows all of the replay and nothing else, whether or not its send is seen to succeed. |
| `ReplayConnection.Connection.ServeSignal` | backend/src/adapters/http.rs:1994-2092 | A signal ends the connection exactly as it says by itself; otherwise only a hint or tick whose scan failed or was interrupted, or a draft that could not be sent, ends it, each with its own result; a ping, a closed hint channel or an unlatched shutdown never does. |
| `ReplayConnection.Connection.ServeLive` | backend/src/adapters/http.rs:1991-2094 | Through any sequence of signals the live loop sends public events without gap or repeat, and only drafts the filter forwards; while it listens it has sent every event the filter forwarded and everything that was public when it began its last scan, and every hint or tick had arrived by then. |
| `ReplayConnection.Connection.Run` | backend/src/adapters/http.rs:1854-2094 | On every run, whatever fails and whichever hints are lost, late or repeated, what was sent is `Delivered`, every draft on the wire is well formed and is the first of what the filter forwards of the drafts the served signals brought, in their order among the durable events, and every last word is passed on to the broker once; a connection still listening has handed off, has sent all the filter forwards and, after any hint or tick, has sent everything that was public when the last of them was served; and why it ended, or that nothing ended it, is told by the shutdown flag, admission, the store, the socket and the served signals. |
| `ReplayConnection.SmoothEnd` | backend/src/adapters/http.rs:1854-2094 | Where nothing fails, an admitted connection goes on listening exactly when no signal ends it by itself, and otherwise ends with the first that does, as that signal says. |
| `ReplayConnection.DeliveredInOrder` | backend/src/adapters/http.rs:1854-2094 | The durable frames sent are an initial segment of the public events above `after`, without gap or repeat, and `sync.complete` is sent at most once, exactly between the events up to the high water and the later ones. |
| `DraftFilter.ConnectionDraftState.Accept` | backend/src/adapters/http.rs:2133-2171 | A draft event is forwarded exactly when the connection can place it, and the open drafts are updated in place. |
| `DraftFilter.ConnectionDraftState.ReconcileDurable` | backend/src/adapters/http.rs:2173-2186 | A committed message or the completion, cancellation, failure or interruption of a work closes all its drafts and no other. |
| `DraftFilter.FilterSound` | backend/src/adapters/http.rs:2132-2187 | Whatever is fed, what comes out is well formed for every draft: strict episodes, nothing after the work's last word without a new start. |
| `DraftTurns.DraftForwarded` | backend/src/adapters/http.rs:2132-2187 | On every run of broker and connection, with the connection's durable frames between the drafts, what the filter is fed is well formed for every draft, and it forwards a draft's events exactly when none of its starts arrives while the connection shows its last episode. |
| `DraftTurns.UndisturbedForwarded` | backend/src/adapters/http.rs:2281-2318 | A draft that nobody offers between another's finalization of its work and the connection's own is forwarded whole. |
| `DraftTurns.BrokerForwarded` | backend/src/application/event_delivery.rs:573-595 | A filter fed what the broker delivers forwards all of it exactly when no episode starts while its draft is open in what was delivered before. |
| `DraftTurns.UnrevivedForwarded` | backend/src/application/event_delivery.rs:167-184 | A draft not offered after a finalization of its work is forwarded whole. |
| `DraftWire.ListeningComplete` | backend/src/adapters/http.rs:1991-2094 | What a connection still listening has sent of a draft is all that the broker gave it of the draft, exactly when no start of the draft arrived while the connection showed its last episode. |
| `DraftWire.EndedWhole` | backend/src/adapters/http.rs:1991-2094 | In that case a connection that ended, wherever it was cut off, has sent the first of the draft's events it was given and skipped none. |
| `DraftRestart.BrokerRestarts` | backend/src/application/event_delivery.rs:167-184 | A concrete run, for every draft that fits: the broker delivers a start, a delta and a second start, well formed by its own measure, and the filter drops the second start. |
| `DraftFilter.FilterIdempotent` | backend/src/adapters/http.rs:2132-2187 | Filtering a second time changes nothing. |
| `ClientProjection.Projection.Apply` | backend/src/protocol.rs:909-940 | A durable event counts once by its id; a draft of finalized work is ignored; a committed message ends the work's draft and records its answer. |
| `ClientProjection.Projection.Receive` | backend/src/protocol.rs:904-940 | Reconnecting forgets drafts, and the frames of a connection are applied in order. |
| `ClientProjection.ConnectionsConverge` | backend/src/protocol.rs:892-977 | A client that follows a growing journal over any number of connections, each at its own time, cut off anywhere and resumed from any cursor up to its own, with any loss or delay of drafts, has for each work the answer of the last message committed for it among the public events up to its cursor, and none without one; these works are the finalized ones, and it holds no draft for them. |
| `ClientProjection.DraftShown` | backend/src/protocol.rs:904-940 | After a connection the client shows of each work the draft started last and not abandoned since, if the work is not finalized, and none if it is. |
| `ClientProjection.CarriedResumes` | backend/src/adapters/http.rs:2232-2279 | What arrived of what a connection delivered by any past time is, drafts aside, an initial part of what a connection from the same cursor would send of the journal now. |
| `DeliveryWorker.StepKeeps` | backend/src/application/delivery_worker.rs:207-298 | Every step of worker, stoppers and shutdown keeps: what is open is what the worker is working on, and who holds the gate. |
| `DeliveryWorker.NoClaimAfterStop` | backend/src/application/delivery_worker.rs:75-90 | Once some `stop_claiming_and_wait` or the stop of a shutdown has completed, no claim is ever made again and no attempt becomes outstanding. |
| `DeliveryWorker.AtMostOneOutstanding` | backend/src/application/delivery_worker.rs:207-298 | In every interleaving at most one attempt is outstanding. |
| `DeliveryWorker.OkLeavesNothing` | backend/src/application/delivery_worker.rs:100-126 | An Ok from the worker or from `shutdown_before`, also after an abort, leaves no attempt of this runtime undecided. |
| `DeliveryWorker.StopReconciles` | backend/src/application/delivery_worker.rs:246-258 | When a stop has completed, an attempt can be outstanding only if it was dispatched before or its worker ended badly. |
| `DeliveryWorker.ShutdownNeverStuck` | backend/src/application/delivery_worker.rs:100-126 | Until a shutdown returns, it or whoever holds the claim gate can move. |
| `DeliveryHistory.RunExplained` | backend/src/application/delivery_worker.rs:75-298 | The actions of a run explain where worker and shutdown are: an Ok worker was told to stop, a failed one met that failure, none is aborted before the deadline; it waits only when nothing was due and claims again only when woken; every claimed attempt was dispatched once or is in hand; a shutdown returns what became of the worker, or the failure to classify what was interrupted. |
| `DeliveryHistory.OkMeansStopped` | backend/src/application/delivery_worker.rs:220-223 | A worker returns Ok only after some stop or shutdown cleared the claiming flag. |
| `DeliveryHistory.StoppedInGate` | backend/src/application/delivery_worker.rs:246-258 | A worker in the claim section when claiming stops ends there, without waiting or dispatching. |
| `DeliveryHistory.CanDeliver` | backend/src/application/delivery_worker.rs:207-298 | From every reachable state a worker that nobody stopped and that has not ended can claim another attempt, dispatch it, persist its result and come back for the next. |
| `Utf8.BoundarySplits` | backend/src/application/delivery_planner.rs:124-127 | A byte position is a character boundary exactly when both halves of the string are valid UTF-8. |
| `Utf8.BoundaryNear` | backend/src/application/delivery_planner.rs:124-130 | A boundary lies at most three bytes before any position. |
| `DeliveryPlanner.FindCut` | backend/src/application/delivery_planner.rs:124-142 | Stepping back and searching backwards finds the preferred cut, and never fails. |
| `DeliveryPlanner.CutSound` | backend/src/application/delivery_planner.rs:131-142 | Every cut makes progress within the limit and leaves two valid strings. |
| `DeliveryPlanner.CutPreferred` | backend/src/application/delivery_planner.rs:124-142 | A text is cut after the last blank line that ends within the limit, without one after the last line, without one at the last character boundary. |
| `DeliveryPlanner.SplitText` | backend/src/application/delivery_planner.rs:106-154 | For every valid text, limit of at least 4 and budget of 1 to 64 the loops end and succeed exactly when the greedy split fits the budget, returning that split; the closing guard never fires. |
| `DeliveryPlanner.PartsConcat` | backend/src/application/delivery_planner.rs:143-153 | The parts concatenate to the text. |
| `DeliveryPlanner.PartsDeliverable` | backend/src/application/delivery_planner.rs:143-153 | Every part is non-empty, valid UTF-8 and within the limit. |
| `DeliveryPlanner.PartsPreferred` | backend/src/application/delivery_planner.rs:113-148 | Every part but the last is what comes before the preferred cut of what the earlier ones left, and the last is all of the rest. |
| `DeliveryPlanner.RenderAssistant` | backend/src/application/delivery_planner.rs:80-93 | The blocks are joined by blank lines, and an empty result is refused. |
| `DeliveryPlanner.JoinedHolds` | backend/src/application/delivery_planner.rs:80-93 | A rendering holds every block whole and in order, two newlines between each two, and nothing else. |
| `DeliveryPlanner.PlanFaithful` | backend/src/application/delivery_planner.rs:195-257 | A plan fails only on a deadline past year 9999; otherwise its payloads in order are the text, divided where the profile allows it and whole otherwise, ordinals are 1 to the part count, and every part carries the route, the source, the times, a deadline one hour on, no attempts and the same failure: a revoked binding, a disabled account, no profile or too many parts, in this order, or none, and then it is queued. |
| `DeliveryPlanner.AssistantPlanFaithful` | backend/src/application/delivery_planner.rs:156-174 | The same of an assistant message, refused exactly when its text is empty or it has no work. |
| `InboundMaterial.CanonicalBytes` | backend/src/domain/content.rs:150-178 | The loop builds the canonical bytes of validated content. |
| `InboundMaterial.CanonicalInjective` | backend/src/domain/content.rs:150-178 | Canonical bytes are equal exactly when the contents are. |
| `InboundMaterial.CanonicalReads` | backend/src/domain/content.rs:150-178 | A reader of the grammar recovers the content from its canonical bytes. |
| `InboundMaterial.MaterialBytes` | backend/src/application/channel_ingress.rs:165-222 | The buffer built step by step is the material of the event. |
| `InboundMaterial.MaterialIdentifies` | backend/src/application/channel_ingress.rs:165-222 | Two events have equal material bytes exactly when account, sender, conversation, thread, message id, payload and provider time are equal, whatever their event ids and observed times. |
| `InboundMaterial.MaterialReads` | backend/src/application/channel_ingress.rs:165-222 | A reader of the material recovers account, sender, conversation, thread, message id, payload and provider time, each in its place. |
| `InboundMaterial.DigestIdentifies` | backend/src/application/channel_ingress.rs:165-222 | The same of the digests, under a digest without collisions. |
| `Framing.FramedCancels` | backend/src/application/channel_ingress.rs:166-169 | A framed string can be read off the front of anything in one way only. |
| `JournalEvidence.UpdateRow` | ops/stage27/production-evidence.py:706-724 | The loop feeds a row, tagged and framed value by value. |
| `JournalEvidence.StreamInjective` | ops/stage27/production-evidence.py:706-790 | The framed stream determines its columns and rows. |
| `JournalEvidence.JournalHistoryFingerprint` | ops/stage27/production-evidence.py:768-801 | One pass gives the digest of the whole journal and the checkpoints of its last 256 rows, each the digest of its own prefix; an empty history or a missing offset column is refused. |
| `JournalEvidence.CompareJournals` | ops/stage27/production-evidence.py:1385-1412 | The comparison passes exactly when one checkpoint carries the old end and agrees with the old size, digest and columns, and the end advanced. |
| `JournalEvidence.ComparisonExact` | ops/stage27/production-evidence.py:1385-1467 | The comparison passes exactly when the old rows are a prefix of the new ones under the same columns and 1 to 255 rows were appended. |
| `StreamHeads.Pigeonhole` | ops/stage27/production-evidence.py:804-821 | As many distinct positive numbers as the greatest of them are all the numbers up to it. |
| `StreamHeads.NoViolations` | ops/stage27/production-evidence.py:804-821 | No violation is counted exactly when every stream's numbers are 1 to its head without a gap and heads exist for exactly the streams that have events. |
| `ReplayCursor.Parse` | backend/src/protocol.rs:165-183 | Parsing accepts exactly the canonical decimal texts of 0 to 2^63-1, each as its own number, and its re-print comparison never rejects. |
| `ReplayCursor.PrintCanonical` | backend/src/protocol.rs:185-189 | Every printed cursor is canonical and stands for its number. |
| `ReplayCursor.PrintValue` | backend/src/protocol.rs:165-183 | Canonical digits are the print of what they stand for. |
| `AgentLoop.AgentRun.Run` | backend/src/application/agent_loop.rs:202-459 | Whatever the store, gateway, tools and clock do, the run ends; models are invoked for steps 1, 2, ... within the limit, each after every check before it passed; recorded tool calls stay within theirs; at most one terminal write is issued, nothing is invoked or executed after it, and a confirmed cancellation wrote nothing. What the run did and how it exited is what the answers it was told lead to. |
| `AgentLoop.CompletionMeansAnswer` | backend/src/application/agent_loop.rs:370-398 | A completion is written only after an answer that completed or refused with content, never beside a failure, and an exit that committed it finalized the drafts right after. |
| `AgentLoop.FailureMeansCause` | backend/src/application/agent_loop.rs:238-459 | A failure is written only when a check before the step bars it, or the answer is of no use: a failed or late attempt, no content, another stop reason, malformed or too many calls, or a deadline among them. |
| `AgentLoop.HealthyEnds` | backend/src/application/agent_loop.rs:202-459 | Where nothing fails the work is always ended: an answer with content is committed, its drafts finalized and its deliveries woken if there are any, any other answer that ends the run fails the work, and without one the used-up steps or calls do. |
| `AgentLoop.AgentRun.ExecuteToolBatch` | backend/src/application/agent_loop.rs:654-798 | A batch that is empty, malformed or would pass the limit executes nothing; otherwise its calls are executed in order, each recorded at most once, and it goes on only after all of them; where it stops short, the call, the cancellation, the deadline or the failed load that stopped it gives the exit. |
| `AgentLoop.AgentRun.FailSnapshot` | backend/src/application/agent_loop.rs:480-535 | The one failure write is issued exactly when the work is still as it was last seen, and committed is answered exactly when that write succeeded. |
| `AgentLoop.AgentRun.CommitCompletion` | backend/src/application/agent_loop.rs:537-652 | The completion is written exactly when the answer has content, the clock and the transition allow it and the reply can be planned; without content the draft is abandoned and the work failed. |

## Left out

- HTTP routing, middleware, headers, error envelopes, tracing, metrics other than the started, abandoned and dropped counters: plumbing.
- UUID event ids: a coalesced frame takes the id of its last delta; no property depends on it.
- Wrap-around of the 64-bit connection and subscriber ids, and reuse of task ids by the runtime: ids are unbounded and fresh.
- `ConnectionProgress.EntryCanLeave`: states that a way out exists from every reachable state, not that a scheduler takes it; likewise `ConnectionProgress.SupervisorCanReturn`, `ConnectionOrigins.CanReserve`, `ConnectionOrigins.CanServe` and `DeliveryHistory.CanDeliver`.
- `DraftTurns.UndisturbedForwarded`: its condition on the calls is sufficient only, because an offer in between does harm only if its start is delivered; `DraftTurns.DraftForwarded` gives the exact one.
- `LiveBroker.LiveEventBroker.CloseAdmission`: storing the closed flag (`RaiseClosed`) and the lock section are two calls, as other calls may come between them.
- `LiveBroker.LiveEventBroker.Recv`: models one lock section of the receive loop; waiting for the notification is left out.
- `ReplayConnection.Connection.ServeLive`: serves a finite sequence of signals, that is every finite prefix of a connection's life.
- `ReplayConnection.Connection.SendFrame`: close frames and their codes are left out; nothing follows them.
- `DeliveryWorker.StepKeeps`: the initial-scan channel, the fatal signal, the backoff arithmetic and the timeout of a dispatch are left out; dropping the handle without a shutdown is too.
- `AgentLoop.AgentRun.Run`: the reasons of failures and the contents of answers are left out; a failed load, clock or write is any of their failures.
- `AgentLoop.AgentRun.CommitCompletion`: does not model that a failed completion write may have committed, because only the number of writes issued is stated.
- `JournalEvidence.JournalHistoryFingerprint`: floats stand by their hexadecimal text and text by its UTF-8 bytes; a value of another type is not modelled.
- `stable_table_fingerprint` and the other checks of `compare`: the same framing over other tables, and comparisons of single fields.
- `scripted_provider.rs`, `local_workstation.rs`, `authority.rs`, `authentication.rs`, `command_gateway.rs`, `command_service.rs`, `channel_topology.rs` and the control-message rendering: fixtures, system interfaces or one-pass guards that would add only easy members.
