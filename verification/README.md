# A verified model of the real-time map server

The repository ingests moving entities (flights, vessels, cameras, events) from many sources and
shows them live on a map. This project models the parts of it whose correctness depends on state
that several goroutines share, on what happened in earlier runs, or on exact arithmetic, and
proves what they are relied on for.

| file | what it models |
|---|---|
| `FanOut` | the fan-out server as a state machine: one step is one critical section, one channel operation, one atomic add or swap, or one socket write |
| `FanOutSafety`, `FanOutDelivery`, `FanOutFlush`, `FanOutLoops` | what holds over every run of that machine: lifecycle of clients, conservation and order of frames, exactness of batched updates, one offer each of every other frame |
| `Hub` | the same server and its clients as objects whose methods change fields in place, specified by the functions of the other modules |
| `ClientState`, `Batching` | what one client has asked for, and which updates one flush gives it |
| `Tickers` | the polling contexts of a client, with the races between its reader and the server loop |
| `Snapshots`, `Pagination`, `Cursor`, `Base64` | chunked snapshots, cursor pagination and its encoding |
| `SparseFill`, `FillSources`, `Records` | filling a sparse viewport from three sources, and where each item it shows comes from |
| `Geometry`, `Tle`, `EntityIds` | wrapped bounding boxes and entity limits, two-line element checksums, composite IDs |
| `Registry`, `Origins` | the two-way source index and the merge of allowed media origins |
| `Dedup`, `DedupRuns` | deduplication of analysis results inside one run and across runs |
| `Retry`, `Enrichment`, `PromptCache` | provider retries, one enrichment operation, and many of them sharing a prompt cache |
| `Geocoder` | the read-through geocoding cache |
| `Selections` | which positions of a sequence a filter keeps, used to say what a loop returns |

Values are Dafny datatypes and functions where the code computes; classes and loops are Dafny
classes, methods and loops with invariants where the code changes things step by step. Runs are
sequences of steps; "on every run" below means for every such sequence. What the code leaves to
its surroundings (network, database, clock, provider, expiry) is decided by the steps or by
parameters.

## What the code does not do

Places where the code falls short of its own comments or of what a reader would expect. The model
follows the code, and each has a lemma.

- The centre used for a single on-demand fetch point (`internal/realtime/ondemand.go:533-541`) is
  commented as handling antimeridian wrapping; for a wrapped box it is half a turn away from the
  box: `Geometry.OnDemandCenterInsideIffUnwrapped`.
- Storing a live fill rewrites the observations that are then returned. Normally this changes
  nothing, because a new row gets the composite ID of its entity
  (`internal/infra/sqlite/entity.go:47-64`), and every writer in the repository sets that ID
  (`SparseFill.AllAreShown`). A live entity that has a row under another ID, which must come from
  elsewhere, such as an older database, is sent without its observation:
  `SparseFill.ShownFromRowsIff`, at an input in `SparseFill.ForeignRowHidesObservation`.
- The first page of a global subscribe goes out in chunks, the cursor with the first one. When the
  buffer fills up on the way, the client pages on from the end of that page and never gets the
  rows in between: `Pagination.WalkIsComplete` says exactly when it gets all, and
  `Pagination.LostChunksAreSkipped` is an input.
- `handlePage`, `handleMessage` and the snapshot senders send without the server's lock, so they
  can hit a closed channel: `FanOutSafety.CrashIff`, `FanOutSafety.HandlerSendCanCrash`.
- A live time range enables a subscription past the limit of 100: `ClientState.LimitHoldsIff`,
  with a run in `ClientState.LimitIsPassed`.
- Zooming out over 500 square degrees raises an entity limit that is below 500:
  `Geometry.LimitGrowsIff`, at an input in `Geometry.LimitGrowsAt`.
- A rejected `time_range` still switches the layer's global mode and uses up the cooldown:
  `ClientState.RejectedRequest`.
- An unregister that falls between the creation and the storing of a polling context leaves that
  context polling: `Tickers.UnregisterCancelsAllIff`, with a run in `Tickers.UnregisterCanMiss`.
- `internal/domain/dynamic_registry.go:117-118` says that merged origins do not depend on load
  order. They do when a configuration without the slot is registered in between, which forgets
  the earlier origins (`Origins.GapLosesOrigins`), and, in how often an origin is listed, when a
  configuration lists it twice (`Origins.RepeatsDependOnOrder`). `Origins.SameOutcomeIff` says
  exactly when two histories end alike, gaps included. Registering a single unsorted
  configuration again sorts it (`Origins.IdempotentIff`).
- With a retention no longer than the dedup window, a record is let through again inside the
  window once its insight is cleaned up: `DedupRuns.ShortRetentionForgets`.
- A NUL in a key field lets different records share a dedup key: `Dedup.NulCollision`, for every
  list of at least two fields (`Dedup.NulFreeNeededIff`).
- A prompt shared by two operations lets a cached result bypass validation, exactly when the first
  caches and the second has a schema that is not the first's: `PromptCache.LeaksIff`.

## Model

| member | source | states |
|---|---|---|
| FanOutSafety.Always | internal/realtime/websocket.go:388-505 | on every run the clients whose channel is open are exactly those registered or handed over to be, and every loop under the shared lock only has registered clients before it |
| FanOutSafety.CrashIff | internal/realtime/websocket.go:423-453 | a step brings the process down exactly when it is a send outside the shared lock to a client that has been unregistered; so broadcast, notification, flush and layer-update loops never send on a closed channel |
| FanOutSafety.ClosedOnce | internal/realtime/websocket.go:390-421 | over any mix of unregisters and shutdown each channel is closed once if at all |
| FanOutSafety.HandlerSendCanCrash | internal/realtime/subscribe.go:532-558 | whenever a handler is about to send, an unregister in between makes that send a crash |
| FanOutSafety.HandlerAboutToSend | internal/realtime/subscribe.go:246-345 | a run in which that situation arises |
| FanOutDelivery.Conservation | internal/realtime/client_state.go:258-305 | offered frames are taken, buffered, dropped and counted, or about to be counted; counted drops are reported, in the writer's hand, lost with a failed write, or still on the counter |
| FanOutDelivery.FramesInOrder | internal/realtime/client_state.go:261-305 | frames are written in the order in which they were accepted, none skipped or repeated; a failed write loses only the one in hand |
| FanOutDelivery.ReportPrecedesFrame | internal/realtime/client_state.go:263-289 | every drop counted before a swap is in a backpressure frame ahead of the next data frame |
| FanOutFlush.QueueConserved | internal/realtime/broadcast.go:23-33 | on every run a layer's drained batches followed by its pending list are its queued updates, in order |
| FanOutFlush.OfferedExactly | internal/realtime/broadcast.go:35-116 | on every run, whatever a client asks for from turn to turn: it had one turn for every non-empty batch flushed while it was registered, in order, and at each was offered the first updates passing its filter of that turn, up to its limit, or nothing if unsubscribed or frozen |
| FanOutFlush.EveryUpdateAccountedFor | internal/realtime/broadcast.go:23-184 | end to end, at any point of any run: the queued updates are those of the flushed batches, those swapped out and those pending; the client's batches are those of its turns and those the flush has left for it; its turns' due is what it was offered and the frame in hand |
| FanOutFlush.SteadyClientGetsAll | internal/realtime/broadcast.go:35-116 | a client with one filter is offered that filter's cut of each batch, and every passing update when no batch is over 500 under a viewport filter |
| FanOut.FlushPositions | internal/realtime/broadcast.go:45-102 | what a turn of a flush offers, from what the client has asked for: nothing if unsubscribed or frozen; otherwise, up to where the batch is cut, exactly the updates whose time, if any, is in the layer's range, if any, and whose position, if any, is in the layer's box, if it has one, wrapped or not, unless the layer is not spatial or the client is global |
| FanOutLoops.OfferedOnce | internal/realtime/websocket.go:423-453 | on every run each broadcast, notification and layer update begun while a client was registered had one turn at it, in order, and offered it the frame once: a broadcast always, a notification if it passes, a layer update if the client was subscribed at that turn |
| Batching.FilterUpdates | internal/realtime/broadcast.go:53-87 | the loop with its early exit returns, in order, the payloads at positions that are, up to where the batch is cut, exactly those of the updates whose event time, if any, lies in the range, if any, and whose position, if any, lies between south and north and between west and east, or outside east to west for a box that wraps, when the layer is spatial and the client has a viewport and is not global; it is cut only in that case, above 500 updates, and exactly at the limit for the viewport |
| Batching.BatchPositions | internal/realtime/broadcast.go:53-89 | the same of the specification that the runs are stated with |
| Batching.SmallBatchIsWhole | internal/realtime/broadcast.go:57-60 | a batch of at most 500, or one without a viewport filter, is never cut short |
| Batching.LargeBatchKeeps | internal/realtime/broadcast.go:57-87 | a longer batch keeps all that passes, or at least 500 and a fifth of the batch |
| Batching.PayloadsConcat | internal/realtime/broadcast.go:69-87 | filtering two batches one after the other is filtering them together |
| Geometry.CenterIsInside | internal/domain/bbox.go:92-102 | for a box in range the domain centre is inside by the box's own test, with a longitude in range |
| Geometry.CenterIsMiddle | internal/domain/bbox.go:92-102 | it is as far from north as from south, and as far east of the west side as west of the east side, also across the antimeridian |
| Geometry.OnDemandCenterInsideIffUnwrapped | internal/realtime/ondemand.go:532-541 | the on-demand centre agrees with the domain centre, and is inside, exactly when the box does not wrap; otherwise it is exactly 180 degrees off |
| Geometry.LimitBounds | internal/realtime/subscribe.go:647-676 | a limit up to 500 is never lowered and raised to at most 500; a larger one is not raised and keeps at least 500 and a fifth |
| Geometry.LimitOfBox | internal/realtime/subscribe.go:647-676 | the limit from the box: the base up to 500 square degrees, a fifth above 10000, in between a share falling evenly from all to a fifth, the last two at least 500; a wrapped box spans the rest of the circle |
| Geometry.LimitGrowsIff | internal/realtime/subscribe.go:647-676 | a larger area gets a larger limit exactly when the base is below 500 and the area crosses 500, and otherwise never |
| Geometry.LimitGrowsAt | internal/realtime/subscribe.go:660-675 | such an input: base 100, area 500 and 501 |
| Tle.ComputeChecksum | internal/orbital/sgp4.go:92-103 | the loop is the sum of digit values, minus signs counting one, modulo 10 |
| Tle.ValidateLine | internal/orbital/sgp4.go:45-90 | the checks in order, and no index is out of range |
| Tle.AcceptedIff | internal/orbital/sgp4.go:45-90 | a line is accepted exactly when it has 69 characters, its number, a space, a known classification, readable numbers, a positive mean motion and, last, the digit its characters sum to modulo 10 |
| Tle.SumMeaning | internal/orbital/sgp4.go:92-103 | that sum counts every digit for its value, every minus for one and all else for nothing |
| Tle.SetAcceptedIff | internal/orbital/sgp4.go:28-43 | a set is accepted exactly when both lines are and name one satellite |
| Tle.ChecksumCharacter | internal/orbital/sgp4.go:71-78 | wrapping byte subtraction accepts exactly the digits, also for characters below '0' |
| Tle.ReplacementUndetectedIff | internal/orbital/sgp4.go:92-103 | a replaced character goes unnoticed by the sum exactly when both count the same |
| Tle.SingleDigitErrorDetected | internal/orbital/sgp4.go:45-103 | replacing one digit of an accepted line, at any position, makes it rejected |
| Tle.SingleDigitErrorInSetDetected | internal/orbital/sgp4.go:28-43 | the same for a whole element set |
| EntityIds.ParseOfBuildIff | internal/domain/source.go:27-39 | parsing a built ID gives its parts back exactly when the layer type has no colon |
| EntityIds.BuildOfParse | internal/domain/source.go:32-39 | building a parsed ID gives it back if it has a colon |
| EntityIds.EntityIdInjective | internal/domain/source.go:27-29 | colon-free layer types make composite IDs injective |
| Base64.RoundTrip | internal/realtime/cursor.go:14-29 | Base64 of section 4 of RFC 4648 decodes what it encodes |
| Base64.GroupIs | internal/realtime/cursor.go:14-17 | every three bytes are the four digits of their number to base 64 in the alphabet of section 4 of RFC 4648 |
| Cursor.CursorRoundTrip | internal/realtime/cursor.go:14-29 | every cursor issued for a 64-bit offset is read back as that offset |
| Cursor.EncodeCursorInjective | internal/realtime/cursor.go:14-17 | different offsets get different cursors |
| Pagination.PageStep | internal/realtime/subscribe.go:246-345 | a page at an issued offset is the next stretch of rows, as long as a limit from 1 to 10000 says and 1000 otherwise, with the layer's total or, if it cannot be counted, its own length; it withholds a cursor only when nothing is left and is empty only at the end |
| Pagination.FollowCollects | internal/realtime/subscribe.go:246-345 | following cursors with any limits, some replies lost, collects a stretch without gap or repeat |
| Pagination.WalkCollects | internal/realtime/subscribe.go:564-642 | whatever arrives of the first page and after: the client has the delivered part of that page and, given a cursor, the rows from its end on |
| Pagination.WalkIsComplete | internal/realtime/subscribe.go:564-642 | when a walk ends the client has the whole layer exactly if every chunk of the first page arrived and the layer could be counted (or is no longer than that page); every walk ends, at most one arriving page after the last row |
| Pagination.LostChunksAreSkipped | internal/realtime/subscribe.go:583-641 | a client with room for one chunk gets rows 0 to 499 and 5000 to 5999 of 6000 |
| Pagination.WalkDeliversEachOnce | internal/domain/repository.go:42-54 | with distinct rows, a walk that ends and has the whole layer by that condition delivers each exactly once |
| Pagination.FirstPageCursorIff | internal/realtime/subscribe.go:564-642 | the first page has the first rows, as many as a limit from 1 to 10000 says and 5000 otherwise, and a cursor exactly when more remain and the store could count |
| Snapshots.BuildLookup | internal/realtime/subscribe.go:517-523 | the lookup maps an ID to the last non-nil observation with it |
| Snapshots.SendSnapshot | internal/realtime/subscribe.go:525-560 | what is sent is a prefix of the chunks, all of them if the buffer never fills; each holds the next up to 500 entities and, of those that have an observation, their last ones in the same order; the first chunk that does not fit counts one drop and ends the send |
| Snapshots.ChunkMeaning | internal/realtime/subscribe.go:525-560 | the same of every chunk of the specification: its entities, and an observation for exactly those of them that some observation names, each the last such |
| Snapshots.EachWithItsOwn | internal/realtime/subscribe.go:525-560 | when every entity of a chunk has an observation, as many go out and stand position by position |
| Snapshots.ChunksAreASplit | internal/realtime/subscribe.go:525-560 | the chunks together hold a prefix of the entities in order with their observations, and all of them at the end |
| Snapshots.OnlyFirstIsMarked | internal/realtime/subscribe.go:564-642 | every chunk has 1 to 500 entities, and only the first of a page carries total and cursor |
| Snapshots.LastMeaning | internal/realtime/subscribe.go:517-541 | the last observation of an ID is the last non-nil one that carries it, and there is none exactly when none does |
| ClientState.AlwaysCoherent | internal/realtime/client_state.go:90-133 | at message boundaries of every run the three time maps have equal keys and an unfrozen range implies a subscription |
| ClientState.ClampIsMax | internal/realtime/timerange.go:86-113 | the two clamps are one maximum over the limits that are set |
| ClientState.AcceptedWindow | internal/realtime/timerange.go:72-137 | an accepted request stores its end unchanged and as its start the latest of the requested one and those that the layer's or the server's limits allow, in nanoseconds; the window is non-empty exactly when no lookback limit applies or the end is after it, and frozen exactly when it ends over ten minutes ago; other layers keep theirs |
| ClientState.RejectedRequest | internal/realtime/timerange.go:12-84 | the whole effect of a rejected request: no range or subscription changes, but for a named layer with the feature enabled the mode is set, and a request that is not global and cooled down takes up the cooldown |
| ClientState.CooldownHolds | internal/realtime/client_state.go:171-182 | on every run two requests that pass the gate for one layer are a cooldown apart |
| ClientState.LayersAreSeparate | internal/realtime/client_state.go:45-133 | on every run what a client asks for in a layer is decided by the messages that name it: its box is that of the latest viewport update with its numbers in range, subscribe with room or accepted request that brought one, and unsubscribing keeps it; subscribing and unsubscribing forget the range, an accepted request sets it; every request sets the mode; nothing for another layer touches any of it |
| ClientState.LimitPassedIff | internal/realtime/timerange.go:119-121 | a step passes the limit of 100 subscriptions exactly when it accepts a live range for a new layer at or above it |
| ClientState.LimitHoldsIff | internal/realtime/timerange.go:119-121 | a run stays within the limit at every point exactly when none of its messages does that |
| ClientState.LimitIsPassed | internal/realtime/subscribe.go:22-60 | under any limits a run reaches 101 subscriptions |
| Tickers.OnePerLayer | internal/realtime/ondemand.go:32-66 | between two messages of every run the uncancelled contexts are exactly the map's values, one per layer |
| Tickers.NoneAfterUnsubscribe | internal/realtime/subscribe.go:347-356 | none is left for a layer after its unsubscribe |
| Tickers.UnregisterCancelsAllIff | internal/realtime/websocket.go:413-421 | an unregister cancels all exactly when no context is created but not yet stored |
| Tickers.UnregisterCanMiss | internal/realtime/ondemand.go:32-47 | a run in which it misses one, which then polls on |
| Tickers.NoneAfterDisconnect | internal/realtime/websocket.go:413-421 | none is left, for good, after the unregister that follows the reader's exit |
| Hub.OfferAllMeaning | internal/realtime/websocket.go:425-433 | non-blocking sends keep what is queued, append what fits in order and count the rest |
| Hub.OfferIsSteps | internal/realtime/broadcast.go:109-114 | a send with its drop count is the machine's steps in a row |
| Hub.WriteIsSteps | internal/realtime/client_state.go:261-305 | so is a round of the writer |
| Hub.Client.HandleTimeRange | internal/realtime/timerange.go:12-137 | accepted exactly when it names a layer, the feature is on, the cooldown is over or does not apply and its two timestamps parse in order; its statements have the effect that LayersAreSeparate and AcceptedWindow describe |
| Hub.Client.HandleSubscribe | internal/realtime/subscribe.go:22-60 | refused without a layer or at 100 subscriptions; otherwise its statements have the effect that LayersAreSeparate describes |
| Hub.Client.HandleViewportUpdate | internal/realtime/subscribe.go:360-475 | a box for a named layer is stored exactly when south is at least -90, north at most 90, south not above north, west at least -180 and east at most 180; then a sparse viewport starts polling, a populated one stops it, and a range or a non-spatial layer leaves it |
| Hub.Client.HandleUnsubscribe | internal/realtime/subscribe.go:347-356 | stops the layer's polling and forgets its subscription, range and mode |
| Hub.Client.StopAllOnDemandTickers | internal/realtime/ondemand.go:59-66 | cancels every context ever created for the client |
| Hub.Client.WriteNext | internal/realtime/client_state.go:261-305 | one round: the counter is swapped and reported before the frame |
| Hub.Server.Unregister | internal/realtime/websocket.go:413-421 | removes the client, closes its channel only if it was registered, cancels its contexts |
| Hub.Server.CloseAll | internal/realtime/websocket.go:390-405 | shutdown closes every channel and cancels every context |
| Hub.Server.Broadcast | internal/realtime/websocket.go:423-434 | every client is offered the frame once |
| Hub.Server.BroadcastNotification | internal/realtime/websocket.go:436-453 | a client is offered it exactly when it has no filter, or its attention level is at least the filter's, where both have one, and its type is one of the filter's, if that lists any |
| Hub.Server.BroadcastLayerUpdate | internal/realtime/broadcast.go:220-277 | exactly the subscribers are offered it, and those that overflowed are returned for unregistering |
| Hub.Server.QueueUpdate | internal/realtime/broadcast.go:139-184 | appends to one layer's pending list |
| Hub.Server.FlushBatchedUpdates | internal/realtime/broadcast.go:23-117 | one flush visits every drained layer once, offers every client for each what FlushTo says, and empties the queue |
| Hub.Server.FlushTo | internal/realtime/broadcast.go:45-114 | one client's turn for one layer, from its own fields: nothing if it is not subscribed or frozen; otherwise one frame with, up to where the batch is cut, exactly the updates inside its range and inside its box, under the conditions of FilterUpdates, and no frame if there are none |
| Hub.FlushedLayers | internal/realtime/broadcast.go:37-114 | the frames of one flush for a client are one each for the layers that have something for it, in the order of the visits |
| SparseFill.MergeCells | internal/realtime/ondemand.go:361-392 | the merge loops take the first item of every new external ID, entity and observation together |
| SparseFill.FreshMeaning | internal/realtime/ondemand.go:361-392 | the IDs taken are those fetched minus those known, each once, and every item taken was fetched |
| SparseFill.ArrivalOrderIrrelevant | internal/realtime/ondemand.go:346-392 | for every order in which the concurrent fetches arrive, the IDs are the union over cells of paired entries minus the known ones, each once |
| SparseFill.PersistOnDemand | internal/realtime/ondemand.go:510-525 | the observations shared with the caller are rewritten in place to the IDs of their rows, and exactly those of resolved entities are stored, in order, each once |
| SparseFill.BuildViewport | internal/realtime/subscribe.go:420-451 | the methods together compute the specified fill, observations position by position with entities; a viewport with at least the threshold of stored items shows exactly these, under composite IDs and as live, whatever the other sources have |
| FillSources.FilledIsFrom | internal/realtime/ondemand.go:107-239 | for every position of a viewport where its item comes from: the stored ones, then live entries of the cells, then stale items of the past, each in order, under composite IDs and marked live or stale; below the threshold an entry is taken exactly when the store has not its external ID and no entry before it brings it, and a past item exactly when neither the store nor any entry has its external ID |
| FillSources.AllAreSent | internal/realtime/subscribe.go:525-560 | after any sequence of batches of entities under composite IDs, every chunk of every filled viewport holds the next entities, each with its own observation in its own place |
| SparseFill.FetchSparseRegion | internal/realtime/ondemand.go:107-177 | stale data only closes gaps: cached and live items stay, in place |
| SparseFill.DoBackfill | internal/realtime/ondemand.go:181-239 | the stale part is the past items not cached, in order, under composite IDs |
| SparseFill.FilledIsUnique | internal/realtime/ondemand.go:107-177 | external IDs are unique when the store's two answers have unique IDs, and are those of all three sources |
| SparseFill.FoundIff | internal/realtime/subscribe.go:517-541 | the lookup by ID finds an entity's own observation exactly when that still carries the composite ID, and otherwise none |
| SparseFill.ShownWithObservationIff | internal/realtime/ondemand.go:404-522 | of a filled viewport exactly the live entities resolved to a row under another ID are not found with their observation |
| SparseFill.ShownFromRowsIff | internal/infra/sqlite/entity.go:38-72 | in terms of the rows before the fill: exactly the live entities that had a row under an ID other than the composite one, in a layer whose lookup worked; new rows lose none |
| SparseFill.AllAreShown | internal/realtime/ondemand.go:385-386 | after any sequence of batches of entities under composite IDs, every entity of every filled viewport is found with its own observation |
| SparseFill.ForeignRowHidesObservation | internal/realtime/ondemand.go:510-522 | a row under another ID hides one live entity's observation |
| Registry.AlwaysReflects | internal/domain/dynamic_registry.go:48-158 | after every sequence of calls both maps are what the history says: each source's latest layer, and each layer's sources in the order they joined |
| Registry.ExactInverses | internal/domain/dynamic_registry.go:48-158 | a source is in a layer's list once if that is its layer and not at all otherwise, and layers with a list are exactly those with a source |
| Registry.DynamicSourceRegistry.Register | internal/domain/dynamic_registry.go:48-67 | the method's statements have the specified effect, including the early return |
| Registry.DynamicSourceRegistry.Unregister | internal/domain/dynamic_registry.go:132-143 | the same for removal |
| Registry.DynamicSourceRegistry.RemoveFromLayerLocked | internal/domain/dynamic_registry.go:147-158 | takes one source out of a list and drops the list when empty |
| Registry.DynamicSourceRegistry.RegisterWithDisplay | internal/domain/dynamic_registry.go:70-83 | last settings win, with the previous origins folded in from the second registration on |
| Registry.DynamicSourceRegistry.AllLayerTypes | internal/domain/dynamic_registry.go:400-408 | in every reachable state, the range of the forward map, each once |
| Origins.MergeMediaOrigins | internal/domain/dynamic_registry.go:92-121 | the in-place merge, also of an object with itself |
| Origins.SlotAfterRun | internal/domain/dynamic_registry.go:70-121 | after every sequence of registrations a slot is unrestricted exactly when a declaration since the last gap was, otherwise exactly the union, each origin as often as the last declaration lists it and once otherwise, sorted from the second registration on |
| Origins.RepeatFreeIff | internal/domain/dynamic_registry.go:92-121 | a slot repeats no origin exactly when its last declaration repeats none |
| Origins.SameOutcomeIff | internal/domain/dynamic_registry.go:70-121 | any two registration histories, gaps included, leave the same contents in a slot exactly when they declare the same since the last gap, and from two registrations on then the same list |
| Origins.LoadOrderSameOrigins | internal/domain/dynamic_registry.go:85-121 | when all configurations declare the slot, every load order gives the same origins |
| Origins.LoadOrderIrrelevantIff | internal/domain/dynamic_registry.go:85-121 | and the same list exactly when some configuration is unrestricted or the last ones of both orders repeat the same origins |
| Origins.LoadOrderIrrelevant | internal/domain/dynamic_registry.go:85-121 | when all configurations declare the slot and none lists an origin twice, every load order gives the same list |
| Origins.RepeatsDependOnOrder | internal/domain/dynamic_registry.go:92-121 | two configurations, one listing an origin twice, give different lists in the two orders |
| Origins.IdempotentIff | internal/domain/dynamic_registry.go:92-121 | when registering again what was registered changes nothing |
| Origins.MergeIsIdempotent | internal/domain/dynamic_registry.go:92-121 | it changes nothing from the second registration on when no configuration lists an origin twice |
| Origins.GapLosesOrigins | internal/domain/dynamic_registry.go:92-121 | three configurations, one without the slot, for which the load order decides whether an origin is kept |
| Origins.SortedIsUnique | internal/domain/dynamic_registry.go:117-119 | any correct sort gives the model's list |
| Origins.BelowIff | internal/domain/dynamic_registry.go:119-119 | the order of sorting is the lexicographic one |
| Dedup.KeysEqualIff | internal/ai/analysis/engine.go:680-689 | for NUL-free values the hashed bytes are equal exactly when all key fields are |
| Dedup.NulCollision | internal/ai/analysis/engine.go:680-689 | with a NUL they can be equal for different values, for any two fields |
| Dedup.NulFreeNeededIff | internal/ai/analysis/engine.go:680-689 | of the lists without repeated fields only those of at most one field are safe whatever the values hold |
| Dedup.ComputeDedupKey | internal/ai/analysis/engine.go:680-689 | the loop hashes field, NUL, value, NUL for each field in order |
| Dedup.DedupRecords | internal/ai/analysis/engine.go:694-744 | drops exactly the records with a recent key, by position, in order, keys under the new positions; nothing without configuration, with a bad window or a failed lookup |
| Dedup.MatchRecordsByExternalId | internal/ai/analysis/engine.go:1365-1386 | a record is matched exactly when the item's external ID is a non-empty string that normalises as the record's does and the item's layer type, if a non-empty string, is the record's; order and number are those of the records |
| Dedup.BestRepeatsMost | internal/ai/analysis/engine.go:1423-1460 | the record picked for an item is the first of those whose metadata repeat most of its non-empty strings |
| Dedup.PickRecordForItem | internal/ai/analysis/engine.go:1423-1443 | the first record that repeats most of the item's strings |
| Dedup.DedupRecordForItem | internal/ai/analysis/engine.go:1404-1417 | each key field is the item's own if it has it, else its record's |
| Dedup.StoredKeyIsRecordKeyIff | internal/ai/analysis/engine.go:1163-1168 | the stored key is the record's own exactly when the item omits or repeats each of its key fields |
| Dedup.NamedLayerKey | internal/ai/analysis/engine.go:1353-1386 | of records that share an external ID across layers, an item that names one layer and omits or repeats the key fields has the key of the record of that layer |
| DedupRuns.NamedLayerIsStored | internal/ai/analysis/engine.go:1091-1224 | and its insight is stored under that key, with its time and expiry |
| DedupRuns.StoreResultsArray | internal/ai/analysis/engine.go:1091-1224 | one insight for exactly the usable items that pass the gate and are written, in order, with the time, an expiry if there is a retention and the stored key if there is a deduplication; a summary without a key for an empty answer |
| DedupRuns.DroppedIffKeyStored | internal/ai/analysis/engine.go:694-744 | on every run of runs in which insights outlive the window, a record is dropped exactly when, inside the window, an insight was stored under its key |
| DedupRuns.ReportedIsDropped | internal/ai/analysis/engine.go:694-744 | in such a run a record with the key fields of one faithfully reported inside the window is dropped, whatever else was stored |
| DedupRuns.DroppedIff | internal/ai/analysis/engine.go:694-744 | if moreover every stored item was faithful and no value holds a NUL, exactly those records are dropped |
| DedupRuns.DroppedAfterCleanupIff | internal/infra/sqlite/ai_insight.go:145-175 | without any assumption on retention: right after a cleanup a record is dropped exactly when an insight under its key is inside the window and has not expired |
| DedupRuns.ShortRetentionForgets | internal/infra/sqlite/ai_insight.go:145-175 | a run that lets a record through again inside the window, for every retention no longer than it and every record that carries its own external ID where that is a key field |
| DedupRuns.RunsAreApart | internal/ai/analysis/engine.go:694-744 | a faithful insight that repeats an earlier run's key comes more than a window later, if insights outlive the window |
| Retry.RetryableComplete | internal/llm/retry.go:18-46 | at most maxRetries + 1 calls; the outcome is the first answer or final error, or cancellation while backing off |
| Retry.CompletesOnce | internal/llm/retry.go:18-46 | calls and outcome are determined by the answers |
| Retry.TransientIsRetryable | internal/llm/retry.go:50-81 | what the worker calls transient has been retried |
| Retry.RetryableIff | internal/llm/retry.go:50-81 | an error is retried exactly when it wraps one of two sentinels or one of eleven texts occurs in its message |
| Retry.TransientIff | internal/ai/enrichment/worker.go:780-788 | the worker's own test: the two sentinels and two of these texts |
| Enrichment.AskModel | internal/ai/enrichment/worker.go:457-529 | at most three rounds, each after an answer that did not fit the schema and with one more correction; a usable answer or a failure of the class the last round determines |
| Enrichment.DialogueMeaning | internal/ai/enrichment/worker.go:457-529 | a dialogue opens with the prompt, after a request for JSON if there is a schema; each answer the schema rejects is followed by all that was said and one correction, the third ends it; the result is what the schema makes of the last answer, and without one the answer as read or its text |
| Enrichment.NineCalls | internal/ai/enrichment/worker.go:483-529 | the nested loops make at most nine provider calls |
| Enrichment.ProcessOperation | internal/ai/enrichment/worker.go:354-614 | every normal return leaves no row, or a row skipped, failed, pending then completed, or pending then failed; with its patch, caches and result |
| Enrichment.TerminalStatus | internal/ai/enrichment/worker.go:354-614 | completed exactly when one patch took effect; caches only then; at most nine calls |
| Enrichment.ApplyOutputMapping | internal/ai/enrichment/worker.go:618-633 | the allowlist lets through exactly the mapped fields the result has |
| Enrichment.ProcessJob | internal/ai/enrichment/worker.go:333-350 | all operations run, and the job is announced complete exactly when none failed |
| PromptCache.UsedIsValid | internal/ai/enrichment/worker.go:438-454 | on every run in which no operation follows one with its prompt that leaks into it, every result used fits the schema, cached or not |
| PromptCache.LeaksIff | internal/ai/enrichment/worker.go:438-454 | for any two operations and prompt, a run of one after the other uses a result no validation accepts exactly when the first caches and the second has a schema that is not the first's |
| PromptCache.SharedPromptLeaks | internal/ai/enrichment/worker.go:438-454 | such a run for every such pair |
| Geocoder.SharedKeyIff | internal/geocoder/cached.go:101-111 | queries share an entry exactly when they are the same text or points that format alike |
| Geocoder.EntryMeaning | internal/geocoder/cached.go:115-151 | what is stored is read back as what it was: a match never as a no-match |
| Geocoder.ForwardAgrees | internal/geocoder/cached.go:61-78 | on every run, with expiry and damage at any step, a forward answer is the provider's, or the provider just failed |
| Geocoder.ReverseAgreesNearby | internal/geocoder/cached.go:81-97 | a reverse answer is the provider's for some point with the same four decimals |
| Geocoder.KeptIsServed | internal/geocoder/cached.go:61-97 | an answer is served again, whatever the provider would say now, exactly when its write and the later read work and it was a match that can be encoded, or a no-match and those have a TTL |
| Geocoder.ErrorsAreNotCached | internal/geocoder/cached.go:69-77 | leaving the failed calls out of any run gives the same cache |
| Geocoder.CachedGeocoder.Geocode | internal/geocoder/cached.go:61-97 | lookup, then provider, then store, as specified |
| Geocoder.CachedGeocoder.Store | internal/geocoder/cached.go:132-151 | what is written, if anything |

## Left out

- Transports, JSON encoding of messages, logging, UUIDs, timers, metrics: messages are values, and a marshalling failure does not occur.
- SQLite repositories and size caps: their documented contracts (`internal/domain/repository.go:42-85`) are the assumptions; queue, page and fill results are parameters.
- IEEE floats: coordinates, areas and limits are exact reals; durations and timestamps are unbounded integers, so Duration overflow and saturation are not modelled.
- Haversine distances, grid generation, rate limiting, CEL, JSON Schema, SGP4 propagation, `ParseFloat`, `TrimSpace`, SHA-256 and the ordering of attention levels: parameters, or taken to be injective where said.
- The bound `maxClients`: it is checked before the client is registered and is not an invariant.
- Goroutine liveness after shutdown: readers and new connections block once `Run` has returned.
- The capacity of the server's own broadcast, register and unregister channels, and the skipped unregister when that channel is full; any unregister may be late or missing.
- A client's turn in a flush reads its view in one step; the code takes the client's lock several times, so a concurrent message may show halfway.
- The indicator branch of `SendSnapshotToClient`, `BroadcastSnapshot`, `BroadcastCCTVFrame` and replays of time-range queries.
- The cooldown gates of backfill and on-demand fetches: whether a fill happens is a parameter of `SparseFill`; the time-range gate is modelled.
- Pointers shared between parsed observations of one fetch: every position holds its own observation, so only the sharing between a fill and its persistence is modelled.
- The grouping of the row lookup by layer: `SparseFill.RowsFor` gives its result, and the fill methods take the resolved map as given.
- Cursors a client forges: negative offsets read as zero, and JSON other than the canonical form is not decoded.
- Sharing of backing arrays between Go slices, in the registry's lists and in origins read from a source file; one configuration object registered for two layers.
- `DynamicSourceRegistry` settings that are plain map writes.
- `storeSingleInsight`: it stores a hash over all keys of the run, which is no record's own key, so nothing is promised about later runs.
- Overlapping runs of one analysis: the engine's run lock excludes them, and one clock reading per run stands for the ones made while its answer is stored.
- Associations, references and notifications of insights; notifications and coordinate updates of enrichment, which cannot change an operation's outcome.
- Failing writes to the audit log, panics in an operation, and the reaper that later fails the rows these strand.
- Hub.Client.HandleViewportUpdate: does not state the snapshot the handler builds and sends, which is `SparseFill.BuildViewport` followed by `Snapshots.SendSnapshot`.
- DedupRuns.RunsAreApart: does not cover items that match no record or change a key field, since their stored key is not a record's.
