# Verified model of the CRM backend's protocols and algorithms

The backend is a multi-tenant CRM: FastAPI pods, Celery workers, Postgres with row-level
security, Redis. Most of it is record keeping. This project models the parts that are
algorithms or protocols and proves what they guarantee, over every input, every run or
every interleaving:

| file | what it models |
|---|---|
| `RateLimiter.dfy` | the Redis sliding-window limiter, as a class over sorted sets and as a protocol in which callers sit between its two round trips |
| `Middleware.dfy` | the route limits, the bucket key, and routes of different limits sharing a bucket |
| `Campaign.dfy` | the campaign executor: overlapping sends, durable rows, a volatile run, one transaction per chunk, pauses, lost workers and redelivery; and the executor's own loop as a class whose every execution is a run of that protocol |
| `WebSocket.dfy` | the socket registry: nested maps of shared list objects, changed in place |
| `FanOut.dfy` | local dispatch: send loops suspended at every await while sockets connect, disconnect, fail and are pruned; and the loops as methods |
| `Cluster.dfy` | many pods on one broadcast channel, with the local fallback |
| `Chatbot.dfy` | the worklist traversal of user-drawn flows |
| `Metrics.dfy` | label keys, the series cap with its overflow bucket, counters, histograms |
| `NormalizePath.dfy` | the three regex passes over URL paths |
| `Routing.dfy` | agent routing: sticky, scoring and least-loaded strategies, capacities, rounding |
| `Tenancy.dfy` | the policies the migrations install, statements under them, sessions, non-interference |
| `Retention.dfy` | the retention sweep, a client of the row policies |
| `Wrappers.dfy` | `Option`, `Result` and two lemmas several modules need |

Code that changes state step by step is written as methods and classes, each proved equal
to a function of the old state; the theorems are about those functions and about runs.

`dafny verify dfyconfig.toml` checks everything.

## What the proofs found

Where the code and its documentation disagree the model follows the code.

* `RateLimiter.check` is documented as atomic. It is two round trips, and with k callers
  between them a window can hold limit + k - 1 requests. `FreshKeyBound` and
  `BoundIsReached` show that this is exact; without overlap the limit itself holds.
* The bucket key cuts the path at the second slash, but `find` answers -1 when there is
  none, so the key of `/v1/deals` is `/v1/deal`: it shares a bucket with another part and
  not with `/v1/deals/7` (`BucketIsFirstPart`, `CollectionAndItemDiffer`). Path and client
  are joined by a colon, which both may contain, so two clients can share a key over
  different paths (`BucketsAreApart`, `ColonsCollide`). Limits belong to shared buckets
  rather than to routes; `MixedLimitsBound` is what remains true.
* Nothing keeps a campaign from being sent twice. `send_campaign` reads the status without
  a lock (`backend/app/services/campaign_service.py:66-92`, `138-147`), and no unique key
  covers a campaign's contacts
  (`backend/alembic/versions/c1d2baf5e47d_initial_schema.py:521-535`), so two overlapping
  sends both insert the audience and both enqueue a task (`CanBeSentTwice`). Every contact is
  messaged twice and the counters are twice the total (`SentTwiceCountsTwice`); a second send
  that takes effect while a run is under way, or one that makes the pending rows more than
  the executor's LIMIT, leaves rows pending under the status "sent". A send that outlives a
  pause, or the whole run, sets the campaign going again (`PauseCanBeOverruled`,
  `LateSendAddsUp`).
* A pause that lands after the last chunk check is overwritten by "sent"
  (`LatePauseIsLost`); an earlier one is final when no send is open (`EarlyPauseSticks`).
* A campaign can stay "sending" for good in three ways. A worker lost after the last chunk
  commit and before the final stats does it, because the redelivered task finds no
  recipients and returns (`CrashBeforeStats`). An exception does it while recipients are
  still pending, because the task is not run again (`ExceptionsAbandon`). And nothing has
  to fail at all: `send_campaign` enqueues the task before its transaction commits, a
  worker that takes the task in between sees a draft and skips it, and the campaign is
  committed as "sending" with all its recipients pending and nobody left to serve them
  (`SendCanBeLost`, `LostSendIsFinal`). `CompletesIffServed` says exactly which sending
  campaigns can still complete.
* The final counters of a campaign are those of the last run only. `CompletionIsExact` says
  when they add up to the total and what is pending at "sent", for campaigns sent once or
  often, and `CountersAreExact` what each of them counts. That no earlier run settled
  anything is not part of the exact condition: in `LateSendAddsUp` one did, and the
  counters add up.
* The retention sweep promises that one tenant's failure does not poison the others. Its
  settings are read outside the `try`, so one tenant's bad setting ends the sweep for all
  tenants listed after it (`RaisesIffBadSettings`, `LoggedIffSettingsGood`). Failures
  inside the transaction are isolated as promised.
* The sweep's DELETEs reach other tenants. Foreign keys do not look at companies, and
  `start_conversation` (`backend/app/api/v1/conversations.py:48-80`,
  `backend/app/services/conversation_service.py:102-126`) stores a conversation on any
  contact id it is given. When the contact's own tenant purges it, the cascade removes the
  other tenant's conversation and messages (`TenantsMayBorrow`, `ForeignRowsCanGo`).
  `ForeignRowsStayIff` says exactly when a purge leaves the other tenants alone; what a
  sweep removes is exact in either case (`SweepIsExact`).
* Agent loads are read one agent at a time and before the chosen assignment is stored, so k
  overlapping routings can take an agent k - 1 conversations beyond capacity, and no further
  (`OverlapBound`, `OverlapBoundIsReached`).
* `normalize_path` is not idempotent on every path: text glued behind a UUID can complete
  a new one. `IdempotentIffNotGlued` gives the exact condition.
* Label values are not escaped. A label set has its key to itself if and only if it is empty
  or a single label without `="` in its key or value (`OwnKeyIff`): every set of two or more
  labels shares its key with some other set, and only because labels may contain quotes
  (`LabelKeyIsInjective`). `route` is taken from the request path, which may contain them
  (`backend/app/core/middleware.py:51-55`); which keys get a series is settled all the same
  (`KeysOfTheFirst`).
* A name that contains a brace can feed another name's series (`BracesInNamesLeak`).
  `CountersBalance` accounts for that exactly, and `SeriesAreCappedButForLeaks` bounds what
  is left. Both places that record metrics (`backend/app/core/middleware.py:52-60`) use
  constant names without braces, so no name leaks in the program as it stands.

## Model

| member | source | states |
|---|---|---|
| RateLimiter.RateLimiter.PruneAndCount | backend/app/core/rate_limiter.py:43-48 | prunes the key as the clock value demands and returns the exact count of what is left |
| RateLimiter.RateLimiter.Register | backend/app/core/rate_limiter.py:56-61 | adds the request under the clock value read first and renews the deadline; nothing else changes |
| RateLimiter.RateLimiter.Check | backend/app/core/rate_limiter.py:27-68 | refuses exactly when the pruned set is at the limit and then leaves only the pruning behind; otherwise registers and reports limit, remaining and reset; other keys untouched |
| RateLimiter.RunKeepsInv | backend/app/core/rate_limiter.py:40-61 | over every interleaving the bucket holds exactly registered requests, none that still counts is missing, and the deadline never precedes an entry's end |
| RateLimiter.IdleKeysVanish | backend/app/core/rate_limiter.py:56-61 | over every run a key holds nothing any more once nobody has called for a whole window |
| RateLimiter.DecidesAsIdealLog | backend/app/core/rate_limiter.py:43-61 | pruning and key expiry are invisible: every call decides as a log that never forgets |
| RateLimiter.RefusalsLeaveNoTrace | backend/app/core/rate_limiter.py:50-54 | deleting every refused call from a run leaves the same admitted requests, and every remaining call still passes |
| RateLimiter.ConcurrentBound | backend/app/core/rate_limiter.py:40-61 | with at most k callers between the steps, any window holds at most l + k - 1 admitted requests of limit at most l, for every l |
| RateLimiter.FreshKeyBound | backend/app/core/rate_limiter.py:40-61 | the same from an empty key, so exactly the limit when calls do not overlap, and nothing under a limit of zero |
| RateLimiter.BoundIsReached | backend/app/core/rate_limiter.py:40-61 | for every limit and overlap some run reaches limit + k - 1, so the bound cannot be improved |
| Middleware.MatchLimit | backend/app/core/middleware.py:117-124 | the loop returns the rule of the longest matching prefix |
| Middleware.GoverningRule | backend/app/core/middleware.py:99-124 | a matching rule than which no matching rule has a longer prefix, or none when none matches |
| Middleware.LimitedPaths | backend/app/core/middleware.py:102-124 | exactly the paths under /v1/ are limited |
| Middleware.BucketIsFirstPart | backend/app/core/middleware.py:166 | the key keeps the first path part if and only if a slash follows that part |
| Middleware.CollectionAndItemDiffer | backend/app/core/middleware.py:166 | a collection and its items use different buckets, and the collection shares one with a different part |
| Middleware.SamePartSameBucket | backend/app/core/middleware.py:166 | all routes below one first part share one key per client, whatever their limits |
| Middleware.BucketsAreApart | backend/app/core/middleware.py:166 | two clients never share a key on one path, and without colons in the paths keys are equal if and only if part and client are |
| Middleware.ColonsCollide | backend/app/core/middleware.py:127-144 | two paths and clients with colons that share a key |
| Middleware.MixedLimitsBound | backend/app/core/middleware.py:156-174 | in sequential runs over all routes and clients, for every l a window of a bucket holds at most l admitted calls whose own limit is at most l |
| Middleware.RequestsBound | backend/app/core/middleware.py:156-174 | the same for requests by path and client: through one bucket, at most l of those whose longest matching rule allows at most l pass in any window |
| Middleware.AdmittedAreLogged | backend/app/core/middleware.py:165-174 | the calls admitted at the middleware are, one for one, those the limiter's log holds in the window |
| Middleware.PassesIff | backend/app/core/middleware.py:156-174 | in sequential runs a limited call passes if and only if fewer than its own limit of the earlier calls to its bucket were admitted in the last 60 seconds, whatever their limits |
| Middleware.RequestPassesIff | backend/app/core/middleware.py:156-174 | the same for requests: one for a versioned path passes if and only if fewer than the limit of its longest matching rule were counted before it in its bucket within 60 seconds |
| Campaign.StepKeepsInv | backend/app/tasks/campaign_tasks.py:76-142 | every step of overlapping sends, executor, service, crash and redelivery keeps the invariant: pending rows are exactly those not settled, and each is ahead of the run, in its open transaction, or not looked at by it |
| Campaign.RunKeepsInv | backend/app/tasks/campaign_tasks.py:32-165 | the invariant holds in every reachable state |
| Campaign.SettledIsNeverDispatched | backend/app/tasks/campaign_tasks.py:76-138 | a recipient whose row is committed as sent or failed is never dispatched again, in any continuation |
| Campaign.DispatchBound | backend/app/tasks/campaign_tasks.py:88-138 | at most recipients + 80 per lost run are dispatched in all, and at most 1 + lost runs to each recipient |
| Campaign.PaceBound | backend/app/tasks/campaign_tasks.py:88-142 | within a run every half-open second holds at most 80 dispatches |
| Campaign.PauseBound | backend/app/tasks/campaign_tasks.py:92-100 | until another send takes effect at most 80 dispatches follow a pause, redeliveries included, and the campaign is not sending |
| Campaign.EarlyPauseSticks | backend/app/services/campaign_service.py:96-102 | a pause committed before the last chunk check, with no send open, is never overwritten |
| Campaign.LatePauseIsLost | backend/app/tasks/campaign_tasks.py:144-156 | from any state past its last check the run can go on to status "sent", paused or not |
| Campaign.PauseCanBeOverruled | backend/app/services/campaign_service.py:66-92 | a send that has read a draft before a pause sets the campaign sending again, with a new task |
| Campaign.CompletionIsExact | backend/app/tasks/campaign_tasks.py:144-156 | over any run, at status "sent" exactly the rows its run did not look at are pending, and the counters add up to the total if and only if everything settled is what earlier runs settled plus the last send's total; after a single send nothing is pending, and they add up if and only if no earlier run settled anything and no recipient vanished |
| Campaign.CrashFreeCompletion | backend/app/tasks/campaign_tasks.py:144-156 | sent once, without crashes and deleted recipients, sent_count + failed_count = total_recipients |
| Campaign.CountersAreExact | backend/app/tasks/campaign_tasks.py:144-156 | at status "sent", sent_count and delivered_count are the number of messages the last run handed out; if no earlier run settled anything and no row is gone, they are the rows marked sent and failed_count the rows marked failed |
| Campaign.PausedRunsReport | backend/app/tasks/campaign_tasks.py:144-156 | whatever status the run read last, its final transaction writes its own counts, leaves the total, and sets "sent" only after reading "sending" |
| Campaign.CanBeSentTwice | backend/app/services/campaign_service.py:66-92 | for any two audiences, two sends that both read the draft both take effect: all rows pending, the second's total, two tasks |
| Campaign.SentTwiceCountsTwice | backend/app/services/campaign_service.py:66-92 | such a run without crashes or deletions in which everything is settled by one run, each contact is messaged twice and the counters are twice the total |
| Campaign.LateSendAddsUp | backend/app/services/campaign_service.py:66-92 | a run in which a second send takes effect after "sent": the counters add up although an earlier run had settled recipients |
| Campaign.CrashBeforeStats | backend/app/tasks/celery_app.py:25-27 | losing the worker between the last commit and the final stats leaves everyone settled, the status "sending" and nobody who will ever serve the campaign, if and only if no row escaped the run and no send is open |
| Campaign.ExceptionsAbandon | backend/app/tasks/campaign_tasks.py:23-26 | an exception in the task leaves nobody who will ever serve the campaign if and only if no send has yet to enqueue and no queued task will find recipients; a lost worker if and only if moreover nobody is pending |
| Campaign.StuckForever | backend/app/tasks/campaign_tasks.py:84-85 | a campaign with everyone settled, no run alive and no send open stays "sending" through all redeliveries, unless it is paused, deleted or its channel is unconfigured |
| Campaign.CompletesIffServed | backend/app/tasks/campaign_tasks.py:55-156 | a sending campaign can still complete if and only if a run is alive, a send that has yet to enqueue is open, or a recipient is pending or about to be while a task is queued, taken or not yet acknowledged |
| Campaign.AbandonedForever | backend/app/tasks/campaign_tasks.py:55-85 | once nothing of that holds, no continuation hands out a message or completes the campaign, whatever is paused, deleted, lost or redelivered |
| Campaign.SendCanBeLost | backend/app/services/campaign_service.py:83-94 | for any recipients, a task taken between the enqueue and the commit is skipped, and the campaign ends up sending without a task, no crash involved |
| Campaign.LostSendIsFinal | backend/app/services/campaign_service.py:83-94 | from that state nothing is ever handed out to those recipients and the campaign never completes |
| Campaign.UnconfiguredFails | backend/app/tasks/campaign_tasks.py:63-67 | without a channel a sending campaign fails: nothing is handed out in any continuation, and only a stale pause or a deletion changes the status |
| Campaign.InitIsGood | backend/app/services/campaign_service.py:66-94 | a new campaign satisfies all invariants, so the bounds above hold from the start |
| Campaign.Executor.Execute | backend/app/tasks/campaign_tasks.py:32-165 | every execution of the task, whatever happens at its awaits, is a legal run of the protocol that ends the run |
| Campaign.Executor.SendAll | backend/app/tasks/campaign_tasks.py:87-142 | so is the chunk loop with its status check and pacing |
| Campaign.Executor.SendChunk | backend/app/tasks/campaign_tasks.py:92-142 | one chunk is one transaction of the protocol and advances by exactly the chunk |
| Campaign.Executor.SendOne | backend/app/tasks/campaign_tasks.py:103-138 | one recipient is skipped, marked sent after an enqueue, or marked failed, with the counters that go with it |
| Campaign.Executor.FinalStats | backend/app/tasks/campaign_tasks.py:144-156 | writes this run's counters and acts on the last status read |
| WebSocket.ConnectionManager.Connect | backend/app/websocket/manager.py:148-153 | appends in place to an existing list object or creates the missing maps and list |
| WebSocket.ConnectionManager.Disconnect | backend/app/websocket/manager.py:155-166 | replaces the user's list by a new object without the socket and removes what became empty |
| WebSocket.ConnectionManager.PruneDead | backend/app/websocket/manager.py:236-245 | the loop equals one replacement per dead socket followed by removing an emptied company |
| WebSocket.ConnectionManager.GetOnlineUsers | backend/app/websocket/manager.py:168-170 | the users of the company's map, none for an unknown company |
| WebSocket.ConnectKeeps | backend/app/websocket/manager.py:148-153 | no empty company or list appears, every list has one owner and no duplicates, and old list objects only grow |
| WebSocket.ConnectRegisters | backend/app/websocket/manager.py:148-153 | exactly one more socket is registered, for its own company and user |
| WebSocket.DisconnectKeeps | backend/app/websocket/manager.py:155-166 | the invariant is kept and no existing list object changes |
| WebSocket.DisconnectUnregisters | backend/app/websocket/manager.py:155-166 | exactly that registration goes |
| WebSocket.PruneKeeps | backend/app/websocket/manager.py:236-245 | pruning any list of sockets keeps the invariant and no existing list object changes |
| WebSocket.PruneUnregisters | backend/app/websocket/manager.py:236-245 | exactly the listed sockets of that company lose their registration |
| WebSocket.OneListEach | backend/app/websocket/manager.py:51-52 | two users never share a list object |
| WebSocket.OnlineMeansRegistered | backend/app/websocket/manager.py:168-170 | the users online are exactly those with a registered socket |
| FanOut.StepKeepsInv | backend/app/websocket/manager.py:128-245 | connects, disconnects, dispatches, sends, failures and prunings in any interleaving keep the pod's invariant |
| FanOut.RunKeepsInv | backend/app/websocket/manager.py:99-245 | so it holds over every run of a pod |
| FanOut.FreshInTurn | backend/app/websocket/manager.py:217-222 | the socket a loop comes to was not sent the event before and belongs to the loop's company and user, although lists grow under the iterator |
| FanOut.EndMeansAllTried | backend/app/websocket/manager.py:213-234 | a loop that reached its end has tried every socket registered when it started, disconnected meanwhile or not |
| FanOut.NeverStuck | backend/app/websocket/manager.py:213-234 | a suspended loop can always go on |
| FanOut.ListsGrow | backend/app/websocket/manager.py:152-160 | whatever happens to the registry, the list objects loops hold on to only grow at their ends |
| FanOut.OnlineIsExact | backend/app/websocket/manager.py:148-170 | users online are those with a socket neither disconnected nor pruned; a socket without a disconnect or failed send of its own is registered; no company is left empty |
| FanOut.FailedSocketsLeave | backend/app/websocket/manager.py:219-245 | a socket whose send failed is registered nowhere once the loop that tried it is over, nor in any continuation |
| FanOut.DeliveredExactlyOnce | backend/app/websocket/manager.py:128-144 | once a dispatched event is done, a socket still registered was sent it exactly once if it is one the envelope is for (company, event and target as sent), and never otherwise |
| FanOut.AudienceIsExact | backend/app/websocket/manager.py:128-144 | the branches address a company event to all of its company, a user event to that user, and anything without an event, company or known target, or a user event without user, to nobody |
| FanOut.NobodyElse | backend/app/websocket/manager.py:128-144 | whoever was sent an event is one the envelope is for, and was sent it once |
| FanOut.InChannelOrder | backend/app/websocket/manager.py:99-126 | each socket gets its events strictly in channel order |
| FanOut.Runner.SendToList | backend/app/websocket/manager.py:218-222 | the inner loop, its length re-read after every await, is a legal run and ends one list further |
| FanOut.Runner.SendLoop | backend/app/websocket/manager.py:213-234 | the whole loop with its pruning is a legal run that ends the dispatch, under any finite interference |
| FanOut.Runner.ConsumeOne | backend/app/websocket/manager.py:99-120 | one turn sends the next event exactly once to every registered socket it is for, and to nobody else |
| FanOut.Runner.DispatchLocally | backend/app/websocket/manager.py:193-209 | the fallback does the same for the envelope that could not be published |
| Cluster.FreshPodsAreGood | backend/app/websocket/manager.py:50-56 | any number of fresh pods on an empty channel satisfies the invariants, so they hold from the start |
| Cluster.AllRunsAreGood | backend/app/websocket/manager.py:99-209 | the invariants hold on all pods over every run of the whole system |
| Cluster.PublishedReachesEveryone | backend/app/websocket/manager.py:174-203 | an event published on any pod was sent exactly once, when its dispatch is over, to each addressed socket that was connected before and still is, on every pod subscribed by then |
| Cluster.BroadcastReachesTheCompany | backend/app/websocket/manager.py:174-180 | a company broadcast is sent exactly once to each surviving socket of that company on every subscribed pod, and to no other |
| Cluster.UserEventReachesTheUser | backend/app/websocket/manager.py:182-190 | a user event is sent exactly once to each surviving socket of that user in that company, and to no other |
| Cluster.OddEnvelopesReachNobody | backend/app/websocket/manager.py:132-144 | an envelope without event, company or known target, or a user event without user, is sent to nobody |
| Cluster.SubscribersStartAtTheEnd | backend/app/websocket/manager.py:99-124 | a pod that subscribes never sends what was published before |
| Cluster.PublishedReachesNobodyElse | backend/app/websocket/manager.py:128-144 | no socket of another company or user on any pod is sent it |
| Cluster.FailedPublishStaysLocal | backend/app/websocket/manager.py:193-209 | a failed publish changes no other pod and not the channel; the publisher's pod sends it to each of its matching sockets exactly once and to nobody but addressees |
| Cluster.UnsubscribedHearsNothing | backend/app/websocket/manager.py:60-78 | a pod whose subscription failed sends nothing from the channel |
| Chatbot.BuildEdgeMap | backend/app/services/chatbot_executor.py:45-52 | the map holds, for every source, its targets in drawing order with duplicates |
| Chatbot.TargetsFollowTheDrawing | backend/app/services/chatbot_executor.py:45-52 | every edge leaving a node gives one target, in the place the drawing order gives it, and there are no others |
| Chatbot.Traverse | backend/app/services/chatbot_executor.py:54-77 | exactly the existing nodes that can be walked to from the first node along drawn edges are executed, once each, nearest first, with their responses in that order |
| Chatbot.ResponsesAreTheAnswers | backend/app/services/chatbot_executor.py:69-73 | no response is lost, added or out of place: each answering node's answer stands where as many answers precede it as in the execution |
| Chatbot.RoundKeepsInv | backend/app/services/chatbot_executor.py:59-77 | each round, whichever branch it takes, keeps the queue in distance order and forgets no edge |
| Chatbot.HeadIsNearest | backend/app/services/chatbot_executor.py:59-77 | nothing unvisited is nearer than the head of the queue, duplicates and visited ids in it notwithstanding |
| Chatbot.Finished | backend/app/services/chatbot_executor.py:59-77 | an empty queue means the executed nodes are the reachable ones, in the order defined without queue or visited set |
| Chatbot.ExecuteNext | backend/app/services/chatbot_executor.py:60-67 | the head, when new and existing, is the first id queued so far that exists and was not executed |
| Chatbot.NodeMap | backend/app/services/chatbot_executor.py:57 | maps every id of the drawing to a node with that id |
| Chatbot.LaterNodesWin | backend/app/services/chatbot_executor.py:57 | of several nodes with one id the last one drawn is kept |
| Chatbot.Flow.Execute | backend/app/services/chatbot_executor.py:30-83 | an empty flow returns nothing and is not counted; any other is counted once and returns the responses of that order |
| Metrics.LabelKeyIgnoresOrder | backend/app/core/metrics.py:146-150 | dictionaries with the same entries have one key |
| Metrics.LabelKeyIsInjective | backend/app/core/metrics.py:146-150 | among quote-free labels and brace-free names equal keys mean equal names and label sets |
| Metrics.OwnKeyIff | backend/app/core/metrics.py:146-150 | a label set shares its key with no other under the same name if and only if it is empty or a single label whose key and value do not contain =" |
| Metrics.QuotedLabelsCollide | backend/app/core/metrics.py:149 | a concrete pair: one label with a quote in its value and a set of two labels have the same key |
| Metrics.Metrics.CappedKey | backend/app/core/metrics.py:72-84 | a known key or one below the cap is kept, an unseen one past the cap folds into the overflow key, and only the counts change |
| Metrics.Metrics.Increment | backend/app/core/metrics.py:86-89 | adds to the counter of the capped key only |
| Metrics.Metrics.Observation | backend/app/core/metrics.py:91-96 | appends to the histogram of the capped key and keeps the last 1000 |
| Metrics.Metrics.Gauge | backend/app/core/metrics.py:98-101 | sets the gauge of the capped key only |
| Metrics.SeriesAreCappedButForLeaks | backend/app/core/metrics.py:72-101 | over any run with any names, a brace-free name has at most 501 labelled series in the three tables together besides the keys other names put among them |
| Metrics.SeriesAreCapped | backend/app/core/metrics.py:72-101 | when all names are brace-free nothing is put there, so no name has more than 501 |
| Metrics.KeysOfTheFirst | backend/app/core/metrics.py:72-84 | with any labels, quoted or not, a key other than the overflow key has a series if and only if it is among the first 500 distinct keys requested under its name |
| Metrics.OwnersAreTheFirst | backend/app/core/metrics.py:72-84 | its corollary for label sets: among plain labels a set owns a series if and only if it was among the first 500 distinct ones of its name |
| Metrics.EveryValueIsAtHome | backend/app/core/metrics.py:72-101 | over any run of brace-free names every key holds exactly what the calls at home there gave it: the sum, the latest 1000 samples, the value set last; home is the call's own key if it is among the first 500 of its name, else the overflow key |
| Metrics.SeriesKeepTheirOwn | backend/app/core/metrics.py:77-79 | a series among the first 500 goes on receiving everything recorded with its name and labels, and nothing else |
| Metrics.OverflowTakesTheRest | backend/app/core/metrics.py:80-84 | the overflow bucket receives everything else recorded under the name with labels |
| Metrics.DropsAreCounted | backend/app/core/metrics.py:80-82 | the drop count of a name is the number of its folded calls, as long as nobody uses the overflow label |
| Metrics.CountersBalance | backend/app/core/metrics.py:72-89 | over any run with any names, the counters of a brace-free name sum to its own increments plus those of names that read like its series, and so to its own alone if and only if the latter sum to zero |
| Metrics.CountersConserve | backend/app/core/metrics.py:72-89 | when all names are brace-free they always sum to the total of its increments |
| Metrics.BracesInNamesLeak | backend/app/core/metrics.py:146-150 | a concrete run in which a name with a brace feeds another name's counter |
| Metrics.HistogramIsRecent | backend/app/core/metrics.py:91-96 | with any names a histogram is exactly the last 1000 samples routed to its key |
| NormalizePath.NormalizeIsSegmentwise | backend/app/core/metrics.py:45-56 | on every path the three whole-string passes equal one map over the segments |
| NormalizePath.SlashesAreKept | backend/app/core/metrics.py:45-56 | no path gains or loses a slash |
| NormalizePath.NoIdsRemain | backend/app/core/metrics.py:41-56 | after the first slash no all-digit segment and no hexadecimal segment of 16 or more is left |
| NormalizePath.IdsAndNothingElse | backend/app/core/metrics.py:41-56 | a segment without a UUID becomes the placeholder if and only if it is a number or 16 or more hexadecimal digits, a final newline left standing, and otherwise stays as it is |
| NormalizePath.LeftmostUuidGoes | backend/app/core/metrics.py:37-53 | the leftmost UUID of a text becomes the placeholder and the scan goes on behind it |
| NormalizePath.UuidShape | backend/app/core/metrics.py:37-40 | a UUID is 8-4-4-4-12 hexadecimal digits of either case |
| NormalizePath.LeftoverIffGlued | backend/app/core/metrics.py:37-53 | the first pass leaves a UUID standing if and only if a UUID is directly followed by a completing tail |
| NormalizePath.IdempotentIffNotGlued | backend/app/core/metrics.py:45-56 | the result is idempotent on exactly the paths without such a tail |
| NormalizePath.IdempotentOnWholeUuids | backend/app/core/metrics.py:45-56 | in particular whenever the UUIDs fill whole segments |
| NormalizePath.GluedExample | backend/app/core/metrics.py:45-56 | a concrete path on which normalizing twice differs from once |
| NormalizePath.SegmentMatch | backend/app/core/metrics.py:41-42 | a match at a slash depends on the segment behind it alone, and covers it or fails |
| Routing.RoundRobinFallback | backend/app/services/routing_engine.py:141-155 | the loop picks the least-loaded candidate with room, in query order |
| Routing.LeastPickIsLeast | backend/app/services/routing_engine.py:147-155 | nobody is picked if and only if everybody is full; otherwise the first of the least loaded with room |
| Routing.ScoringFallback | backend/app/services/routing_engine.py:117-139 | the loop and the sort pick the first best-scored candidate with room, with its score |
| Routing.SortHeadIsFirst | backend/app/services/routing_engine.py:137-139 | the head of the stable descending sort is the earliest of the best |
| Routing.BestPickIsBest | backend/app/services/routing_engine.py:126-139 | nobody is picked if and only if everybody is full; otherwise nobody with room scores more and nobody earlier as much |
| Routing.ChosenIsNearlyBest | backend/app/services/routing_engine.py:166-194 | rounding hides at most 0.01 of the exact score |
| Routing.RoundingIsClose | backend/app/services/routing_engine.py:194 | rounding to two places moves a score by at most half a hundredth |
| Routing.RoundingGivesHundredths | backend/app/services/routing_engine.py:194 | a score is a whole number of hundredths, and of two equally near ones the even |
| Routing.ScoreInRange | backend/app/services/routing_engine.py:166-194 | scores lie between 0 and the sum of the weights plus 20, duplicate skills or not |
| Routing.DefaultScoreAtMostSticky | backend/app/services/routing_engine.py:61-71 | with the default weights never above the 100 of a sticky assignment |
| Routing.EachConversationCosts | backend/app/services/routing_engine.py:174-175 | each conversation costs an agent the same share of the workload weight |
| Routing.LessLoadScoresMore | backend/app/services/routing_engine.py:174-175 | of two agents alike but for their loads the less loaded one has the larger score |
| Routing.BareScore | backend/app/services/routing_engine.py:174-192 | where nothing is asked for, an idle agent has the whole workload weight, a full one none of it, and being online earns the bonus |
| Routing.OneMoreTag | backend/app/services/routing_engine.py:178-182 | one more skill earns its share of the skills weight if it is asked for, else nothing |
| Routing.OneMoreLanguage | backend/app/services/routing_engine.py:185-188 | one more language earns 20 if it is the one asked for, else nothing |
| Routing.NoSkillsRecord | backend/app/services/routing_engine.py:178-185 | an agent without a skills record scores as one whose record is empty |
| Routing.GoingOnline | backend/app/services/routing_engine.py:191-192 | being online earns the bonus if the policy prefers it |
| Routing.DefaultWeights | backend/app/services/routing_engine.py:25-35 | the default weights come to 40 for an idle agent, 10 for being online, 30 for all skills and 20 for the language |
| Routing.BetterIsNotPassedOver | backend/app/services/routing_engine.py:117-139 | no agent with room that is as good as the chosen one in load, skills, language and presence, and clearly ahead in one, is passed over |
| Routing.RoutingEngine.AssignConversation | backend/app/services/routing_engine.py:44-115 | the branches of the policy as one function, and exactly one decision recorded |
| Routing.StickyComesFirst | backend/app/services/routing_engine.py:61-71 | the previous agent is taken, with score 100 and before any fallback, if and only if the policy is sticky and that agent is active, on shift and has room; the queue and an unset team assign nobody |
| Routing.RoundRobinDecides | backend/app/services/routing_engine.py:85-93 | otherwise round robin, for a team too, assigns a least loaded agent that has room, or nobody when none has |
| Routing.ScoringDecides | backend/app/services/routing_engine.py:78-83 | and scoring an agent that has room and no lower score than any other that has, with that score |
| Routing.LoadIsOpenAndPending | backend/app/services/routing_engine.py:248-256 | an agent's load is its open and its pending conversations and no others |
| Routing.EligibleKeepsOrder | backend/app/services/routing_engine.py:242-246 | the eligible agents are the active ones, each once and in query order |
| Routing.ChosenHasRoom | backend/app/services/routing_engine.py:61-97 | whoever is chosen, by whichever strategy, is active and below capacity |
| Routing.NobodyIffAllFull | backend/app/services/routing_engine.py:117-155 | under scoring or round_robin nobody is chosen if and only if every active agent is full |
| Routing.ArrivalIsStored | backend/app/services/routing_engine.py:44-115 | a new conversation is stored with the agent chosen for it, whose load grows by one, and nothing else changes |
| Routing.LaterStepsMoveOne | backend/app/services/routing_engine.py:44-115 | routing again moves one conversation to the agent chosen, if there is one; closing takes it off its agent's load |
| Routing.RunKeepsCapacity | backend/app/services/routing_engine.py:44-115 | over any run of arrivals, re-routings and closures served one after the other, under any policies, no agent exceeds the maximum |
| Routing.OverlapBound | backend/app/services/routing_engine.py:44-155 | each load is read at its own moment; when at most k routings overlap between their first read and storing the choice, no agent exceeds the maximum by more than k - 1, in any interleaving |
| Routing.ReadAtOnce | backend/app/services/routing_engine.py:44-155 | a routing whose loads are all read in one state decides as AssignConversation does |
| Routing.AloneIsNext | backend/app/services/routing_engine.py:44-115 | a routing that overlaps with no other does exactly what the sequential step does |
| Routing.NothingToRoute | backend/app/services/routing_engine.py:44-115 | and a request that routes nothing is over at once |
| Routing.OverlapBoundIsReached | backend/app/services/routing_engine.py:248-256 | for every k and every maximum some run reaches that load, so the bound cannot be improved |
| Routing.BalanceOverRuns | backend/app/services/routing_engine.py:141-155 | over any run of plain arrivals the gap among not-yet-full agents stays within the larger of the initial gap and 1 |
| Tenancy.EnableAll | backend/alembic/versions/66b2269a3409_harden_rls_policies_against_unset_tenant.py:101-112 | the loop gives exactly the listed tables both tenant policies in the chosen form and touches no other policy |
| Tenancy.Migrate | backend/alembic/versions/7c2592f64503_allow_public_read_on_published_landing_.py:31-42 | both upgrades together give every tenant table the hardened policies and landing pages the public one besides |
| Tenancy.HardenedMeaning | backend/alembic/versions/66b2269a3409_harden_rls_policies_against_unset_tenant.py:49-74 | no access raises; reading takes the row's tenant or a published page, writing and inserting take the tenant |
| Tenancy.ReadsFollowPolicies | backend/alembic/versions/66b2269a3409_harden_rls_policies_against_unset_tenant.py:49-74 | a SELECT returns, unchanged, exactly the matching rows the installed policies let its session read |
| Tenancy.InsertsFollowPolicies | backend/alembic/versions/66b2269a3409_harden_rls_policies_against_unset_tenant.py:64-71 | an INSERT is denied, finds a duplicate, or adds exactly its row, as the policies and the keys say |
| Tenancy.UpdatesFollowPolicies | backend/alembic/versions/66b2269a3409_harden_rls_policies_against_unset_tenant.py:56-63 | an UPDATE is denied if and only if it would turn a row it touches into one the policies do not let it write; otherwise it changes exactly the matching rows they let it write, and counts them |
| Tenancy.DeletesFollowPolicies | backend/alembic/versions/66b2269a3409_harden_rls_policies_against_unset_tenant.py:56-63 | a DELETE removes exactly the matching rows the policies let it write, and counts them |
| Tenancy.StrictRaises | backend/alembic/versions/66b2269a3409_harden_rls_policies_against_unset_tenant.py:77-98 | the form before the hardening raised on every row when no tenant was set |
| Tenancy.JudgePages | backend/alembic/versions/7c2592f64503_allow_public_read_on_published_landing_.py:36-42 | the public policy, OR'ed with the others, adds reading of published pages and nothing else |
| Tenancy.StepIsAlike | backend/app/core/database.py:56-69 | one statement under a tenant answers alike on two databases alike for that tenant, keeps them alike and touches no foreign row |
| Tenancy.NonInterference | backend/app/core/database.py:72-92 | so does a whole transaction of an adaptive client, committed or rolled back |
| Tenancy.LongSessionsAreAlike | backend/app/core/database.py:56-69 | so does a whole session of a client that commits as often as it likes, names its own tenant again or forgets to, and goes on after errors |
| Tenancy.NamelessSessionsSeePages | backend/app/core/database.py:56-69 | a session that never names a tenant answers from published pages alone and stores nothing |
| Tenancy.CommittedIsTransaction | backend/app/core/database.py:72-92 | a transaction is a chain of statements, each on what the one before it left: without an error all of them ran and the last database is stored; otherwise the first error is the last answer and nothing is |
| Tenancy.SavingCommits | backend/app/core/database.py:56-69 | a session that names its tenant, plays a client and commits stores what a transaction of that client stores |
| Tenancy.CommitForgetsTheTenant | backend/app/core/database.py:56-69 | a commit stores what the transaction worked on and ends the tenant setting: the next statement sees pages alone and changes nothing |
| Tenancy.CollisionsLeak | backend/app/core/database.py:72-92 | without the assumption on keys that is false |
| Tenancy.WithoutTenant | backend/alembic/versions/66b2269a3409_harden_rls_policies_against_unset_tenant.py:46-48 | without a tenant only published pages are visible and nothing can be changed |
| Tenancy.Session.TenantSession | backend/app/core/database.py:72-92 | a client's statements run in their order under its tenant; if none fails what they left is stored, at the first error nothing is, and the tenant is gone afterwards |
| Tenancy.Session.Commit | backend/app/core/database.py:83-92 | the changes are stored and the setting no longer names a tenant |
| Retention.PurgeIsExact | backend/app/tasks/retention_tasks.py:102-144 | exactly the doomed rows go, whatever their company: the tenant's old contacts, old conversations and stale AI contexts, and everything that hangs on them; the only assumption is that references resolve |
| Retention.PurgeKeepsLinks | backend/app/tasks/retention_tasks.py:110-144 | no conversation loses its contact and no message, decision or AI context its conversation |
| Retention.MessagesFollow | backend/app/models/message.py:26-30 | a message or routing decision goes if and only if its conversation goes |
| Retention.ForeignRowsStayIff | backend/app/tasks/retention_tasks.py:101-144 | a purge leaves every other tenant's rows alone if and only if none of them hangs on a row of its own that goes |
| Retention.TenantsMayBorrow | backend/app/services/conversation_service.py:118-126 | the policies let a tenant store a conversation and messages on another tenant's contact |
| Retention.ForeignRowsCanGo | backend/app/models/conversation.py:27-31 | such a conversation and its messages go when the contact's own tenant purges the contact |
| Retention.PurgeTenantEffect | backend/app/tasks/retention_tasks.py:100-168 | one transaction removes exactly the doomed rows, adds one audit row and breaks no link |
| Retention.NothingDoomedIsLeft | backend/app/tasks/retention_tasks.py:100-168 | afterwards nothing is left that a purge of that tenant with the same cutoffs would take |
| Retention.KeptOrDoomed | backend/app/tasks/retention_tasks.py:83-185 | over a whole sweep a row is lost if and only if some completed tenant dooms it, judged in the database before the sweep |
| Retention.SweepIsExact | backend/app/tasks/retention_tasks.py:83-185 | the database after a sweep is the rows no completed tenant dooms, unchanged, and the audit rows of the completed tenants |
| Retention.AuditsAreWritten | backend/app/tasks/retention_tasks.py:146-168 | every completed tenant has its audit row at the end |
| Retention.OthersAreUntouched | backend/app/tasks/retention_tasks.py:178-185 | a tenant that failed or was not reached keeps all its rows if and only if none of them hangs on a row a completed tenant dooms |
| Retention.TenantsAreSeparate | backend/app/tasks/retention_tasks.py:101-144 | where foreign keys stay inside companies, a row is lost if and only if its own tenant is completed and dooms it |
| Retention.WhatIsKept | backend/app/tasks/retention_tasks.py:6-14 | under any settings live contacts, audit logs, payments and rows of unrelated tables stay, and messages stay exactly as long as their conversation |
| Retention.RetentionRules | backend/app/tasks/retention_tasks.py:6-14 | exactly: a row goes when the row it hangs on goes, or when its own tenant is completed and finds it too old: contacts by days since deletion (default 365), closed conversations by days of silence (365), AI contexts by their age (90) |
| Retention.SecondSweepIsIdle | backend/app/tasks/retention_tasks.py:81-144 | a second sweep at the same time takes exactly what tenants doom that the first did not complete, and nothing when it completed all |
| Retention.CompletedTenantsRest | backend/app/tasks/retention_tasks.py:81-144 | where foreign keys stay inside companies it takes nothing from a tenant the first one completed |
| Retention.RaisesIffBadSettings | backend/app/tasks/retention_tasks.py:83-100 | the sweep raises if and only if some tenant's settings give no cutoffs, and logs every tenant if and only if it does not |
| Retention.BadSettingsIff | backend/app/tasks/retention_tasks.py:84-98 | settings give no cutoffs if and only if one of the three values names no number, or more days than there are datetimes for |
| Retention.LoggedIffSettingsGood | backend/app/tasks/retention_tasks.py:16-19 | a tenant is logged as done or failed if and only if its settings and those of all tenants listed before it give cutoffs |
| Retention.CompletedIff | backend/app/tasks/retention_tasks.py:83-185 | with new audit keys a tenant is completed if and only if it is reached and its own transaction meets no trouble |
| Retention.BadSettingsExist | backend/app/tasks/retention_tasks.py:84-98 | a text that is no number and too many days are such settings; a falsy value is not, it stands for the default |
| Retention.PurgeInside | backend/app/tasks/retention_tasks.py:101-168 | the statements of one transaction, in order, compute the purge, or raise |
| Retention.PurgeOne | backend/app/core/database.py:83-92 | a transaction that raises leaves the database as it was, one that does not commits all of it |
| Retention.PurgeRetention | backend/app/tasks/retention_tasks.py:54-188 | the loop over tenants computes the sweep, with the tenants counted as processed and failed |

## Left out

Assumptions:

- uuid4 values never repeat, clocks of pods do not disagree, and one campaign has one executor at a time.
- A publish that raises has not reached the channel, and an enqueue that raises has not reached the queue.
- The broker delivers every event to every subscribed pod, in one order; a read error of the subscriber loses nothing.
- Contracts of Redis sorted sets, Postgres transactions and policies, and Celery redelivery are modelled, not those systems.

Behaviour that is simplified:

- NonInterference: like LongSessionsAreAlike, assumes that keys a client invents do not collide with foreign rows (CollisionsLeak shows why) and does not include foreign-key cascades; a Select answers with rows, so SQL functions and joins are out.
- MixedLimitsBound: is for calls served one after the other; overlapping calls are covered per bucket by ConcurrentBound.
- PurgeIsExact: contact tags, custom field values and campaign recipients, which cascade with a contact and have no row security, and references that are set to NULL are not rows of the model. All tables share one key space.
- PurgeRetention: the purge totals and the audit text are left out; a tenant's failure is an input. Nothing else runs during a purge: a conversation reopened between the SELECT (`backend/app/tasks/retention_tasks.py:113-120`) and the DELETE (128-130) goes although it is open by then.
- SendLoop: each send takes effect when its await ends, and other coroutines take finitely many steps; shutting a pod down is left out.
- ConnectionManager: list objects are entries of an explicit heap inside the manager, so that a send loop and the registry can hold the same one.
- SendAll: the enqueue is the dispatch; what the messaging task does afterwards is left out, as are timestamps and error texts of recipients.
- Chatbot.Flow.Execute: a node's handler is any function of the node and the nodes executed before it that may yield a response and does not raise; the individual node kinds are left out.
- ScoreInRange: scores are exact reals rounded half to even; floating point is left out.
- AssignConversation: the agent of the contact's latest conversation and the working-hours check at the present time are inputs.
- RunKeepsCapacity: manual assignment, capacity edits and reopening bypass the engine and are not among its steps. It takes requests one after the other; OverlapBound takes them overlapping.
- RunKeepsInv: the second task of a campaign sent twice waits for the first run, as one executor at a time demands; two runs over the same rows at once are left out.
- NormalizeIsSegmentwise: digits are the ASCII digits, while the regex also takes other Unicode digits.
- LabelKeyIsInjective: label values are strings, so their formatting by type is left out.
- Check: what a raised limit becomes in the HTTP response, and letting requests pass when Redis is down, are left out.

Not modelled, because it would only add easy members or is outside the core: audience
filters other than the cap, percentiles and the Prometheus text, CRUD services,
authentication, encryption, payments, e-mail, storage, reports, exports, the frontend.
