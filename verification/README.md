# A verified model of hashi-ui's stateful kernels

hashi-ui is a web front end for Nomad and Consul. Most of it passes data along; this project
models the parts that keep state, and proves what they promise. Everything is Dafny; run
`dafny verify dfyconfig.toml`.

## What is modelled

| file | what it is about |
|---|---|
| `TextLines.dfy` | lines of a byte sequence, `tail -n`, and looking at a window of a file only |
| `LineReader.dfy`, `LineReaderRuns.dfy` | the `tail -n` reader in place, and whole runs of it |
| `LineReaderErrors.dfy`, `LineReaderBounds.dfy` | which errors its calls report, when the end comes, and how large its buffer gets |
| `FollowedFile.dfy` | the window of a file that is fetched, read through that reader |
| `LongPoll.dfy` | wait indices of long-polling queries (Nomad and Consul use the same code) |
| `Subscriptions.dfy` | the subscription registry in place |
| `Connection.dfy` | one browser connection as a step machine over any number of goroutines |
| `ConnectionSafety.dfy`, `ConnectionWatchers.dfy`, `ConnectionChecks.dfy` | what holds in all its runs: registry, watchers and who is stuck, what the checks without a lock decide |
| `ConnectionQueue.dfy`, `ConnectionMessages.dfy` | the send queue, and messages end to end: from what goroutines have to say to the socket |
| `ConnectionShutdown.dfy`, `ConnectionLimits.dfy` | exactly when a closing connection can finish; runs in which promises fail |
| `ClusterTotals.dfy` | a node's share of the cluster statistics, and adding shares up |
| `WorkerPool.dfy`, `WorkerPoolSafety.dfy`, `WorkerPoolTotals.dfy` | the worker pool as a step machine: safety, totals, progress |
| `Interpolation.dfy` | `${NAME}` interpolation by repeated replaces |
| `CheckHeaders.dfy`, `AllocationHealth.dfy` | header text of a check hash; the verdict on an allocation |
| `JobHealth.dfy`, `TaskGroupScaling.dfy` | job health from two queries; scaling a task group |
| `ChartWindows.dfy`, `FileBrowser.dfy` | sliding windows of the charts; directory path and file text |

Code that changes things in place is a class or a method with loops, proved against functions;
the properties are then proved about those functions. The goroutines of a connection and of the
worker pool are step machines: each step is one thing a goroutine does without giving up the
lock or blocking, and a run is any sequence of enabled steps. `Connection` uses the same
functions (`AfterSubscribe`, `AfterUnsubscribe`, `WaitNext`, `Changed`) that the classes
`Manager` and `QueryOptions` are proved against.

## How the outside world enters

* The reader's source is a script of chunks, each with bytes, an error, both or neither; a read
  shorter than a chunk leaves the rest for the next. A script that is used up reports the end.
* Clocks are numbers passed to each call. `Do` of a watcher has any outcome (`AnyOutcome`), and nothing says
  that it returns: that a goroutine inside Do comes back is never assumed of all runs, only
  possible in some. A task's lookups have any outcome, fixed per listed node.
* Sending is two steps, choosing a message and putting it on the queue, for every goroutine and
  for the connection's own read-only error; whoever has chosen is blocked while the queue is full.
* A channel is named by the goroutine whose Subscribe made it.

## What turned out not to hold

* Two goroutines of one key can both subscribe, because the check takes no lock: exactly when
  another holds the key open at that moment (`DuplicateIff`, with a run in `DuplicateSubscribe`).
  It takes a race: a check while another holds the key open stops a goroutine for good
  (`CheckDecides`), so the other must have subscribed after the check (`DuplicateNeedsRace`).
  The wait group is then one too high for good.
* So the handler does not always return. `ReturnIff` says when it can at once, and
  `ReturnsInTheEndIff` when it can in some continuation: no key was subscribed to twice, and the
  queue has room for what must be sent before every key is given up. The socket is closed before
  the destroy channel, so a pump that has not left yet can only take one more message, fail to
  write it, and leave: it counts for one slot. Both failures have runs:
  `DuplicateLeavesWaitGroupUp`, and without any duplicate `FullQueueKeepsHandler` and, with the
  pump still there, `PumpFreesOneSlot`. `CloggedReturnsIff` is the case of a stopped pump and a
  full queue.
* A full queue that nobody empties any more holds up whoever sends on it for ever, and the
  connection itself if it is refusing an action (`SenderMovesOnIff`, `RefusalMovesOnIff`).
* A deferred Unsubscribe acts on the key: it closes another's channel exactly when its own is
  closed already and the key has been taken anew (`DeferredUnsubscribeEndsAnother`, with a run in
  `UnsubscribeEndsNewerWatch`).
* The handler can return before its goroutines: before those that have not subscribed yet and
  those that have been told to stop, and no others (`WhoOutlivesTheHandler`, with a run in
  `HandlerReturnsFirst`).
* The reader's buffer does not always stay below the search limit plus one read. It takes a
  source that hands out bytes together with an error, as Go's readers may, since the limit is not
  looked at after an error; `FailuresOverrunTheLimit` is a run. `BoundBetweenCallsIff` says for
  which sources the bound holds between calls, for all limits and calls: those in which no two
  chunks with bytes lie in one unbroken stretch of failing chunks before the end of input. At all
  times it holds for those in which, besides, none directly follows such a stretch
  (`BoundDuringCallsIff`). `BufferBound` holds for every source, with those bytes counted.
* Closing the quit channel while statistics are collected can hang the collector, for exactly
  those lists in which some node is ready (`HangsIff`). It waits inside a stream's Do, so that
  goroutine is stuck as well.
* Interpolation can depend on the order in which a map is visited: for the first loop exactly
  when the end of some value can grow into the placeholder of another name, or contains it
  (`OrderFreeIff`). A `$` that cannot is harmless, one that ends a value is not. `OrderMatters`
  is a job named `${NOMAD_GROUP_NAME}`. `AllTasksIff` has the condition for both loops, over all
  tasks of a group.
* `nodes/list.go:49-51` lacks a `return`: that watcher answers every poll, with old indices too
  (`SameIndexTwice`), and random ones for 0. Its indices are nonzero and increase exactly when
  every poll is a change, that is, when it makes no difference (`EveryPollIff`,
  `EveryPollOnSocket`).
* An absent path reads "undefined" in the file that is watched (`ReceiveProps`).
* Scaling a group with an empty name registers an unchanged job and reports success: the error of
  `changeTaskGroupCount` is dropped (`ScaledChangesOne`).
* Directory names with a slash break the way back (`BackUndoesEnter`).

## Model

| member | source | states |
|---|---|---|
| TextLines.TailMeaning | backend/nomad/allocations/helper.go:9-12 | the tail is a suffix made of exactly the last n lines |
| TextLines.TailDrops | backend/nomad/allocations/helper.go:96-116 | bytes are dropped exactly when n newlines precede the last byte, up to and including the n-th of them from the end |
| TextLines.WindowLocality | backend/nomad/allocations/file.go:60-75 | searching only the last bytes of a file finds its tail if and only if that tail fits in them, and always finds a suffix of the file |
| LineReader.Scan | backend/nomad/allocations/helper.go:97-116 | the backwards scan cuts the buffer exactly at its tail, for every number of lines |
| LineReader.LineLimitReader.FillBuffer | backend/nomad/allocations/helper.go:45-89 | the gathering branch, in place, with its end-of-input, limit and idle exits |
| LineReader.LineLimitReader.HandOut | backend/nomad/allocations/helper.go:91-127 | the rest of a read: one scan, then the buffer, then the source, with its bytes and error |
| LineReader.LineLimitReader.Read | backend/nomad/allocations/helper.go:43-128 | one call of Read: bytes, error and whole new state |
| LineReaderRuns.RunRefinesTail | backend/nomad/allocations/helper.go:43-128 | for all calls and all sources: what is returned is a prefix of tail(gathered) ++ passed, the rest is the buffer, and no byte is lost, repeated or reordered |
| LineReaderRuns.GatheredIsSettled | backend/nomad/allocations/helper.go:45-66 | once filled, what counts as gathered and what was returned never change again |
| LineReaderRuns.GatheringTerminates | backend/nomad/allocations/helper.go:26-32 | gathering ends within searchLimit * (timeLimit + 2) calls of a moving clock when no failures occur |
| LineReaderRuns.GatheringIsPatient | backend/nomad/allocations/helper.go:63-86 | while the source neither fails nor ends nor reaches the limit, gathering is over if and only if a call brought nothing later than the time limit after the last that did (or the first); until then nothing is handed out |
| LineReaderErrors.ErrorsAreReported | backend/nomad/allocations/helper.go:43-128 | in every run: failures met while gathering are reported at once, the end is held back while the buffer holds bytes, and afterwards each call reports exactly its source's error and bytes |
| LineReaderErrors.EndMeansAllReturned | backend/nomad/allocations/helper.go:91-127 | the end of input is reported only after all that is to be shown has been returned |
| LineReaderErrors.EndIsReported | backend/nomad/allocations/helper.go:43-128 | over every finite input, calls with room for a byte report the end from a bounded number of calls on |
| LineReaderBounds.BufferBound | backend/nomad/allocations/helper.go:45-66 | the buffer stays below the limit plus one read plus the bytes that came with failures |
| LineReaderBounds.BoundBetweenCallsIff | backend/nomad/allocations/helper.go:45-66 | for every source: between calls the buffer stays below the limit plus the largest read, for all limits and calls, if and only if no two chunks with bytes lie in one unbroken stretch of failing chunks before the end of input |
| LineReaderBounds.BoundDuringCallsIff | backend/nomad/allocations/helper.go:45-66 | the same at all times, if and only if besides no chunk with bytes directly follows such a stretch |
| LineReaderBounds.FailuresOverrunTheLimit | backend/nomad/allocations/helper.go:48-57 | runs in which bytes that come with failures fill the buffer without bound |
| FollowedFile.ChooseWindow | backend/nomad/allocations/file.go:60-68 | origin and offset select the whole file, or its last 30000 bytes when larger |
| FollowedFile.ShownIsSuffix | backend/nomad/allocations/helper.go:43-128 | for every source and all calls: what is shown, buffered or still to come is an end of all the source has to say, and what is shown or buffered an end of what was read |
| FollowedFile.ShownIsTailOfFile | backend/nomad/allocations/file.go:60-75 | once gathering has captured exactly the window, the user sees the last 250 lines of the file and what follows if and only if those lines fit in the window |
| LongPoll.QueryOptions.QueryChanged | backend/nomad/helper/helper.go:30-44 | one reply: new wait index and whether it counts as a change |
| LongPoll.WaitIsMaximum | backend/consul/helper/helper.go:24-38 | the wait index is the largest index since the last 0 reply, with floor 1 after a 0 |
| LongPoll.ChangedIsNewMaximum | backend/nomad/helper/helper.go:30-44 | a reply is a change exactly when it is a strict new maximum since the last 0 |
| LongPoll.EmissionsIncrease | backend/nomad/helper/helper.go:30-44 | indices handed on are nonzero and strictly increase between 0 replies |
| LongPoll.EveryPollIff | backend/nomad/nodes/list.go:49-59 | the indices of a watcher that answers every poll are nonzero and increase if and only if every poll is a change, and then they are those of one that answers on change |
| Subscriptions.Manager.Subscribe | backend/subscriber/manager.go:25-37 | counts up, keeps a channel already stored, returns the stored one, open |
| Subscriptions.Manager.Unsubscribe | backend/subscriber/manager.go:46-66 | closes exactly the key's channel, once, and counts down, never below zero |
| ConnectionSafety.RegistrySafety | backend/subscriber/functions.go:33-47 | in every reachable state: wait group == count == keys + duplicates, no double close, each mapped channel is open and still held by its maker, and no two keys share one |
| ConnectionSafety.ShutdownReturnsIffNoDuplicates | backend/connection.go:91-92 | once all goroutines are gone no key is left and the wait group is the number of duplicate subscribes |
| ConnectionShutdown.ReturnIff | backend/connection.go:88-94 | in every reachable state: the handler can return if and only if it is draining, no key was taken twice and none is left |
| ConnectionShutdown.ReturnsInTheEndIff | backend/connection.go:79-94 | a draining handler returns in some continuation if and only if no key was taken twice and the queue, with one slot more while the pump runs, has room for all that goroutines holding every key left must send before they leave; otherwise it waits for ever |
| ConnectionShutdown.CloggedReturnsIff | backend/connection.go:122-152 | with the pump stopped and the queue full: if and only if no key was taken twice and each key left has a goroutine that can leave without sending |
| ConnectionShutdown.FullQueueKeepsHandler | backend/subscriber/functions.go:135-143 | a run without duplicates after which the handler never returns: a query that holds a key must report its error on a full queue |
| ConnectionShutdown.PumpFreesOneSlot | backend/connection.go:139-148 | a run without duplicates, the pump still running, after which the handler never returns: two queries must report on a full queue, and the closed socket lets the pump take one message |
| ConnectionShutdown.WhoOutlivesTheHandler | backend/connection.go:79-94 | the handler can return if and only if every subscribed goroutine has been told to stop and no key was taken twice; those left are unsubscribed or told |
| ConnectionShutdown.DeferredUnsubscribeEndsAnother | backend/subscriber/functions.go:44-47 | a deferred Unsubscribe closes a channel not its own if and only if its own is closed already and its key is mapped |
| ConnectionWatchers.UnwatchTellsEveryone | backend/connection.go:487-491 | unwatching a key closes the channel of everyone who holds or works for a subscription to it |
| ConnectionChecks.CheckDecides | backend/subscriber/functions.go:36-43 | whoever checks a key never subscribes in any continuation if someone holds the key open, and otherwise can |
| ConnectionChecks.LookDecides | backend/subscriber/functions.go:75-86 | after Do a goroutine goes on to send exactly what it holds if someone holds its key open, and otherwise never sends again |
| ConnectionChecks.DuplicateIff | backend/subscriber/functions.go:36-43 | Subscribe finds its key taken if and only if another goroutine holds the key with an open channel |
| ConnectionChecks.DuplicateNeedsRace | backend/subscriber/functions.go:36-43 | in every run: who finds its key taken checked when nobody held it open, and another goroutine subscribed to it in between |
| ConnectionWatchers.ToldWorkerStops | backend/subscriber/functions.go:53-89 | after its channel or the connection is closed a worker completes at most one more Do, none unless inside one, and sends at most what it holds and that Do returns |
| ConnectionWatchers.ToldWorkerEnds | backend/subscriber/functions.go:53-89 | after that its own steps are bounded by where it is and by the messages of the Do it is inside of, and it is gone exactly when none is left |
| ConnectionWatchers.LastDo | backend/subscriber/functions.go:117-154 | a one-off query or stream completes one Do only, and so does a worker whose Do fails; after it only that Do's messages are sent |
| ConnectionWatchers.LeavesOnlyWhenTold | backend/connection.go:109-118 | a watcher leaves only when its channel or the connection is closed, keep-alive only when the connection is |
| ConnectionWatchers.StuckOnlyOnFullQueue | backend/subscriber/functions.go:91-101 | in every reachable state a live goroutine outside Do is stuck if and only if it sends on a full queue or is a watcher not told to stop |
| ConnectionWatchers.SenderMovesOnIff | backend/subscriber/functions.go:156-160 | a goroutine with a message to send gets on in some continuation if and only if there is room or the pump runs |
| ConnectionWatchers.RefusalMovesOnIff | backend/connection.go:495-503 | the same for the connection itself while it reports a read-only error |
| ConnectionQueue.SendQueueIsFifo | backend/connection.go:122-152 | written, lost and queued actions are together everything enqueued, in order, with sender, kind, payload and nonzero index; at most 500 are queued and one is lost |
| ConnectionMessages.SocketMessages | backend/subscriber/functions.go:156-160 | end to end for every goroutine: its messages on the socket are those its steps had to say, in order, none invented, left out or altered but for indices of 0 |
| ConnectionMessages.SocketData | backend/connection.go:139-148 | the results of a polling watcher on the socket are those of the polls that called for an answer, each with its payload and index |
| ConnectionMessages.SocketIndices | backend/connection.go:420-424 | the indices of a watcher that answers on change reach the socket in order and unaltered, nonzero, strictly increasing between 0 replies |
| ConnectionMessages.EveryPollOnSocket | backend/nomad/nodes/list.go:43-60 | of a watcher that answers every poll all replies reach the socket in order, zeros replaced; without zeros they strictly increase if and only if each is a change |
| ConnectionLimits.DuplicateSubscribe | backend/subscriber/functions.go:36-43 | a run in which two watchers of one key both subscribe |
| ConnectionLimits.DuplicateLeavesWaitGroupUp | backend/connection.go:91-92 | a run that ends with every goroutine gone and the wait group at 1 |
| ConnectionLimits.NeverReturns | backend/connection.go:91-92 | from such a state the handler never returns |
| ConnectionLimits.UnsubscribeEndsNewerWatch | backend/subscriber/functions.go:44-47 | a run in which an unwatched watcher closes its successor's channel |
| ConnectionLimits.HandlerReturnsFirst | backend/connection.go:79-94 | a run in which the handler returns before keep-alive subscribes |
| ConnectionLimits.SameIndexTwice | backend/nomad/nodes/list.go:49-51 | a run in which such a watcher puts the index 7 on the socket twice |
| ClusterTotals.AddTasks | backend/nomad/cluster/stats.go:157-160 | the inner loop adds CPU and memory of every task of an allocation |
| ClusterTotals.Summarise | backend/nomad/cluster/stats.go:143-171 | a node's result: sums over all tasks of running allocations and over its cores, and its own figures |
| ClusterTotals.IdleNode | backend/nomad/cluster/stats.go:152-155 | nothing is allocated when every allocation has another desired or client status |
| ClusterTotals.IdleAllocation | backend/nomad/cluster/stats.go:152-155 | one more such allocation, or one without tasks, changes nothing |
| ClusterTotals.OneMoreTask | backend/nomad/cluster/stats.go:157-160 | one more task of a running allocation adds exactly its own CPU and memory |
| ClusterTotals.OneMoreCore | backend/nomad/cluster/stats.go:162-164 | one more core adds one core and its idle time |
| ClusterTotals.ClientsCount | backend/nomad/cluster/stats.go:205-222 | the number of clients is the number of nodes listed ready, found ready and undrained, and asked successfully |
| ClusterTotals.Aggregate | backend/nomad/cluster/stats.go:219-230 | the aggregation loop computes the componentwise sum and counts clients |
| WorkerPoolSafety.HolderCanStep | backend/nomad/cluster/stats.go:173-174 | a worker with a task is never blocked: there is room for its result and the channel is open |
| WorkerPoolTotals.PoolIsCorrect | backend/nomad/cluster/stats.go:182-233 | in every run: exact wait group, no panic, and any total collected is the sequential sum over the nodes that count |
| WorkerPoolTotals.WorkerCanStep | backend/nomad/cluster/stats.go:109-114 | while the wait group is up and the quit channel open some worker can step |
| WorkerPoolTotals.NeverStuck | backend/nomad/cluster/stats.go:205-217 | with the quit channel open the pool can always go on until the totals are collected |
| WorkerPoolTotals.EveryRunIsShort | backend/nomad/cluster/stats.go:182-233 | every run over n listed nodes has at most 9n + 6 steps |
| WorkerPoolTotals.EveryRunEnds | backend/nomad/cluster/stats.go:182-233 | a run that cannot go on and never quit has collected exactly the sequential totals |
| WorkerPoolTotals.WordsAreCorrect | backend/nomad/cluster/stats.go:219-230 | adding up any figure but the idle time in 64-bit words, whatever order results come in, gives the sequential total wrapped once |
| WorkerPoolTotals.CollectedIffNoTasks | backend/nomad/cluster/stats.go:214-217 | a run that cannot go on has collected its totals if and only if no task is queued |
| WorkerPoolTotals.HangsIff | backend/nomad/cluster/stats.go:176-177 | for every list: some run waits for ever if and only if some node is listed as ready |
| WorkerPoolTotals.QuitCanHang | backend/nomad/cluster/stats.go:176-177 | such a run: the quit channel closes before any task is taken |
| Interpolation.ReplaceIsSubstitute | backend/nomad/allocations/health.go:284 | one replace over a rendered template whose text cannot start the placeholder is the substitution of one name |
| Interpolation.OrderlyIsSimultaneous | backend/nomad/allocations/health.go:283-285 | replaces in an order in which none touches a value put in before are the simultaneous substitution |
| Interpolation.OrderFreeIff | backend/nomad/allocations/health.go:283-285 | for every map: its loop gives the same text in all orders, for all templates, if and only if no value can become or contain another name's placeholder, and if and only if it is always the simultaneous substitution |
| Interpolation.ReplaceAll | backend/nomad/allocations/health.go:283-289 | the loop is a run of replaces in some order of the keys, and simultaneous when values do not interfere |
| Interpolation.SimpleInterpolation | backend/nomad/allocations/health.go:282-301 | the four names in some order, then the task's, and all five at once when no value touches a name replaced after it; each of the five placeholders becomes the allocation's own value |
| Interpolation.HarmlessSuffices | backend/nomad/allocations/health.go:282-301 | such values make both loops together simultaneous in every order and template |
| Interpolation.TaskNameSpoils | backend/nomad/allocations/health.go:287-289 | a value of the first loop that can become the task's placeholder spoils some template |
| Interpolation.AllTasksIff | backend/nomad/allocations/health.go:282-301 | for every allocation: both loops are simultaneous for all task names, orders and templates if and only if no value of the first loop can become or contain another of the five names |
| Interpolation.PlainIsHarmless | backend/nomad/allocations/health.go:282-301 | values without `$` are such values |
| Interpolation.OrderMatters | backend/nomad/allocations/health.go:283-285 | a job named after the group's placeholder: two orders, the group's name in one and the placeholder in the other |
| CheckHeaders.HeaderTextIsCanonical | backend/nomad/allocations/health.go:241-250 | the header text is the same for every order of visiting the map |
| CheckHeaders.WriteHeader | backend/nomad/allocations/health.go:243-250 | whatever order the map is met in: the canonical text, an entry per key with all its values, sorted |
| CheckHeaders.LessEqualMeans | backend/nomad/allocations/health.go:248 | the sorting order is dictionary order |
| CheckHeaders.ConcatMeans | backend/nomad/allocations/health.go:246-249 | joining writes the parts one after another |
| AllocationHealth.Assess | backend/nomad/allocations/health.go:148-185 | by position in the node's checks: those with one of the hashes are counted, in total and per status; no verdict iff there is none, healthy iff all pass, last status per name |
| JobHealth.ExpectedCount | backend/nomad/jobs/health.go:84-92 | the sum of the group counts |
| JobHealth.TotalOfSum | backend/nomad/jobs/health.go:84-92 | a group more, wherever it stands, adds exactly its count |
| JobHealth.AllocationStats | backend/nomad/jobs/health.go:94-106 | how often each status occurs |
| JobHealth.Health.Do | backend/nomad/jobs/health.go:44-82 | both indices advance on success, a report iff one moved on, running + missing is the sum of the group counts |
| TaskGroupScaling.GetTaskGroupCount | backend/nomad/jobs/helpers.go:35-43 | the count of the first group with the name |
| TaskGroupScaling.ChangeTaskGroupCount | backend/nomad/jobs/helpers.go:18-33 | changes that group in place, or fails for an empty name; needs the group to exist |
| TaskGroupScaling.Do | backend/nomad/jobs/scale.go:26-87 | what is registered and in which order, for every lookup, action and answer; a missing group is never dereferenced |
| TaskGroupScaling.SetBack | backend/nomad/jobs/scale.go:53-62 | the second step of a restart gives back the original job |
| TaskGroupScaling.ScaledChangesOne | backend/nomad/jobs/helpers.go:18-33 | only the first group with the name changes, to the count each action asks for, and exactly when nothing changes |
| ChartWindows.AllocationStats.Compute | frontend/src/reducers/allocation.js:141-180 | one sample arriving at an allocation's series |
| ChartWindows.AllocationSeriesIsWindow | frontend/src/reducers/allocation.js:158-189 | after k samples: max(0, 60 - k) prefill points, then the last min(k, 300) samples |
| ChartWindows.NodeStats.Calculate | frontend/src/reducers/utils.js:3-41 | one sample arriving at a node's series |
| ChartWindows.NodeSeriesIsWindow | frontend/src/reducers/utils.js:3-50 | always the last maxLength points of prefill and samples |
| FileBrowser.PathIsPrintedStack | frontend/src/components/AllocationFiles/AllocationFiles.js:210-225 | the path is the printed stack of the directories entered |
| FileBrowser.BackUndoesEnter | frontend/src/components/AllocationFiles/AllocationFiles.js:213-218 | going back restores the path if and only if the name has no slash |
| FileBrowser.Browser.ReceiveProps | frontend/src/components/AllocationFiles/AllocationFiles.js:48-102 | the text shown is an end of what was received since the watch began, at most 50000 characters and all of it if it fits; what is dispatched, with the path as it is printed when absent |

## Left out

- Nomad and Consul clients, websockets, HTTP handlers, logging and timers: their results are parameters or free choices.
- The pair of goroutines in `file.go` that hands slices of one buffer through a channel: the reader is composed with the file at the level of `Read`.
- Goroutine bodies as Go code: `Watch`, `Once`, `Stream`, `Unwatch`, `keepAlive`, `writePump` and the pool's `worker` and `collect` are steps of a machine, so memory effects between steps are not modelled.
- The throttle sleep of a watcher and the ticker of keep-alive: a delay changes no state.
- `Clear`, `Subscriptions` and `Count` of the manager: not used by the protocol, or used for logging only.
- Read-only gating and the action dispatch table: only the error action that the gate enqueues is modelled.
- SHA-1, base32 and the LRU caches, and the fields fed to a check hash apart from the headers.
- The regular expression that finds an allocation's index in its name: the index is a parameter of the interpolation.
- WorkerPoolTotals.PoolIsCorrect: totals are exact; `WordsAreCorrect` has the wrap-around at 64 bits, but the rounding of `CPUIdleTime`, a float whose rounded sum can depend on the order of results, is not modelled.
- ClusterTotals.Summarise: idle times are added exactly, without the rounding of floats.
- ClusterTotals.Aggregate: idle times are added exactly, without the rounding of floats.
- LineReaderRuns.GatheringTerminates: assumes a clock that advances with every call and a source without failures; with failures gathering can go on for ever.
- WorkerPoolTotals.EveryRunEnds: progress assumes the quit channel stays open; `HangsIff` and `CollectedIffNoTasks` say what happens otherwise.
- ConnectionMessages.SocketIndices: is about watchers that answer by QueryChanged with an index; `nodes/list.go` has `EveryPollOnSocket`. `jobs/health.go` and `members/info.go` send no index, so of them, and of streams and one-off queries, `SocketMessages` has messages and order, and `ToldWorkerStops` and `ToldWorkerEnds` bound the workers.
- ConnectionWatchers.StuckOnlyOnFullQueue: a goroutine inside Do is left out, as only Do decides when it returns.
- Interpolation.SimpleInterpolation: templates have no stray `$` in their literal text; for one task name the condition on values is sufficient, and necessary where that name is concerned (`TaskNameSpoils`), as replacing it may undo a disorder of the first loop; over all task names it is exact (`AllTasksIff`).
- ChartWindows.AllocationSeriesIsWindow: assumes that real points have names, which the formatted time provides.
- TaskGroupScaling.Do: the groups of a job are distinct objects with a count, as decoding and canonicalising the job gives them.
- Numbers shown in the charts, file size formatting, scrolling and rendering.
