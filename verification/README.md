# Mattermost load-test: model and proofs

A Dafny model of the parts of the Mattermost load-test tool in which several pieces of state have to agree:
the bounded in-memory store of a simulated user, the life cycle of users in a load-test agent, the shutdown of
a simulated user with its goroutines, the quotas shared by data generators, the distribution of users over the
agents of a cluster, and the feedback loop of the coordinator. `dafny verify dfyconfig.toml` checks all of it.

| file | what it models |
|---|---|
| `CacheHistory.dfy` | what a bounded cache promises, as a function of the operations applied to it |
| `CQueue.dfy`, `BoundedCache.dfy`, `MemStore.dfy` | the recycled queue, the caches of pointers into it, and the store with its setters |
| `RandomUsers.dfy` | picking distinct random users from the store |
| `Lifecycle.dfy` | `LoadTester`: adding, removing and counting users, and their ids |
| `SessionIds.dfy` | the ids of users with several sessions, over all public calls |
| `StatusProtocol.dfy`, `StatusRefinement.dfy` | `LoadTester` with its status channel, wait group and handler, over all interleavings, and against the calls alone |
| `SimulProtocol.dfy`, `SimulRuns.dfy` | `SimulController` and `UserEntity` with all their goroutines, over all interleavings; what a user gets done |
| `GenQuota.dfy`, `GenCapacity.dfy`, `GenCompletion.dfy` | generators that share counters with targets, over all interleavings; the reactions they can add, and when they can finish |
| `Sums.dfy`, `Distribution.dfy` | spreading users over agents one at a time with an unstable sort |
| `ErrorTotals.dfy`, `Cluster.dfy` | the cluster of agents that crash, restart and refuse; its totals and its cap |
| `LeastSquares.dfy`, `SampleWindows.dfy`, `Coordinator.dfy` | the slope, the trimmed sample buffer and the feedback loop |
| `WeightedSelection.dfy` | weighted random choice over a slice and over a map |

Objects that the program updates in place are classes here: the queue and its slots, the caches, the store, the
load-tester, the sample buffer, the feedback loop, the cluster, the shared counters. Goroutines are transition
systems: a state, a `Next` function over events that each stand for one atomic step, and theorems over every
run, that is every sequence of states and events. Random numbers, clocks and the outcome of requests are arguments.
The two protocols fit together: `StatusProtocol` takes it that a controller's run sends one terminal status and
nothing after it, which is what `SimulProtocol` proves of a `SimulController`, and `SimulProtocol` takes it that
the status channel is drained, which is what the handler in `StatusProtocol` does.

## What the proofs show about the code

- An agent may add users and its answer may then get lost: `AddUsers` returns an error and the coordinator keeps the
  old status. Then the cluster keeps its maximum in every run if and only if the agents' own limits add up to no more
  than that (`CapExactly`, with `CapExceeded` as the run over it). As long as the answers to additions arrive, it
  keeps the maximum whatever the limits are, however often agents crash, restart, refuse or are full (`CapHolds`).
- A controller taken from the idle list is lost when its rate is refused. Afterwards two controllers can have the
  same id (`DuplicateId`); `AddOneKeepsIds` says exactly when. With the controllers of this repository and a valid
  configuration rates are accepted always or never, and then no id is ever doubled (`ConstantRatesKeepIds`): it
  takes a `NewController` from elsewhere whose `SetRate` can fail.
- With several sessions per user, `addUser` means to draw an id in use (its comment says "an existing user"), but
  draws from 0 to the number of active users less one, while ids start at 1. Every id drawn so is in use if and only
  if each of these draws gives the number of an earlier creation that was not itself a further session
  (`ReusesExactly`, and `CallsReuseExactly` over all public calls with accepted rates). A draw of 0 breaks it, and so
  does the number of a further session: that id has never been given (`StrangerIds`).
- A load-test that is stopped and run again with idle controllers panics as soon as one of them is used again,
  because it keeps the status channel it was created with (`SecondRunPanics`, `PanicsExactly`).
- The trimmed sample buffer gives the same window as the full history, but the test for being done also compares
  the window with the buffer. Trimming can therefore delay the stop, and never cause one (`DoneExactly`,
  `StopsOnlyUntrimmed`).
- `getLatestSamples` is documented to return the samples of a time range. It does if and only if every sample is
  younger than the range is long, or exactly one is just as old (`WindowIsTimeRange`); `OlderThanTimeRange` is an input
  where it does not. The model follows the code.
- Generators create at most one team each, an action whose share rounds to zero is never picked, a reply needs a post,
  and each user adds at most four reactions to a post, all while it is younger than ten seconds. `FinishesExactly` says
  from which states generators can finish without anybody else's posts, `ConfigFinishesExactly` with which
  configurations. Where nobody else posts, a single generator with one post and a thousand reactions to create never
  ends; nor does any run in which the posts are complete, none is young, and reactions are missing
  (`TooLateForReactions`).
- `RandomUsers` refuses requests for more users than there are candidates. Where a user without id is stored, its guard
  lets a request for every candidate through, which no draws can satisfy (`GuardTooWide`; `GuardIsExact` says when).
- A run that sends a typing event while its listener reconnects waits until a reconnect succeeds, and so does Stop. In
  every other state the run can end, and Stop return, without any server (`StopsWithoutServer`).
- `SelectWeighted` and `pickAction` have no error for weights with a negative sum; they panic.

## Model

| member | source | states |
|---|---|---|
| CacheHistory.LookupMeaning | loadtest/store/memstore/store.go:222-230 | a lookup finds v exactly when the key's latest accepted write wrote v, is among the last n accepted writes, and was neither deleted nor cleared away since |
| CacheHistory.RingKeepsPromise | loadtest/store/memstore/store.go:321-355 | one slot per write with eviction of the recycled slot's entry answers every lookup as the promise does, at every capacity and after any writes, deletes and clears |
| CacheHistory.RingIsBounded | loadtest/store/memstore/cqueue.go:39-57 | after any history a cache of n slots maps at most n keys |
| CircularQueue.NewCQueue | loadtest/store/memstore/cqueue.go:21-35 | a size that is not positive and a missing factory are refused, in this order and each with its error; otherwise a fresh empty queue |
| CircularQueue.CQueue.Get | loadtest/store/memstore/cqueue.go:39-52 | a new zero element while the queue grows, afterwards the element handed out `size` calls ago, itself and not a copy |
| CircularQueue.CQueue.Reset | loadtest/store/memstore/cqueue.go:55-57 | elements stay in place with their stale contents, and the oldest comes next |
| BoundedCaches.EvictionIsExact | loadtest/store/memstore/store.go:337-343 | comparing the map entry with the recycled slot removes exactly the entry of the write that leaves the window, and none for a stale slot |
| BoundedCaches.CoupledWrite | loadtest/store/memstore/store.go:337-345 | taking a slot, evicting and overwriting it in place keeps queue, map and history in agreement |
| BoundedCaches.FoundIsPromised | loadtest/store/memstore/store.go:222-230 | a pointer found under a key is a slot of the cache's own queue that carries this key and the promised value; a key not found is promised to be absent |
| BoundedCaches.BoundedCache.Set | loadtest/store/memstore/store.go:337-345 | one more accepted write, with all invariants of the cache kept |
| BoundedCaches.BoundedCache.Delete | loadtest/store/memstore/store.go:350-355 | one more delete; the slot itself is untouched |
| BoundedCaches.BoundedCache.Clear | loadtest/store/memstore/store.go:67-89 | one more clear; stale slots left behind never evict or resurface |
| BoundedCaches.BoundedCache.Get | loadtest/store/memstore/store.go:222-230 | reads through the map's pointer exactly what the history promises |
| BoundedCaches.BoundedCache.KeysAndBound | loadtest/store/memstore/store.go:749-765 | every entry's slot carries the entry's key, and there are at most `size` entries |
| BoundedCaches.MemberCache.Set | loadtest/store/memstore/store.go:530-551 | the same for the two-level map, whose inner maps are made on demand |
| BoundedCaches.MemberCache.Get | loadtest/store/memstore/store.go:599-608 | reads through both levels exactly what the history promises |
| BoundedCaches.MemberCache.KeysAndBound | loadtest/store/memstore/store.go:522-554 | all inner maps together hold at most `size` entries, each in a slot with its keys |
| MemStores.MemStore.New | loadtest/store/memstore/store.go:46-136 | fails exactly when some size is not positive; otherwise four empty caches that share no slot |
| MemStores.MemStore.SetPost | loadtest/store/memstore/store.go:321-348 | nil and empty ids are refused, each with its error, and deleted posts are silently skipped, all without a trace; any other post is read back by its id at once |
| MemStores.MemStore.SetPosts | loadtest/store/memstore/store.go:357-367 | what is written are exactly the undeleted posts before the first one refused, in order, and the error is that of this one; each of them is read back unless a later one has its id or too many follow |
| MemStores.MemStore.DeletePost | loadtest/store/memstore/store.go:350-355 | deletes the key, which is not found afterwards, and never fails |
| MemStores.MemStore.SetUsers | loadtest/store/memstore/store.go:749-765 | one write per user, in order; each is read back unless a later one has its id or too many follow |
| MemStores.MemStore.SetStatus | loadtest/store/memstore/store.go:783-811 | the three refusals in their order, otherwise one write that is read back |
| MemStores.MemStore.SetChannelMembers | loadtest/store/memstore/store.go:522-554 | nil is refused, otherwise one write per member, in order, read back in the same way |
| MemStores.MemStore.SetChannelMember | loadtest/store/memstore/store.go:567-597 | nil and a member of another channel are refused, otherwise one write that is read back |
| MemStores.MemStore.RemoveChannelMember | loadtest/store/memstore/store.go:610-616 | deletes the pair of keys, also where the channel has no map; it is not found afterwards |
| MemStores.MemStore.Clear | loadtest/store/memstore/store.go:67-89 | clears all four caches: nothing is found in any of them |
| MemStores.MemStore.GetPost | loadtest/store/memstore/store.go:222-230 | the post the history promises, or an error |
| MemStores.MemStore.GetUser | loadtest/store/memstore/store.go:732-747 | the user the history promises, or the zero struct; an empty id is an error |
| MemStores.MemStore.GetStatus | loadtest/store/memstore/store.go:767-781 | the status the history promises, or the zero struct; an empty id is an error |
| MemStores.MemStore.GetChannelMember | loadtest/store/memstore/store.go:599-608 | the member the history promises, or the zero struct |
| RandomSelection.SomeoneLeft | loadtest/store/memstore/random.go:195-211 | while fewer users are picked than can be, some stored key is neither the current user nor picked |
| RandomSelection.SelectUsers | loadtest/store/memstore/random.go:146-213 | more users than candidates are refused; a result has n distinct stored users other than the current one, all with an id; n users come back only if there are as many such candidates, and then for all draws that have every one of them and none without id; draws that cover the stored keys always finish |
| RandomSelection.GuardIsExact | loadtest/store/memstore/random.go:181-192 | the length guard lets exactly those n through that some draws can satisfy if and only if no user without id is stored, or it is the current one, or n is not the number of candidates |
| RandomSelection.GuardTooWide | loadtest/store/memstore/random.go:186-192 | with one stored user, who has no id, the guard lets a request for one through, and none can be returned |
| RandomSelection.RandomUsers | loadtest/store/memstore/random.go:177-213 | the same on a store, in terms of its history of writes, with the same bound on n; the error for invalid data means that a user without id is stored and was drawn |
| Lifecycle.AddOneConserves | loadtest/loadtest.go:81-122 | one user more or none, and exactly when which error; counters and controllers stay in agreement and within the maximum; the first idle controller is used before any is made |
| Lifecycle.AddManyConserves | loadtest/loadtest.go:62-77 | the number returned is the true change, also when an error stops the additions |
| Lifecycle.RemoveManyConserves | loadtest/loadtest.go:140-167 | exactly min(n, active) users leave, the last ones, and join the idle ones in order; no controller is lost |
| Lifecycle.LifecycleConserved | loadtest/loadtest.go:60-217 | after any public calls, whatever fails in them: users = active controllers = added - removed, active plus idle at most the maximum; with one session per user and accepted rates the ids are 1 to k without repeats |
| Lifecycle.FirstNumbersOnce | loadtest/loadtest.go:92 | what "1 to k without repeats" means: each of these ids once, and no other |
| Lifecycle.AddOneKeepsIds | loadtest/loadtest.go:88-111 | the ids stay 1 to k if and only if no idle controller is lost to a refused rate, or the lost one has the highest id |
| Lifecycle.DuplicateId | loadtest/loadtest.go:88-111 | a run in which one refused rate among accepted ones leads to two controllers with the same id |
| Lifecycle.ConstantRatesKeepIds | loadtest/loadtest.go:105-111 | if rates are always accepted or always refused, the ids are 1 to k after any public calls |
| SessionIds.ReusesExactly | loadtest/loadtest.go:92-99 | all further sessions get an id in use if and only if each draws the number of an earlier creation that was not itself a further session; then the ids given are exactly the numbers of those |
| SessionIds.CallsReuseExactly | loadtest/loadtest.go:60-217 | the same after any public calls whose rates are accepted, with the ids of all controllers, active and idle |
| SessionIds.ReusedIds | loadtest/loadtest.go:92-97 | while the ids are 1 to k and none is idle, the id drawn for a further session belongs to a controller if and only if the draw is not a multiple of k |
| SessionIds.StrangerIds | loadtest/loadtest.go:92-99 | a run with the ids 1, 2, 0 and 4, after which 3 is drawn as an id in use |
| Lifecycle.LoadTester.AddUser | loadtest/loadtest.go:81-122 | the order of the limit, the idle list, the creation and the rate, with all their errors |
| Lifecycle.LoadTester.AddUsers | loadtest/loadtest.go:62-77 | refuses bad numbers and states; otherwise adds until the first error and returns the true change |
| Lifecycle.LoadTester.RemoveUsers | loadtest/loadtest.go:126-167 | refuses bad numbers and states; otherwise the last active controllers become idle and the true change is returned |
| Lifecycle.LoadTester.Run | loadtest/loadtest.go:171-195 | only from Stopped; resets the counters, keeps the idle controllers, tries to add the initial users |
| Lifecycle.LoadTester.Stop | loadtest/loadtest.go:199-217 | only from Running; ends with no user active and as many removed as added |
| StatusProtocol.StopIsComplete | loadtest/loadtest.go:39-58 | in every interleaving the wait count is the runs whose terminal status is unaccounted for; when the channel is closed no run is left, nothing is unread, and stopped = added = removed |
| StatusProtocol.NeverPanics | loadtest/loadtest.go:113-121 | nobody sends on a closed channel and the wait count never goes negative, provided every Run starts without idle controllers |
| StatusProtocol.PanicsExactly | loadtest/loadtest.go:88-99 | a run that sends panics if and only if its controller was created in an earlier Run |
| StatusProtocol.SecondRunPanics | loadtest/loadtest.go:184 | a second Run that reuses an idle controller panics |
| StatusProtocol.ReachableStopReturns | loadtest/loadtest.go:199-217 | in every run that never starts with idle controllers, some interleaving lets Stop return from wherever it waits |
| StatusRefinement.UsersAreOfCalls | loadtest/loadtest.go:60-217 | in every interleaving the users, their controllers and the number of Runs are those of the public calls made one after the other |
| StatusRefinement.StatusesInOrder | loadtest/loadtest.go:39-58 | in every interleaving the handlers have read exactly the statuses sent, once each and in order, except those still in the channel; none is left when Stop has returned |
| SimulProtocol.StoppedIsLast | loadtest/control/simulcontroller/controller.go:68-75 | in every interleaving STOPPED is the last status of a run, also after a logout that fails, and no goroutine that could send one is left; the gauge of connections is where it started; only then can Stop return |
| SimulProtocol.NeverPanics | loadtest/user/userentity/user.go:114-168 | no send on a closed channel, no double close (stopChan and stoppedChan included), no negative wait count; wsClosed is closed once per connect; connectedFlag and connected agree before every action, so a disconnect never fails halfway |
| SimulProtocol.Progress | loadtest/control/simulcontroller/actions.go:48-62 | in every state of a run or a Stop some step brings it closer to its end: nobody waits for somebody who waits for him |
| SimulProtocol.StopsWithoutServer | loadtest/user/userentity/websocket.go:114-205 | from a reachable state the run can end and Stop return without anything from a server if and only if the run is not blocked in a typing event with its listener unconnected; if it is, every way to the end has a successful reconnect |
| SimulProtocol.ReachableCanStop | loadtest/control/simulcontroller/controller.go:197-203 | from every reachable state some continuation ends the run with STOPPED and lets Stop return |
| SimulRuns.ConnectIs | loadtest/control/simulcontroller/actions.go:27-46 | from every reachable state connecting makes a connection exactly where there is none and the user has logged in, and otherwise changes nothing |
| SimulRuns.CanConnect | loadtest/control/simulcontroller/actions.go:27-46 | from every reachable state between two actions of an unconnected user some continuation has it connected, with the listener selecting and the three helpers at work |
| SimulRuns.CanReconnect | loadtest/user/userentity/websocket.go:114-193 | a user online whose connection is lost can get it back by itself, with the gauge going down and up |
| SimulRuns.CanHear | loadtest/user/userentity/websocket.go:136-145 | an event that cannot be applied is reported as a status and still handed to the event handler, which starts a fetch or says that it drops it |
| SimulRuns.CanComplain | loadtest/control/simulcontroller/websocket.go:30-95 | an event with invalid data is said to be, and a fetch that fails says so before it gives its token back |
| SimulRuns.CanAct | loadtest/control/simulcontroller/controller.go:166-183 | a user online can act, and its periodic actions go on; each says something |
| SimulRuns.CanType | loadtest/user/userentity/websocket.go:152-160 | a user online can send a typing event, which the listener takes |
| SimulRuns.CanTypeInVain | loadtest/user/userentity/websocket.go:152-160 | a typing event that cannot be sent is reported as a status |
| SimulRuns.CanLeave | loadtest/control/simulcontroller/controller.go:68-75 | a run that has disconnected for good says whether its logout failed, and then STOPPED |
| SimulRuns.CanStall | loadtest/user/userentity/websocket.go:196-205 | a run that reaches the blocked typing event of `StopsWithoutServer` |
| SimulRuns.NothingLost | loadtest/control/simulcontroller/actions.go:37-43 | in every interleaving each error the listener has passed on has been said as a status or is still buffered or being relayed, and each event has been handled or is being handled; when the run is over, all have been |
| GeneratorQuotas.State.IncTarget | loadtest/control/gencontroller/state.go:28-36 | says yes exactly when a slot was taken, never moves a counter beyond its target, and touches no other counter |
| GeneratorQuotas.State.Create | loadtest/control/gencontroller/actions.go:39-57 | reserve, create, roll back: the counter moves exactly when something has been created, and a creation that fails leaves no trace |
| GeneratorQuotas.FailureLeavesNoTrace | loadtest/control/gencontroller/actions.go:39-57 | a slot taken for a creation that fails is given back: counters, posts, reactions and actions are as before |
| GeneratorQuotas.PruneIsExact | loadtest/control/gencontroller/controller.go:170-184 | a generator keeps exactly the actions whose counter is not at its target |
| GeneratorQuotas.TeamFirst | loadtest/control/gencontroller/controller.go:72-95 | a generator tries for its team until it has created one or found the teams complete, and only then picks its first action |
| GeneratorQuotas.QuotaSafety | loadtest/control/gencontroller/actions.go:39-281 | in every interleaving a counter is the creations that succeeded plus those under way and never exceeds its target |
| GeneratorQuotas.NoLostSlot | loadtest/control/gencontroller/controller.go:145-184 | as long as channels, posts or reactions are missing some running generator still has an action for them and has not found them complete |
| GeneratorQuotas.AllExitedMeansComplete | loadtest/control/gencontroller/controller.go:145-168 | when all generators have exited, exactly the configured numbers have been created |
| GeneratorQuotas.TooFewGenerators | loadtest/control/gencontroller/controller.go:72-95 | with fewer generators than teams to create, none ever exits |
| GeneratorCapacity.ReactionBound | loadtest/control/gencontroller/actions.go:239-281 | in every interleaving, whoever else posts, at most four reactions for each generator and post |
| GeneratorCapacity.StepCapacity | loadtest/control/gencontroller/actions.go:239-281 | reactions added plus reactions that generators can still add to young posts and posts to come never grow by a generator's step, and only shrink when reactions are seen at their target |
| GeneratorCapacity.OutsideCapacity | loadtest/control/gencontroller/actions.go:244-272 | somebody else's post makes room for exactly four more reactions of each generator that still adds any |
| GeneratorCompletion.FinishesExactly | loadtest/control/gencontroller/controller.go:145-194 | from any reachable state the generators there are can all finish, without others' posts, if and only if there is one for every team, an action is picked for whatever is missing, replies have a post, and the generators that still add reactions have room for all that are wanted |
| GeneratorCompletion.TooLateForReactions | loadtest/control/gencontroller/actions.go:244-252 | when all posts are created, none is younger than ten seconds and reactions are missing, generators cannot finish without others' posts |
| GeneratorCompletion.TimeRunsOut | loadtest/control/gencontroller/actions.go:244-252 | from every reachable state with the posts complete and reactions missing, waiting alone leads there |
| GeneratorCompletion.ConfigFinishesExactly | loadtest/control/gencontroller/controller.go:108-142 | for generators that have just been started, in terms of the configuration: as many generators as teams; no channels wanted or a counted share that rounds to at least one; no posts wanted, or a share that is not replies rounds to at least one, or a post exists; at most four reactions for each generator and each post, young or to come |
| Distribution.AddsLevel | coordinator/cluster/util.go:28-42 | under every tie-breaking the amounts sum to n and whoever received users ends at most one above everybody else |
| Distribution.AddsConfluent | coordinator/cluster/util.go:35-37 | the multiset of final loads does not depend on tie-breaking |
| Distribution.AdditionIsOptimal | coordinator/cluster/util.go:28-42 | no other way to place n users has a smaller maximum or a smaller sum of squares |
| Distribution.RemovesLevel | coordinator/cluster/util.go:44-60 | exactly min(n, total) users leave, nobody goes below zero, whoever lost users ends at most one below everybody else |
| Distribution.RemovesConfluent | coordinator/cluster/util.go:51-53 | the multiset of final loads does not depend on tie-breaking |
| Distribution.DeletionIsOptimal | coordinator/cluster/util.go:44-60 | no other way to remove as many has a smaller maximum or a smaller sum of squares |
| Distribution.PopulateSortableAgents | coordinator/cluster/util.go:16-26 | one entry per agent with its index and load; no agents is an error |
| Distribution.AdditionDistribution | coordinator/cluster/util.go:28-42 | the map returned hands out exactly n users, none if n is not positive, in positive amounts, and is a plan reached by greedy steps |
| Distribution.DeletionDistribution | coordinator/cluster/util.go:44-60 | the map returned takes away exactly min(n, total) users, none if n is not positive, in positive amounts, and is a plan reached by greedy steps |
| ErrorTotals.ReportedIsSum | coordinator/cluster/cluster.go:160-172 | the total is the sum of the increases, and of the whole reading where the counter has dropped |
| ErrorTotals.ReportedNeverDrops | coordinator/cluster/cluster.go:160-172 | a further reading never lowers the total |
| ErrorTotals.ErrorsConserved | coordinator/cluster/cluster.go:160-172 | over all incarnations of an agent every error is in the total, waiting to be read, or lost in a restart |
| ErrorTotals.NeverOvercounts | coordinator/cluster/cluster.go:160-172 | the total never exceeds the true number of errors, and is exact if and only if nothing is unread or lost |
| Clusters.CapHolds | coordinator/coordinator.go:112-132 | over whole runs of the feedback loop with crashes, restarts, refusals and full agents, the users really active never exceed MaxActiveUsers, as long as the answers to additions arrive and only an agent's limit makes it take fewer users than asked |
| Clusters.LimitsHold | loadtest/loadtest.go:81-85 | whatever happens to the requests, no agent exceeds its own limit |
| Clusters.CapExceeded | coordinator/agent/agent.go:45-67 | a run in which nothing happens but that answers are lost, and which ends above the maximum, whenever the limits of the agents add up to more |
| Clusters.CapExactly | coordinator/agent/agent.go:45-67 | where anything can happen to requests, every run stays within MaxActiveUsers if and only if the limits of the agents add up to no more |
| Clusters.TakesWhatItCan | loadtest/loadtest.go:60-122 | an agent asked to add users takes fewer only at its limit or where something else stops it, and answers with success exactly if it took all |
| Clusters.GivesWhatItCan | loadtest/loadtest.go:124-167 | an agent asked to remove users removes fewer only if it has no more, and answers with success exactly if it removed all |
| Clusters.CrashedIsRestarted | coordinator/cluster/cluster.go:101-152 | a crashed agent is not found by the next request, and a restart that works makes it as good as new; a request that fails leaves the known status alone |
| Clusters.AnsweredReachesPlan | coordinator/cluster/cluster.go:101-152 | a round in which every request is answered with success reaches its plan, both in the known statuses and on the agents |
| Clusters.LoadAgentCluster.IncrementUsers | coordinator/cluster/cluster.go:101-125 | makes the requests of a greedy plan of n additions in any order, restarts agents not found, and returns an error exactly after a request that failed; where the agents work and have room, exactly n users are added |
| Clusters.LoadAgentCluster.DecrementUsers | coordinator/cluster/cluster.go:129-152 | the same for removals: where the agents work, exactly min(n, total) users are removed |
| Clusters.LoadAgentCluster.Status | coordinator/cluster/cluster.go:155-175 | the sum of the cached users, and of each agent's error total over all its readings |
| LeastSquares.Slope | coordinator/math.go:14-31 | the loop computes the quotient of the moments, with the first sample's second as origin |
| LeastSquares.DenominatorPositive | coordinator/math.go:30 | the denominator is never negative, and zero exactly when no two points differ in x |
| LeastSquares.DefinedExactly | coordinator/math.go:30 | the slope is a number if and only if two samples fall in different seconds |
| LeastSquares.OriginFree | coordinator/math.go:22 | the result does not depend on which second counts as zero |
| LeastSquares.BestFit | coordinator/math.go:12-31 | the line with this slope has the least squared error of all lines, and is the only one |
| SampleWindows.GetLatestSamples | coordinator/utils.go:26-39 | the window starts at the last sample at least as old as the range, or at the first sample |
| SampleWindows.WindowIsTimeRange | coordinator/utils.go:24-39 | the window is the documented time range if and only if every sample is younger than the range is long, or exactly one is just as old |
| SampleWindows.OlderThanTimeRange | coordinator/utils.go:24-39 | three samples whose window starts five minutes before the range |
| SampleWindows.SameLatest | coordinator/coordinator.go:95-110 | with non-decreasing times the trimmed buffer has the same latest window as the full history |
| SampleWindows.DoneExactly | coordinator/coordinator.go:100-104 | the loop is done if and only if it would be without trimming and the buffer holds more than the window |
| SampleWindows.DoneMeans | coordinator/coordinator.go:100-104 | the stop test holds if and only if the buffer holds more than the window and the line that fits the window best is flatter than 0.1 users per second |
| SampleWindows.StopsOnlyUntrimmed | coordinator/coordinator.go:100-110 | five samples after which the loop stops without trimming and goes on with it |
| SampleWindows.TrimmedBound | coordinator/coordinator.go:106-109 | after an iteration the buffer is shorter than twice the window, and has the same window |
| SampleWindows.SlopeDefined | coordinator/coordinator.go:100 | where the stop test looks at the slope, it is a number |
| Coordinators.SampleBuffer.Append | coordinator/coordinator.go:95-98 | one sample more, in the same array while it has room |
| Coordinators.SampleBuffer.Trim | coordinator/coordinator.go:107-108 | the overlapping copy within the array leaves exactly the window |
| Coordinators.SampleBuffer.Record | coordinator/coordinator.go:95-110 | one sample: done as the stop test says, otherwise the trimmed buffer |
| Coordinators.DecidesByPolicy | coordinator/coordinator.go:112-135 | remembering the last alert and the last action decides as a policy over the whole history: removals exactly on an alert long enough after every action, additions exactly without one, below the maximum and long enough after every action and alert; a full step, or what is left up to the maximum |
| Coordinators.FeedbackLoop.Iterate | coordinator/coordinator.go:77-136 | over whole runs an iteration stops exactly as `DoneExactly` says, and otherwise acts as the policy says: at most one step and never beyond the maximum; a successful action and an alert are remembered with their times |
| WeightedSelection.SelectWeighted | loadtest/control/utils.go:128-147 | which arguments are errors, and that a negative sum panics; otherwise the index where the running total exceeds the draw, so the last return is unreachable |
| WeightedSelection.ExactWeighting | loadtest/control/utils.go:139-145 | exactly weights[i] of the draws select index i |
| WeightedSelection.SelectsUnique | loadtest/control/utils.go:140-145 | no draw selects two indices |
| WeightedSelection.PickAction | loadtest/control/gencontroller/utils.go:13-33 | the same over a map, with a different iteration order in each of its loops |
| WeightedSelection.TotalIsOrderFree | loadtest/control/gencontroller/utils.go:18-20 | the sum of the frequencies is the same in every iteration order |
| WeightedSelection.ExactWeightingInAnyOrder | loadtest/control/gencontroller/utils.go:24-31 | in every iteration order exactly actions[id] of the draws pick id |

## Left out

- Clusters.LoadAgentCluster: agents are values in a sequence instead of objects, so aliasing between agents is not captured; a restart is one step, although the status is missing if the creation works and the run request fails.
- StatusProtocol: the users that Run adds itself are added after it, and RemoveUsers returns before the runs have ended, which only allows more interleavings.
- SimulProtocol: connect, disconnect and the goroutines are transitions over values rather than objects with channels; the individual actions of a user only appear as the statuses they send and the typing events.
- GeneratorQuotas: direct and group channels are not counted by the program either, and appear only as uncounted actions; an external stop of a generator is not modelled.
- GeneratorCompletion.FinishesExactly: the continuation that finishes may let the server accept every request, create and add within ten seconds as much as it needs, and let each user have joined a team and channel and fetched the posts it needs; that a user's store holds at most 60 posts of a fetched channel is not modelled. Posts that the server makes itself count as somebody else's.
- GeneratorCompletion.ConfigFinishesExactly: the products of numbers and percentages are exact.
- LeastSquares: exact reals stand for 64-bit floating-point numbers, and the average that is logged at the end is left out.
- RandomSelection.SelectUsers: the number of users asked for is a natural number; the program panics on a negative one when it allocates its result.
- MemStores: all other contents of the store (teams, channels, preferences, reactions and so on) are plain maps and fields; `RandomTeam`, `RandomChannel` and the random posts are filters followed by one draw.
- `getWaitTime`: the wait before a reconnect, three seconds or the square of the failures times three seconds up to five minutes; its 64-bit product overflows after 55447 failures. It only affects time, which the listener's model does not have.
- Counters are unbounded integers; the program's are 64 bits wide and are not near overflow.
- HTTP, WebSocket and JSON handling, the agents' API, deployment, metrics, configuration and logging.
- `NoopController`, `SimpleController`, `ClusterController` and `GenController.Stop`.
- Probability: draws are arguments, and the theorems count them.
