/** coordinator/cluster/cluster.go over agents that crash, restart and refuse. */
module Clusters {
  import opened Wrappers
  import opened Sums
  import opened Distribution
  import opened ErrorTotals
  import Coordinators

  /** An agent: the number of users in the status its last successful request came back with, the users it
      really has, whether its load-test exists, and its own limit of users. */
  datatype Agent = Agent(cached: int, actual: int, alive: bool, limit: int)

  /** How a request fares: whether it reaches the agent, whether a restart works where the load-test is
      gone, after how many users something other than the agent's limit fails, and whether the answer comes
      back and can be read. */
  datatype Fate = Fate(reached: bool, restarts: bool, stopsAfter: Option<nat>, answered: bool)

  datatype Reply = Done | NotFound | Failed

  /** The users an agent takes out of d before it meets its limit or another failure. */
  function Taken(a: Agent, d: int, w: Fate): int {
    var room := if a.actual + d <= a.limit then d else a.limit - a.actual;
    if w.stopsAfter.Some? && w.stopsAfter.value < room then w.stopsAfter.value else room
  }

  function Restarted(a: Agent, w: Fate): Agent {
    if w.restarts then a.(cached := 0, actual := 0, alive := true) else a
  }

  function AddReply(a: Agent, d: int, w: Fate): Reply {
    if !w.reached then Failed
    else if !a.alive then NotFound
    else if Taken(a, d, w) == d && w.answered then Done
    else Failed
  }

  /** A failed request leaves the cached status as it was, although users may have been added. */
  function AfterAdd(a: Agent, d: int, w: Fate): Agent {
    if !w.reached then a
    else if !a.alive then Restarted(a, w)
    else
      var now := a.actual + Taken(a, d, w);
      a.(actual := now, cached := if Taken(a, d, w) == d && w.answered then now else a.cached)
  }

  function RemoveReply(a: Agent, d: int, w: Fate): Reply {
    if !w.reached then Failed
    else if !a.alive then NotFound
    else if d <= a.actual && w.answered then Done
    else Failed
  }

  function AfterRemove(a: Agent, d: int, w: Fate): Agent {
    if !w.reached then a
    else if !a.alive then Restarted(a, w)
    else
      var now := if d <= a.actual then a.actual - d else 0;
      a.(actual := now, cached := if d <= a.actual && w.answered then now else a.cached)
  }

  function Crashed(a: Agent): Agent {
    a.(actual := 0, alive := false)
  }

  function Loads(agents: seq<Agent>): (s: seq<int>)
    ensures |s| == |agents| && forall i | 0 <= i < |s| :: s[i] == agents[i].cached
  {
    seq(|agents|, i requires 0 <= i < |agents| => agents[i].cached)
  }

  ghost function Actual(agents: seq<Agent>): (s: seq<int>)
    ensures |s| == |agents| && forall i | 0 <= i < |s| :: s[i] == agents[i].actual
  {
    seq(|agents|, i requires 0 <= i < |agents| => agents[i].actual)
  }

  // ----- the cap -----

  /** The loads, with every one below q counted as q. */
  ghost function Lifted(s: seq<int>, q: int): (r: seq<int>)
    ensures |r| == |s| && forall i | 0 <= i < |r| :: r[i] == if s[i] < q then q else s[i]
  {
    seq(|s|, i requires 0 <= i < |s| => if s[i] < q then q else s[i])
  }

  /** An agent has no more users than its status says, unless it can never have more than q. */
  ghost predicate Sound(a: Agent, q: int) {
    && 0 <= a.cached && 0 <= a.actual <= a.limit
    && (!a.alive ==> a.actual == 0)
    && (a.actual <= a.cached || a.limit <= q)
  }

  /** Even if every agent below its even share q had q users, there would be no more than max. */
  ghost predicate Safe(agents: seq<Agent>, q: int, max: int) {
    && (forall i | 0 <= i < |agents| :: Sound(agents[i], q))
    && Sum(Lifted(Loads(agents), q)) <= max
  }

  lemma SafeIsCapped(agents: seq<Agent>, q: int, max: int)
    requires Safe(agents, q, max)
    ensures Sum(Actual(agents)) <= max && Sum(Loads(agents)) <= max
  {
    SumMonotone(Lifted(Loads(agents), q), Actual(agents));
    SumMonotone(Lifted(Loads(agents), q), Loads(agents));
  }

  /** Filling the least loaded agents keeps the lifted sum within max. */
  lemma PlanStaysLifted(c: seq<int>, f: seq<int>, q: int, max: int)
    requires LevelledUp(c, f) && Sum(f) <= max && Sum(Lifted(c, q)) <= max
    ensures Sum(Lifted(f, q)) <= max
  {
    if i :| 0 <= i < |f| && c[i] < f[i] && q + 1 <= f[i] {
      assert forall j | 0 <= j < |f| :: f[i] <= f[j] + 1;
      assert Lifted(f, q) == f;
    } else {
      assert Lifted(f, q) == Lifted(c, q);
    }
  }

  lemma {:induction false} SumAbove(s: seq<int>, low: int)
    requires forall i | 0 <= i < |s| :: low <= s[i]
    ensures |s| * low <= Sum(s)
  {
    if s != [] {
      SumAbove(s[..|s| - 1], low);
      assert |s| * low == (|s| - 1) * low + low;
    }
  }

  /** Nobody is planned more than one above the even share. */
  lemma PlanBound(c: seq<int>, f: seq<int>, i: int, q: int, max: int)
    requires LevelledUp(c, f) && Sum(f) <= max && max < |f| * (q + 1)
    requires 0 <= i < |f| && c[i] < f[i]
    ensures f[i] <= q + 1
  {
    if q + 2 <= f[i] {
      assert forall j | 0 <= j < |f| :: f[i] <= f[j] + 1;
      SumAbove(f, q + 1);
    }
  }

  lemma AddKeepsSound(a: Agent, d: int, w: Fate, q: int)
    requires Sound(a, q) && 0 < d && a.cached + d <= q + 1 && w.stopsAfter.None? && w.answered
    ensures Sound(AfterAdd(a, d, w), q)
    ensures AfterAdd(a, d, w).cached <= a.cached + d || AfterAdd(a, d, w).cached <= q
  {
  }

  lemma RemoveKeepsSound(a: Agent, d: int, w: Fate, q: int)
    requires Sound(a, q) && 0 < d <= a.cached
    ensures Sound(AfterRemove(a, d, w), q)
    ensures AfterRemove(a, d, w).cached <= a.cached || AfterRemove(a, d, w).cached <= q
  {
  }

  datatype Request = AddUsers | RemoveUsers

  function After(r: Request, a: Agent, d: int, w: Fate): Agent {
    if r.AddUsers? then AfterAdd(a, d, w) else AfterRemove(a, d, w)
  }

  function Answer(r: Request, a: Agent, d: int, w: Fate): Reply {
    if r.AddUsers? then AddReply(a, d, w) else RemoveReply(a, d, w)
  }

  /** The number of users to ask for, to come from c to f. */
  function Amount(r: Request, c: int, f: int): int {
    if r.AddUsers? then f - c else c - f
  }

  /** Some of the agents that the plan f changes have been asked for their change. */
  ghost predicate Round(r: Request, s: seq<Agent>, s': seq<Agent>, f: seq<int>, fates: seq<Fate>) {
    && |s| == |s'| == |f| == |fates|
    && forall i | 0 <= i < |s| ::
         s'[i] == s[i] || (var d := Amount(r, s[i].cached, f[i]); 0 < d && s'[i] == After(r, s[i], d, fates[i]))
  }

  /** All of them have been asked, and none answered with a failure. */
  ghost predicate Served(r: Request, s: seq<Agent>, s': seq<Agent>, f: seq<int>, fates: seq<Fate>) {
    && |s| == |s'| == |f| == |fates|
    && forall i | 0 <= i < |s| ::
         var d := Amount(r, s[i].cached, f[i]);
         0 < d ==> s'[i] == After(r, s[i], d, fates[i]) && Answer(r, s[i], d, fates[i]) != Failed
  }

  /** One of them has been asked and has answered with a failure. */
  ghost predicate Refused(r: Request, s: seq<Agent>, s': seq<Agent>, f: seq<int>, fates: seq<Fate>) {
    && |s| == |s'| == |f| == |fates|
    && exists i ::
         && 0 <= i < |s| && 0 < Amount(r, s[i].cached, f[i])
         && s'[i] == After(r, s[i], Amount(r, s[i].cached, f[i]), fates[i])
         && Answer(r, s[i], Amount(r, s[i].cached, f[i]), fates[i]) == Failed
  }

  // ----- what a request does -----

  /** An agent takes as many users as it can: it takes fewer than asked only at its limit, or where something
      else stops it, and it answers Done exactly if it has taken all and the answer arrives. */
  lemma TakesWhatItCan(a: Agent, d: int, w: Fate)
    requires 0 <= d && a.actual <= a.limit && a.alive && w.reached
    ensures var now, taken := AfterAdd(a, d, w), AfterAdd(a, d, w).actual - a.actual;
            && 0 <= taken <= d && now.actual <= now.limit == a.limit && now.alive
            && (w.stopsAfter.Some? ==> taken <= w.stopsAfter.value)
            && (taken < d ==> now.actual == a.limit || w.stopsAfter == Some(taken))
            && (AddReply(a, d, w) == Done <==> taken == d && w.answered)
            && (AddReply(a, d, w) == Done ==> now.cached == now.actual)
            && AddReply(a, d, w) != NotFound
  {
  }

  /** An agent removes as many users as it can, and answers Done exactly if these are all and the answer
      arrives. */
  lemma GivesWhatItCan(a: Agent, d: int, w: Fate)
    requires 0 <= d && 0 <= a.actual && a.alive && w.reached
    ensures var now, gone := AfterRemove(a, d, w), a.actual - AfterRemove(a, d, w).actual;
            && 0 <= gone <= d && 0 <= now.actual && now.limit == a.limit && now.alive
            && (gone < d ==> now.actual == 0)
            && (RemoveReply(a, d, w) == Done <==> gone == d && w.answered)
            && (RemoveReply(a, d, w) == Done ==> now.cached == now.actual)
            && RemoveReply(a, d, w) != NotFound
  {
  }

  /** A crashed agent has no users. It is not found by the next request that reaches it, and a restart that
      works makes it as good as new. A request that fails never changes the status that is known. */
  lemma CrashedIsRestarted(r: Request, a: Agent, d: int, w: Fate)
    ensures Crashed(a).actual == 0 && Crashed(a).cached == a.cached && Crashed(a).limit == a.limit
    ensures Answer(r, Crashed(a), d, w) == NotFound <==> w.reached
    ensures Answer(r, a, d, w) == NotFound <==> !a.alive && w.reached
    ensures Answer(r, a, d, w) == NotFound ==>
              After(r, a, d, w) == if w.restarts then Agent(0, 0, true, a.limit) else a
    ensures Answer(r, a, d, w) == Failed ==> After(r, a, d, w).cached == a.cached
    ensures !w.reached ==> Answer(r, a, d, w) == Failed && After(r, a, d, w) == a
  {
  }

  /** The agents are what their statuses say, and each answers the request made to it with Done. */
  ghost predicate Answered(r: Request, s: seq<Agent>, f: seq<int>, fates: seq<Fate>) {
    && |s| == |f| == |fates|
    && forall i | 0 <= i < |s| ::
         && s[i].cached == s[i].actual
         && var d := Amount(r, s[i].cached, f[i]);
            0 <= d && (0 < d ==> Answer(r, s[i], d, fates[i]) == Done)
  }

  lemma DoneReaches(r: Request, a: Agent, f: int, w: Fate)
    requires a.cached == a.actual
    requires var d := Amount(r, a.cached, f); 0 < d && Answer(r, a, d, w) == Done
    ensures var now := After(r, a, Amount(r, a.cached, f), w); now.cached == now.actual == f
  {
  }

  /** A round in which every request is answered reaches its plan: in what is known and in what is. */
  lemma AnsweredReachesPlan(r: Request, s: seq<Agent>, s': seq<Agent>, f: seq<int>, fates: seq<Fate>)
    requires Round(r, s, s', f, fates) && Served(r, s, s', f, fates) && Answered(r, s, f, fates)
    ensures Loads(s') == f == Actual(s')
  {
    hide After, Answer;
    forall i: nat | i < |s| ensures s'[i].cached == s'[i].actual == f[i] {
      if 0 < Amount(r, s[i].cached, f[i]) {
        DoneReaches(r, s[i], f[i], fates[i]);
      }
    }
  }

  lemma NoneRefused(r: Request, s: seq<Agent>, s': seq<Agent>, f: seq<int>, fates: seq<Fate>)
    requires Answered(r, s, f, fates)
    ensures !Refused(r, s, s', f, fates)
  {
    hide After, Answer;
  }

  /** All agents are alive, and are what their statuses say. */
  ghost predicate Ready(s: seq<Agent>) {
    forall i | 0 <= i < |s| :: s[i].alive && 0 <= s[i].cached == s[i].actual
  }

  /** Every request is reached, does what it can, and is answered. */
  ghost predicate AllWork(fates: seq<Fate>) {
    forall i | 0 <= i < |fates| :: fates[i].reached && fates[i].stopsAfter.None? && fates[i].answered
  }

  ghost predicate Fits(f: seq<int>, s: seq<Agent>) {
    |f| == |s| && forall i | 0 <= i < |f| :: f[i] <= s[i].limit
  }

  lemma AdditionAnswered(s: seq<Agent>, n: nat, f: seq<int>, fates: seq<Fate>)
    requires Ready(s) && AllWork(fates) && |fates| == |s| && Adds(Loads(s), n, f) && Fits(f, s)
    ensures Answered(AddUsers, s, f, fates)
  {
    hide Sum, Adds, LevelledUp;
    AddsLevel(Loads(s), n, f);
    PlanIsAbove(Loads(s), f);
  }

  lemma RemovalAnswered(s: seq<Agent>, n: nat, f: seq<int>, fates: seq<Fate>)
    requires Ready(s) && AllWork(fates) && |fates| == |s| && Removes(Loads(s), n, f)
    ensures Answered(RemoveUsers, s, f, fates)
  {
    hide Sum, Removes, LevelledDown;
    RemovesLevel(Loads(s), n, f);
    PlanIsBelow(Loads(s), f);
  }

  lemma PlanIsBelow(c: seq<int>, f: seq<int>)
    requires LevelledDown(c, f)
    ensures |f| == |c| && forall i | 0 <= i < |f| :: 0 <= f[i] <= c[i]
  {
  }

  lemma KnownLoads(s: seq<Agent>)
    ensures (forall a | a in s :: 0 <= a.cached) ==> forall i | 0 <= i < |Loads(s)| :: 0 <= Loads(s)[i]
    ensures |Loads(s)| == |s|
  {
  }

  lemma ReadyLoads(s: seq<Agent>)
    requires Ready(s)
    ensures |Loads(s)| == |s| && Loads(s) == Actual(s) && forall i | 0 <= i < |s| :: 0 <= Loads(s)[i]
  {
  }

  /** No answer is lost, and nothing but its own limit makes an agent take fewer users than asked. */
  ghost predicate OnlyLimitsStop(fates: seq<Fate>) {
    forall i | 0 <= i < |fates| :: fates[i].stopsAfter.None? && fates[i].answered
  }

  lemma AddIsSafe(s: seq<Agent>, s': seq<Agent>, f: seq<int>, fates: seq<Fate>, i: nat, q: int, max: int)
    requires i < |s| && Sound(s[i], q) && Round(AddUsers, s, s', f, fates) && OnlyLimitsStop(fates)
    requires LevelledUp(Loads(s), f) && Sum(f) <= max && max < |s| * (q + 1)
    ensures Sound(s'[i], q) && (s'[i].cached <= f[i] || s'[i].cached <= q)
  {
    hide LevelledUp, Sound, AfterAdd, Sum;
    PlanIsAbove(Loads(s), f);
    if s'[i] != s[i] {
      PlanBound(Loads(s), f, i, q, max);
      AddKeepsSound(s[i], f[i] - s[i].cached, fates[i], q);
    }
  }

  lemma AddRoundIsSafe(s: seq<Agent>, s': seq<Agent>, f: seq<int>, fates: seq<Fate>, q: int, max: int)
    requires Safe(s, q, max) && Round(AddUsers, s, s', f, fates) && OnlyLimitsStop(fates)
    requires LevelledUp(Loads(s), f) && Sum(f) <= max && max < |s| * (q + 1)
    ensures Safe(s', q, max)
  {
    hide LevelledUp, Sound, Sum, OnlyLimitsStop, After, Amount;
    PlanStaysLifted(Loads(s), f, q, max);
    forall i | 0 <= i < |s| ensures Sound(s'[i], q) && Lifted(Loads(s'), q)[i] <= Lifted(f, q)[i] {
      AddIsSafe(s, s', f, fates, i, q, max);
    }
    SumMonotone(Lifted(f, q), Lifted(Loads(s'), q));
  }

  lemma PlanIsAbove(c: seq<int>, f: seq<int>)
    requires LevelledUp(c, f)
    ensures |f| == |c| && forall i | 0 <= i < |f| :: c[i] <= f[i]
  {
  }

  lemma RemoveRoundIsSafe(s: seq<Agent>, s': seq<Agent>, f: seq<int>, fates: seq<Fate>, q: int, max: int)
    requires Safe(s, q, max) && Round(RemoveUsers, s, s', f, fates)
    requires forall i | 0 <= i < |f| :: 0 <= f[i]
    ensures Safe(s', q, max)
  {
    hide Sound, AfterRemove;
    forall i | 0 <= i < |s| ensures Sound(s'[i], q) && Lifted(Loads(s'), q)[i] <= Lifted(Loads(s), q)[i] {
      if s'[i] != s[i] {
        RemoveKeepsSound(s[i], s[i].cached - f[i], fates[i], q);
      }
    }
    SumMonotone(Lifted(Loads(s), q), Lifted(Loads(s'), q));
  }

  lemma CrashIsSafe(s: seq<Agent>, i: nat, q: int, max: int)
    requires i < |s| && Safe(s, q, max)
    ensures Safe(s[i := Crashed(s[i])], q, max)
  {
    assert Loads(s[i := Crashed(s[i])]) == Loads(s);
  }

  // ----- whole runs -----

  /** An agent crashes, or the feedback loop does one iteration with the status of that moment. */
  datatype Event =
    | Crash(i: nat)
    | Iteration(times: Coordinators.Times, tick: Coordinators.Tick, plan: seq<int>, fates: seq<Fate>)

  ghost predicate Next(c: Coordinators.Settings, s: seq<Agent>, e: Event, s': seq<Agent>) {
    match e
    case Crash(i) => i < |s| && s' == s[i := Crashed(s[i])]
    case Iteration(times, tick, plan, fates) =>
      && tick.users == Sum(Loads(s))
      && match Coordinators.Decide(c, times, tick)
         case Stay => s' == s
         case Add(n) =>
           && Adds(Loads(s), n, plan) && Round(AddUsers, s, s', plan, fates)
           && if tick.ok then Served(AddUsers, s, s', plan, fates) else Refused(AddUsers, s, s', plan, fates)
         case Remove(n) =>
           && Removes(Loads(s), n, plan) && Round(RemoveUsers, s, s', plan, fates)
           && if tick.ok then Served(RemoveUsers, s, s', plan, fates) else Refused(RemoveUsers, s, s', plan, fates)
  }

  /** All agents have just been started: unless that works, the feedback loop does not begin. */
  ghost predicate Fresh(s: seq<Agent>) {
    s != [] && forall i | 0 <= i < |s| :: s[i].cached == 0 && s[i].actual == 0 && s[i].alive && 0 <= s[i].limit
  }

  /** The even share of max among the agents. */
  ghost function Share(s: seq<Agent>, max: int): int
    requires s != []
  {
    max / |s|
  }

  lemma ShareBounds(s: seq<Agent>, max: int)
    requires s != [] && 0 <= max
    ensures 0 <= Share(s, max) && |s| * Share(s, max) <= max < |s| * (Share(s, max) + 1)
  {
  }

  lemma {:induction false} SumOfSame(s: seq<int>, x: int)
    requires forall i | 0 <= i < |s| :: s[i] == x
    ensures Sum(s) == |s| * x
  {
    if s != [] {
      SumOfSame(s[..|s| - 1], x);
      assert |s| * x == (|s| - 1) * x + x;
    }
  }

  lemma FreshIsSafe(s: seq<Agent>, max: int)
    requires Fresh(s) && 0 <= max
    ensures Safe(s, Share(s, max), max)
  {
    ShareBounds(s, max);
    SumOfSame(Lifted(Loads(s), Share(s, max)), Share(s, max));
  }

  /** So it is with the requests that add users. Those that remove users may fail in any way. */
  ghost predicate LimitsOnly(c: Coordinators.Settings, e: Event) {
    e.Iteration? && Coordinators.Decide(c, e.times, e.tick).Add? ==> OnlyLimitsStop(e.fates)
  }

  lemma NextIsSafe(c: Coordinators.Settings, s: seq<Agent>, e: Event, s': seq<Agent>)
    requires s != [] && 0 <= c.max && Safe(s, Share(s, c.max), c.max)
    requires Next(c, s, e, s') && LimitsOnly(c, e)
    ensures |s'| == |s| && Safe(s', Share(s, c.max), c.max)
  {
    hide Safe, Share, Adds, Removes, Served, Refused;
    var q := Share(s, c.max);
    ShareBounds(s, c.max);
    match e {
      case Crash(i) => CrashIsSafe(s, i, q, c.max);
      case Iteration(times, tick, plan, fates) =>
        match Coordinators.Decide(c, times, tick) {
          case Stay =>
          case Add(n) =>
            AddsLevel(Loads(s), n, plan);
            AddRoundIsSafe(s, s', plan, fates, q, c.max);
          case Remove(n) =>
            LoadsNonNegative(s, q, c.max);
            RemovesLevel(Loads(s), n, plan);
            LevelledDownAbove(Loads(s), plan);
            RemoveRoundIsSafe(s, s', plan, fates, q, c.max);
        }
    }
  }

  lemma LoadsNonNegative(s: seq<Agent>, q: int, max: int)
    requires Safe(s, q, max)
    ensures forall i | 0 <= i < |s| :: 0 <= Loads(s)[i]
  {
  }

  lemma LevelledDownAbove(c: seq<int>, f: seq<int>)
    requires LevelledDown(c, f)
    ensures forall i | 0 <= i < |f| :: 0 <= f[i]
  {
  }

  /** A run: the states the agents go through, and what happens between them. */
  ghost predicate IsRun(c: Coordinators.Settings, states: seq<seq<Agent>>, events: seq<Event>) {
    && |states| == |events| + 1
    && Fresh(states[0])
    && forall i | 0 <= i < |events| :: Next(c, states[i], events[i], states[i + 1])
  }

  /** However often agents crash, restart, refuse or are full, the users really active on them are never
      more than the configured maximum, as long as the answers to additions arrive and only its own limit makes
      an agent take fewer users than asked. */
  lemma {:induction false} CapHolds(c: Coordinators.Settings, states: seq<seq<Agent>>, events: seq<Event>)
    requires 0 <= c.max && IsRun(c, states, events)
    requires forall i | 0 <= i < |events| :: LimitsOnly(c, events[i])
    ensures states[0] != []
    ensures forall i | 0 <= i < |states| ::
              |states[i]| == |states[0]| && Safe(states[i], Share(states[0], c.max), c.max)
    ensures forall i | 0 <= i < |states| :: Sum(Actual(states[i])) <= c.max
  {
    hide Safe, Share, LimitsOnly, Next;
    var n := |events|;
    if n == 0 {
      FreshIsSafe(states[0], c.max);
      SafeIsCapped(states[0], Share(states[0], c.max), c.max);
    } else {
      CapHolds(c, states[..n], events[..n - 1]);
      SameShare(states[0], states[n - 1], c.max);
      NextIsSafe(c, states[n - 1], events[n - 1], states[n]);
      SafeIsCapped(states[n], Share(states[0], c.max), c.max);
    }
  }

  lemma SameShare(s: seq<Agent>, s': seq<Agent>, max: int)
    requires s != [] && |s| == |s'|
    ensures Share(s, max) == Share(s', max)
  {
  }

  // ----- when answers can be lost -----

  function TicksOf(events: seq<Event>): seq<Coordinators.Tick> {
    if events == [] then []
    else
      var before, e := TicksOf(events[..|events| - 1]), events[|events| - 1];
      if e.Iteration? then before + [e.tick] else before
  }

  /** The feedback loop remembers the times of its last alert and action, and its clock never goes back. */
  ghost predicate Timely(c: Coordinators.Settings, events: seq<Event>) {
    && Coordinators.Ordered(TicksOf(events))
    && forall i | 0 <= i < |events| && events[i].Iteration? ::
         events[i].times == Coordinators.Noticed(Coordinators.Run(c, TicksOf(events[..i])), events[i].tick)
  }

  /** A run from s, whatever happens to the requests in it. */
  ghost predicate RunFrom(c: Coordinators.Settings, s: seq<Agent>, states: seq<seq<Agent>>, events: seq<Event>) {
    IsRun(c, states, events) && Timely(c, events) && states[0] == s
  }

  ghost predicate WithinMax(c: Coordinators.Settings, states: seq<seq<Agent>>) {
    forall n | 0 <= n < |states| :: Sum(Actual(states[n])) <= c.max
  }

  ghost function Limits(agents: seq<Agent>): (s: seq<int>)
    ensures |s| == |agents| && forall i | 0 <= i < |s| :: s[i] == agents[i].limit
  {
    seq(|agents|, i requires 0 <= i < |agents| => agents[i].limit)
  }

  ghost predicate Bounded(s: seq<Agent>) {
    forall i | 0 <= i < |s| :: 0 <= s[i].actual <= s[i].limit
  }

  lemma RequestKeepsLimit(r: Request, a: Agent, d: int, w: Fate)
    requires 0 <= a.actual <= a.limit && 0 < d
    ensures After(r, a, d, w).limit == a.limit && 0 <= After(r, a, d, w).actual <= a.limit
  {
  }

  lemma RoundKeepsLimits(r: Request, s: seq<Agent>, s': seq<Agent>, f: seq<int>, fates: seq<Fate>)
    requires Bounded(s) && Round(r, s, s', f, fates)
    ensures Bounded(s') && Limits(s') == Limits(s)
  {
    hide After, Amount;
    forall i | 0 <= i < |s| ensures s'[i].limit == s[i].limit && 0 <= s'[i].actual <= s'[i].limit {
      if s'[i] != s[i] {
        RequestKeepsLimit(r, s[i], Amount(r, s[i].cached, f[i]), fates[i]);
      }
    }
  }

  lemma NextKeepsLimits(c: Coordinators.Settings, s: seq<Agent>, e: Event, s': seq<Agent>)
    requires Bounded(s) && Next(c, s, e, s')
    ensures Bounded(s') && Limits(s') == Limits(s)
  {
    hide Round, Served, Refused, Adds, Removes, Coordinators.Decide;
    match e {
      case Crash(i) =>
      case Iteration(times, tick, plan, fates) =>
        match Coordinators.Decide(c, times, tick) {
          case Stay =>
          case Add(n) => RoundKeepsLimits(AddUsers, s, s', plan, fates);
          case Remove(n) => RoundKeepsLimits(RemoveUsers, s, s', plan, fates);
        }
    }
  }

  /** Whatever happens, no agent exceeds its own limit. */
  lemma {:induction false} LimitsHold(c: Coordinators.Settings, states: seq<seq<Agent>>, events: seq<Event>)
    requires IsRun(c, states, events)
    ensures forall n | 0 <= n < |states| :: Bounded(states[n]) && Limits(states[n]) == Limits(states[0])
  {
    hide Next, Bounded;
    var n := |events|;
    if n == 0 {
      FreshIsBounded(states[0]);
    } else {
      LimitsHold(c, states[..n], events[..n - 1]);
      NextKeepsLimits(c, states[n - 1], events[n - 1], states[n]);
    }
  }

  lemma FreshIsBounded(s: seq<Agent>)
    requires Fresh(s)
    ensures Bounded(s)
  {
  }

  /** Users the coordinator knows nothing about. */
  ghost predicate Unnoticed(s: seq<Agent>) {
    forall i | 0 <= i < |s| :: s[i].cached == 0 && s[i].alive
  }

  lemma {:induction false} PlanFor(s: seq<int>, n: nat, i: nat) returns (f: seq<int>)
    requires i < |s| && 0 < n && forall j | 0 <= j < |s| :: s[j] == 0
    ensures Adds(s, n, f) && |f| == |s| && 0 < f[i]
  {
    if n == 1 {
      f := s[i := s[i] + 1];
      assert IsLeast(s, i) && AddStep(s, f);
      assert Adds(s, 0, s);
    } else {
      var g := PlanFor(s, n - 1, i);
      var j := LeastExists(g);
      f := g[j := g[j] + 1];
      assert AddStep(g, f);
    }
  }

  /** The answer of agent i is lost. */
  const LOST := Fate(true, true, None, false)

  function AllLost(n: nat): (fates: seq<Fate>)
    ensures |fates| == n && forall i | 0 <= i < n :: fates[i] == LOST
  {
    seq(n, i => LOST)
  }

  const QUIET := Coordinators.Tick(false, 0, 0, 0, 0, 0, 0, false)

  /** An iteration without alert in which an answer is lost. */
  ghost predicate Loses(e: Event) {
    && e.Iteration? && e.times == Coordinators.Times(None, None) && e.tick == QUIET
    && forall i | 0 <= i < |e.fates| :: e.fates[i] == LOST
  }

  /** Agent i takes users, and its answer is lost: the coordinator still believes that there are none. */
  lemma FillOne(c: Coordinators.Settings, s: seq<Agent>, i: nat) returns (e: Event, s': seq<Agent>)
    requires 0 < c.inc && 0 < c.max && Unnoticed(s) && Bounded(s)
    requires i < |s| && s[i].actual < s[i].limit
    ensures Next(c, s, e, s') && Loses(e)
    ensures Unnoticed(s') && Sum(Actual(s)) < Sum(Actual(s'))
  {
    hide Adds, Sum;
    var n := Coordinators.Min(c.inc, c.max);
    var f := PlanFor(Loads(s), n, i);
    e := Iteration(Coordinators.Times(None, None), QUIET, f, AllLost(|s|));
    var a := AfterAdd(s[i], f[i], LOST);
    s' := s[i := a];
    NobodyKnown(s);
    OneAsked(s, s', f, i);
    SumUpdate(Actual(s), i, a.actual);
    assert Actual(s') == Actual(s)[i := a.actual];
  }

  lemma NobodyKnown(s: seq<Agent>)
    requires Unnoticed(s)
    ensures Sum(Loads(s)) == 0
  {
    SumZero(Loads(s));
  }

  lemma OneAsked(s: seq<Agent>, s': seq<Agent>, f: seq<int>, i: nat)
    requires Unnoticed(s) && i < |s| == |f| && 0 < f[i] && s' == s[i := AfterAdd(s[i], f[i], LOST)]
    ensures Round(AddUsers, s, s', f, AllLost(|s|)) && Refused(AddUsers, s, s', f, AllLost(|s|))
  {
    assert Amount(AddUsers, s[i].cached, f[i]) == f[i];
    assert Answer(AddUsers, s[i], f[i], LOST) == Failed;
  }

  lemma {:induction false} LosesIsTimely(c: Coordinators.Settings, events: seq<Event>)
    requires forall i | 0 <= i < |events| :: Loses(events[i])
    ensures forall k | 0 <= k < |TicksOf(events)| :: TicksOf(events)[k] == QUIET
    ensures Coordinators.Run(c, TicksOf(events)) == Coordinators.Times(None, None)
  {
    if events != [] {
      var before := events[..|events| - 1];
      LosesIsTimely(c, before);
      assert Loses(events[|events| - 1]);
      assert TicksOf(events)[..|TicksOf(before)|] == TicksOf(before);
    }
  }

  lemma LosesTimely(c: Coordinators.Settings, events: seq<Event>)
    requires forall i | 0 <= i < |events| :: Loses(events[i])
    ensures Timely(c, events)
  {
    hide TicksOf, Coordinators.Run;
    LosesIsTimely(c, events);
    forall i | 0 <= i < |events|
      ensures events[i].times == Coordinators.Noticed(Coordinators.Run(c, TicksOf(events[..i])), events[i].tick)
    {
      assert Loses(events[i]);
      LosesIsTimely(c, events[..i]);
    }
  }

  lemma AllFull(s: seq<Agent>)
    requires forall j: nat | j < |s| :: s[j].actual == s[j].limit
    ensures Sum(Actual(s)) == Sum(Limits(s))
  {
    assert Actual(s) == Limits(s);
  }

  lemma SomeRoom(s: seq<Agent>) returns (i: nat)
    requires Bounded(s) && Sum(Actual(s)) < Sum(Limits(s))
    ensures i < |s| && s[i].actual < s[i].limit
  {
    if forall j: nat | j < |s| :: s[j].actual == s[j].limit {
      AllFull(s);
    }
    i :| i < |s| && s[i].actual < s[i].limit;
  }

  /** Losing one answer after another, the agents are filled until there are more users than allowed. */
  lemma {:induction false} Overfill(c: Coordinators.Settings, states: seq<seq<Agent>>, events: seq<Event>)
    returns (states': seq<seq<Agent>>, events': seq<Event>)
    requires 0 < c.inc && 0 < c.max && IsRun(c, states, events)
    requires forall i | 0 <= i < |events| :: Loses(events[i])
    requires Unnoticed(states[|events|]) && c.max < Sum(Limits(states[0]))
    ensures IsRun(c, states', events') && states'[0] == states[0]
    ensures forall i | 0 <= i < |events'| :: Loses(events'[i])
    ensures c.max < Sum(Actual(states'[|events'|]))
    decreases c.max - Sum(Actual(states[|events|]))
  {
    hide Next, Loses, Unnoticed, Sum, Bounded;
    var s := states[|events|];
    if c.max < Sum(Actual(s)) {
      states', events' := states, events;
    } else {
      LimitsHold(c, states, events);
      var i := SomeRoom(s);
      var e, s' := FillOne(c, s, i);
      states', events' := Overfill(c, states + [s'], events + [e]);
    }
  }

  /** A run in which nothing happens but that answers are lost, and which ends with too many users. */
  lemma CapExceeded(c: Coordinators.Settings, s: seq<Agent>) returns (states: seq<seq<Agent>>, events: seq<Event>)
    requires Fresh(s) && 0 < c.inc && 0 < c.max && c.max < Sum(Limits(s))
    ensures RunFrom(c, s, states, events)
    ensures forall i | 0 <= i < |events| :: Loses(events[i])
    ensures c.max < Sum(Actual(states[|events|]))
  {
    hide Next, Loses, Sum, Limits, Actual;
    states, events := Overfill(c, [s], []);
    LosesTimely(c, events);
  }

  /** Where answers can be lost, the maximum is kept in every run if and only if the agents together cannot
      have more users. */
  lemma CapExactly(c: Coordinators.Settings, s: seq<Agent>)
    requires Fresh(s) && 0 < c.inc && 0 < c.max
    ensures (forall states, events | RunFrom(c, s, states, events) :: WithinMax(c, states)) <==> Sum(Limits(s)) <= c.max
  {
    hide RunFrom, WithinMax, Loses;
    if c.max < Sum(Limits(s)) {
      var states, events := CapExceeded(c, s);
      LastOver(c, s, states, events);
    } else {
      forall states, events | RunFrom(c, s, states, events) ensures WithinMax(c, states) {
        LimitsBoundAll(c, s, states, events);
      }
    }
  }

  lemma LastOver(c: Coordinators.Settings, s: seq<Agent>, states: seq<seq<Agent>>, events: seq<Event>)
    requires RunFrom(c, s, states, events) && c.max < Sum(Actual(states[|events|]))
    ensures !WithinMax(c, states)
  {
    hide Next, Timely, Sum;
  }

  lemma LimitsBoundAll(c: Coordinators.Settings, s: seq<Agent>, states: seq<seq<Agent>>, events: seq<Event>)
    requires RunFrom(c, s, states, events) && Sum(Limits(s)) <= c.max
    ensures WithinMax(c, states)
  {
    hide Next, Timely;
    LimitsHold(c, states, events);
    forall n | 0 <= n < |states| ensures Sum(Actual(states[n])) <= c.max {
      SumMonotone(Limits(states[n]), Actual(states[n]));
    }
  }

  // ----- the cluster object -----

  /** The requests of the keys still to come have not been made yet, and the others have. */
  ghost predicate Halfway(r: Request, s: seq<Agent>, s': seq<Agent>, dist: map<int, int>, keys: set<int>,
                          fates: seq<Fate>) {
    && |s| == |s'| == |fates| && keys <= dist.Keys && Amounts(Loads(s), dist)
    && forall i | 0 <= i < |s| ::
         if i !in dist || i in keys then s'[i] == s[i]
         else s'[i] == After(r, s[i], dist[i], fates[i]) && Answer(r, s[i], dist[i], fates[i]) != Failed
  }

  function Sign(r: Request): int {
    if r.AddUsers? then 1 else -1
  }

  lemma PlanAmounts(r: Request, loads: seq<int>, dist: map<int, int>)
    requires Amounts(loads, dist)
    ensures var f := Plus(loads, dist, Sign(r));
            && |f| == |loads|
            && forall i | 0 <= i < |f| :: Amount(r, loads[i], f[i]) == if i in dist then dist[i] else 0
    ensures forall i | i in dist :: 0 <= i < |loads| && 0 < dist[i]
  {
  }

  lemma RoundSoFar(r: Request, s: seq<Agent>, s': seq<Agent>, dist: map<int, int>, keys: set<int>, fates: seq<Fate>)
    requires Halfway(r, s, s', dist, keys, fates)
    ensures Round(r, s, s', Plus(Loads(s), dist, Sign(r)), fates)
    ensures keys == {} ==> Served(r, s, s', Plus(Loads(s), dist, Sign(r)), fates)
  {
    hide After, Answer, Amount, Plus, Amounts;
    PlanAmounts(r, Loads(s), dist);
  }

  /** One more request: it may end the round. */
  lemma OneMoreRequest(r: Request, s: seq<Agent>, s': seq<Agent>, dist: map<int, int>, keys: set<int>,
                       fates: seq<Fate>, i: int)
    requires Halfway(r, s, s', dist, keys, fates) && i in keys
    ensures 0 <= i < |s| && i in dist && s'[i] == s[i]
    ensures var next := s'[i := After(r, s[i], dist[i], fates[i])];
            && Round(r, s, next, Plus(Loads(s), dist, Sign(r)), fates)
            && if Answer(r, s[i], dist[i], fates[i]) == Failed
               then Refused(r, s, next, Plus(Loads(s), dist, Sign(r)), fates)
               else Halfway(r, s, next, dist, keys - {i}, fates)
  {
    hide After, Answer, Amount, Plus, Amounts;
    PlanAmounts(r, Loads(s), dist);
  }

  class LoadAgentCluster {
    var agents: seq<Agent>
    var errMap: seq<ErrorTrack>
    /** What has been read from each agent's error counter. */
    ghost var readings: seq<seq<int>>

    ghost predicate Valid()
      reads this
    {
      && |errMap| == |readings| == |agents|
      && forall i | 0 <= i < |errMap| :: errMap[i] == Track(readings[i])
    }

    constructor (limits: seq<nat>)
      ensures Valid() && |agents| == |limits|
      ensures limits != [] ==> Fresh(agents)
      ensures forall i | 0 <= i < |readings| :: readings[i] == []
    {
      agents := seq(|limits|, i requires 0 <= i < |limits| => Agent(0, 0, true, limits[i]));
      errMap := seq(|limits|, i requires 0 <= i < |limits| => ErrorTrack(0, 0));
      readings := seq(|limits|, i requires 0 <= i < |limits| => []);
    }

    /** Makes the requests of a distribution in some order, and stops at the first failure. */
    method MakeRequests(r: Request, dist: map<int, int>, fates: seq<Fate>) returns (ok: bool)
      requires Valid() && |fates| == |agents| && Amounts(Loads(agents), dist)
      modifies this`agents
      ensures Valid()
      ensures Round(r, old(agents), agents, Plus(Loads(old(agents)), dist, Sign(r)), fates)
      ensures ok ==> Served(r, old(agents), agents, Plus(Loads(old(agents)), dist, Sign(r)), fates)
      ensures !ok ==> Refused(r, old(agents), agents, Plus(Loads(old(agents)), dist, Sign(r)), fates)
      ensures dist == map[] ==> ok && agents == old(agents)
    {
      hide Halfway, Round, Served, Refused, After, Answer, Amounts, Plus;
      var keys := dist.Keys;
      ghost var s := agents;
      AssertStart(r, s, dist, fates);
      while |keys| > 0
        invariant Valid() && |agents| == |s| && Halfway(r, s, agents, dist, keys, fates)
        invariant Round(r, s, agents, Plus(Loads(s), dist, Sign(r)), fates)
        invariant keys <= dist.Keys && (keys == dist.Keys ==> agents == s)
        decreases |keys|
      {
        var i := SomeKey(keys);
        OneMoreRequest(r, s, agents, dist, keys, fates, i);
        var reply := Answer(r, agents[i], dist[i], fates[i]);
        agents := agents[i := After(r, agents[i], dist[i], fates[i])];
        if reply == Failed {
          return false;
        }
        keys := keys - {i};
      }
      RoundSoFar(r, s, agents, dist, keys, fates);
      return true;
    }

    /** Where every request is answered, exactly n users are added. */
    method IncrementUsers(n: int, fates: seq<Fate>) returns (ok: bool, ghost plan: seq<int>)
      requires Valid() && |fates| == |agents|
      modifies this`agents
      ensures Valid()
      ensures Adds(Loads(old(agents)), Steps(n), plan) || (old(agents) == [] && ok)
      ensures old(agents) == [] ==> agents == []
      ensures old(agents) != [] && 0 <= n ==> Sum(plan) == Sum(Loads(old(agents))) + n
      ensures old(agents) != [] && n <= 0 ==> ok && agents == old(agents)
      ensures old(agents) != [] ==> Round(AddUsers, old(agents), agents, plan, fates)
      ensures old(agents) != [] && ok ==> Served(AddUsers, old(agents), agents, plan, fates)
      ensures !ok ==> Refused(AddUsers, old(agents), agents, plan, fates)
      ensures old(agents) != [] && 0 <= n && Ready(old(agents)) && AllWork(fates) && Fits(plan, old(agents)) ==>
                && ok && Loads(agents) == plan == Actual(agents)
                && Sum(Actual(agents)) == Sum(Actual(old(agents))) + n
    {
      hide Adds, Round, Served, Refused, Plus, Amounts, Answered, Ready, AllWork, Fits, Sum, Loads, Actual;
      plan := [];
      if agents == [] {
        return true, plan;
      }
      ghost var s := agents;
      var dist := AdditionDistribution(Loads(agents), n);
      plan := Plus(Loads(agents), dist.value, 1);
      ok := MakeRequests(AddUsers, dist.value, fates);
      if 0 <= n && Ready(s) && AllWork(fates) && Fits(plan, s) {
        AdditionAnswered(s, n, plan, fates);
        NoneRefused(AddUsers, s, agents, plan, fates);
        AnsweredReachesPlan(AddUsers, s, agents, plan, fates);
        ReadyLoads(s);
      }
    }

    /** Where every request is answered, exactly n users are removed, or all if there are fewer. */
    method DecrementUsers(n: int, fates: seq<Fate>) returns (ok: bool, ghost plan: seq<int>)
      requires Valid() && |fates| == |agents|
      modifies this`agents
      ensures Valid()
      ensures Removes(Loads(old(agents)), Steps(n), plan) || (old(agents) == [] && ok)
      ensures old(agents) == [] ==> agents == []
      ensures old(agents) != [] && 0 <= n && (forall a | a in old(agents) :: 0 <= a.cached) ==>
                var total := Sum(Loads(old(agents)));
                Sum(plan) == if n <= total then total - n else 0
      ensures old(agents) != [] && n <= 0 ==> ok && agents == old(agents)
      ensures old(agents) != [] ==> Round(RemoveUsers, old(agents), agents, plan, fates)
      ensures old(agents) != [] && ok ==> Served(RemoveUsers, old(agents), agents, plan, fates)
      ensures !ok ==> Refused(RemoveUsers, old(agents), agents, plan, fates)
      ensures old(agents) != [] && 0 <= n && Ready(old(agents)) && AllWork(fates) ==>
                var total := Sum(Actual(old(agents)));
                && ok && Loads(agents) == plan == Actual(agents)
                && Sum(Actual(agents)) == if n <= total then total - n else 0
    {
      hide Removes, Round, Served, Refused, Plus, Amounts, Answered, Ready, AllWork, Fits, Sum, Loads, Actual;
      plan := [];
      if agents == [] {
        return true, plan;
      }
      ghost var s := agents;
      var dist := DeletionDistribution(Loads(agents), n);
      plan := Plus(Loads(agents), dist.value, -1);
      ok := MakeRequests(RemoveUsers, dist.value, fates);
      KnownLoads(s);
      if 0 <= n && Ready(s) && AllWork(fates) {
        ReadyLoads(s);
        RemovalAnswered(s, n, plan, fates);
        NoneRefused(RemoveUsers, s, agents, plan, fates);
        AnsweredReachesPlan(RemoveUsers, s, agents, plan, fates);
      }
    }

    method TrackErrors(k: nat, currentError: int)
      requires k < |errMap|
      modifies this`errMap
      ensures errMap == old(errMap)[k := Observe(old(errMap)[k], currentError)]
    {
      var errInfo := errMap[k];
      if currentError < errInfo.lastError {
        errInfo := errInfo.(totalErrors := errInfo.totalErrors + errInfo.lastError);
      }
      errInfo := errInfo.(lastError := currentError);
      errMap := errMap[k := errInfo];
    }

    /** The active users, and the errors of all agents over all their restarts. `counters` are the error
        counters in the agents' statuses. */
    method Status(counters: seq<int>) returns (active: int, errors: int)
      requires Valid() && |counters| == |agents|
      modifies this`errMap, this`readings
      ensures Valid() && readings == Extended(old(readings), counters)
      ensures active == Sum(Loads(agents))
      ensures errors == Sum(Totals(readings))
    {
      hide Track, Observe, Extended, Totals, Reported, Loads, Sum;
      active, errors := 0, 0;
      ghost var all := Extended(readings, counters);
      NothingSummed(Loads(agents));
      NothingSummed(Totals(all));
      for k := 0 to |agents|
        invariant |errMap| == |agents| && readings == old(readings)
        invariant forall i | 0 <= i < k :: errMap[i] == Track(all[i])
        invariant forall i | k <= i < |errMap| :: errMap[i] == Track(readings[i])
        invariant active == Sum(Loads(agents)[..k]) && errors == Sum(Totals(all)[..k])
      {
        active := active + agents[k].cached;
        TrackErrors(k, counters[k]);
        errors := errors + (counters[k] + errMap[k].totalErrors);
        TrackGrows(readings[k], counters[k]);
        SumPrefix(Loads(agents), k);
        SumPrefix(Totals(all), k);
      }
      assert Loads(agents)[..|agents|] == Loads(agents);
      assert Totals(all)[..|agents|] == Totals(all);
      readings := all;
    }
  }

  lemma NothingSummed(s: seq<int>)
    ensures Sum(s[..0]) == 0
  {
  }

  lemma SumPrefix(s: seq<int>, k: nat)
    requires k < |s|
    ensures Sum(s[..k + 1]) == Sum(s[..k]) + s[k]
  {
    assert s[..k + 1][..k] == s[..k];
  }

  method SomeKey<T(==)>(keys: set<T>) returns (k: T)
    requires |keys| > 0
    ensures k in keys
  {
    k :| k in keys;
  }

  /** One more reading of every counter. */
  ghost function Extended(readings: seq<seq<int>>, counters: seq<int>): (all: seq<seq<int>>)
    requires |readings| == |counters|
    ensures |all| == |readings| && forall i | 0 <= i < |all| :: all[i] == readings[i] + [counters[i]]
  {
    seq(|readings|, i requires 0 <= i < |readings| => readings[i] + [counters[i]])
  }

  /** What the status reports for each agent. */
  ghost function Totals(readings: seq<seq<int>>): (t: seq<int>)
    ensures |t| == |readings| && forall i | 0 <= i < |t| :: t[i] == Reported(readings[i])
  {
    seq(|readings|, i requires 0 <= i < |readings| => Reported(readings[i]))
  }

  lemma TrackGrows(readings: seq<int>, current: int)
    ensures Track(readings + [current]) == Observe(Track(readings), current)
    ensures Reported(readings + [current]) == current + Observe(Track(readings), current).totalErrors
  {
    assert (readings + [current])[..|readings|] == readings;
  }

  lemma AssertStart(r: Request, s: seq<Agent>, dist: map<int, int>, fates: seq<Fate>)
    requires |fates| == |s| && Amounts(Loads(s), dist)
    ensures Halfway(r, s, s, dist, dist.Keys, fates)
    ensures Round(r, s, s, Plus(Loads(s), dist, Sign(r)), fates)
  {
  }
}
