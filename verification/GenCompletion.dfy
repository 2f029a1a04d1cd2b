/** loadtest/control/gencontroller: when generators can finish, and when none of them ever will. */
module GeneratorCompletion {
  import opened Wrappers
  import opened Sums
  import opened GeneratorQuotas
  import opened GeneratorCapacity

  ghost predicate AllExited(w: World) {
    forall i | 0 <= i < |w.gens| :: w.gens[i].pc == Exited
  }

  /** No generator is started on the way, and nobody else posts. */
  ghost predicate Alone(events: seq<Event>) {
    Start !in events && Outside !in events
  }

  /** Some continuation with the generators and the posts there are ends with all generators gone. */
  ghost predicate CanFinish(t: Counts, picks: set<Action>, w: World) {
    exists worlds, events :: Finishes(t, picks, w, worlds, events)
  }

  ghost predicate Finishes(t: Counts, picks: set<Action>, w: World, worlds: seq<World>, events: seq<Event>) {
    && IsPath(t, picks, worlds, events)
    && worlds[0] == w && Alone(events) && AllExited(worlds[|events|])
  }

  /** What is missing can be created: teams by a generator each, replies to a post there is, and reactions
      while the generators that have not dropped them have room for as many. */
  ghost predicate Feasible(t: Counts, picks: set<Action>, w: World) {
    && t[Teams] <= |w.gens|
    && (w.completed[Channels] < t[Channels] ==> CreateChannel in picks)
    && (w.completed[Posts] < t[Posts] ==> CreatePost in picks || (CreateReply in picks && 0 < w.posts))
    && (w.completed[Reactions] < t[Reactions] ==> AddReaction in picks && t[Reactions] <= Capacity(t, w))
  }

  // ----- how far a world is from its end -----

  function Missing(t: Counts, w: World): int {
    (t[Teams] - w.completed[Teams]) + (t[Channels] - w.completed[Channels])
    + (t[Posts] - w.completed[Posts]) + (t[Reactions] - w.completed[Reactions])
  }

  /** Steps a generator needs: to its next creation while something is missing, and to its exit when nothing
      is. */
  function Steps(missing: bool, pc: Pc): nat {
    match pc
    case Init => 20
    case Ready => 6
    case Flight(_) => 1
    case Check(k) => if missing then (if k < 4 then 16 - k else 12) else (if k < 4 then 5 - k else 1)
    case Prune(k) => if k < 3 then 10 - k else 7
    case Exited => 0
  }

  ghost function AllSteps(missing: bool, gens: seq<Gen>): (s: seq<int>)
    ensures |s| == |gens| && forall i | 0 <= i < |s| :: s[i] == Steps(missing, gens[i].pc)
  {
    seq(|gens|, i requires 0 <= i < |gens| => Steps(missing, gens[i].pc))
  }

  ghost function Work(t: Counts, w: World): (n: int)
    ensures 0 <= n
  {
    SumNonNegative(AllSteps(Missing(t, w) > 0, w.gens));
    Sum(AllSteps(Missing(t, w) > 0, w.gens))
  }

  ghost predicate Closer(t: Counts, w: World, w': World) {
    || Missing(t, w') < Missing(t, w)
    || (Missing(t, w') == Missing(t, w) && Work(t, w') < Work(t, w))
  }

  // ----- slots that are held in vain -----

  /** No post to reply to, or no reaction left to add. */
  predicate Barred(w: World, g: Gen) {
    || (g.action == CreateReply && w.posts == 0)
    || (g.action == AddReaction && Room(w, g) == 0)
  }

  predicate IsDoomed(w: World, g: Gen) {
    g.pc.Flight? && Barred(w, g)
  }

  ghost function DoomedBits(w: World): (s: seq<int>)
    ensures |s| == |w.gens| && forall i | 0 <= i < |s| :: s[i] == Bit(IsDoomed(w, w.gens[i]))
  {
    seq(|w.gens|, i requires 0 <= i < |w.gens| => Bit(IsDoomed(w, w.gens[i])))
  }

  ghost function Doomed(w: World): (n: int)
    ensures 0 <= n
  {
    SumNonNegative(DoomedBits(w));
    Sum(DoomedBits(w))
  }

  /** Posts are never lost, so nobody is barred by what another generator does. */
  lemma DoomedAfter(w: World, w': World, i: nat)
    requires OnlyOne(w, w', i) && w.posts <= w'.posts && w.recent <= w'.recent
    ensures Doomed(w') <= Doomed(w) - Bit(IsDoomed(w, w.gens[i])) + Bit(IsDoomed(w', w'.gens[i]))
  {
    hide IsDoomed;
    var mine := Bit(IsDoomed(w', w'.gens[i]));
    SumUpdate(DoomedBits(w), i, mine);
    forall k: nat | k < |w.gens| && k != i
      ensures DoomedBits(w')[k] <= DoomedBits(w)[k]
    {
      DoomedLess(w, w', w.gens[k]);
    }
    SumMonotone(DoomedBits(w)[i := mine], DoomedBits(w'));
  }

  lemma DoomedLess(w: World, w': World, g: Gen)
    requires w.posts <= w'.posts && w.recent <= w'.recent
    ensures Bit(IsDoomed(w', g)) <= Bit(IsDoomed(w, g))
  {
    SubsetSize(Marks(w.recent) - g.used, Marks(w'.recent) - g.used);
  }

  lemma StepDoomed(t: Counts, picks: set<Action>, w: World, e: Event)
    requires e.Step? && e.i < |w.gens| && GenPicked(picks, w.gens[e.i])
    ensures var w' := Next(t, picks, w, e);
            && e.i < |w'.gens|
            && Doomed(w') <= Doomed(w) - Bit(IsDoomed(w, w.gens[e.i])) + Bit(IsDoomed(w', w'.gens[e.i]))
  {
    hide Doomed, Next, IsDoomed;
    var w' := Next(t, picks, w, e);
    StepOnly(t, picks, w, e);
    StepKinds(t, picks, w, e);
    DoomedAfter(w, w', e.i);
  }

  /** A step of one generator that creates nothing and needs fewer further steps. */
  lemma OneCloser(t: Counts, w: World, w': World, i: nat)
    requires i < |w.gens| == |w'.gens| && w'.gens == w.gens[i := w'.gens[i]] && w'.completed == w.completed
    requires Steps(Missing(t, w) > 0, w'.gens[i].pc) < Steps(Missing(t, w) > 0, w.gens[i].pc)
    ensures Closer(t, w, w')
  {
    hide Steps;
    var m := Missing(t, w) > 0;
    SumUpdate(AllSteps(m, w.gens), i, Steps(m, w'.gens[i].pc));
    assert AllSteps(m, w'.gens) == AllSteps(m, w.gens)[i := Steps(m, w'.gens[i].pc)];
  }

  lemma NothingBelow(t: Counts, w: World)
    requires Inv(t, w)
    ensures forall q :: 0 <= w.completed[q] <= w.count[q] <= t[q]
    ensures 0 <= Missing(t, w)
    ensures Missing(t, w) == 0 ==> forall q :: w.completed[q] == w.count[q] == t[q]
  {
    hide Kept, GensOk, TeamsOk;
    forall q ensures 0 <= w.completed[q] <= w.count[q] <= t[q] {
      assert Exact(t, w, q);
      FlightBits(w.gens, q);
    }
    if Missing(t, w) == 0 {
      forall q ensures w.completed[q] == t[q] {
        match q case Teams => case Channels => case Posts => case Reactions =>
      }
    }
  }

  lemma CreatedCloser(t: Counts, w: World, i: nat, q: Quota, mark: Mark)
    requires i < |w.gens|
    ensures Missing(t, Created(w, i, q, mark)) == Missing(t, w) - 1
  {
    match q case Teams => case Channels => case Posts => case Reactions =>
  }

  lemma ReserveCloser(t: Counts, w: World, i: nat, a: Action, full: Pc)
    requires i < |w.gens|
    requires w.count[For(a)] == t[For(a)] ==>
               Steps(Missing(t, w) > 0, full) < Steps(Missing(t, w) > 0, w.gens[i].pc)
    requires 1 < Steps(Missing(t, w) > 0, w.gens[i].pc)
    ensures Closer(t, w, Reserve(t, w, i, a, full))
  {
    hide Missing, For;
    var w' := Reserve(t, w, i, a, full);
    assert w'.gens == w.gens[i := w'.gens[i]];
    OneCloser(t, w, w', i);
  }

  lemma LookDoneCloser(t: Counts, w: World, i: nat, k: nat)
    requires i < |w.gens| && w.gens[i].pc == Check(k)
    requires Missing(t, w) > 0 || forall q :: w.count[q] == t[q]
    ensures Closer(t, w, LookDone(t, w, i, k))
  {
    hide Missing, Closer;
    var w' := LookDone(t, w, i, k);
    assert w'.gens == w.gens[i := w'.gens[i]];
    OneCloser(t, w, w', i);
  }

  lemma LookPruneCloser(t: Counts, w: World, i: nat, k: nat)
    requires i < |w.gens| && w.gens[i].pc == Prune(k)
    ensures Closer(t, w, LookPrune(t, w, i, k))
  {
    hide Missing, Closer;
    var w' := LookPrune(t, w, i, k);
    assert w'.gens == w.gens[i := w'.gens[i]];
    OneCloser(t, w, w', i);
  }

  /** A generator that checks the counters, or drops actions, gets on as long as something is missing. */
  lemma LookCloser(t: Counts, w: World, i: nat, w': World)
    requires i < |w.gens| && (w.gens[i].pc.Check? || w.gens[i].pc.Prune?)
    requires w' == if w.gens[i].pc.Check? then LookDone(t, w, i, w.gens[i].pc.k) else LookPrune(t, w, i, w.gens[i].pc.k)
    requires Missing(t, w) > 0 || w.gens[i].pc.Prune? || forall q :: w.count[q] == t[q]
    ensures Closer(t, w, w')
  {
    hide Missing, Closer, LookDone, LookPrune;
    if w.gens[i].pc.Check? {
      LookDoneCloser(t, w, i, w.gens[i].pc.k);
    } else {
      LookPruneCloser(t, w, i, w.gens[i].pc.k);
    }
  }

  lemma PickNothingCloser(t: Counts, w: World, i: nat)
    requires i < |w.gens| && w.gens[i].pc == Ready && Missing(t, w) == 0
    ensures Closer(t, w, Put(w, i, Check(0)))
  {
    hide Missing;
    var w' := Put(w, i, Check(0));
    assert w'.gens == w.gens[i := w'.gens[i]];
    OneCloser(t, w, w', i);
  }

  /** When nobody is still to create a team, all teams there can be have been created. */
  lemma TeamsComplete(t: Counts, w: World)
    requires Inv(t, w) && t[Teams] <= |w.gens|
    requires forall i | 0 <= i < |w.gens| :: w.gens[i].pc != Init && !w.gens[i].pc.Flight?
    ensures w.completed[Teams] == t[Teams]
  {
    hide Kept, GensOk;
    NothingBelow(t, w);
    SumZero(Seekers(w.gens));
  }

  lemma NoFlights(t: Counts, w: World, q: Quota)
    requires Inv(t, w) && forall i | 0 <= i < |w.gens| :: !w.gens[i].pc.Flight?
    ensures w.count[q] == w.completed[q]
  {
    hide Kept, GensOk, TeamsOk;
    assert Exact(t, w, q);
    SumZero(Flights(w.gens, q));
  }

  /** Nobody holds a slot, so the counters are what has been created. */
  ghost predicate NobodyFlies(w: World) {
    forall i | 0 <= i < |w.gens| :: !w.gens[i].pc.Flight?
  }

  /** What to create next, and a generator that can: channels and posts before reactions. */
  lemma FindKeeper(t: Counts, picks: set<Action>, w: World) returns (a: Action, i: nat)
    requires Inv(t, w) && Feasible(t, picks, w) && w.gens != [] && Missing(t, w) > 0
    requires w.completed[Teams] == t[Teams]
    ensures a in picks && a != CreateTeam && w.completed[For(a)] < t[For(a)]
    ensures i < |w.gens| && Keeps(w.gens[i], For(a)) && !Barred(w, w.gens[i].(action := a))
  {
    hide Exact, GensOk, TeamsOk, Keeps, Capacity;
    if w.completed[Channels] < t[Channels] {
      a := CreateChannel;
      i :| i < |w.gens| && Keeps(w.gens[i], Channels);
    } else if w.completed[Posts] < t[Posts] {
      a := if CreatePost in picks then CreatePost else CreateReply;
      i :| i < |w.gens| && Keeps(w.gens[i], Posts);
    } else {
      a := AddReaction;
      AtMostWanted(t, w);
      i := SomeRoom(t, w);
    }
  }

  lemma AtMostWanted(t: Counts, w: World)
    requires Inv(t, w)
    ensures w.completed[Posts] <= t[Posts] && w.completed[Channels] <= t[Channels]
  {
    hide Inv;
    NothingBelow(t, w);
  }

  const ANY := Mark(0, PlusOne)

  /** The step to take while something is missing and nobody is creating anything. */
  lemma ApproachCreation(t: Counts, picks: set<Action>, w: World) returns (e: Event)
    requires Inv(t, w) && Feasible(t, picks, w) && w.gens != [] && Missing(t, w) > 0
    requires NobodyFlies(w) && forall i | 0 <= i < |w.gens| :: w.gens[i].pc != Init
    ensures e.Step? && e.i < |w.gens| && Free(picks, w, e) && Closer(t, w, Next(t, picks, w, e))
  {
    hide Inv, Closer, Reserve, Missing, LookDone, LookPrune, Put, Barred, For;
    TeamsEnough(t, picks, w);
    TeamsComplete(t, w);
    var a, i := FindKeeper(t, picks, w);
    NoFlights(t, w, For(a));
    e := Step(i, Some(a), true, ANY);
    if w.gens[i].pc == Ready {
      ReadyCloser(t, w, i, a);
    } else {
      LookCloser(t, w, i, Next(t, picks, w, e));
    }
  }

  lemma TeamsEnough(t: Counts, picks: set<Action>, w: World)
    requires Feasible(t, picks, w)
    ensures t[Teams] <= |w.gens|
  {
    hide Capacity;
  }

  lemma ReadyCloser(t: Counts, w: World, i: nat, a: Action)
    requires i < |w.gens| && w.gens[i].pc == Ready && w.count[For(a)] != t[For(a)]
    ensures Closer(t, w, Reserve(t, w, i, a, Check(0)))
  {
    hide Missing, For, Closer;
    ReserveCloser(t, w, i, a, Check(0));
  }

  /** The step reserves no slot in vain. */
  ghost predicate Free(picks: set<Action>, w: World, e: Event)
    requires e.Step? && e.i < |w.gens|
  {
    var g := w.gens[e.i];
    g.pc == Ready && CanPick(picks, g, e.pick) ==> !Barred(w, g.(action := e.pick.value))
  }

  ghost predicate Undoomed(w: World, i: nat) {
    i < |w.gens| && !IsDoomed(w, w.gens[i])
  }

  lemma ReserveFree(t: Counts, w: World, i: nat, a: Action, full: Pc)
    requires i < |w.gens| && !Barred(w, w.gens[i].(action := a)) && !full.Flight?
    ensures var w' := Reserve(t, w, i, a, full); Undoomed(w', i)
  {
    hide For, Inc;
  }

  lemma LandFree(w: World, i: nat, q: Quota, works: bool, mark: Mark)
    requires i < |w.gens|
    ensures var w' := Land(w, i, q, works, mark); Undoomed(w', i)
  {
    hide Barred, Succeeds, Dec;
  }

  lemma LookFree(t: Counts, w: World, i: nat, k: nat)
    requires i < |w.gens|
    ensures var w' := LookDone(t, w, i, k); Undoomed(w', i)
    ensures var w' := LookPrune(t, w, i, k); Undoomed(w', i)
    ensures var w' := Put(w, i, Check(0)); Undoomed(w', i)
  {
    hide Barred;
  }

  lemma StaysFree(t: Counts, picks: set<Action>, w: World, e: Event)
    requires e.Step? && e.i < |w.gens| && Free(picks, w, e)
    ensures var w' := Next(t, picks, w, e); Undoomed(w', e.i)
  {
    hide Reserve, Put, Land, LookDone, LookPrune, Undoomed, Barred;
    NewcomerFree(w, w.gens[e.i]);
    match w.gens[e.i].pc {
      case Init => ReserveFree(t, w, e.i, CreateTeam, Ready);
      case Ready =>
        LookFree(t, w, e.i, 0);
        if CanPick(picks, w.gens[e.i], e.pick) {
          ReserveFree(t, w, e.i, e.pick.value, Check(0));
        }
      case Flight(q) => LandFree(w, e.i, q, e.works, e.mark);
      case Check(k) => LookFree(t, w, e.i, k);
      case Prune(k) => LookFree(t, w, e.i, k);
      case Exited => ExitedFree(w, e.i);
    }
  }

  lemma ExitedFree(w: World, i: nat)
    requires i < |w.gens| && w.gens[i].pc == Exited
    ensures Undoomed(w, i)
  {
  }

  lemma NewcomerFree(w: World, g: Gen)
    ensures !Barred(w, g.(action := CreateTeam))
  {
  }

  ghost predicate Advances(t: Counts, w: World, w': World) {
    Doomed(w') <= Doomed(w) && (Doomed(w') < Doomed(w) || Closer(t, w, w'))
  }

  /** A generator that holds a slot creates what it can, and gives the slot back otherwise. */
  lemma LandAdvances(t: Counts, picks: set<Action>, w: World, i: nat) returns (e: Event)
    requires Sound(t, picks, w) && i < |w.gens| && w.gens[i].pc.Flight?
    ensures e.Step? && e.i == i && Advances(t, w, Next(t, picks, w, e))
  {
    hide Inv, MarksOk, GenPicked, Doomed, Created, Missing, Work, Put, Failed;
    assert GenPicked(picks, w.gens[i]);
    if IsDoomed(w, w.gens[i]) {
      e := Step(i, None, false, ANY);
    } else {
      var mark := UnusedMark(w, w.gens[i]);
      e := Step(i, None, true, mark);
      CreatedCloser(t, w, i, w.gens[i].pc.q, mark);
    }
    StepDoomed(t, picks, w, e);
    StaysFree(t, picks, w, e);
  }

  lemma UnusedMark(w: World, g: Gen) returns (mark: Mark)
    requires g.pc.Flight? && !IsDoomed(w, g)
    ensures Succeeds(w, g, true, mark)
  {
    if g.action == AddReaction {
      hide Marks;
      InMarks(w.recent);
      mark :| mark in Marks(w.recent) - g.used;
    } else {
      mark := ANY;
    }
  }

  /** Whatever the generators are doing, some step brings them closer to their end. */
  lemma Progress(t: Counts, picks: set<Action>, w: World) returns (e: Event)
    requires Sound(t, picks, w) && w.gens != [] && Feasible(t, picks, w) && !AllExited(w)
    ensures e.Step? && e.i < |w.gens| && Advances(t, w, Next(t, picks, w, e))
    ensures w.gens[e.i].pc.Flight? || NobodyFlies(w)
  {
    hide Inv, MarksOk, GenPicked, Closer, Feasible, Next, Doomed, IsDoomed, Free, Missing;
    if i: nat :| i < |w.gens| && w.gens[i].pc.Flight? {
      e := LandAdvances(t, picks, w, i);
    } else {
      e := Approach(t, picks, w);
      assert GenPicked(picks, w.gens[e.i]);
      StepDoomed(t, picks, w, e);
      StaysFree(t, picks, w, e);
      NotDoomed(w, w.gens[e.i]);
    }
  }

  lemma NotDoomed(w: World, g: Gen)
    requires !g.pc.Flight?
    ensures !IsDoomed(w, g)
  {
  }

  /** The same while nobody is creating anything. */
  lemma Approach(t: Counts, picks: set<Action>, w: World) returns (e: Event)
    requires Inv(t, w) && w.gens != [] && Feasible(t, picks, w) && !AllExited(w) && NobodyFlies(w)
    ensures e.Step? && e.i < |w.gens| && Free(picks, w, e) && Closer(t, w, Next(t, picks, w, e))
  {
    hide Inv, Closer, Reserve, LookDone, LookPrune, Put, Feasible, Missing;
    if i: nat :| i < |w.gens| && w.gens[i].pc == Init {
      e := Step(i, None, true, ANY);
      ReserveCloser(t, w, i, CreateTeam, Ready);
    } else {
      NothingBelow(t, w);
      if Missing(t, w) > 0 {
        e := ApproachCreation(t, picks, w);
      } else {
        var i: nat :| i < |w.gens| && w.gens[i].pc != Exited;
        e := Step(i, None, true, ANY);
        if w.gens[i].pc == Ready {
          PickNothingCloser(t, w, i);
        } else {
          LookCloser(t, w, i, Next(t, picks, w, e));
        }
      }
    }
  }

  // ----- the condition along a path -----

  /** Only a landing creates something, and only what is picked and possible. */
  ghost predicate Effects(picks: set<Action>, w: World, w': World) {
    && |w'.gens| == |w.gens| && w.posts <= w'.posts
    && (forall q :: w.completed[q] <= w'.completed[q])
    && (w'.completed[Channels] != w.completed[Channels] ==> CreateChannel in picks)
    && (w'.completed[Posts] != w.completed[Posts] || w'.posts != w.posts
        ==> CreatePost in picks || (CreateReply in picks && 0 < w.posts))
    && (w'.completed[Reactions] != w.completed[Reactions] ==> AddReaction in picks)
  }

  lemma NoEffects(picks: set<Action>, w: World, w': World)
    requires |w'.gens| == |w.gens| && w'.posts == w.posts && w'.completed == w.completed
    ensures Effects(picks, w, w')
  {
  }

  lemma CreatedEffects(picks: set<Action>, w: World, i: nat, q: Quota, mark: Mark)
    requires i < |w.gens| && w.gens[i].pc == Flight(q) && GenPicked(picks, w.gens[i])
    requires Succeeds(w, w.gens[i], true, mark)
    ensures Effects(picks, w, Created(w, i, q, mark))
  {
  }

  lemma LookNothing(t: Counts, w: World, i: nat, k: nat)
    requires i < |w.gens|
    ensures var w' := LookDone(t, w, i, k);
            |w'.gens| == |w.gens| && w'.posts == w.posts && w'.completed == w.completed
    ensures var w' := LookPrune(t, w, i, k);
            |w'.gens| == |w.gens| && w'.posts == w.posts && w'.completed == w.completed
  {
  }

  lemma StepEffects(t: Counts, picks: set<Action>, w: World, e: Event)
    requires e.Step? && e.i < |w.gens| && GenPicked(picks, w.gens[e.i])
    ensures Effects(picks, w, Next(t, picks, w, e))
  {
    hide Effects, Created, LookDone, LookPrune, Inc, Dec, GenPicked;
    var w' := Next(t, picks, w, e);
    match w.gens[e.i].pc {
      case Init => NoEffects(picks, w, w');
      case Ready => NoEffects(picks, w, w');
      case Flight(q) =>
        if Succeeds(w, w.gens[e.i], e.works, e.mark) {
          CreatedEffects(picks, w, e.i, q, e.mark);
        } else {
          NoEffects(picks, w, w');
        }
      case Check(k) => LookNothing(t, w, e.i, k); NoEffects(picks, w, w');
      case Prune(k) => LookNothing(t, w, e.i, k); NoEffects(picks, w, w');
      case Exited => NoEffects(picks, w, w');
    }
  }

  /** As long as slots are given up before anybody looks at the counters, what is missing stays possible. */
  lemma FeasibleAfter(t: Counts, picks: set<Action>, w: World, e: Event)
    requires Sound(t, picks, w) && Feasible(t, picks, w) && e.Step? && e.i < |w.gens|
    requires w.gens[e.i].pc.Flight? || NobodyFlies(w)
    ensures Feasible(t, picks, Next(t, picks, w, e))
  {
    hide Inv, MarksOk, GenPicked, Next, Capacity;
    assert GenPicked(picks, w.gens[e.i]);
    StepEffects(t, picks, w, e);
    StepCapacity(t, picks, w, e);
    if NobodyFlies(w) {
      NoFlights(t, w, Reactions);
    }
  }

  /** What is possible after a step was possible before it. */
  lemma FeasibleBefore(t: Counts, picks: set<Action>, w: World, e: Event)
    requires Sound(t, picks, w) && Sound(t, picks, Next(t, picks, w, e)) && Alone([e])
    requires Feasible(t, picks, Next(t, picks, w, e))
    ensures Feasible(t, picks, w)
  {
    hide Inv, MarksOk, GenPicked, Next, Capacity;
    var w' := Next(t, picks, w, e);
    assert e == [e][0];
    if e.Age? {
      AgeCapacity(t, picks, w, e.young);
      NothingElse(t, picks, w, e);
    } else if e.i < |w.gens| {
      assert GenPicked(picks, w.gens[e.i]);
      StepEffects(t, picks, w, e);
      StepCapacity(t, picks, w, e);
      CapacityAtLeast(t, w');
      NothingBelow(t, w');
    } else {
      NothingElse(t, picks, w, e);
    }
  }

  lemma NothingElse(t: Counts, picks: set<Action>, w: World, e: Event)
    requires e.Age? || (e.Step? && |w.gens| <= e.i)
    ensures var w' := Next(t, picks, w, e);
            && |w'.gens| == |w.gens| && w'.posts == w.posts && w'.completed == w.completed
            && (e.Step? ==> w' == w)
  {
  }

  lemma OneStepMore(t: Counts, picks: set<Action>, w: World, e: Event, worlds: seq<World>, events: seq<Event>)
    requires IsPath(t, picks, worlds, events) && worlds[0] == Next(t, picks, w, e) && e.Step? && Alone(events)
    ensures IsPath(t, picks, [w] + worlds, [e] + events) && Alone([e] + events)
  {
    hide Next;
  }

  lemma {:induction false} Finish(t: Counts, picks: set<Action>, w: World)
    returns (worlds: seq<World>, events: seq<Event>)
    requires Sound(t, picks, w) && w.gens != [] && Feasible(t, picks, w)
    ensures Finishes(t, picks, w, worlds, events)
    decreases Doomed(w), Missing(t, w), Work(t, w)
  {
    hide Inv, Picked, MarksOk, Next, Missing, Work, Feasible, AllExited, Doomed;
    NothingBelow(t, w);
    if AllExited(w) {
      worlds, events := [w], [];
    } else {
      var e := Progress(t, picks, w);
      var w' := Next(t, picks, w, e);
      SoundAfter(t, picks, w, e);
      FeasibleAfter(t, picks, w, e);
      SameNumber(t, picks, w, e);
      NothingBelow(t, w');
      var rest, after := Finish(t, picks, w');
      OneStepMore(t, picks, w, e, rest, after);
      worlds, events := [w] + rest, [e] + after;
    }
  }

  lemma SameNumber(t: Counts, picks: set<Action>, w: World, e: Event)
    requires e.Step? && e.i < |w.gens|
    ensures |Next(t, picks, w, e).gens| == |w.gens|
  {
    hide Next;
    StepOnly(t, picks, w, e);
  }

  // ----- the exact condition -----

  /** Whoever has exited has seen everything complete, and teams need a generator each. */
  lemma FinishedIsFeasible(t: Counts, picks: set<Action>, w: World)
    requires Inv(t, w) && w.gens != [] && AllExited(w)
    ensures Feasible(t, picks, w)
  {
    hide Kept, GensOk, TeamsOk, Capacity;
    ExitedIsComplete(t, w, Teams);
    ExitedIsComplete(t, w, Channels);
    ExitedIsComplete(t, w, Posts);
    ExitedIsComplete(t, w, Reactions);
    TeamsWithinReach(t, w);
  }

  lemma TeamsWithinReach(t: Counts, w: World)
    requires Inv(t, w)
    ensures w.completed[Teams] <= |w.gens|
  {
    SumNonNegative(Seekers(w.gens));
  }

  lemma FirstStep(t: Counts, picks: set<Action>, worlds: seq<World>, events: seq<Event>)
    requires IsPath(t, picks, worlds, events) && Alone(events) && events != []
    ensures IsPath(t, picks, worlds[1..], events[1..]) && Alone(events[1..]) && Alone([events[0]])
    ensures worlds[1] == Next(t, picks, worlds[0], events[0])
  {
    hide Next;
    assert [events[0]] == events[..1];
  }

  lemma {:induction false} OnlyIfFeasible(t: Counts, picks: set<Action>, worlds: seq<World>, events: seq<Event>)
    requires IsPath(t, picks, worlds, events) && Alone(events) && Sound(t, picks, worlds[0])
    requires worlds[0].gens != [] && AllExited(worlds[|events|])
    ensures Feasible(t, picks, worlds[0])
    decreases |events|
  {
    hide Inv, Picked, MarksOk, Feasible, Next, AllExited, Alone;
    if events == [] {
      FinishedIsFeasible(t, picks, worlds[0]);
    } else {
      var w, e := worlds[0], events[0];
      FirstStep(t, picks, worlds, events);
      SoundAfter(t, picks, w, e);
      StillSome(t, picks, w, e);
      OnlyIfFeasible(t, picks, worlds[1..], events[1..]);
      FeasibleBefore(t, picks, w, e);
    }
  }

  lemma StillSome(t: Counts, picks: set<Action>, w: World, e: Event)
    requires w.gens != []
    ensures Next(t, picks, w, e).gens != []
  {
    if e.Step? && e.i < |w.gens| {
      hide Next;
      SameNumber(t, picks, w, e);
    }
  }

  /** From any state a run can reach, the generators there are can finish without anybody else's posts if and
      only if what is still missing can be created. */
  lemma FinishesExactly(t: Counts, picks: set<Action>, worlds: seq<World>, events: seq<Event>, n: nat)
    requires IsRun(t, picks, worlds, events) && n < |worlds| && worlds[n].gens != []
    ensures CanFinish(t, picks, worlds[n]) <==> Feasible(t, picks, worlds[n])
  {
    hide Sound, IsRun, IsPath, AllExited, Alone, Feasible;
    var w := worlds[n];
    RunSound(t, picks, worlds, events);
    if CanFinish(t, picks, w) {
      var more, after :| Finishes(t, picks, w, more, after);
      OnlyIfFeasible(t, picks, more, after);
    }
    if Feasible(t, picks, w) {
      var more, after := Finish(t, picks, w);
    }
  }

  /** Once all posts are created and none of them is young, reactions that are missing stay missing. */
  lemma TooLateForReactions(t: Counts, picks: set<Action>, worlds: seq<World>, events: seq<Event>, n: nat)
    requires IsRun(t, picks, worlds, events) && n < |worlds| && worlds[n].gens != []
    requires worlds[n].completed[Posts] == t[Posts] && worlds[n].recent == {}
    requires worlds[n].completed[Reactions] < t[Reactions]
    ensures !CanFinish(t, picks, worlds[n])
  {
    hide IsRun, CanFinish, Marks;
    var w := worlds[n];
    FinishesExactly(t, picks, worlds, events, n);
    MarksCount({});
    forall i: nat | i < |w.gens| ensures Addable(t, w, w.gens[i]) == 0 {
      SubsetSize(Marks(w.recent) - w.gens[i].used, Marks({}));
    }
    SumZero(Addables(t, w));
  }

  lemma OneEventMore(t: Counts, picks: set<Action>, worlds: seq<World>, events: seq<Event>, e: Event)
    requires IsRun(t, picks, worlds, events)
    ensures IsRun(t, picks, worlds + [Next(t, picks, worlds[|events|], e)], events + [e])
  {
    hide Next;
  }

  /** Time alone does that: once the posts are complete while reactions are missing, waiting until no post is
      young is enough. */
  lemma TimeRunsOut(t: Counts, picks: set<Action>, worlds: seq<World>, events: seq<Event>)
    requires IsRun(t, picks, worlds, events)
    requires var w := worlds[|events|];
             w.gens != [] && w.completed[Posts] == t[Posts] && w.completed[Reactions] < t[Reactions]
    ensures var w' := Next(t, picks, worlds[|events|], Age({}));
            && IsRun(t, picks, worlds + [w'], events + [Age({})])
            && w' == worlds[|events|].(recent := {}) && !CanFinish(t, picks, w')
  {
    hide IsRun, CanFinish;
    LengthOf(t, picks, worlds, events);
    var w := worlds[|events|];
    OneEventMore(t, picks, worlds, events, Age({}));
    assert w.recent * {} == {};
    TooLateForReactions(t, picks, worlds + [w.(recent := {})], events + [Age({})], |events| + 1);
  }

  lemma LengthOf(t: Counts, picks: set<Action>, worlds: seq<World>, events: seq<Event>)
    requires IsRun(t, picks, worlds, events)
    ensures |worlds| == |events| + 1
  {
  }

  // ----- in terms of the configuration -----

  datatype Config = Config(numTeams: nat, numChannels: nat, numPosts: nat, numReactions: nat,
                           percentReplies: real, percentPublic: real, percentPrivate: real)

  predicate Valid(c: Config) {
    0.0 <= c.percentReplies <= 1.0 && 0.0 <= c.percentPublic <= 1.0 && 0.0 <= c.percentPrivate <= 1.0
  }

  function Share(n: nat, p: real): real {
    n as real * p
  }

  /** The nearest integer, halves rounded up. */
  function Round(x: real): int {
    (x + 0.5).Floor
  }

  /** The frequency of an action. Those of public and of private channels are added up. */
  function Frequency(c: Config, a: Action): int {
    match a
    case CreateTeam => 0
    case CreateChannel =>
      Round(Share(c.numChannels, c.percentPublic)) + Round(Share(c.numChannels, c.percentPrivate))
    case CreatePost => Round(Share(c.numPosts, 1.0 - c.percentReplies))
    case CreateReply => Round(Share(c.numPosts, c.percentReplies))
    case AddReaction => c.numReactions
  }

  function Picks(c: Config): set<Action> {
    set a | a in {CreateChannel, CreatePost, CreateReply, AddReaction} && Frequency(c, a) > 0
  }

  function Targets(c: Config): (t: Counts)
    ensures forall q :: 0 <= t[q]
  {
    Nothing()[Teams := c.numTeams][Channels := c.numChannels][Posts := c.numPosts][Reactions := c.numReactions]
  }

  lemma RoundPositive(x: real)
    requires 0.0 <= x
    ensures 0 <= Round(x)
    ensures Round(x) > 0 <==> 0.5 <= x
  {
  }

  /** A share of the channels that rounds to at least one: of the public or of the private ones. */
  predicate SomeCountedChannel(c: Config) {
    0.5 <= Share(c.numChannels, c.percentPublic) || 0.5 <= Share(c.numChannels, c.percentPrivate)
  }

  lemma NonNegativeShare(n: nat, p: real)
    requires 0.0 <= p
    ensures 0.0 <= Share(n, p)
  {
  }

  /** Of two shares that make up a whole number above zero, one rounds to at least one. */
  lemma HalfOfPosts(n: nat, p: real)
    requires 0 < n && 0.0 <= p <= 1.0
    ensures 0.5 <= Share(n, p) || 0.5 <= Share(n, 1.0 - p)
  {
    assert n as real * p + n as real * (1.0 - p) == n as real;
  }

  /** A share of the posts that rounds to at least one is not replies. */
  predicate SomeNewPost(c: Config) {
    0.5 <= Share(c.numPosts, 1.0 - c.percentReplies)
  }

  lemma PicksExactly(c: Config)
    requires Valid(c)
    ensures CreateChannel in Picks(c) <==> SomeCountedChannel(c)
    ensures CreatePost in Picks(c) <==> SomeNewPost(c)
    ensures 0 < c.numPosts ==> CreatePost in Picks(c) || CreateReply in Picks(c)
    ensures AddReaction in Picks(c) <==> 0 < c.numReactions
  {
    hide Round, Share;
    NonNegativeShare(c.numChannels, c.percentPublic);
    NonNegativeShare(c.numChannels, c.percentPrivate);
    RoundPositive(Share(c.numChannels, c.percentPublic));
    RoundPositive(Share(c.numChannels, c.percentPrivate));
    PostsPicked(c);
  }

  lemma PostsPicked(c: Config)
    requires Valid(c)
    ensures Frequency(c, CreatePost) > 0 <==> SomeNewPost(c)
    ensures 0 < c.numPosts ==> Frequency(c, CreatePost) > 0 || Frequency(c, CreateReply) > 0
  {
    hide Round, Share;
    var written := 1.0 - c.percentReplies;
    NonNegativeShare(c.numPosts, c.percentReplies);
    NonNegativeShare(c.numPosts, written);
    RoundPositive(Share(c.numPosts, c.percentReplies));
    RoundPositive(Share(c.numPosts, written));
    if 0 < c.numPosts {
      HalfOfPosts(c.numPosts, c.percentReplies);
    }
  }

  /** Generators have been started and have not done anything yet. */
  ghost predicate Fresh(w: World) {
    w.gens != [] && w.completed == Nothing() && forall g | g in w.gens :: g == NewGen()
  }

  lemma FreshCapacity(t: Counts, w: World)
    requires Fresh(w)
    ensures Capacity(t, w) == Times(|w.gens|, 4 * (|w.recent| + t[Posts]))
  {
    hide Times, Marks, Sum;
    MarksCount(w.recent);
    assert Marks(w.recent) - {} == Marks(w.recent);
    forall i: nat | i < |w.gens| ensures Addable(t, w, w.gens[i]) == 4 * (|w.recent| + t[Posts]) {
      assert w.gens[i] in w.gens && w.gens[i] == NewGen();
    }
    SumBound(Addables(t, w), 4 * (|w.recent| + t[Posts]));
  }

  /** What the configuration and the server must provide. */
  predicate Sufficient(c: Config, w: World) {
    && c.numTeams <= |w.gens|
    && (c.numChannels == 0 || SomeCountedChannel(c))
    && (c.numPosts == 0 || SomeNewPost(c) || 0 < w.posts)
    && c.numReactions <= Times(|w.gens|, 4 * (|w.recent| + c.numPosts))
  }

  lemma FreshFeasible(c: Config, w: World)
    requires Valid(c) && Fresh(w)
    ensures Feasible(Targets(c), Picks(c), w) <==> Sufficient(c, w)
  {
    hide Picks, SomeCountedChannel, SomeNewPost, Capacity, Times, Fresh;
    PicksExactly(c);
    FreshCapacity(Targets(c), w);
    FreshNothing(w);
    CapacityNotNegative(w, c.numPosts);
  }

  lemma FreshNothing(w: World)
    requires Fresh(w)
    ensures forall q :: w.completed[q] == 0
  {
  }

  lemma CapacityNotNegative(w: World, posts: nat)
    ensures 0 <= Times(|w.gens|, 4 * (|w.recent| + posts))
  {
  }

  /** Generators that start with a configuration can finish on their own if and only if there are as many as
      teams; no channels are wanted or a share of them that is counted rounds to at least one; no posts are
      wanted, or the share that is not replies rounds to at least one, or there is a post to reply to; and
      no more reactions are wanted than four for each generator and each post, young or to come. */
  lemma ConfigFinishesExactly(c: Config, worlds: seq<World>, events: seq<Event>, n: nat)
    requires Valid(c) && IsRun(Targets(c), Picks(c), worlds, events)
    requires n < |worlds| && Fresh(worlds[n])
    ensures CanFinish(Targets(c), Picks(c), worlds[n]) <==> Sufficient(c, worlds[n])
  {
    hide IsRun, CanFinish, Picks, Sufficient, Feasible;
    FinishesExactly(Targets(c), Picks(c), worlds, events, n);
    FreshFeasible(c, worlds[n]);
  }
}
