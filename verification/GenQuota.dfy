/** loadtest/control/gencontroller: many generators share four counters with targets. A generator reserves
    a slot, creates something, and gives the slot back if that fails. Every interleaving is a sequence of
    events, each one atomic access to the shared counters. */
module GeneratorQuotas {
  import opened Wrappers
  import opened Sums

  datatype Quota = Teams | Channels | Posts | Reactions

  const ALL := [Teams, Channels, Posts, Reactions]

  type Counts = m: map<Quota, int> | forall q :: q in m
    witness Nothing()

  function Nothing(): (m: map<Quota, int>)
    ensures forall q :: q in m && m[q] == 0
  {
    NothingIsTotal();
    map[Teams := 0, Channels := 0, Posts := 0, Reactions := 0]
  }

  lemma NothingIsTotal()
    ensures forall q: Quota :: q in map[Teams := 0, Channels := 0, Posts := 0, Reactions := 0]
  {
    forall q: Quota ensures q in map[Teams := 0, Channels := 0, Posts := 0, Reactions := 0] {
      match q case Teams => case Channels => case Posts => case Reactions =>
    }
  }

  // ----- state.go -----

  function Inc(m: Counts, q: Quota, target: int): (r: (Counts, bool)) {
    if m[q] == target then (m, false) else (m[q := m[q] + 1], true)
  }

  function Dec(m: Counts, q: Quota): Counts {
    m[q := m[q] - 1]
  }

  class State {
    var targets: Counts

    constructor ()
      ensures targets == Nothing()
    {
      targets := Nothing();
    }

    /** Takes a slot exactly when the counter is not at its target, and never moves a counter beyond it. */
    method IncTarget(q: Quota, targetVal: int) returns (ok: bool)
      modifies this
      ensures ok <==> old(targets)[q] != targetVal
      ensures targets[q] - old(targets)[q] == if ok then 1 else 0
      ensures old(targets)[q] <= targetVal ==> targets[q] <= targetVal
      ensures forall p | p != q :: targets[p] == old(targets)[p]
      ensures (targets, ok) == Inc(old(targets), q, targetVal)
    {
      if targets[q] == targetVal {
        return false;
      }
      targets := targets[q := targets[q] + 1];
      return true;
    }

    method DecTarget(q: Quota)
      modifies this
      ensures targets == Dec(old(targets), q)
    {
      targets := targets[q := targets[q] - 1];
    }

    /** What every counted action does around the creation itself: the counter moves exactly when something
        has been created, and a creation that fails leaves no trace in any counter. */
    method Create(q: Quota, targetVal: int, works: bool) returns (created: bool)
      modifies this
      ensures created <==> old(targets)[q] != targetVal && works
      ensures created ==> targets[q] == old(targets)[q] + 1
      ensures !created ==> targets == old(targets)
      ensures forall p | p != q :: targets[p] == old(targets)[p]
    {
      var ok := IncTarget(q, targetVal);
      if !ok {
        return false;
      }
      if !works {
        DecTarget(q);
        return false;
      }
      return true;
    }

    method Get(q: Quota) returns (n: int)
      ensures n == targets[q]
    {
      n := targets[q];
    }
  }

  // ----- a generator -----

  /** Where a generator is. `Check(k)` has found the first k counters at their targets, `Prune(k)` has
      looked at k of the counters whose actions it may drop. */
  datatype Pc = Init | Ready | Flight(q: Quota) | Check(k: nat) | Prune(k: nat) | Exited

  /** The actions that count for a target: a public or private channel, a post of its own or a reply. */
  datatype Action = CreateTeam | CreateChannel | CreatePost | CreateReply | AddReaction

  function For(a: Action): Quota {
    match a
    case CreateTeam => Teams
    case CreateChannel => Channels
    case CreatePost => Posts
    case CreateReply => Posts
    case AddReaction => Reactions
  }

  datatype Emoji = PlusOne | Tada | PointUp | RaisedHands

  /** A reaction of a given user. */
  datatype Mark = Mark(post: nat, emoji: Emoji)

  /** `table` holds the counters for which the generator still has actions, `action` is the one it last took
      a slot for, and `used` are the reactions it has added. */
  datatype Gen = Gen(pc: Pc, table: set<Quota>, action: Action, used: set<Mark>)

  /** The posts there are have the numbers below `posts`; `recent` are those younger than ten seconds.
      `teamsSeenFull` is no part of the program: it records that some generator has found the teams at their
      target on its way out. */
  datatype World = World(count: Counts, completed: Counts, gens: seq<Gen>, posts: nat, recent: set<nat>,
                         teamsSeenFull: bool)

  /** A generator starts, or generator i takes its next step, or somebody else creates a post, or time passes.
      `pick` is the counted action that is picked, if any, `works` tells whether the server lets a creation
      succeed, and `mark` is the post and the emoji drawn for a reaction. Only actions in `picks` have a
      frequency above zero, so only those are ever picked. */
  datatype Event =
    | Start
    | Step(i: nat, pick: Option<Action>, works: bool, mark: Mark)
    | Outside
    | Age(young: set<nat>)

  function NewGen(): Gen {
    Gen(Init, {Channels, Posts, Reactions}, CreateTeam, {})
  }

  function Put(w: World, i: nat, pc: Pc): World
    requires i < |w.gens|
  {
    w.(gens := w.gens[i := w.gens[i].(pc := pc)])
  }

  /** Takes a slot, or goes on to `full` where the counter is at its target. */
  function Reserve(t: Counts, w: World, i: nat, a: Action, full: Pc): World
    requires i < |w.gens|
  {
    var q := For(a);
    var (count, ok) := Inc(w.count, q, t[q]);
    var g := if ok then w.gens[i].(pc := Flight(q), action := a) else w.gens[i].(pc := full);
    w.(gens := w.gens[i := g], count := count)
  }

  /** A reply needs a post, and a reaction a post younger than ten seconds to which the same user has not yet
      added that emoji. */
  predicate Succeeds(w: World, g: Gen, works: bool, mark: Mark) {
    && works
    && (g.action == CreateReply ==> 0 < w.posts)
    && (g.action == AddReaction ==> mark.post in w.recent && mark !in g.used)
  }

  function AddPost(w: World): World {
    w.(posts := w.posts + 1, recent := w.recent + {w.posts})
  }

  function Created(w: World, i: nat, q: Quota, mark: Mark): World
    requires i < |w.gens|
  {
    var g := w.gens[i];
    var g' := g.(pc := if q == Teams then Ready else Check(0),
                 used := if q == Reactions then g.used + {mark} else g.used);
    var w' := w.(gens := w.gens[i := g'], completed := w.completed[q := w.completed[q] + 1]);
    if q == Posts then AddPost(w') else w'
  }

  /** A creation that fails gives its slot back. Only the team is tried again. */
  function Failed(w: World, i: nat, q: Quota): World
    requires i < |w.gens|
  {
    Put(w, i, if q == Teams then Init else Check(0)).(count := Dec(w.count, q))
  }

  /** A creation ends. */
  function Land(w: World, i: nat, q: Quota, works: bool, mark: Mark): World
    requires i < |w.gens|
  {
    if Succeeds(w, w.gens[i], works, mark) then Created(w, i, q, mark)
    else Failed(w, i, q)
  }

  function LookDone(t: Counts, w: World, i: nat, k: nat): World
    requires i < |w.gens|
  {
    if k >= 4 then Put(w, i, Exited)
    else if w.count[ALL[k]] != t[ALL[k]] then Put(w, i, Prune(0))
    else Put(w, i, Check(k + 1)).(teamsSeenFull := w.teamsSeenFull || k == 0)
  }

  function LookPrune(t: Counts, w: World, i: nat, k: nat): World
    requires i < |w.gens|
  {
    if k >= 3 then Put(w, i, Ready)
    else
      var q := ALL[k + 1];
      var g := w.gens[i];
      var table := if w.count[q] == t[q] then g.table - {q} else g.table;
      w.(gens := w.gens[i := g.(pc := Prune(k + 1), table := table)])
  }

  predicate CanPick(picks: set<Action>, g: Gen, pick: Option<Action>) {
    pick.Some? && pick.value in picks && For(pick.value) in g.table
  }

  function Next(t: Counts, picks: set<Action>, w: World, e: Event): World {
    match e
    case Start => w.(gens := w.gens + [NewGen()])
    case Step(i, pick, works, mark) =>
      if i >= |w.gens| then w
      else
        (match w.gens[i].pc
         case Init => Reserve(t, w, i, CreateTeam, Ready)
         case Ready =>
           if CanPick(picks, w.gens[i], pick) then Reserve(t, w, i, pick.value, Check(0)) else Put(w, i, Check(0))
         case Flight(q) => Land(w, i, q, works, mark)
         case Check(k) => LookDone(t, w, i, k)
         case Prune(k) => LookPrune(t, w, i, k)
         case Exited => w)
    case Outside => AddPost(w)
    case Age(young) => w.(recent := w.recent * young)
  }

  /** The states the world goes through, and the events between them. */
  ghost predicate IsPath(t: Counts, picks: set<Action>, worlds: seq<World>, events: seq<Event>) {
    && |worlds| == |events| + 1
    && forall i | 0 <= i < |events| :: worlds[i + 1] == Next(t, picks, worlds[i], events[i])
  }

  function Begin(): World { World(Nothing(), Nothing(), [], 0, {}, false) }

  ghost predicate IsRun(t: Counts, picks: set<Action>, worlds: seq<World>, events: seq<Event>) {
    IsPath(t, picks, worlds, events) && worlds[0] == Begin() && forall q :: 0 <= t[q]
  }

  // ----- what every step keeps -----

  function Bit(b: bool): int { if b then 1 else 0 }

  /** One for every generator that holds a slot of q and has not created anything with it yet. */
  ghost function Flights(gens: seq<Gen>, q: Quota): (s: seq<int>)
    ensures |s| == |gens| && forall i | 0 <= i < |s| :: s[i] == Bit(gens[i].pc == Flight(q))
  {
    seq(|gens|, i requires 0 <= i < |gens| => Bit(gens[i].pc == Flight(q)))
  }

  ghost predicate Seeks(g: Gen) {
    g.pc == Init || g.pc == Flight(Teams)
  }

  /** One for every generator that still has its team to create. */
  ghost function Seekers(gens: seq<Gen>): (s: seq<int>)
    ensures |s| == |gens| && forall i | 0 <= i < |s| :: s[i] == Bit(Seeks(gens[i]))
  {
    seq(|gens|, i requires 0 <= i < |gens| => Bit(Seeks(gens[i])))
  }

  /** Every counter is what has been created and what is being created, and at most its target. */
  ghost predicate Exact(t: Counts, w: World, q: Quota) {
    && 0 <= w.completed[q]
    && w.count[q] == w.completed[q] + Sum(Flights(w.gens, q))
    && w.count[q] <= t[q]
  }

  function Rank(q: Quota): nat {
    match q case Teams => 0 case Channels => 1 case Posts => 2 case Reactions => 3
  }

  /** The generator runs, has an action for q, and has not found q at its target while about to exit. */
  ghost predicate Keeps(g: Gen, q: Quota) {
    q in g.table && g.pc != Exited && (g.pc.Check? ==> g.pc.k <= Rank(q))
  }

  ghost predicate Kept(t: Counts, w: World, q: Quota) {
    w.completed[q] < t[q] && w.gens != [] ==> exists i :: 0 <= i < |w.gens| && Keeps(w.gens[i], q)
  }

  ghost predicate GenOk(w: World, g: Gen) {
    && Teams !in g.table
    && (g.pc.Flight? && g.pc.q != Teams ==> g.pc.q in g.table)
    && (g.pc == Exited || (g.pc.Check? && g.pc.k > 0) ==> w.teamsSeenFull)
  }

  ghost predicate GensOk(w: World) {
    forall i | 0 <= i < |w.gens| :: GenOk(w, w.gens[i])
  }

  /** Each generator accounts for at most one team. It accounts for exactly one, unless there are enough
      generators to create all teams, as there are once somebody has seen the teams full. */
  ghost predicate TeamsOk(t: Counts, w: World) {
    var reach := w.completed[Teams] + Sum(Seekers(w.gens));
    && reach <= |w.gens|
    && (reach == |w.gens| || t[Teams] <= reach)
    && (w.teamsSeenFull ==> t[Teams] <= reach)
  }

  /** A slot is held for an action that has been picked. */
  ghost predicate GenPicked(picks: set<Action>, g: Gen) {
    g.pc.Flight? ==> For(g.action) == g.pc.q && (g.action == CreateTeam || g.action in picks)
  }

  ghost predicate Picked(picks: set<Action>, w: World) {
    forall i | 0 <= i < |w.gens| :: GenPicked(picks, w.gens[i])
  }

  ghost predicate Inv(t: Counts, w: World) {
    && (forall q :: Exact(t, w, q))
    && Kept(t, w, Channels) && Kept(t, w, Posts) && Kept(t, w, Reactions)
    && GensOk(w)
    && TeamsOk(t, w)
  }

  lemma FlightsUpdate(gens: seq<Gen>, i: nat, g: Gen, q: Quota)
    requires i < |gens|
    ensures Sum(Flights(gens[i := g], q))
            == Sum(Flights(gens, q)) - Bit(gens[i].pc == Flight(q)) + Bit(g.pc == Flight(q))
  {
    SumUpdate(Flights(gens, q), i, Bit(g.pc == Flight(q)));
    assert Flights(gens[i := g], q) == Flights(gens, q)[i := Bit(g.pc == Flight(q))];
  }

  lemma SeekersUpdate(gens: seq<Gen>, i: nat, g: Gen)
    requires i < |gens|
    ensures Sum(Seekers(gens[i := g])) == Sum(Seekers(gens)) - Bit(Seeks(gens[i])) + Bit(Seeks(g))
  {
    SumUpdate(Seekers(gens), i, Bit(Seeks(g)));
    assert Seekers(gens[i := g]) == Seekers(gens)[i := Bit(Seeks(g))];
  }

  lemma FlightBits(gens: seq<Gen>, q: Quota)
    ensures 0 <= Sum(Flights(gens, q))
    ensures Sum(Flights(gens, Teams)) <= Sum(Seekers(gens))
    ensures Sum(Flights(gens, q)) > 0 ==> exists i :: 0 <= i < |gens| && gens[i].pc == Flight(q)
  {
    SumNonNegative(Flights(gens, q));
    SumMonotone(Seekers(gens), Flights(gens, Teams));
    if forall i | 0 <= i < |gens| :: gens[i].pc != Flight(q) {
      SumZero(Flights(gens, q));
    }
  }

  lemma ExactAfter(t: Counts, w: World, w': World, i: nat, q: Quota)
    requires Exact(t, w, q) && i < |w.gens| && |w'.gens| == |w.gens|
    requires w'.gens == w.gens[i := w'.gens[i]]
    requires 0 <= w'.completed[q]
    requires w'.count[q] - w'.completed[q] - Bit(w'.gens[i].pc == Flight(q))
             == w.count[q] - w.completed[q] - Bit(w.gens[i].pc == Flight(q))
    requires w'.count[q] <= t[q]
    ensures Exact(t, w', q)
  {
    FlightsUpdate(w.gens, i, w'.gens[i], q);
  }

  /** A generator that keeps q does so still, unless this step has found q full. */
  lemma KeptAfter(t: Counts, w: World, w': World, i: nat, q: Quota)
    requires Kept(t, w, q) && Exact(t, w', q) && q != Teams
    requires i < |w.gens| && |w'.gens| == |w.gens| && w'.gens == w.gens[i := w'.gens[i]]
    requires w.completed[q] <= w'.completed[q]
    requires GensOk(w')
    requires Keeps(w.gens[i], q) ==> Keeps(w'.gens[i], q) || w'.count[q] == t[q]
    ensures Kept(t, w', q)
  {
    if w'.completed[q] < t[q] {
      var k :| 0 <= k < |w.gens| && Keeps(w.gens[k], q);
      if k != i {
        assert w'.gens[k] == w.gens[k];
      } else if !Keeps(w'.gens[i], q) {
        FlightBits(w'.gens, q);
        var f :| 0 <= f < |w'.gens| && w'.gens[f].pc == Flight(q);
        assert GenOk(w', w'.gens[f]);
        assert Keeps(w'.gens[f], q);
      }
    }
  }

  /** What a step of generator i may do to one counter. */
  ghost predicate CounterOk(t: Counts, w: World, w': World, i: nat, q: Quota)
    requires i < |w.gens| == |w'.gens|
  {
    && w.completed[q] <= w'.completed[q] && w'.count[q] <= t[q]
    && w'.count[q] - w'.completed[q] - Bit(w'.gens[i].pc == Flight(q))
       == w.count[q] - w.completed[q] - Bit(w.gens[i].pc == Flight(q))
    && (q != Teams ==> Keeps(w.gens[i], q) ==> Keeps(w'.gens[i], q) || w'.count[q] == t[q])
  }

  ghost predicate StepOk(t: Counts, w: World, w': World, i: nat) {
    && i < |w.gens| == |w'.gens|
    && w'.gens == w.gens[i := w'.gens[i]]
    && (w.teamsSeenFull ==> w'.teamsSeenFull)
    && GenOk(w', w'.gens[i])
    && forall q :: CounterOk(t, w, w', i, q)
  }

  lemma GensOkAfter(t: Counts, w: World, w': World, i: nat)
    requires GensOk(w) && StepOk(t, w, w', i)
    ensures GensOk(w')
  {
    hide CounterOk;
    forall k | 0 <= k < |w'.gens| ensures GenOk(w', w'.gens[k]) {
      if k != i {
        assert GenOk(w, w.gens[k]);
      }
    }
  }

  lemma StepKeepsInv(t: Counts, w: World, w': World, i: nat)
    requires Inv(t, w) && StepOk(t, w, w', i) && TeamsOk(t, w')
    ensures Inv(t, w')
  {
    hide GensOk, GenOk, Kept, TeamsOk, Keeps;
    GensOkAfter(t, w, w', i);
    forall q ensures Exact(t, w', q) {
      assert Exact(t, w, q) && CounterOk(t, w, w', i, q);
      ExactAfter(t, w, w', i, q);
    }
    KeptStep(t, w, w', i, Channels);
    KeptStep(t, w, w', i, Posts);
    KeptStep(t, w, w', i, Reactions);
  }

  lemma KeptStep(t: Counts, w: World, w': World, i: nat, q: Quota)
    requires Kept(t, w, q) && Exact(t, w', q) && GensOk(w') && StepOk(t, w, w', i) && q != Teams
    ensures Kept(t, w', q)
  {
    hide GensOk, GenOk, Kept, Keeps, Exact;
    assert CounterOk(t, w, w', i, q);
    KeptAfter(t, w, w', i, q);
  }

  /** Teams created so far and generators that have yet to create theirs, after a step. */
  lemma TeamsAfter(t: Counts, w: World, w': World, i: nat)
    requires StepOk(t, w, w', i)
    requires w.completed[Teams] + Bit(Seeks(w.gens[i])) == w'.completed[Teams] + Bit(Seeks(w'.gens[i]))
    requires TeamsOk(t, w) && w'.teamsSeenFull == w.teamsSeenFull
    ensures TeamsOk(t, w')
  {
    hide GenOk, CounterOk, Seeks;
    SeekersUpdate(w.gens, i, w'.gens[i]);
  }

  /** A generator finds the teams at their target, and is done with its own. */
  lemma TeamsFull(t: Counts, w: World, w': World, i: nat)
    requires StepOk(t, w, w', i) && TeamsOk(t, w) && Exact(t, w', Teams)
    requires w'.completed == w.completed && w'.count[Teams] == t[Teams] && !Seeks(w'.gens[i])
    ensures TeamsOk(t, w')
  {
    hide GenOk, CounterOk, Seeks;
    SeekersUpdate(w.gens, i, w'.gens[i]);
    FlightBits(w'.gens, Teams);
  }

  /** The invariant, seen from one generator. */
  lemma InvAt(t: Counts, w: World, i: nat)
    requires Inv(t, w) && i < |w.gens|
    ensures GenOk(w, w.gens[i]) && TeamsOk(t, w)
    ensures forall q :: Exact(t, w, q)
  {
    hide Kept, TeamsOk, Exact, GenOk;
  }

  lemma ReserveTeam(t: Counts, w: World, i: nat)
    requires Inv(t, w) && i < |w.gens| && w.gens[i].pc == Init
    ensures Inv(t, Reserve(t, w, i, CreateTeam, Ready))
  {
    hide Inv, TeamsOk;
    InvAt(t, w, i);
    var w' := Reserve(t, w, i, CreateTeam, Ready);
    assert w'.gens == w.gens[i := w'.gens[i]];
    assert GenOk(w', w'.gens[i]);
    forall q ensures CounterOk(t, w, w', i, q) { assert Exact(t, w, q); }
    assert StepOk(t, w, w', i);
    if w.count[Teams] == t[Teams] {
      ExactAfter(t, w, w', i, Teams);
      TeamsFull(t, w, w', i);
    } else {
      TeamsAfter(t, w, w', i);
    }
    StepKeepsInv(t, w, w', i);
  }

  lemma ReserveStep(t: Counts, w: World, i: nat, a: Action)
    requires i < |w.gens| && w.gens[i].pc == Ready && For(a) in w.gens[i].table && GenOk(w, w.gens[i])
    requires forall p :: Exact(t, w, p)
    ensures StepOk(t, w, Reserve(t, w, i, a, Check(0)), i)
  {
    hide Exact;
    var w' := Reserve(t, w, i, a, Check(0));
    assert w'.gens == w.gens[i := w'.gens[i]];
    assert GenOk(w', w'.gens[i]);
    forall p ensures CounterOk(t, w, w', i, p) {
      assert Exact(t, w, p);
      WithinTarget(t, w, p);
    }
  }

  lemma ReserveOther(t: Counts, w: World, i: nat, a: Action)
    requires Inv(t, w) && i < |w.gens| && w.gens[i].pc == Ready && For(a) in w.gens[i].table
    ensures Inv(t, Reserve(t, w, i, a, Check(0)))
  {
    hide Inv, TeamsOk, CounterOk;
    InvAt(t, w, i);
    var w' := Reserve(t, w, i, a, Check(0));
    ReserveStep(t, w, i, a);
    TeamsAfter(t, w, w', i);
    StepKeepsInv(t, w, w', i);
  }

  lemma PickUncounted(t: Counts, w: World, i: nat)
    requires Inv(t, w) && i < |w.gens| && w.gens[i].pc == Ready
    ensures Inv(t, Put(w, i, Check(0)))
  {
    hide Inv, TeamsOk;
    InvAt(t, w, i);
    var w' := Put(w, i, Check(0));
    assert w'.gens == w.gens[i := w'.gens[i]];
    assert GenOk(w', w'.gens[i]);
    forall q ensures CounterOk(t, w, w', i, q) { assert Exact(t, w, q); }
    assert StepOk(t, w, w', i);
    TeamsAfter(t, w, w', i);
    StepKeepsInv(t, w, w', i);
  }

  lemma LandCreated(t: Counts, w: World, i: nat, q: Quota, mark: Mark)
    requires Inv(t, w) && i < |w.gens| && w.gens[i].pc == Flight(q)
    ensures Inv(t, Created(w, i, q, mark))
  {
    hide Inv, TeamsOk;
    InvAt(t, w, i);
    var w' := Created(w, i, q, mark);
    assert w'.gens == w.gens[i := w'.gens[i]];
    assert GenOk(w', w'.gens[i]);
    forall p ensures CounterOk(t, w, w', i, p) { assert Exact(t, w, p); }
    assert StepOk(t, w, w', i);
    TeamsAfter(t, w, w', i);
    StepKeepsInv(t, w, w', i);
  }

  lemma LandFailed(t: Counts, w: World, i: nat, q: Quota)
    requires Inv(t, w) && i < |w.gens| && w.gens[i].pc == Flight(q)
    ensures Inv(t, Failed(w, i, q))
  {
    hide Inv, TeamsOk;
    InvAt(t, w, i);
    var w' := Failed(w, i, q);
    assert w'.gens == w.gens[i := w'.gens[i]];
    assert GenOk(w', w'.gens[i]);
    forall p ensures CounterOk(t, w, w', i, p) { assert Exact(t, w, p); }
    assert StepOk(t, w, w', i);
    TeamsAfter(t, w, w', i);
    StepKeepsInv(t, w, w', i);
  }

  lemma LookDoneStep(t: Counts, w: World, i: nat, k: nat)
    requires i < |w.gens| && w.gens[i].pc == Check(k) && GenOk(w, w.gens[i])
    requires forall q :: Exact(t, w, q)
    ensures StepOk(t, w, LookDone(t, w, i, k), i)
  {
    hide Exact;
    var w' := LookDone(t, w, i, k);
    assert w'.gens == w.gens[i := w'.gens[i]];
    assert GenOk(w', w'.gens[i]);
    forall q ensures CounterOk(t, w, w', i, q) {
      assert Exact(t, w, q);
      WithinTarget(t, w, q);
    }
  }

  lemma WithinTarget(t: Counts, w: World, q: Quota)
    requires Exact(t, w, q)
    ensures w.count[q] <= t[q]
  {
  }

  lemma LookDoneKeeps(t: Counts, w: World, i: nat, k: nat)
    requires Inv(t, w) && i < |w.gens| && w.gens[i].pc == Check(k)
    ensures Inv(t, LookDone(t, w, i, k))
  {
    hide Inv, TeamsOk, GenOk, CounterOk;
    InvAt(t, w, i);
    var w' := LookDone(t, w, i, k);
    LookDoneStep(t, w, i, k);
    if k == 0 && w.count[Teams] == t[Teams] {
      TeamsExact(t, w, w', i);
      TeamsFull(t, w, w', i);
    } else {
      TeamsAfter(t, w, w', i);
    }
    StepKeepsInv(t, w, w', i);
  }

  lemma TeamsExact(t: Counts, w: World, w': World, i: nat)
    requires StepOk(t, w, w', i) && Exact(t, w, Teams)
    ensures Exact(t, w', Teams)
  {
    assert CounterOk(t, w, w', i, Teams);
    ExactAfter(t, w, w', i, Teams);
  }

  lemma LookPruneKeeps(t: Counts, w: World, i: nat, k: nat)
    requires Inv(t, w) && i < |w.gens| && w.gens[i].pc == Prune(k)
    ensures Inv(t, LookPrune(t, w, i, k))
  {
    hide Inv, TeamsOk;
    InvAt(t, w, i);
    var w' := LookPrune(t, w, i, k);
    assert w'.gens == w.gens[i := w'.gens[i]];
    assert GenOk(w', w'.gens[i]);
    forall q ensures CounterOk(t, w, w', i, q) { assert Exact(t, w, q); }
    assert StepOk(t, w, w', i);
    TeamsAfter(t, w, w', i);
    StepKeepsInv(t, w, w', i);
  }

  lemma StartExact(t: Counts, w: World, w': World, q: Quota)
    requires Exact(t, w, q) && w' == w.(gens := w.gens + [NewGen()])
    ensures Exact(t, w', q)
  {
    assert Flights(w'.gens, q)[..|w.gens|] == Flights(w.gens, q);
  }

  lemma StartTeams(t: Counts, w: World, w': World)
    requires TeamsOk(t, w) && w' == w.(gens := w.gens + [NewGen()])
    ensures TeamsOk(t, w')
  {
    assert Seekers(w'.gens)[..|w.gens|] == Seekers(w.gens);
  }

  lemma StartGens(t: Counts, w: World, w': World)
    requires GensOk(w) && w' == w.(gens := w.gens + [NewGen()])
    ensures GensOk(w') && Kept(t, w', Channels) && Kept(t, w', Posts) && Kept(t, w', Reactions)
  {
    var n := |w.gens|;
    assert w'.gens[n] == NewGen();
    assert Keeps(w'.gens[n], Channels) && Keeps(w'.gens[n], Posts) && Keeps(w'.gens[n], Reactions);
    forall i | 0 <= i < n ensures GenOk(w', w'.gens[i]) {
      assert GenOk(w, w.gens[i]);
    }
  }

  lemma StartKeeps(t: Counts, w: World)
    requires Inv(t, w)
    ensures Inv(t, w.(gens := w.gens + [NewGen()]))
  {
    hide Exact, TeamsOk, GensOk, Kept, NewGen;
    var w' := w.(gens := w.gens + [NewGen()]);
    StartTeams(t, w, w');
    StartGens(t, w, w');
    forall q ensures Exact(t, w', q) {
      assert Exact(t, w, q);
      StartExact(t, w, w', q);
    }
  }

  lemma NextKeeps(t: Counts, picks: set<Action>, w: World, e: Event)
    requires Inv(t, w)
    ensures Inv(t, Next(t, picks, w, e))
  {
    hide Inv, Reserve, Put, Created, Failed, Succeeds, LookDone, LookPrune;
    match e {
      case Start => StartKeeps(t, w);
      case Step(i, pick, works, mark) =>
        if i < |w.gens| {
          match w.gens[i].pc {
            case Init => ReserveTeam(t, w, i);
            case Ready =>
              if CanPick(picks, w.gens[i], pick) {
                ReserveOther(t, w, i, pick.value);
              } else {
                PickUncounted(t, w, i);
              }
            case Flight(q) =>
              if Succeeds(w, w.gens[i], works, mark) {
                LandCreated(t, w, i, q, mark);
              } else {
                LandFailed(t, w, i, q);
              }
            case Check(k) => LookDoneKeeps(t, w, i, k);
            case Prune(k) => LookPruneKeeps(t, w, i, k);
            case Exited =>
          }
        }
      case Outside =>
        OthersKeep(t, w, Next(t, picks, w, e));
      case Age(_) =>
        OthersKeep(t, w, Next(t, picks, w, e));
    }
  }

  lemma OthersKeep(t: Counts, w: World, w': World)
    requires Inv(t, w) && w'.count == w.count && w'.completed == w.completed && w'.gens == w.gens
    requires w'.teamsSeenFull == w.teamsSeenFull
    ensures Inv(t, w')
  {
    hide Keeps;
    forall q ensures Exact(t, w', q) { assert Exact(t, w, q); }
    forall i | 0 <= i < |w'.gens| ensures GenOk(w', w'.gens[i]) { assert GenOk(w, w.gens[i]); }
  }

  ghost predicate OnlyOne(w: World, w': World, i: nat) {
    i < |w.gens| == |w'.gens| && w'.gens == w.gens[i := w'.gens[i]]
  }

  /** A step of a generator changes no other one. */
  lemma StepOnly(t: Counts, picks: set<Action>, w: World, e: Event)
    requires e.Step? && e.i < |w.gens|
    ensures OnlyOne(w, Next(t, picks, w, e), e.i)
    ensures GenPicked(picks, w.gens[e.i]) ==> GenPicked(picks, Next(t, picks, w, e).gens[e.i])
  {
    hide Reserve, Put, Land, LookDone, LookPrune, OnlyOne, GenPicked;
    match w.gens[e.i].pc {
      case Init => ReserveOnly(t, picks, w, e.i, CreateTeam, Ready);
      case Ready =>
        if CanPick(picks, w.gens[e.i], e.pick) {
          ReserveOnly(t, picks, w, e.i, e.pick.value, Check(0));
        } else {
          PutOnly(picks, w, e.i);
        }
      case Flight(q) => LandOnly(picks, w, e.i, q, e.works, e.mark);
      case Check(k) => LookOnly(t, picks, w, e.i, k);
      case Prune(k) => LookOnly(t, picks, w, e.i, k);
      case Exited => NoneOnly(w, e.i);
    }
  }

  lemma NoneOnly(w: World, i: nat)
    requires i < |w.gens|
    ensures OnlyOne(w, w, i)
  {
  }

  lemma ReserveOnly(t: Counts, picks: set<Action>, w: World, i: nat, a: Action, full: Pc)
    requires i < |w.gens| && !full.Flight? && (a == CreateTeam || a in picks)
    ensures var w' := Reserve(t, w, i, a, full); OnlyOne(w, w', i) && GenPicked(picks, w'.gens[i])
  {
    hide Inc, For;
  }

  lemma PutOnly(picks: set<Action>, w: World, i: nat)
    requires i < |w.gens|
    ensures var w' := Put(w, i, Check(0)); OnlyOne(w, w', i) && GenPicked(picks, w'.gens[i])
  {
  }

  lemma LandOnly(picks: set<Action>, w: World, i: nat, q: Quota, works: bool, mark: Mark)
    requires i < |w.gens|
    ensures var w' := Land(w, i, q, works, mark); OnlyOne(w, w', i) && GenPicked(picks, w'.gens[i])
  {
    hide Dec, Succeeds, For;
  }

  lemma LookOnly(t: Counts, picks: set<Action>, w: World, i: nat, k: nat)
    requires i < |w.gens|
    ensures var w' := LookDone(t, w, i, k); OnlyOne(w, w', i) && GenPicked(picks, w'.gens[i])
    ensures var w' := LookPrune(t, w, i, k); OnlyOne(w, w', i) && GenPicked(picks, w'.gens[i])
  {
    hide For;
  }

  lemma PickedAfter(t: Counts, picks: set<Action>, w: World, e: Event)
    requires Picked(picks, w)
    ensures Picked(picks, Next(t, picks, w, e))
  {
    hide GenPicked, Next;
    match e {
      case Start => NewPicked(t, picks, w);
      case Step(_, _, _, _) => StepPicked(t, picks, w, e);
      case Outside => OthersSame(t, picks, w, e);
      case Age(_) => OthersSame(t, picks, w, e);
    }
  }

  lemma OthersSame(t: Counts, picks: set<Action>, w: World, e: Event)
    requires e.Outside? || e.Age? || (e.Step? && |w.gens| <= e.i)
    ensures Next(t, picks, w, e).gens == w.gens
  {
  }

  lemma StepPicked(t: Counts, picks: set<Action>, w: World, e: Event)
    requires Picked(picks, w) && e.Step?
    ensures Picked(picks, Next(t, picks, w, e))
  {
    hide GenPicked, Next;
    if e.i < |w.gens| {
      StepOnly(t, picks, w, e);
      assert GenPicked(picks, w.gens[e.i]);
    } else {
      OthersSame(t, picks, w, e);
    }
  }

  lemma NewPicked(t: Counts, picks: set<Action>, w: World)
    requires Picked(picks, w)
    ensures Picked(picks, Next(t, picks, w, Start))
  {
    hide GenPicked;
    NewGenPicked(picks);
  }

  lemma NewGenPicked(picks: set<Action>)
    ensures GenPicked(picks, NewGen())
  {
  }

  lemma NothingYet(t: Counts, picks: set<Action>)
    requires forall q :: 0 <= t[q]
    ensures Inv(t, Begin()) && Picked(picks, Begin())
  {
  }

  lemma {:induction false} PathKeeps(t: Counts, picks: set<Action>, worlds: seq<World>, events: seq<Event>)
    requires IsPath(t, picks, worlds, events) && Inv(t, worlds[0]) && Picked(picks, worlds[0])
    ensures forall n | 0 <= n < |worlds| :: Inv(t, worlds[n]) && Picked(picks, worlds[n])
  {
    hide Inv, Next, Picked;
    var n := |events|;
    if n > 0 {
      PathKeeps(t, picks, worlds[..n], events[..n - 1]);
      NextKeeps(t, picks, worlds[n - 1], events[n - 1]);
      PickedAfter(t, picks, worlds[n - 1], events[n - 1]);
    }
  }

  lemma RunKeeps(t: Counts, picks: set<Action>, worlds: seq<World>, events: seq<Event>)
    requires IsRun(t, picks, worlds, events)
    ensures forall n | 0 <= n < |worlds| :: Inv(t, worlds[n]) && Picked(picks, worlds[n])
  {
    hide Inv, IsPath, Picked, Begin;
    NothingYet(t, picks);
    PathKeeps(t, picks, worlds, events);
  }

  // ----- one generator on its own -----

  /** As before, up to where one generator is and what it last tried. */
  ghost predicate NoTrace(w: World, w': World, i: nat) {
    && OnlyOne(w, w', i)
    && w'.count == w.count && w'.completed == w.completed && w'.posts == w.posts && w'.recent == w.recent
    && w'.gens[i].used == w.gens[i].used && w'.gens[i].table == w.gens[i].table
  }

  lemma ReserveFailed(t: Counts, w: World, i: nat, a: Action, full: Pc)
    requires i < |w.gens| && !full.Flight? && Reserve(t, w, i, a, full).gens[i].pc.Flight?
    ensures Reserve(t, w, i, a, full).gens[i].pc == Flight(For(a))
    ensures NoTrace(w, Failed(Reserve(t, w, i, a, full), i, For(a)), i)
  {
    hide For;
    var q := For(a);
    assert w.count[q := w.count[q] + 1][q := w.count[q]] == w.count;
  }

  lemma LookIsNoFlight(t: Counts, w: World, i: nat, k: nat)
    requires i < |w.gens|
    ensures !LookDone(t, w, i, k).gens[i].pc.Flight? && !LookPrune(t, w, i, k).gens[i].pc.Flight?
    ensures !Put(w, i, Check(0)).gens[i].pc.Flight?
  {
  }

  /** A slot that is taken for a creation that fails is given back, and nothing else has changed. */
  lemma FailureLeavesNoTrace(t: Counts, picks: set<Action>, w: World, e: Event)
    requires e.Step? && e.i < |w.gens| && !w.gens[e.i].pc.Flight?
    requires var w' := Next(t, picks, w, e); e.i < |w'.gens| && w'.gens[e.i].pc.Flight?
    ensures NoTrace(w, Next(t, picks, Next(t, picks, w, e), e.(works := false)), e.i)
  {
    hide LookDone, LookPrune, For, Put, Failed, Reserve, NoTrace;
    match w.gens[e.i].pc {
      case Init => ReserveFailed(t, w, e.i, CreateTeam, Ready);
      case Ready =>
        LookIsNoFlight(t, w, e.i, 0);
        ReserveFailed(t, w, e.i, e.pick.value, Check(0));
      case Check(k) =>
        LookIsNoFlight(t, w, e.i, k);
        assert false;
      case Prune(k) =>
        LookIsNoFlight(t, w, e.i, k);
        assert false;
      case Exited =>
    }
  }

  /** A generator tries for its team until it has created one or found the teams complete, and only then picks
      its first action. */
  lemma TeamFirst(t: Counts, picks: set<Action>, w: World, e: Event)
    requires e.Step? && e.i < |w.gens| && Seeks(w.gens[e.i])
    ensures var w' := Next(t, picks, w, e);
            && |w'.gens| == |w.gens|
            && (|| (Seeks(w'.gens[e.i]) && w'.completed == w.completed)
                || (&& w'.gens[e.i].pc == Ready
                    && (w.count[Teams] == t[Teams] || w'.completed[Teams] == w.completed[Teams] + 1)))
  {
  }

  function Pruned(t: Counts, w: World, i: nat, k: nat): World
    requires i < |w.gens|
    decreases 4 - k
  {
    if k > 3 then w else Pruned(t, LookPrune(t, w, i, k), i, k + 1)
  }

  /** A generator that looks through the counters while nobody else moves keeps exactly the actions of those that
      are not at their target. */
  lemma PruneIsExact(t: Counts, w: World, i: nat)
    requires i < |w.gens| && GenOk(w, w.gens[i]) && w.gens[i].pc == Prune(0)
    ensures var w' := Pruned(t, w, i, 0);
            && w'.count == w.count && OnlyOne(w, w', i) && w'.gens[i].pc == Ready
            && forall q :: q in w'.gens[i].table <==> q in w.gens[i].table && w.count[q] != t[q]
  {
    var w1 := LookPrune(t, w, i, 0);
    var w2 := LookPrune(t, w1, i, 1);
    var w3 := LookPrune(t, w2, i, 2);
    var w4 := LookPrune(t, w3, i, 3);
    assert Pruned(t, w, i, 0) == w4;
    forall q ensures q in w4.gens[i].table <==> q in w.gens[i].table && w.count[q] != t[q] {
      match q case Teams => case Channels => case Posts => case Reactions =>
    }
  }

  // ----- the results -----

  /** In every interleaving a counter is the creations that succeeded plus those under way, and never
      exceeds its target: the test for equality in `inc` is enough. */
  lemma QuotaSafety(t: Counts, picks: set<Action>, worlds: seq<World>, events: seq<Event>, n: nat, q: Quota)
    requires IsRun(t, picks, worlds, events) && n < |worlds|
    ensures var w := worlds[n];
            && w.count[q] == w.completed[q] + Sum(Flights(w.gens, q))
            && 0 <= w.completed[q] <= w.count[q] <= t[q]
  {
    hide IsRun;
    RunKeeps(t, picks, worlds, events);
    assert Exact(t, worlds[n], q);
    FlightBits(worlds[n].gens, q);
  }

  /** In every interleaving, as long as channels, posts or reactions are missing, some generator still runs
      that has an action for them and has not yet found them complete. */
  lemma NoLostSlot(t: Counts, picks: set<Action>, worlds: seq<World>, events: seq<Event>, n: nat, q: Quota)
    requires IsRun(t, picks, worlds, events) && n < |worlds|
    requires q != Teams && worlds[n].gens != [] && worlds[n].completed[q] < t[q]
    ensures exists i :: 0 <= i < |worlds[n].gens| && Keeps(worlds[n].gens[i], q)
  {
    hide IsRun, Keeps, Exact, GensOk, TeamsOk;
    RunKeeps(t, picks, worlds, events);
    assert Inv(t, worlds[n]);
    match q case Channels => case Posts => case Reactions =>
  }

  lemma ExitedIsComplete(t: Counts, w: World, q: Quota)
    requires Inv(t, w) && w.gens != []
    requires forall i | 0 <= i < |w.gens| :: w.gens[i].pc == Exited
    ensures w.completed[q] == t[q]
  {
    assert Exact(t, w, q);
    FlightBits(w.gens, q);
    if q == Teams {
      assert GenOk(w, w.gens[0]);
      SumZero(Seekers(w.gens));
    } else {
      KeptOf(t, w, q);
    }
  }

  lemma KeptOf(t: Counts, w: World, q: Quota)
    requires Inv(t, w) && q != Teams
    ensures Kept(t, w, q)
  {
    hide Kept, GensOk, TeamsOk, Exact;
    match q case Channels => case Posts => case Reactions =>
  }

  /** When every generator has exited, exactly as much as configured has been created. */
  lemma AllExitedMeansComplete(t: Counts, picks: set<Action>, worlds: seq<World>, events: seq<Event>, n: nat, q: Quota)
    requires IsRun(t, picks, worlds, events) && n < |worlds|
    requires worlds[n].gens != []
    requires forall i | 0 <= i < |worlds[n].gens| :: worlds[n].gens[i].pc == Exited
    ensures worlds[n].completed[q] == t[q]
  {
    hide IsRun, Inv;
    RunKeeps(t, picks, worlds, events);
    ExitedIsComplete(t, worlds[n], q);
  }

  /** A generator creates at most one team: with fewer generators than teams to create, none ever exits. */
  lemma TooFewGenerators(t: Counts, picks: set<Action>, worlds: seq<World>, events: seq<Event>, n: nat, i: nat)
    requires IsRun(t, picks, worlds, events) && n < |worlds|
    requires i < |worlds[n].gens| < t[Teams]
    ensures worlds[n].gens[i].pc != Exited
  {
    hide IsRun;
    var w := worlds[n];
    RunKeeps(t, picks, worlds, events);
    assert Inv(t, w);
    assert GenOk(w, w.gens[i]);
  }
}
