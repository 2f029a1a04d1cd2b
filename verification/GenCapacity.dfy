/** loadtest/control/gencontroller: how many reactions generators can still add. A user adds each of the four
    emojis at most once to a post, and only while the post is young. */
module GeneratorCapacity {
  import opened Wrappers
  import opened Sums
  import opened GeneratorQuotas

  /** All reactions that one user can add to these posts. */
  function Marks(posts: set<nat>): set<Mark> {
    set p, e: Emoji | p in posts :: Mark(p, e)
  }

  lemma InMarks(posts: set<nat>)
    ensures forall m: Mark :: m in Marks(posts) <==> m.post in posts
  {
    forall m: Mark | m.post in posts ensures m in Marks(posts) {
      assert m == Mark(m.post, m.emoji);
    }
  }

  function EveryMark(p: nat): set<Mark> {
    {Mark(p, PlusOne), Mark(p, Tada), Mark(p, PointUp), Mark(p, RaisedHands)}
  }

  lemma InEveryMark(p: nat)
    ensures forall m: Mark :: m in EveryMark(p) <==> m.post == p
  {
    forall m: Mark | m.post == p ensures m in EveryMark(p) {
      match m.emoji case PlusOne => case Tada => case PointUp => case RaisedHands =>
    }
  }

  lemma {:induction false} MarksCount(posts: set<nat>)
    ensures |Marks(posts)| == 4 * |posts|
  {
    hide Marks, EveryMark;
    InMarks(posts);
    if posts != {} {
      var p :| p in posts;
      MarksCount(posts - {p});
      InMarks(posts - {p});
      InEveryMark(p);
      FourMarks(p);
      assert Marks(posts) == Marks(posts - {p}) + EveryMark(p);
    } else {
      assert Marks(posts) == {};
    }
  }

  lemma FourMarks(p: nat)
    ensures |EveryMark(p)| == 4
  {
  }

  lemma SubsetSize<T>(a: set<T>, b: set<T>)
    requires a <= b
    ensures |a| <= |b|
  {
    assert b == a + (b - a);
  }

  // ----- what every step keeps -----

  /** How many reactions each generator has added. */
  ghost function Used(gens: seq<Gen>): (s: seq<int>)
    ensures |s| == |gens| && forall i | 0 <= i < |s| :: s[i] == |gens[i].used|
  {
    seq(|gens|, i requires 0 <= i < |gens| => |gens[i].used|)
  }

  /** Young posts and posts with a reaction are posts. */
  ghost predicate PostsExist(w: World) {
    && (forall p | p in w.recent :: p < w.posts)
    && (forall i, m | 0 <= i < |w.gens| && m in w.gens[i].used :: m.post < w.posts)
  }

  /** A reaction that counts is a mark nobody has twice, and a post that counts is one. */
  ghost predicate MarksOk(w: World) {
    && PostsExist(w)
    && w.completed[Posts] <= w.posts
    && w.completed[Reactions] == Sum(Used(w.gens))
  }

  /** Neither a post nor a reaction is added. */
  ghost predicate Calm(w: World, w': World, i: nat) {
    && OnlyOne(w, w', i)
    && w'.gens[i].used == w.gens[i].used
    && w'.posts == w.posts && w'.recent == w.recent
    && w'.completed[Posts] == w.completed[Posts] && w'.completed[Reactions] == w.completed[Reactions]
  }

  /** Generator i adds a reaction to a young post for the first time. */
  ghost predicate Marked(w: World, w': World, i: nat, mark: Mark) {
    && OnlyOne(w, w', i)
    && w.gens[i].pc == Flight(Reactions) && mark.post in w.recent && mark !in w.gens[i].used
    && w' == Created(w, i, Reactions, mark)
  }

  ghost predicate Posted(w: World, w': World, i: nat, mark: Mark) {
    && OnlyOne(w, w', i)
    && w.gens[i].pc == Flight(Posts)
    && w' == Created(w, i, Posts, mark)
  }

  lemma ReserveCalm(t: Counts, w: World, i: nat, a: Action, full: Pc)
    requires i < |w.gens|
    ensures Calm(w, Reserve(t, w, i, a, full), i)
    ensures Calm(w, w, i)
  {
    hide For, Inc;
  }

  lemma FailCalm(w: World, i: nat, pc: Pc, q: Quota)
    requires i < |w.gens|
    ensures Calm(w, Put(w, i, pc), i) && Calm(w, Failed(w, i, q), i)
  {
    hide Dec;
  }

  lemma LookCalm(t: Counts, w: World, i: nat, k: nat)
    requires i < |w.gens|
    ensures Calm(w, LookDone(t, w, i, k), i)
  {
  }

  lemma PruneCalm(t: Counts, w: World, i: nat, k: nat)
    requires i < |w.gens|
    ensures Calm(w, LookPrune(t, w, i, k), i)
  {
  }

  lemma CreatedCalm(w: World, i: nat, q: Quota, mark: Mark)
    requires i < |w.gens| && (q == Teams || q == Channels)
    ensures Calm(w, Created(w, i, q, mark), i)
  {
  }

  /** What a step of a generator can mean for posts and reactions. */
  lemma StepKinds(t: Counts, picks: set<Action>, w: World, e: Event)
    requires e.Step? && e.i < |w.gens| && GenPicked(picks, w.gens[e.i])
    ensures var w' := Next(t, picks, w, e);
            Calm(w, w', e.i) || Posted(w, w', e.i, e.mark) || Marked(w, w', e.i, e.mark)
  {
    hide Reserve, Put, Created, Failed, LookDone, LookPrune, Calm, OnlyOne;
    StepOnly(t, picks, w, e);
    match w.gens[e.i].pc {
      case Init => ReserveCalm(t, w, e.i, CreateTeam, Ready);
      case Ready =>
        if CanPick(picks, w.gens[e.i], e.pick) {
          ReserveCalm(t, w, e.i, e.pick.value, Check(0));
        } else {
          FailCalm(w, e.i, Check(0), Posts);
        }
      case Flight(q) =>
        FailCalm(w, e.i, Check(0), q);
        if q == Teams || q == Channels {
          CreatedCalm(w, e.i, q, e.mark);
        }
      case Check(k) => LookCalm(t, w, e.i, k);
      case Prune(k) => PruneCalm(t, w, e.i, k);
      case Exited => ReserveCalm(t, w, e.i, CreateTeam, Ready);
    }
  }

  lemma UsedUpdate(gens: seq<Gen>, i: nat, g: Gen)
    requires i < |gens|
    ensures Sum(Used(gens[i := g])) == Sum(Used(gens)) - |gens[i].used| + |g.used|
  {
    SumUpdate(Used(gens), i, |g.used|);
    assert Used(gens[i := g]) == Used(gens)[i := |g.used|];
  }

  lemma CalmMarks(w: World, w': World, i: nat)
    requires MarksOk(w) && Calm(w, w', i)
    ensures MarksOk(w')
  {
    UsedUpdate(w.gens, i, w'.gens[i]);
  }

  lemma PostedMarks(w: World, w': World, i: nat, mark: Mark)
    requires MarksOk(w) && Posted(w, w', i, mark)
    ensures MarksOk(w')
  {
    UsedUpdate(w.gens, i, w'.gens[i]);
  }

  lemma MarkedMarks(w: World, w': World, i: nat, mark: Mark)
    requires MarksOk(w) && Marked(w, w', i, mark)
    ensures MarksOk(w')
  {
    UsedUpdate(w.gens, i, w'.gens[i]);
  }

  lemma StartMarks(w: World, w': World)
    requires MarksOk(w) && w' == w.(gens := w.gens + [NewGen()])
    ensures MarksOk(w')
  {
    assert Used(w'.gens)[..|w.gens|] == Used(w.gens);
  }

  lemma MarksAfter(t: Counts, picks: set<Action>, w: World, e: Event)
    requires MarksOk(w) && Picked(picks, w)
    ensures MarksOk(Next(t, picks, w, e))
  {
    hide MarksOk, Calm, Posted, Marked, GenPicked, Next;
    var w' := Next(t, picks, w, e);
    match e {
      case Start =>
        NextStarts(t, picks, w);
        StartMarks(w, w');
      case Step(i, _, _, mark) =>
        if i < |w.gens| {
          assert GenPicked(picks, w.gens[i]);
          StepKinds(t, picks, w, e);
          if Calm(w, w', i) {
            CalmMarks(w, w', i);
          } else if Posted(w, w', i, mark) {
            PostedMarks(w, w', i, mark);
          } else {
            MarkedMarks(w, w', i, mark);
          }
        } else {
          OthersMarks(t, picks, w, e);
        }
      case Outside => OthersMarks(t, picks, w, e);
      case Age(_) => OthersMarks(t, picks, w, e);
    }
  }

  lemma NextStarts(t: Counts, picks: set<Action>, w: World)
    ensures Next(t, picks, w, Start) == w.(gens := w.gens + [NewGen()])
  {
  }

  lemma OthersMarks(t: Counts, picks: set<Action>, w: World, e: Event)
    requires MarksOk(w) && (e.Outside? || e.Age? || (e.Step? && |w.gens| <= e.i))
    ensures MarksOk(Next(t, picks, w, e))
  {
  }

  /** All that is known of the worlds of a run. */
  ghost predicate Sound(t: Counts, picks: set<Action>, w: World) {
    Inv(t, w) && Picked(picks, w) && MarksOk(w)
  }

  lemma SoundAfter(t: Counts, picks: set<Action>, w: World, e: Event)
    requires Sound(t, picks, w)
    ensures Sound(t, picks, Next(t, picks, w, e))
  {
    hide Inv, Picked, MarksOk, Next;
    NextKeeps(t, picks, w, e);
    PickedAfter(t, picks, w, e);
    MarksAfter(t, picks, w, e);
  }

  lemma {:induction false} PathSound(t: Counts, picks: set<Action>, worlds: seq<World>, events: seq<Event>)
    requires IsPath(t, picks, worlds, events) && Sound(t, picks, worlds[0])
    ensures forall n | 0 <= n < |worlds| :: Sound(t, picks, worlds[n])
  {
    hide Sound, Next;
    var n := |events|;
    if n > 0 {
      PathSound(t, picks, worlds[..n], events[..n - 1]);
      SoundAfter(t, picks, worlds[n - 1], events[n - 1]);
    }
  }

  lemma SoundFirst(t: Counts, picks: set<Action>)
    requires forall q :: 0 <= t[q]
    ensures Sound(t, picks, Begin())
  {
    NothingYet(t, picks);
  }

  lemma RunSound(t: Counts, picks: set<Action>, worlds: seq<World>, events: seq<Event>)
    requires IsRun(t, picks, worlds, events)
    ensures forall n | 0 <= n < |worlds| :: Sound(t, picks, worlds[n])
  {
    hide Sound, Begin;
    SoundFirst(t, picks);
    PathSound(t, picks, worlds, events);
  }

  // ----- the reactions there can ever be -----

  function Below(n: nat): (s: set<nat>)
    ensures |s| == n && forall p: nat :: p in s <==> p < n
  {
    if n == 0 then {} else Below(n - 1) + {n - 1}
  }

  lemma UsedBound(w: World, i: nat)
    requires PostsExist(w) && i < |w.gens|
    ensures |w.gens[i].used| <= 4 * w.posts
  {
    hide Marks;
    InMarks(Below(w.posts));
    SubsetSize(w.gens[i].used, Marks(Below(w.posts)));
    MarksCount(Below(w.posts));
  }

  function Times(n: nat, x: int): int {
    n * x
  }

  lemma TimesNext(n: nat, x: int)
    requires 0 < n
    ensures Times(n, x) == Times(n - 1, x) + x
    ensures Times(0, x) == 0
  {
  }

  /** A sum of numbers that are all at most x, or all x. */
  lemma {:induction false} SumBound(s: seq<int>, x: int)
    requires forall i | 0 <= i < |s| :: s[i] <= x
    ensures Sum(s) <= Times(|s|, x)
    ensures (forall i | 0 <= i < |s| :: s[i] == x) ==> Sum(s) == Times(|s|, x)
  {
    hide Times;
    if s != [] {
      SumBound(s[..|s| - 1], x);
      TimesNext(|s|, x);
    } else {
      TimesNext(1, x);
    }
  }

  /** In every interleaving, whoever posts: at most four reactions for each generator and post. */
  lemma ReactionBound(t: Counts, picks: set<Action>, worlds: seq<World>, events: seq<Event>, n: nat)
    requires IsRun(t, picks, worlds, events) && n < |worlds|
    ensures worlds[n].completed[Reactions] <= Times(|worlds[n].gens|, 4 * worlds[n].posts)
  {
    hide IsRun, Times, PostsExist, Inv, Picked;
    RunSound(t, picks, worlds, events);
    var w := worlds[n];
    assert Sound(t, picks, w);
    forall i | 0 <= i < |w.gens| ensures |w.gens[i].used| <= 4 * w.posts {
      UsedBound(w, i);
    }
    SumBound(Used(w.gens), 4 * w.posts);
  }

  // ----- the reactions that can still be added -----

  /** The reactions to young posts that a generator has not added yet. */
  function Room(w: World, g: Gen): nat {
    |Marks(w.recent) - g.used|
  }

  /** The posts that are still to be created. */
  function PostsToCome(t: Counts, w: World): int {
    t[Posts] - w.completed[Posts]
  }

  /** The reactions that a generator can still add. */
  ghost function Addable(t: Counts, w: World, g: Gen): int {
    if Keeps(g, Reactions) then Room(w, g) + 4 * PostsToCome(t, w) else 0
  }

  ghost function Addables(t: Counts, w: World): (s: seq<int>)
    ensures |s| == |w.gens| && forall i | 0 <= i < |s| :: s[i] == Addable(t, w, w.gens[i])
  {
    seq(|w.gens|, i requires 0 <= i < |w.gens| => Addable(t, w, w.gens[i]))
  }

  /** The reactions there will be at most, if nobody else posts and no generator is started. */
  ghost function Capacity(t: Counts, w: World): int {
    w.completed[Reactions] + Sum(Addables(t, w))
  }

  /** The generators that can add reactions stay the same, or reactions have been seen at their target. */
  ghost predicate KeepersStay(t: Counts, w: World, w': World, i: nat)
    requires i < |w.gens| == |w'.gens|
  {
    && (Keeps(w'.gens[i], Reactions) ==> Keeps(w.gens[i], Reactions))
    && (Keeps(w.gens[i], Reactions) ==>
          Keeps(w'.gens[i], Reactions) || (w.count[Reactions] == t[Reactions] && !w.gens[i].pc.Flight?))
  }

  lemma ReserveStay(t: Counts, w: World, i: nat, a: Action, full: Pc)
    requires i < |w.gens| && (full == Ready || full == Check(0)) && (w.gens[i].pc == Init || w.gens[i].pc == Ready)
    ensures KeepersStay(t, w, Reserve(t, w, i, a, full), i)
    ensures KeepersStay(t, w, Put(w, i, full), i)
  {
    hide For, Inc;
  }

  lemma LandStay(t: Counts, w: World, i: nat, q: Quota, works: bool, mark: Mark)
    requires i < |w.gens| && w.gens[i].pc == Flight(q)
    ensures var w' := Land(w, i, q, works, mark); |w'.gens| == |w.gens| && KeepersStay(t, w, w', i)
  {
    hide Dec, Succeeds;
  }

  lemma LookStay(t: Counts, w: World, i: nat, k: nat)
    requires i < |w.gens|
    ensures w.gens[i].pc == Check(k) ==> KeepersStay(t, w, LookDone(t, w, i, k), i)
    ensures w.gens[i].pc == Prune(k) ==> KeepersStay(t, w, LookPrune(t, w, i, k), i)
  {
  }

  lemma StepStay(t: Counts, picks: set<Action>, w: World, e: Event)
    requires e.Step? && e.i < |w.gens|
    ensures var w' := Next(t, picks, w, e); |w'.gens| == |w.gens| && KeepersStay(t, w, w', e.i)
  {
    hide Reserve, Put, Land, LookDone, LookPrune, KeepersStay, OnlyOne;
    StepOnly(t, picks, w, e);
    OneSize(w, Next(t, picks, w, e), e.i);
    match w.gens[e.i].pc {
      case Init => ReserveStay(t, w, e.i, CreateTeam, Ready);
      case Ready =>
        ReserveStay(t, w, e.i, CreateTeam, Check(0));
        if CanPick(picks, w.gens[e.i], e.pick) {
          ReserveStay(t, w, e.i, e.pick.value, Check(0));
        }
      case Flight(q) => LandStay(t, w, e.i, q, e.works, e.mark);
      case Check(k) => LookStay(t, w, e.i, k);
      case Prune(k) => LookStay(t, w, e.i, k);
      case Exited => NoneStay(t, w, e.i);
    }
  }

  lemma OneSize(w: World, w': World, i: nat)
    requires OnlyOne(w, w', i)
    ensures |w'.gens| == |w.gens|
  {
  }

  lemma NoneStay(t: Counts, w: World, i: nat)
    requires i < |w.gens|
    ensures KeepersStay(t, w, w, i)
  {
  }

  lemma CalmCapacity(t: Counts, w: World, w': World, i: nat)
    requires Calm(w, w', i) && KeepersStay(t, w, w', i) && 0 <= PostsToCome(t, w)
    ensures Capacity(t, w') <= Capacity(t, w)
    ensures Capacity(t, w') == Capacity(t, w) || (w.count[Reactions] == t[Reactions] && !w.gens[i].pc.Flight?)
  {
    hide Keeps;
    var mine := Addable(t, w', w'.gens[i]);
    SumUpdate(Addables(t, w), i, mine);
    assert Addables(t, w') == Addables(t, w)[i := mine];
  }

  /** A new post makes room for four reactions of every generator, and is no longer to come. */
  lemma RoomPosted(t: Counts, w: World, w': World, g: Gen)
    requires w'.recent == w.recent + {w.posts} && PostsToCome(t, w') == PostsToCome(t, w) - 1
    requires forall m | m in g.used :: m.post < w.posts
    requires forall p | p in w.recent :: p < w.posts
    ensures Addable(t, w', g) == Addable(t, w, g)
  {
    hide Keeps, PostsToCome;
    var more := Marks({w.posts});
    MarksCount({w.posts});
    assert Marks(w'.recent) - g.used == (Marks(w.recent) - g.used) + more;
  }

  lemma PostedCapacity(t: Counts, w: World, w': World, i: nat, mark: Mark)
    requires Posted(w, w', i, mark) && KeepersStay(t, w, w', i) && PostsExist(w)
    ensures Capacity(t, w') == Capacity(t, w)
  {
    hide Keeps, Room, Addable;
    forall k: nat | k < |w.gens| ensures Addable(t, w', w'.gens[k]) == Addable(t, w, w.gens[k]) {
      assert w'.gens[k].used == w.gens[k].used;
      RoomPosted(t, w, w', w.gens[k]);
      assert Keeps(w'.gens[k], Reactions) <==> Keeps(w.gens[k], Reactions);
      SameAddable(t, w', w.gens[k], w'.gens[k]);
    }
    assert Addables(t, w') == Addables(t, w);
  }

  lemma SameAddable(t: Counts, w: World, g: Gen, g': Gen)
    requires g.used == g'.used && (Keeps(g, Reactions) <==> Keeps(g', Reactions))
    ensures Addable(t, w, g) == Addable(t, w, g')
  {
  }

  lemma MarkedAddable(t: Counts, w: World, w': World, g: Gen, g': Gen, mark: Mark)
    requires w'.recent == w.recent && PostsToCome(t, w') == PostsToCome(t, w)
    requires mark.post in w.recent && mark !in g.used && g'.used == g.used + {mark}
    requires Keeps(g, Reactions) && Keeps(g', Reactions)
    ensures Addable(t, w', g') == Addable(t, w, g) - 1
  {
    hide Keeps, PostsToCome;
    assert Marks(w.recent) - g.used == (Marks(w.recent) - g'.used) + {mark};
  }

  lemma MarkedCapacity(t: Counts, w: World, w': World, i: nat, mark: Mark)
    requires Marked(w, w', i, mark) && KeepersStay(t, w, w', i) && Reactions in w.gens[i].table
    ensures Capacity(t, w') == Capacity(t, w)
  {
    hide Addable;
    MarkedAddable(t, w, w', w.gens[i], w'.gens[i], mark);
    forall k: nat | k < |w.gens| ensures Addable(t, w', w.gens[k]) == Addable(t, w, w.gens[k]) {
      AddableOf(t, w, w', w.gens[k]);
    }
    SumUpdate(Addables(t, w), i, Addable(t, w', w'.gens[i]));
    assert Addables(t, w') == Addables(t, w)[i := Addable(t, w', w'.gens[i])];
  }

  lemma AddableOf(t: Counts, w: World, w': World, g: Gen)
    requires w'.recent == w.recent && PostsToCome(t, w') == PostsToCome(t, w)
    ensures Addable(t, w', g) == Addable(t, w, g)
  {
  }

  /** A step of a generator leaves the capacity as it is, unless it finds the reactions at their target. */
  lemma StepCapacity(t: Counts, picks: set<Action>, w: World, e: Event)
    requires Sound(t, picks, w) && e.Step? && e.i < |w.gens|
    ensures var w' := Next(t, picks, w, e);
            && Capacity(t, w') <= Capacity(t, w)
            && (Capacity(t, w') == Capacity(t, w)
                || (w.count[Reactions] == t[Reactions] && !w.gens[e.i].pc.Flight?))
  {
    hide Next, Capacity, Calm, Posted, KeepersStay, Inv, PostsToCome, GenPicked;
    var w' := Next(t, picks, w, e);
    assert GenPicked(picks, w.gens[e.i]);
    StepKinds(t, picks, w, e);
    StepStay(t, picks, w, e);
    PostsStillToCome(t, w);
    if Calm(w, w', e.i) {
      CalmCapacity(t, w, w', e.i);
    } else if Posted(w, w', e.i, e.mark) {
      PostedCapacity(t, w, w', e.i, e.mark);
    } else {
      FlightInTable(t, w, e.i);
      MarkedCapacity(t, w, w', e.i, e.mark);
    }
  }

  lemma PostsStillToCome(t: Counts, w: World)
    requires Inv(t, w)
    ensures 0 <= PostsToCome(t, w)
  {
    hide Kept, GensOk, TeamsOk;
    assert Exact(t, w, Posts);
    FlightBits(w.gens, Posts);
  }

  lemma FlightInTable(t: Counts, w: World, i: nat)
    requires Inv(t, w) && i < |w.gens| && w.gens[i].pc == Flight(Reactions)
    ensures Reactions in w.gens[i].table
  {
    InvAt(t, w, i);
  }

  /** Time only takes room away. */
  lemma AgeCapacity(t: Counts, picks: set<Action>, w: World, young: set<nat>)
    requires Sound(t, picks, w)
    ensures Capacity(t, Next(t, picks, w, Age(young))) <= Capacity(t, w)
  {
    hide Keeps, Sound;
    var w' := Next(t, picks, w, Age(young));
    forall i | 0 <= i < |w.gens| ensures Addable(t, w', w.gens[i]) <= Addable(t, w, w.gens[i]) {
      SubsetSize(Marks(w'.recent) - w.gens[i].used, Marks(w.recent) - w.gens[i].used);
    }
    SumMonotone(Addables(t, w), Addables(t, w'));
  }

  /** One for every generator that can still add reactions. */
  ghost function Adders(gens: seq<Gen>): (s: seq<int>)
    ensures |s| == |gens| && forall i | 0 <= i < |s| :: s[i] == Bit(Keeps(gens[i], Reactions))
  {
    seq(|gens|, i requires 0 <= i < |gens| => Bit(Keeps(gens[i], Reactions)))
  }

  lemma {:induction false} SumPlus(s: seq<int>, t: seq<int>, u: seq<int>, c: int)
    requires |s| == |t| == |u| && forall i | 0 <= i < |s| :: u[i] == s[i] + c * t[i]
    ensures Sum(u) == Sum(s) + c * Sum(t)
  {
    if s != [] {
      var last := |s| - 1;
      SumPlus(s[..last], t[..last], u[..last], c);
      assert c * Sum(t) == c * Sum(t[..last]) + c * t[last];
    }
  }

  lemma RoomOutside(t: Counts, w: World, g: Gen)
    requires PostsExist(w) && g in w.gens
    ensures Addable(t, AddPost(w), g) == Addable(t, w, g) + 4 * Bit(Keeps(g, Reactions))
  {
    hide Keeps;
    var i :| 0 <= i < |w.gens| && w.gens[i] == g;
    var more := Marks({w.posts});
    MarksCount({w.posts});
    assert Marks(AddPost(w).recent) - g.used == (Marks(w.recent) - g.used) + more;
  }

  /** Every post that somebody else creates makes room for four more reactions of each generator that still
      adds any. */
  lemma OutsideCapacity(t: Counts, picks: set<Action>, w: World)
    requires Sound(t, picks, w)
    ensures Capacity(t, Next(t, picks, w, Outside)) == Capacity(t, w) + 4 * Sum(Adders(w.gens))
  {
    hide Addable, Keeps, Inv, Picked, PostsExist, Sum;
    var w' := AddPost(w);
    forall i: nat | i < |w.gens| ensures Addables(t, w')[i] == Addables(t, w)[i] + 4 * Adders(w.gens)[i] {
      RoomOutside(t, w, w.gens[i]);
    }
    SumPlus(Addables(t, w), Adders(w.gens), Addables(t, w'), 4);
  }

  lemma CapacityAtLeast(t: Counts, w: World)
    requires Inv(t, w)
    ensures w.completed[Reactions] <= Capacity(t, w)
  {
    hide Keeps, Inv, PostsToCome;
    PostsStillToCome(t, w);
    SumNonNegative(Addables(t, w));
  }

  /** While the capacity exceeds the reactions and no post is to come, some generator has room for one. */
  lemma SomeRoom(t: Counts, w: World) returns (i: nat)
    requires w.completed[Reactions] < Capacity(t, w) && PostsToCome(t, w) == 0
    ensures i < |w.gens| && Keeps(w.gens[i], Reactions) && 0 < Room(w, w.gens[i])
  {
    hide Keeps, PostsToCome, Room;
    if forall k | 0 <= k < |w.gens| :: Addable(t, w, w.gens[k]) == 0 {
      SumZero(Addables(t, w));
      assert false;
    }
    i :| i < |w.gens| && Addable(t, w, w.gens[i]) != 0;
  }
}
