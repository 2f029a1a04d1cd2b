/** The protocol of StatusProtocol against two simpler accounts of it: its users are those of the calls alone, one
    after the other, and its status channels hand on every status once and in order. */
module StatusRefinement {
  import opened Wrappers
  import opened StatusProtocol
  import L = Lifecycle

  // ----- the users -----

  /** The call, if this event is one that the load-test is in the state for. */
  function CallOf(s: Sys, e: Event): seq<L.Call> {
    match e
    case Start => if s.phase == Phase.Stopped then [L.RunCall([])] else []
    case Add(d) => if s.phase == Phase.Running then [L.AddCall(1, [d])] else []
    case Remove(n) => if s.phase == Phase.Running then [L.RemoveCall(n)] else []
    case BeginStop => if s.phase == Phase.Running then [L.StopCall] else []
    case _ => []
  }

  function Calls(states: seq<Sys>, events: seq<Event>): seq<L.Call>
    requires |events| < |states|
  {
    if events == [] then []
    else
      var n := |events| - 1;
      Calls(states[..n + 1], events[..n]) + if states[n].panicked then [] else CallOf(states[n], events[n])
  }

  /** What the caller of Run, AddUsers, RemoveUsers and Stop sees. */
  function TesterOf(s: Sys): L.Tester {
    L.Tester(if s.phase == Phase.Running then L.Running else L.State.Stopped, s.epoch, s.users)
  }

  function DoThem(l: L.Limits, t: L.Tester, calls: seq<L.Call>): L.Tester
    requires l.avgSessions > 0 && |calls| <= 1
  {
    if calls == [] then t else L.Do(l, t, calls[0])
  }

  lemma AddsOne(l: L.Limits, epoch: nat, r: L.Roster, d: L.Draw)
    requires l.avgSessions > 0
    ensures L.AddMany(l, epoch, r, [d]).0 == L.AddOne(l, epoch, r, d).0
  {
    hide L.AddOne;
    assert [d][1..] == [];
  }

  lemma RemovesNone(r: L.Roster)
    ensures L.RemoveMany(r, 0).0 == r
  {
    assert r.active[..|r.active|] == r.active && r.active[|r.active|..] == [];
  }

  lemma AddRefines(l: L.Limits, s: Sys, d: L.Draw)
    requires l.avgSessions > 0 && s.phase == Phase.Running && !s.panicked
    ensures TesterOf(Next(l, s, Add(d))) == L.Do(l, TesterOf(s), L.AddCall(1, [d]))
  {
    hide L.AddOne, L.AddMany;
    AddsOne(l, s.epoch, s.users, d);
  }

  lemma RemoveRefines(l: L.Limits, s: Sys, n: nat)
    requires l.avgSessions > 0 && s.phase == Phase.Running && !s.panicked
    ensures TesterOf(Next(l, s, Remove(n))) == L.Do(l, TesterOf(s), L.RemoveCall(n))
  {
    hide L.RemoveMany;
    RemovesNone(s.users);
  }

  lemma StartRefines(l: L.Limits, s: Sys)
    requires l.avgSessions > 0 && s.phase == Phase.Stopped && !s.panicked
    ensures TesterOf(Next(l, s, Start)) == L.Do(l, TesterOf(s), L.RunCall([]))
  {
  }

  lemma StopRefines(l: L.Limits, s: Sys)
    requires l.avgSessions > 0 && s.phase == Phase.Running && !s.panicked
    ensures TesterOf(Next(l, s, BeginStop)) == L.Do(l, TesterOf(s), L.StopCall)
  {
    hide L.RemoveMany;
  }

  lemma StepRefines(l: L.Limits, s: Sys, e: Event)
    requires l.avgSessions > 0 && !s.panicked
    ensures TesterOf(Next(l, s, e)) == DoThem(l, TesterOf(s), CallOf(s, e))
  {
    hide L.Do, L.RemoveMany, AddUser;
    match e {
      case Start => if s.phase == Phase.Stopped { StartRefines(l, s); }
      case Add(d) => if s.phase == Phase.Running { AddRefines(l, s, d); }
      case Remove(n) => if s.phase == Phase.Running { RemoveRefines(l, s, n); }
      case BeginStop => if s.phase == Phase.Running { StopRefines(l, s); }
      case _ =>
    }
  }

  lemma DoAllThem(l: L.Limits, calls: seq<L.Call>, more: seq<L.Call>)
    requires l.avgSessions > 0 && |more| <= 1
    ensures L.DoAll(l, calls + more) == DoThem(l, L.DoAll(l, calls), more)
  {
    hide L.Do;
    if more == [] {
      assert calls + more == calls;
    } else {
      assert (calls + more)[..|calls|] == calls;
    }
  }

  /** In every interleaving the users are those of the calls made so far, one after the other: no goroutine but the
      caller's moves them. */
  lemma {:induction false} UsersAreOfCalls(l: L.Limits, states: seq<Sys>, events: seq<Event>)
    requires IsRun(l, states, events)
    ensures L.DoAll(l, Calls(states, events)) == TesterOf(states[|events|])
  {
    hide Next, L.Do, CallOf;
    var n := |events|;
    if n > 0 {
      UsersAreOfCalls(l, states[..n], events[..n - 1]);
      var more := if states[n - 1].panicked then [] else CallOf(states[n - 1], events[n - 1]);
      if states[n - 1].panicked {
        PanicStays(l, states[n - 1], events[n - 1]);
      } else {
        OneCall(states[n - 1], events[n - 1]);
        StepRefines(l, states[n - 1], events[n - 1]);
      }
      DoAllThem(l, Calls(states[..n], events[..n - 1]), more);
    }
  }

  lemma OneCall(s: Sys, e: Event)
    ensures |CallOf(s, e)| <= 1
  {
  }

  lemma PanicStays(l: L.Limits, s: Sys, e: Event)
    requires l.avgSessions > 0 && s.panicked
    ensures Next(l, s, e) == s
  {
  }

  // ----- the statuses -----

  /** A run can send now: it has not ended, and its channel is open and has room. */
  predicate CanSend(l: L.Limits, s: Sys, run: nat) {
    run in s.live && s.live[run] == s.epoch && s.phase != Phase.Stopped && |s.chan| < l.max
  }

  function SentBy(l: L.Limits, s: Sys, e: Event): seq<Msg> {
    match e
    case Send(run) => if CanSend(l, s, run) then [Msg(run, false)] else []
    case Finish(run) => if CanSend(l, s, run) then [Msg(run, true)] else []
    case _ => []
  }

  function ReadBy(s: Sys, e: Event): seq<Msg> {
    if e == Receive && s.chan != [] && !s.counted then [s.chan[0]] else []
  }

  /** All statuses sent so far, on all channels. */
  function AllSent(l: L.Limits, states: seq<Sys>, events: seq<Event>): seq<Msg>
    requires |events| < |states|
  {
    if events == [] then []
    else
      var n := |events| - 1;
      AllSent(l, states[..n + 1], events[..n]) + if states[n].panicked then [] else SentBy(l, states[n], events[n])
  }

  /** All statuses the handlers have read. */
  function AllRead(states: seq<Sys>, events: seq<Event>): seq<Msg>
    requires |events| < |states|
  {
    if events == [] then []
    else
      var n := |events| - 1;
      AllRead(states[..n + 1], events[..n]) + if states[n].panicked then [] else ReadBy(states[n], events[n])
  }

  lemma PostHandsOn(l: L.Limits, s: Sys, m: Msg)
    requires Inv(l, s) && m.run in s.live
    ensures Post(l, s, m).chan == s.chan + if CanSend(l, s, m.run) then [m] else []
  {
    hide Inv;
    LiveMeansOpen(l, s, m.run);
  }

  lemma StoppedIsRead(l: L.Limits, s: Sys)
    requires Inv(l, s) && s.phase == Phase.Stopped
    ensures s.chan == []
  {
    NothingLeft(l, s);
  }

  lemma StepHandsOn(l: L.Limits, s: Sys, e: Event)
    requires l.avgSessions > 0 && Inv(l, s) && !s.panicked
    ensures s.chan + SentBy(l, s, e) == ReadBy(s, e) + Next(l, s, e).chan
  {
    hide Inv, Post, AddUser, L.RemoveMany, CanSend;
    match e {
      case Start => if s.phase == Phase.Stopped { StoppedIsRead(l, s); }
      case Send(run) => SendHandsOn(l, s, run);
      case Finish(run) => FinishHandsOn(l, s, run);
      case Receive => if s.chan != [] && !s.counted { assert s.chan == [s.chan[0]] + s.chan[1..]; }
      case Add(d) => AddedElsewhere(l, s, d);
      case _ =>
    }
  }

  lemma AddedElsewhere(l: L.Limits, s: Sys, d: L.Draw)
    requires l.avgSessions > 0
    ensures AddUser(l, s, d).chan == s.chan
  {
    hide L.AddOne;
    L.AddOneGrows(l, s.epoch, s.users, d);
  }

  lemma SendHandsOn(l: L.Limits, s: Sys, run: nat)
    requires l.avgSessions > 0 && Inv(l, s) && !s.panicked
    ensures s.chan + SentBy(l, s, Send(run)) == Next(l, s, Send(run)).chan
  {
    hide Inv, Post;
    if run in s.live {
      PostHandsOn(l, s, Msg(run, false));
    }
  }

  lemma FinishHandsOn(l: L.Limits, s: Sys, run: nat)
    requires l.avgSessions > 0 && Inv(l, s) && !s.panicked
    ensures s.chan + SentBy(l, s, Finish(run)) == Next(l, s, Finish(run)).chan
  {
    hide Inv, Post;
    if run in s.live {
      PostHandsOn(l, s, Msg(run, true));
    }
  }

  /** In every interleaving the handlers have read exactly the statuses that were sent, once each and in order,
      except those still in the channel; and none is left there once Stop has returned. */
  lemma {:induction false} StatusesInOrder(l: L.Limits, states: seq<Sys>, events: seq<Event>)
    requires IsRun(l, states, events)
    ensures var s := states[|events|];
            && AllSent(l, states, events) == AllRead(states, events) + s.chan
            && (s.phase == Phase.Stopped ==> AllSent(l, states, events) == AllRead(states, events))
  {
    hide Next, Inv, SentBy, ReadBy;
    var n := |events|;
    if n > 0 {
      StatusesInOrder(l, states[..n], events[..n - 1]);
      RunInvariant(l, states, events, n - 1);
      if states[n - 1].panicked {
        PanicStays(l, states[n - 1], events[n - 1]);
      } else {
        StepHandsOn(l, states[n - 1], events[n - 1]);
        Regroup(AllRead(states[..n], events[..n - 1]), states[n - 1].chan, SentBy(l, states[n - 1], events[n - 1]),
                ReadBy(states[n - 1], events[n - 1]), states[n].chan);
      }
    }
    RunInvariant(l, states, events, n);
    if states[n].phase == Phase.Stopped {
      StoppedIsRead(l, states[n]);
    }
  }

  lemma Regroup<T>(a: seq<T>, b: seq<T>, c: seq<T>, d: seq<T>, e: seq<T>)
    requires b + c == d + e
    ensures (a + b) + c == (a + d) + e
  {
    assert (a + b) + c == a + (b + c);
  }
}
