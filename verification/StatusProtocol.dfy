/** loadtest/loadtest.go as a protocol between three kinds of goroutines: the caller of Run, AddUsers,
    RemoveUsers and Stop, the controllers' runs, and the handler of the status channel. Every interleaving is
    a sequence of events. A run may send any number of statuses and ends with its terminal one. */
module StatusProtocol {
  import opened Wrappers
  import L = Lifecycle

  datatype Msg = Msg(run: nat, terminal: bool)

  datatype Phase = Stopped | Running | Stopping

  /** `epoch` counts the calls of Run, each of which makes a status channel; `chan` is the content of the
      latest one. `live` maps each run that has not sent its terminal status to the channel its controller
      was created with. The handler has `counted` a terminal status for which it has not called wg.Done. */
  datatype Sys = Sys(phase: Phase, epoch: nat, users: L.Roster, live: map<nat, nat>, started: nat,
                     chan: seq<Msg>, counted: bool, wg: int, stopped: int, panicked: bool)

  datatype Event =
    | Start
    | Add(draw: L.Draw)
    | Remove(n: nat)
    | BeginStop
    | Send(run: nat)
    | Finish(run: nat)
    | Receive
    | WgDone
    | Close

  function Init(): Sys {
    Sys(Stopped, 0, L.Roster([], [], 0, 0, 0), map[], 0, [], false, 0, 0, false)
  }

  /** Run makes a new channel, and so does Stop close the one of its run. */
  predicate Closed(s: Sys, channel: nat) {
    channel < s.epoch || s.phase == Stopped
  }

  /** A run sends on its channel: it waits while that is full, and panics if it is closed. */
  function Post(l: L.Limits, s: Sys, m: Msg): Sys
    requires m.run in s.live
  {
    if Closed(s, s.live[m.run]) then s.(panicked := true)
    else if |s.chan| >= l.max then s
    else s.(chan := s.chan + [m], live := if m.terminal then s.live - {m.run} else s.live)
  }

  function AddUser(l: L.Limits, s: Sys, d: L.Draw): Sys
    requires l.avgSessions > 0
  {
    var (users, err) := L.AddOne(l, s.epoch, s.users, d);
    if err.Some? then s.(users := users)
    else
      var c := users.active[|users.active| - 1];
      s.(users := users, live := s.live[s.started := c.epoch], started := s.started + 1, wg := s.wg + 1)
  }

  function Next(l: L.Limits, s: Sys, e: Event): Sys
    requires l.avgSessions > 0
  {
    if s.panicked then s
    else
      match e
      case Start =>
        if s.phase != Stopped then s
        else s.(phase := Running, epoch := s.epoch + 1, users := L.Roster([], s.users.idle, 0, 0, 0),
                chan := [], stopped := 0)
      case Add(d) => if s.phase != Running then s else AddUser(l, s, d)
      case Remove(n) => if s.phase != Running then s else s.(users := L.RemoveMany(s.users, n).0)
      case BeginStop =>
        if s.phase != Running then s
        else s.(phase := Stopping, users := L.RemoveMany(s.users, |s.users.active|).0)
      case Send(run) => if run !in s.live then s else Post(l, s, Msg(run, false))
      case Finish(run) => if run !in s.live then s else Post(l, s, Msg(run, true))
      case Receive =>
        if s.chan == [] || s.counted then s
        else if s.chan[0].terminal then s.(chan := s.chan[1..], stopped := s.stopped + 1, counted := true)
        else s.(chan := s.chan[1..])
      case WgDone =>
        if !s.counted then s
        else if s.wg <= 0 then s.(panicked := true)
        else s.(counted := false, wg := s.wg - 1)
      case Close => if s.phase != Stopping || s.wg != 0 then s else s.(phase := Stopped)
  }

  /** The states the load-test goes through, and the events between them. */
  ghost predicate IsPath(l: L.Limits, states: seq<Sys>, events: seq<Event>) {
    && l.avgSessions > 0
    && |states| == |events| + 1
    && forall i | 0 <= i < |events| :: states[i + 1] == Next(l, states[i], events[i])
  }

  ghost predicate IsRun(l: L.Limits, states: seq<Sys>, events: seq<Event>) {
    IsPath(l, states, events) && states[0] == Init()
  }

  // ----- what every step keeps -----

  function Terminals(c: seq<Msg>): nat {
    if c == [] then 0 else (if c[0].terminal then 1 else 0) + Terminals(c[1..])
  }

  function Bit(b: bool): nat { if b then 1 else 0 }

  /** The wait count is the started runs whose terminal status has not been accounted for. */
  ghost predicate WaitExact(s: Sys) {
    && s.wg == |s.live| + Terminals(s.chan) + Bit(s.counted)
    && s.users.added == s.stopped + |s.live| + Terminals(s.chan)
  }

  /** No run has anything in the channel after its terminal status, and what others have there will be
      followed by one. */
  ghost predicate MessageOk(s: Sys, i: nat)
    requires i < |s.chan|
  {
    var m := s.chan[i];
    && m.run < s.started
    && (m.terminal ==> m.run !in s.live && forall j | i < j < |s.chan| :: s.chan[j].run != m.run)
    && (!m.terminal ==> m.run in s.live || exists j :: i < j < |s.chan| && s.chan[j] == Msg(m.run, true))
  }

  ghost predicate ChannelOk(s: Sys) {
    && (forall i: nat | i < |s.chan| :: MessageOk(s, i))
    && (forall run | run in s.live :: run < s.started && s.live[run] <= s.epoch)
  }

  ghost predicate PhaseOk(l: L.Limits, s: Sys) {
    && L.Conserved(l.max, s.users)
    && (s.phase != Running ==> s.users.active == [])
    && (s.phase == Stopped ==> s.wg == 0)
  }

  ghost predicate Inv(l: L.Limits, s: Sys) {
    WaitExact(s) && ChannelOk(s) && PhaseOk(l, s) && ChannelsKnown(s)
  }

  lemma {:induction false} TerminalsAppend(c: seq<Msg>, m: Msg)
    ensures Terminals(c + [m]) == Terminals(c) + Bit(m.terminal)
  {
    if c != [] {
      TerminalsAppend(c[1..], m);
      assert (c + [m])[1..] == c[1..] + [m];
    }
  }

  lemma {:induction false} NoTerminals(c: seq<Msg>)
    requires Terminals(c) == 0
    ensures forall i | 0 <= i < |c| :: !c[i].terminal
  {
    if c != [] {
      NoTerminals(c[1..]);
      forall i | 0 <= i < |c| ensures !c[i].terminal {
        if i > 0 {
          assert c[i] == c[1..][i - 1];
        }
      }
    }
  }

  /** Messages of runs that are over are followed by a terminal status. */
  lemma SomeTerminal(s: Sys)
    requires ChannelOk(s) && s.live == map[] && s.chan != []
    ensures Terminals(s.chan) > 0
  {
    assert MessageOk(s, 0);
    if Terminals(s.chan) == 0 {
      NoTerminals(s.chan);
    }
  }

  /** When everything has been accounted for, the channel is empty. */
  lemma NothingLeft(l: L.Limits, s: Sys)
    requires Inv(l, s) && s.wg == 0
    ensures s.live == map[] && s.chan == [] && !s.counted && s.stopped == s.users.added
  {
    hide L.Conserved, ChannelOk, Terminals, ChannelsKnown;
    assert |s.live| == 0;
    if s.chan != [] {
      SomeTerminal(s);
    }
  }

  lemma PostTerminal(s: Sys, s': Sys, m: Msg)
    requires ChannelOk(s) && m.run in s.live && m.terminal
    requires s' == s.(chan := s.chan + [m], live := s.live - {m.run})
    ensures ChannelOk(s')
    ensures |s'.live| == |s.live| - 1
  {
    var n := |s.chan|;
    assert s'.chan[n] == m;
    forall i: nat | i < n + 1 ensures MessageOk(s', i) {
      if i < n {
        assert MessageOk(s, i) && s'.chan[i] == s.chan[i];
        if !s.chan[i].terminal && s.chan[i].run !in s.live {
          var j :| i < j < n && s.chan[j] == Msg(s.chan[i].run, true);
          assert s'.chan[j] == s.chan[j];
        }
      }
    }
    assert s'.live.Keys == s.live.Keys - {m.run};
  }

  lemma PostOther(s: Sys, s': Sys, m: Msg)
    requires ChannelOk(s) && m.run in s.live && !m.terminal
    requires s' == s.(chan := s.chan + [m])
    ensures ChannelOk(s')
  {
    var n := |s.chan|;
    assert s'.chan[n] == m;
    forall i: nat | i < n + 1 ensures MessageOk(s', i) {
      if i < n {
        assert MessageOk(s, i) && s'.chan[i] == s.chan[i];
        if !s.chan[i].terminal && s.chan[i].run !in s.live {
          var j :| i < j < n && s.chan[j] == Msg(s.chan[i].run, true);
          assert s'.chan[j] == s.chan[j];
        }
      }
    }
  }

  lemma PostKeeps(l: L.Limits, s: Sys, m: Msg)
    requires Inv(l, s) && m.run in s.live
    ensures Inv(l, Post(l, s, m))
  {
    hide ChannelOk, L.Conserved, Terminals, ChannelsKnown;
    var s' := Post(l, s, m);
    SameUsers(s, s');
    if !Closed(s, s.live[m.run]) && |s.chan| < l.max {
      TerminalsAppend(s.chan, m);
      if m.terminal {
        PostTerminal(s, s', m);
      } else {
        PostOther(s, s', m);
      }
    } else {
      SameChannel(s, s');
    }
  }

  lemma SameChannel(s: Sys, s': Sys)
    requires ChannelOk(s) && s'.chan == s.chan && s'.live == s.live && s'.started == s.started && s.epoch <= s'.epoch
    ensures ChannelOk(s')
  {
    forall i: nat | i < |s'.chan| ensures MessageOk(s', i) {
      assert MessageOk(s, i);
    }
  }

  lemma ReceivedChannel(s: Sys, s': Sys)
    requires ChannelOk(s) && s.chan != [] && s'.chan == s.chan[1..]
    requires s'.live == s.live && s'.started == s.started && s'.epoch == s.epoch
    ensures ChannelOk(s')
  {
    forall i: nat | i < |s'.chan| ensures MessageOk(s', i) {
      assert MessageOk(s, i + 1) && s'.chan[i] == s.chan[i + 1];
      if !s'.chan[i].terminal && s'.chan[i].run !in s'.live {
        var j :| i + 1 < j < |s.chan| && s.chan[j] == Msg(s'.chan[i].run, true);
        assert s'.chan[j - 1] == s.chan[j];
      }
    }
  }

  lemma ReceiveKeeps(l: L.Limits, s: Sys)
    requires Inv(l, s) && l.avgSessions > 0
    ensures Inv(l, Next(l, s, Receive))
  {
    hide ChannelOk, L.Conserved, ChannelsKnown;
    var s' := Next(l, s, Receive);
    SameUsers(s, s');
    if s'.chan == s.chan {
      SameChannel(s, s');
    } else {
      ReceivedChannel(s, s');
    }
  }

  lemma AddKeeps(l: L.Limits, s: Sys, d: L.Draw)
    requires Inv(l, s) && l.avgSessions > 0 && s.phase == Running
    ensures Inv(l, AddUser(l, s, d))
  {
    hide ChannelOk, L.Conserved, Terminals, L.AddOne;
    var s' := AddUser(l, s, d);
    L.AddOneConserves(l, s.epoch, s.users, d);
    AddedEpochs(l, s, d);
    assert ChannelsKnown(s') <==> ChannelsKnown(s.(users := s'.users));
    if L.AddOne(l, s.epoch, s.users, d).1.None? {
      RunStarts(s, s', s'.users.active[|s'.users.active| - 1].epoch);
    } else {
      SameChannel(s, s');
    }
  }

  /** Controllers were created in this run or an earlier one. */
  ghost predicate ChannelsKnown(s: Sys) {
    && (forall i | 0 <= i < |s.users.active| :: s.users.active[i].epoch <= s.epoch)
    && (forall i | 0 <= i < |s.users.idle| :: s.users.idle[i].epoch <= s.epoch)
  }

  lemma AddedEpochs(l: L.Limits, s: Sys, d: L.Draw)
    requires l.avgSessions > 0 && ChannelsKnown(s)
    ensures ChannelsKnown(s.(users := L.AddOne(l, s.epoch, s.users, d).0))
    ensures L.AddOne(l, s.epoch, s.users, d).1.None? ==>
              |L.AddOne(l, s.epoch, s.users, d).0.active| == |s.users.active| + 1
  {
  }

  lemma RunStarts(s: Sys, s': Sys, channel: nat)
    requires ChannelOk(s) && channel <= s.epoch
    requires s'.chan == s.chan && s'.live == s.live[s.started := channel] && s'.started == s.started + 1
    requires s'.epoch == s.epoch
    ensures ChannelOk(s') && |s'.live| == |s.live| + 1
  {
    forall i: nat | i < |s'.chan| ensures MessageOk(s', i) {
      assert MessageOk(s, i);
    }
    assert s'.live.Keys == s.live.Keys + {s.started};
  }

  lemma RemoveKeeps(l: L.Limits, s: Sys, s': Sys, n: nat)
    requires Inv(l, s) && s' == s.(users := L.RemoveMany(s.users, n).0, phase := s'.phase)
    requires s.phase == Running && s'.phase != Stopped && (s'.phase == Stopping ==> n == |s.users.active|)
    ensures Inv(l, s')
  {
    hide ChannelOk, L.Conserved, Terminals;
    L.RemoveManyConserves(l.max, s.users, n);
    SameChannel(s, s');
  }

  lemma StartKeeps(l: L.Limits, s: Sys)
    requires Inv(l, s) && l.avgSessions > 0
    ensures Inv(l, Next(l, s, Start))
  {
    hide ChannelOk, Terminals, L.Conserved;
    var s' := Next(l, s, Start);
    if s' != s && !s.panicked {
      NothingLeft(l, s);
      L.StoppedIsConserved(l.max, s.users);
      assert Terminals([]) == 0 by { TerminalsNone(); }
      SameChannel(s, s');
    }
  }

  lemma TerminalsNone()
    ensures Terminals([]) == 0
  {
  }

  lemma NextKeeps(l: L.Limits, s: Sys, e: Event)
    requires Inv(l, s) && l.avgSessions > 0
    ensures Inv(l, Next(l, s, e))
  {
    hide ChannelOk, Terminals, L.Conserved, Post, AddUser, L.RemoveMany, ChannelsKnown, WaitExact;
    var s' := Next(l, s, e);
    if !s.panicked {
      match e {
        case Start => StartKeeps(l, s);
        case Add(d) => if s.phase == Running { AddKeeps(l, s, d); }
        case Remove(n) => if s.phase == Running { RemoveKeeps(l, s, s', n); }
        case BeginStop => if s.phase == Running { RemoveKeeps(l, s, s', |s.users.active|); }
        case Send(run) => if run in s.live { PostKeeps(l, s, Msg(run, false)); }
        case Finish(run) => if run in s.live { PostKeeps(l, s, Msg(run, true)); }
        case Receive => ReceiveKeeps(l, s);
        case WgDone => WgDoneKeeps(l, s);
        case Close => CloseKeeps(l, s);
      }
    }
  }

  lemma WgDoneKeeps(l: L.Limits, s: Sys)
    requires Inv(l, s) && l.avgSessions > 0
    ensures Inv(l, Next(l, s, WgDone))
    ensures Next(l, s, WgDone).panicked == s.panicked
  {
    hide ChannelOk, Terminals, L.Conserved, ChannelsKnown;
    var s' := Next(l, s, WgDone);
    SameChannel(s, s');
    SameUsers(s, s');
  }

  lemma CloseKeeps(l: L.Limits, s: Sys)
    requires Inv(l, s) && l.avgSessions > 0
    ensures Inv(l, Next(l, s, Close))
  {
    hide ChannelOk, Terminals, L.Conserved, ChannelsKnown;
    var s' := Next(l, s, Close);
    SameChannel(s, s');
    SameUsers(s, s');
  }

  lemma SameUsers(s: Sys, s': Sys)
    requires ChannelsKnown(s) && s'.users == s.users && s.epoch == s'.epoch
    ensures ChannelsKnown(s')
  {
  }

  lemma {:induction false} PathKeeps(l: L.Limits, states: seq<Sys>, events: seq<Event>)
    requires IsPath(l, states, events) && Inv(l, states[0])
    ensures forall n | 0 <= n < |states| :: Inv(l, states[n])
  {
    hide Inv, Next;
    var n := |events|;
    if n > 0 {
      PathKeeps(l, states[..n], events[..n - 1]);
      NextKeeps(l, states[n - 1], events[n - 1]);
    }
  }

  lemma RunInvariant(l: L.Limits, states: seq<Sys>, events: seq<Event>, n: nat)
    requires IsRun(l, states, events) && n < |states|
    ensures Inv(l, states[n])
  {
    hide Inv, IsPath;
    InitOk(l);
    PathKeeps(l, states, events);
  }

  lemma InitOk(l: L.Limits)
    ensures Inv(l, Init())
  {
  }

  // ----- who may send on a closed channel -----

  /** Every controller and every run has the channel of the current run. */
  ghost predicate Current(s: Sys) {
    && (forall run | run in s.live :: s.live[run] == s.epoch)
    && (forall i | 0 <= i < |s.users.active| :: s.users.active[i].epoch == s.epoch)
    && (forall i | 0 <= i < |s.users.idle| :: s.users.idle[i].epoch == s.epoch)
  }

  /** The test load is only started when no controller is idle. */
  ghost predicate FreshStart(s: Sys, e: Event) {
    e == Start && s.phase == Stopped ==> s.users.idle == []
  }

  lemma LiveMeansOpen(l: L.Limits, s: Sys, run: nat)
    requires Inv(l, s) && run in s.live
    ensures s.phase != Stopped && s.live[run] <= s.epoch
    ensures Closed(s, s.live[run]) <==> s.live[run] < s.epoch
  {
    hide L.Conserved, Terminals, ChannelsKnown, MessageOk;
    if s.phase == Stopped {
      NothingLeft(l, s);
    }
  }

  /** A run that sends panics exactly when its controller was created in an earlier run of the load-test. */
  lemma PanicsExactly(l: L.Limits, states: seq<Sys>, events: seq<Event>, n: nat, run: nat)
    requires IsRun(l, states, events) && n < |states|
    requires !states[n].panicked && run in states[n].live
    ensures var s := states[n];
            && (Next(l, s, Send(run)).panicked <==> s.live[run] < s.epoch)
            && (Next(l, s, Finish(run)).panicked <==> s.live[run] < s.epoch)
  {
    hide IsRun, Inv;
    RunInvariant(l, states, events, n);
    LiveMeansOpen(l, states[n], run);
  }

  lemma AddedCurrent(l: L.Limits, s: Sys, d: L.Draw)
    requires l.avgSessions > 0 && Current(s)
    ensures Current(AddUser(l, s, d)) && AddUser(l, s, d).panicked == s.panicked
  {
  }

  lemma PostCurrent(l: L.Limits, s: Sys, m: Msg)
    requires Inv(l, s) && Current(s) && m.run in s.live
    ensures Current(Post(l, s, m)) && Post(l, s, m).panicked == s.panicked
  {
    hide Inv;
    LiveMeansOpen(l, s, m.run);
  }

  lemma NextCurrent(l: L.Limits, s: Sys, e: Event)
    requires l.avgSessions > 0 && Inv(l, s) && Current(s) && FreshStart(s, e) && !s.panicked
    ensures Current(Next(l, s, e)) && !Next(l, s, e).panicked
  {
    hide Inv, Post, AddUser, Current;
    var s' := Next(l, s, e);
    match e {
      case Start => if s.phase == Stopped { StartCurrent(l, s); }
      case Add(d) => if s.phase == Running { AddedCurrent(l, s, d); }
      case Remove(n) => if s.phase == Running { RemoveCurrent(s, s', n); }
      case BeginStop => if s.phase == Running { RemoveCurrent(s, s', |s.users.active|); }
      case Send(run) => if run in s.live { PostCurrent(l, s, Msg(run, false)); }
      case Finish(run) => if run in s.live { PostCurrent(l, s, Msg(run, true)); }
      case Receive => StillCurrent(s, s');
      case WgDone =>
        WgDoneKeeps(l, s);
        StillCurrent(s, s');
      case Close => StillCurrent(s, s');
    }
  }

  lemma StartCurrent(l: L.Limits, s: Sys)
    requires l.avgSessions > 0 && Inv(l, s) && s.phase == Stopped && s.users.idle == [] && !s.panicked
    ensures Current(Next(l, s, Start))
  {
    hide Inv;
    StoppedIsQuiet(l, s);
  }

  lemma StoppedIsQuiet(l: L.Limits, s: Sys)
    requires Inv(l, s) && s.phase == Stopped
    ensures s.live == map[] && s.chan == []
  {
    NothingLeft(l, s);
  }

  lemma RemoveCurrent(s: Sys, s': Sys, n: nat)
    requires Current(s) && s' == s.(users := L.RemoveMany(s.users, n).0, phase := s'.phase)
    ensures Current(s')
  {
  }

  lemma StillCurrent(s: Sys, s': Sys)
    requires Current(s) && s'.users == s.users && s'.live == s.live && s'.epoch == s.epoch
    ensures Current(s')
  {
  }

  /** If the load-test is always started without idle controllers, nobody ever sends on a closed channel
      and the wait count never goes below zero, in any interleaving. */
  lemma {:induction false} NeverPanics(l: L.Limits, states: seq<Sys>, events: seq<Event>)
    requires IsRun(l, states, events)
    requires forall i | 0 <= i < |events| :: FreshStart(states[i], events[i])
    ensures forall n | 0 <= n < |states| :: !states[n].panicked && Current(states[n])
  {
    hide Next, Inv, Current, FreshStart;
    var n := |events|;
    if n == 0 {
      InitCurrent();
    } else {
      NeverPanics(l, states[..n], events[..n - 1]);
      RunInvariant(l, states, events, n - 1);
      NextCurrent(l, states[n - 1], events[n - 1]);
    }
  }

  lemma InitCurrent()
    ensures Current(Init()) && !Init().panicked
  {
  }

  // ----- stopping -----

  /** In every interleaving, whatever was started before: the wait count is exact and never negative, and the
      channel is closed only when no run is left that could send on it, with nothing unread in it and as many
      users stopped and removed as were added. */
  lemma StopIsComplete(l: L.Limits, states: seq<Sys>, events: seq<Event>, n: nat)
    requires IsRun(l, states, events) && n < |states|
    ensures var s := states[n];
            && 0 <= s.wg == |s.live| + Terminals(s.chan) + Bit(s.counted)
            && (s.phase == Stopped ==>
                  && s.live == map[] && s.chan == [] && !s.counted
                  && s.stopped == s.users.added == s.users.removed)
  {
    hide IsRun, ChannelOk, Terminals, ChannelsKnown;
    var s := states[n];
    RunInvariant(l, states, events, n);
    if s.phase == Stopped {
      NothingLeft(l, s);
    }
  }

  lemma OneStepMore(l: L.Limits, s: Sys, e: Event, states: seq<Sys>, events: seq<Event>)
    requires IsPath(l, states, events) && states[0] == Next(l, s, e)
    ensures IsPath(l, [s] + states, [e] + events)
  {
    hide Next;
  }

  function Pending(s: Sys): nat {
    3 * |s.live| + 2 * |s.chan| + Bit(s.counted)
  }

  /** What can be done next while Stop waits. */
  lemma StopProgress(l: L.Limits, s: Sys) returns (e: Event)
    requires l.avgSessions > 0 && l.max > 0
    requires Inv(l, s) && Current(s) && s.phase == Stopping && !s.panicked
    ensures FreshStart(s, e)
    ensures Next(l, s, e).phase == Stopped
            || (Next(l, s, e).phase == Stopping && Pending(Next(l, s, e)) < Pending(s))
  {
    hide ChannelOk, ChannelsKnown, L.Conserved, Inv;
    if s.counted {
      e := WgDone;
      WgDoneKeeps(l, s);
    } else if s.chan != [] {
      e := Receive;
    } else if run :| run in s.live {
      e := Finish(run);
      LiveMeansOpen(l, s, run);
      assert (s.live - {run}).Keys == s.live.Keys - {run};
    } else {
      e := Close;
      NobodyLeft(l, s);
    }
  }

  lemma NobodyLeft(l: L.Limits, s: Sys)
    requires Inv(l, s) && s.live == map[] && s.chan == [] && !s.counted
    ensures s.wg == 0
  {
    hide ChannelOk, ChannelsKnown, L.Conserved;
  }

  /** Stop never hangs for good: from wherever it waits, some interleaving lets it return. */
  lemma {:induction false} StopCanReturn(l: L.Limits, s: Sys) returns (states: seq<Sys>, events: seq<Event>)
    requires l.avgSessions > 0 && l.max > 0
    requires Inv(l, s) && Current(s) && s.phase == Stopping && !s.panicked
    ensures IsPath(l, states, events) && states[0] == s
    ensures states[|events|].phase == Stopped && !states[|events|].panicked
    decreases Pending(s)
  {
    hide Inv, Current, Next, FreshStart;
    var e := StopProgress(l, s);
    var s' := Next(l, s, e);
    NextKeeps(l, s, e);
    NextCurrent(l, s, e);
    var rest, after := [s'], [];
    if s'.phase == Stopping {
      rest, after := StopCanReturn(l, s');
    }
    OneStepMore(l, s, e, rest, after);
    states, events := [s] + rest, [e] + after;
  }

  /** The same for every state a run can reach that never starts with idle controllers. */
  lemma ReachableStopReturns(l: L.Limits, states: seq<Sys>, events: seq<Event>, n: nat)
    returns (more: seq<Sys>, after: seq<Event>)
    requires IsRun(l, states, events) && n < |states| && l.max > 0
    requires forall i | 0 <= i < |events| :: FreshStart(states[i], events[i])
    requires states[n].phase == Stopping
    ensures IsPath(l, more, after) && more[0] == states[n]
    ensures more[|after|].phase == Stopped && !more[|after|].panicked
  {
    hide IsPath, Inv, Current, FreshStart;
    NeverPanics(l, states, events);
    RunInvariant(l, states, events, n);
    PathHasSessions(l, states, events);
    more, after := StopCanReturn(l, states[n]);
  }

  lemma PathHasSessions(l: L.Limits, states: seq<Sys>, events: seq<Event>)
    requires IsPath(l, states, events)
    ensures l.avgSessions > 0 && |states| == |events| + 1
  {
  }

  // ----- a second run with an idle controller -----

  const ONE_USER := L.Limits(1, 0, 1)
  const FINE := L.Draw(0, 0, true, true)
  const FIRST := L.Controller(1, 1)

  lemma JoinPaths(l: L.Limits, a: seq<Sys>, e: seq<Event>, b: seq<Sys>, f: seq<Event>)
    requires IsPath(l, a, e) && IsPath(l, b, f) && a[|e|] == b[0]
    ensures IsPath(l, a + b[1..], e + f)
    ensures (a + b[1..])[|e| + |f|] == b[|f|] && (a + b[1..])[0] == a[0]
  {
    hide Next;
    var c, g := a + b[1..], e + f;
    forall i | 0 <= i < |g| ensures c[i + 1] == Next(l, c[i], g[i]) {
      if i >= |e| {
        assert c[i] == b[i - |e|] && c[i + 1] == b[i + 1 - |e|] && g[i] == f[i - |e|];
      }
    }
  }

  function Idle(added: int): L.Roster { L.Roster([], [FIRST], 0, added, added) }

  function AfterFirstRun(): Sys {
    Sys(Stopped, 1, Idle(1), map[], 1, [], false, 0, 1, false)
  }

  /** One user is added and the load-test stopped: the controller is idle now. */
  lemma FirstRun() returns (states: seq<Sys>, events: seq<Event>)
    ensures IsRun(ONE_USER, states, events) && states[|events|] == AfterFirstRun()
  {
    hide L.UserId;
    L.OneSession(0, FINE);
    var one := L.Roster([FIRST], [], 1, 1, 0);
    var s1 := Sys(Running, 1, L.Roster([], [], 0, 0, 0), map[], 0, [], false, 0, 0, false);
    var s2 := Sys(Running, 1, one, map[0 := 1], 1, [], false, 1, 0, false);
    var s3 := s2.(phase := Stopping, users := Idle(1));
    assert AddUser(ONE_USER, s1, FINE) == s2;
    assert L.RemoveMany(one, 1).0 == Idle(1);
    states, events := [Init(), s1, s2, s3], [Start, Add(FINE), BeginStop];
    assert IsPath(ONE_USER, states, events);
    var rest, after := LastStatus(s3);
    JoinPaths(ONE_USER, states, events, rest, after);
    states, events := states + rest[1..], events + after;
  }

  lemma LastStatus(s: Sys) returns (states: seq<Sys>, events: seq<Event>)
    requires s == Sys(Stopping, 1, Idle(1), map[0 := 1], 1, [], false, 1, 0, false)
    ensures IsPath(ONE_USER, states, events) && states[0] == s && states[|events|] == AfterFirstRun()
  {
    var s4 := s.(live := map[], chan := [Msg(0, true)]);
    var s5 := s4.(chan := [], stopped := 1, counted := true);
    var s6 := s5.(counted := false, wg := 0);
    assert s.live - {0} == map[];
    states, events := [s, s4, s5, s6, AfterFirstRun()], [Finish(0), Receive, WgDone, Close];
    assert Next(ONE_USER, s, Finish(0)) == s4;
    assert Next(ONE_USER, s4, Receive) == s5;
    assert Next(ONE_USER, s5, WgDone) == s6;
  }

  /** The load-test is run again and the idle controller is used again: it sends on the channel that was
      closed by the first Stop. */
  lemma SecondRunPanics() returns (states: seq<Sys>, events: seq<Event>)
    ensures IsRun(ONE_USER, states, events) && states[|events|].panicked
  {
    hide IsPath;
    states, events := FirstRun();
    var rest, after := AddAgain();
    JoinPaths(ONE_USER, states, events, rest, after);
    states, events := states + rest[1..], events + after;
  }

  lemma AddAgain() returns (states: seq<Sys>, events: seq<Event>)
    ensures IsPath(ONE_USER, states, events) && states[0] == AfterFirstRun() && states[|events|].panicked
  {
    var s1 := Sys(Running, 2, Idle(0), map[], 1, [], false, 0, 0, false);
    var s2 := Sys(Running, 2, L.Roster([FIRST], [], 1, 1, 0), map[1 := 1], 2, [], false, 1, 0, false);
    assert [FIRST][1..] == [];
    assert AddUser(ONE_USER, s1, FINE) == s2;
    states := [AfterFirstRun(), s1, s2, s2.(panicked := true)];
    events := [Start, Add(FINE), Send(1)];
  }
}
