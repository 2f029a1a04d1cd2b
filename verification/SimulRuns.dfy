/** What a simulated user gets done: it connects, and every error and event of its connection arrives. */
module SimulRuns {
  import opened SimulProtocol

  // ----- connecting -----

  /** The run is between two steps and not about to end. */
  predicate Between(s: Sys) {
    Ready(s) && !s.exiting
  }

  /** Connecting makes a connection exactly where there is none and the user has logged in, and otherwise
      changes nothing. */
  lemma ConnectIs(capacity: nat, gauge: int, states: seq<Sys>, events: seq<Event>, n: nat, authenticated: bool)
    requires IsRun(capacity, gauge, states, events) && n < |states|
    ensures var s := states[n];
            var s' := Next(capacity, s, M(Connect(authenticated)));
            && s'.user.made == s.user.made + Bit(Between(s) && authenticated && !s.user.connected)
            && (s'.user.made == s.user.made ==> s' == s)
            && (s'.user.made != s.user.made ==> s'.user.connected && s'.user.listener == Dialing && s'.flag)
  {
    hide IsRun, ListenerOk, HelpersOk, MainOk, StopOk;
    RunInvariant(capacity, gauge, states, events, n);
  }

  /** Connected, and everybody at work. */
  ghost predicate Online(s: Sys) {
    && s.main == Acting && s.stage == On && s.flag && s.user.connected && s.user.listener == Selecting
    && s.helpers.reader == Reading && s.helpers.handler == Ranging && s.helpers.periodic == Ticking
    && s.helpers.wg == 3
    && !s.user.errorsClosed && !s.user.eventsClosed && !s.user.typingClosed
  }

  lemma OfflineIsOff(capacity: nat, gauge: int, s: Sys)
    requires Inv(capacity, gauge, s) && Ready(s) && !s.user.connected
    ensures s.stage == Off && !s.flag && !s.panicked && s.helpers.wg == 0
    ensures s.user.gauge == gauge
  {
    hide MainOk, StopOk;
  }

  /** From every reachable state in which it could, a run can get online. */
  lemma CanConnect(capacity: nat, gauge: int, states: seq<Sys>, events: seq<Event>, n: nat)
    returns (more: seq<Sys>, after: seq<Event>)
    requires IsRun(capacity, gauge, states, events) && n < |states|
    requires Between(states[n]) && !states[n].user.connected
    ensures IsPath(capacity, more, after) && more[0] == states[n]
    ensures Online(more[|after|]) && more[|after|].user.gauge == gauge + 1
    ensures more[|after|].log == states[n].log && more[|after|].user.made == states[n].user.made + 1
  {
    hide IsRun, Inv;
    RunInvariant(capacity, gauge, states, events, n);
    var s := states[n];
    OfflineIsOff(capacity, gauge, s);
    var s1 := Next(capacity, s, M(Connect(true)));
    var s2 := Next(capacity, s1, M(StartHelpers));
    var s3 := Next(capacity, s2, U(Dial(true)));
    more, after := [s, s1, s2, s3], [M(Connect(true)), M(StartHelpers), U(Dial(true))];
  }

  /** A run can stall: it types before its listener has dialed. */
  lemma CanStall(capacity: nat, gauge: int) returns (states: seq<Sys>, events: seq<Event>)
    ensures IsRun(capacity, gauge, states, events) && Stalled(states[|events|])
  {
    var s0 := Init(gauge);
    var s1 := Next(capacity, s0, M(Launch));
    var s2 := Next(capacity, s1, M(Start));
    var s3 := Next(capacity, s2, M(Connect(true)));
    var s4 := Next(capacity, s3, M(StartHelpers));
    var s5 := Next(capacity, s4, M(BeginTyping));
    states := [s0, s1, s2, s3, s4, s5];
    events := [M(Launch), M(Start), M(Connect(true)), M(StartHelpers), M(BeginTyping)];
  }

  // ----- what somebody online can do -----

  /** A user online can lose its connection, and get it back by itself. */
  lemma CanReconnect(capacity: nat, s: Sys) returns (states: seq<Sys>, events: seq<Event>, k: nat)
    requires Online(s) && !s.panicked
    ensures IsPath(capacity, states, events) && states[0] == s && k < |states|
    ensures states[k].user.listener == BackingOff && states[k].user.gauge == s.user.gauge - 1
    ensures states[|events|] == s
  {
    var s1 := Next(capacity, s, U(Lose));
    var s2 := Next(capacity, s1, U(TimeOut));
    var s3 := Next(capacity, s2, U(Dial(true)));
    states, events, k := [s, s1, s2, s3], [U(Lose), U(TimeOut), U(Dial(true))], 1;
  }

  /** What the event handler does for an event that makes it fetch something: it starts to, if its semaphore
      allows, and otherwise says that it drops the call. */
  function Fetching(capacity: nat, s: Sys): Sys {
    if s.helpers.fetches < capacity then s.(helpers := s.helpers.(fetches := s.helpers.fetches + 1))
    else s.(log := s.log + [Other])
  }

  /** The listener's error becomes a status. */
  lemma ErrorIsSaid(capacity: nat, s: Sys)
    requires Online(s) && !s.panicked && s.user.errors == 0
    ensures var s1 := Next(capacity, At(s, Reporting(ToDeliver)), U(Report));
            Next(capacity, Next(capacity, s1, H(ReadError)), H(RelayError))
            == At(s, Delivering).(log := s.log + [Other])
  {
  }

  lemma EventIsHandled(capacity: nat, s: Sys)
    requires Online(s) && !s.panicked
    ensures Next(capacity, Next(capacity, At(s, Delivering), U(Deliver)), H(Fetch)) == Fetching(capacity, s)
  {
  }

  lemma EventComes(capacity: nat, s: Sys)
    requires Online(s) && !s.panicked
    ensures Next(capacity, s, U(Incoming(true))) == At(s, Reporting(ToDeliver))
  {
  }

  /** An event that cannot be applied comes in: its error is said, and the event is handled all the same. */
  lemma CanHear(capacity: nat, s: Sys) returns (states: seq<Sys>, events: seq<Event>)
    requires Online(s) && !s.panicked && s.user.errors == 0
    ensures IsPath(capacity, states, events) && states[0] == s
    ensures states[|events|] == Fetching(capacity, s.(log := s.log + [Other]))
  {
    EventComes(capacity, s);
    ErrorIsSaid(capacity, s);
    EventIsHandled(capacity, s.(log := s.log + [Other]));
    hide Next, Fetching;
    var s1 := Next(capacity, s, U(Incoming(true)));
    var s2 := Next(capacity, s1, U(Report));
    var s3 := Next(capacity, s2, H(ReadError));
    var s4 := Next(capacity, s3, H(RelayError));
    var s5 := Next(capacity, s4, U(Deliver));
    var s6 := Next(capacity, s5, H(Fetch));
    states := [s, s1, s2, s3, s4, s5, s6];
    events := [U(Incoming(true)), U(Report), H(ReadError), H(RelayError), U(Deliver), H(Fetch)];
  }

  /** An event with invalid data is said to be, and a fetch that fails says so before it ends. */
  lemma CanComplain(capacity: nat, s: Sys) returns (states: seq<Sys>, events: seq<Event>)
    requires Online(s) && !s.panicked && s.helpers.fetches > 0
    ensures IsPath(capacity, states, events) && states[0] == s
    ensures states[|events|]
            == s.(log := s.log + [Other, Other], helpers := s.helpers.(fetches := s.helpers.fetches - 1))
  {
    var s1 := Next(capacity, s, U(Incoming(false)));
    var s2 := Next(capacity, s1, U(Deliver));
    var s3 := Next(capacity, s2, H(Handled(true)));
    var s4 := Next(capacity, s3, H(FetchSays));
    var s5 := Next(capacity, s4, H(FetchDone));
    assert s.log + [Other] + [Other] == s.log + [Other, Other];
    states := [s, s1, s2, s3, s4, s5];
    events := [U(Incoming(false)), U(Deliver), H(Handled(true)), H(FetchSays), H(FetchDone)];
  }

  /** A user online can act, and its periodic actions go on; each says something. */
  lemma CanAct(capacity: nat, s: Sys) returns (states: seq<Sys>, events: seq<Event>)
    requires Online(s) && !s.panicked && !s.exiting
    ensures IsPath(capacity, states, events) && states[0] == s
    ensures states[|events|] == s.(log := s.log + [Other, Other])
  {
    var s1 := Next(capacity, s, H(Tick));
    var s2 := Next(capacity, s1, H(Poll));
    var s3 := Next(capacity, s2, M(Act));
    assert s.log + [Other] + [Other] == s.log + [Other, Other];
    states, events := [s, s1, s2, s3], [H(Tick), H(Poll), M(Act)];
  }

  /** A user online can send a typing event, which the listener takes. */
  lemma CanType(capacity: nat, s: Sys) returns (states: seq<Sys>, events: seq<Event>)
    requires Online(s) && !s.panicked && !s.exiting
    ensures IsPath(capacity, states, events) && states[0] == s == states[|events|]
    ensures 1 < |states| && states[1] == s.(main := Typing)
  {
    var s1 := Next(capacity, s, M(BeginTyping));
    var s2 := Next(capacity, s1, M(EndTyping(false)));
    states, events := [s, s1, s2], [M(BeginTyping), M(EndTyping(false))];
  }

  /** A typing event that cannot be sent is reported as a status. */
  lemma CanTypeInVain(capacity: nat, s: Sys) returns (states: seq<Sys>, events: seq<Event>)
    requires Online(s) && !s.panicked && !s.exiting && s.user.errors == 0
    ensures IsPath(capacity, states, events) && states[0] == s
    ensures states[|events|] == s.(log := s.log + [Other])
  {
    var s1 := Next(capacity, s, M(BeginTyping));
    var s2 := Next(capacity, s1, M(EndTyping(true)));
    var s3 := Next(capacity, s2, U(Report));
    var s4 := Next(capacity, s3, H(ReadError));
    var s5 := Next(capacity, s4, H(RelayError));
    states := [s, s1, s2, s3, s4, s5];
    events := [M(BeginTyping), M(EndTyping(true)), U(Report), H(ReadError), H(RelayError)];
  }

  /** A run that has disconnected for good says whether its logout failed, and then that it has stopped. */
  lemma CanLeave(capacity: nat, s: Sys, works: bool) returns (states: seq<Sys>, events: seq<Event>)
    requires s.main == LoggingOut && !s.panicked && !s.stop.stoppedClosed
    ensures IsPath(capacity, states, events) && states[0] == s && states[|events|].main == Idle
    ensures states[|events|].log == s.log + if works then [Stopped] else [Other, Stopped]
  {
    var s1 := Next(capacity, s, M(Logout(works)));
    var s2 := Next(capacity, s1, M(SayStopped));
    var s3 := Next(capacity, s2, M(CloseStopped));
    assert s.log + [Other] + [Stopped] == s.log + [Other, Stopped];
    states, events := [s, s1, s2, s3], [M(Logout(works)), M(SayStopped), M(CloseStopped)];
  }

  // ----- nothing is lost -----

  /** The listener has passed an error on. */
  ghost predicate Reported(s: Sys, s': Sys) {
    s.user.listener.Reporting? && !s'.user.listener.Reporting?
  }

  /** The error reader has sent an error as a status. */
  ghost predicate Said(s: Sys, s': Sys) {
    s.helpers.reader == Relaying && s'.helpers.reader == Reading && s'.log == s.log + [Other]
  }

  /** The listener has passed an event on. */
  ghost predicate Delivered(s: Sys, s': Sys) {
    s.user.listener == Delivering && s'.user.listener == Selecting
  }

  ghost predicate WasHandled(s: Sys, s': Sys) {
    s.helpers.handler == Handling && s'.helpers.handler == Ranging
  }

  ghost function Reports(states: seq<Sys>): nat {
    var n := |states|;
    if n < 2 then 0 else Reports(states[..n - 1]) + Bit(Reported(states[n - 2], states[n - 1]))
  }

  ghost function Sayings(states: seq<Sys>): nat {
    var n := |states|;
    if n < 2 then 0 else Sayings(states[..n - 1]) + Bit(Said(states[n - 2], states[n - 1]))
  }

  ghost function Delivers(states: seq<Sys>): nat {
    var n := |states|;
    if n < 2 then 0 else Delivers(states[..n - 1]) + Bit(Delivered(states[n - 2], states[n - 1]))
  }

  ghost function Handlings(states: seq<Sys>): nat {
    var n := |states|;
    if n < 2 then 0 else Handlings(states[..n - 1]) + Bit(WasHandled(states[n - 2], states[n - 1]))
  }

  /** The errors that have been reported and not said. */
  function Pending(s: Sys): nat {
    s.user.errors + Bit(s.helpers.reader == Relaying)
  }

  /** No error is left in the channel when its reader ends. */
  ghost predicate Quiet(s: Sys) {
    s.stage == Off || (s.stage != Dialed && s.helpers.reader == NoReader) ==> s.user.errors == 0
  }

  ghost predicate Flows(s: Sys, s': Sys) {
    ErrorsFlow(s, s') && EventsFlow(s, s')
  }

  ghost predicate ErrorsFlow(s: Sys, s': Sys) {
    Quiet(s') && Pending(s) + Bit(Reported(s, s')) == Pending(s') + Bit(Said(s, s'))
  }

  ghost predicate EventsFlow(s: Sys, s': Sys) {
    Bit(s.helpers.handler == Handling) + Bit(Delivered(s, s'))
    == Bit(s'.helpers.handler == Handling) + Bit(WasHandled(s, s'))
  }

  lemma NothingFlows(s: Sys, s': Sys)
    requires Quiet(s) && s'.stage == s.stage && s'.user == s.user && s'.helpers == s.helpers
    ensures Flows(s, s')
  {
  }

  lemma ProceedFlows(capacity: nat, gauge: int, s: Sys)
    requires Inv(capacity, gauge, s) && Quiet(s)
    ensures Flows(s, ProceedDisconnect(s))
  {
    hide ListenerOk, MainOk, StopOk;
  }

  lemma ConnectFlows(capacity: nat, gauge: int, s: Sys, authenticated: bool)
    requires Inv(capacity, gauge, s) && Quiet(s) && Ready(s)
    ensures Flows(s, TryConnect(s, authenticated))
  {
    hide MainOk, StopOk;
  }

  lemma StartFlows(capacity: nat, gauge: int, s: Sys)
    requires Inv(capacity, gauge, s) && Quiet(s)
    ensures Flows(s, MainNext(s, StartHelpers))
  {
    hide FlagsOk, ListenerOk, MainOk, StopOk;
  }

  lemma TypedFlows(capacity: nat, gauge: int, s: Sys, fails: bool)
    requires Inv(capacity, gauge, s) && Quiet(s)
    ensures Flows(s, MainNext(s, EndTyping(fails)))
  {
    hide FlagsOk, ListenerOk, HelpersOk, MainOk, StopOk, Flows, Quiet;
    FramedFlows(s, MainNext(s, EndTyping(fails)));
  }

  lemma MainFlows(capacity: nat, gauge: int, s: Sys, m: MainEvent)
    requires Inv(capacity, gauge, s) && Quiet(s)
    ensures Flows(s, MainNext(s, m))
  {
    hide Inv, Quiet, Flows, ProceedDisconnect, TryConnect;
    match m {
      case Proceed => ProceedFlows(capacity, gauge, s);
      case Connect(a) =>
        if Ready(s) && !s.exiting {
          ConnectFlows(capacity, gauge, s, a);
        } else {
          NothingFlows(s, s);
        }
      case StartHelpers => StartFlows(capacity, gauge, s);
      case EndTyping(fails) => TypedFlows(capacity, gauge, s, fails);
      case Disconnect => DisconnectFlows(capacity, gauge, s);
      case _ => NothingFlows(s, MainNext(s, m));
    }
  }

  lemma DisconnectFlows(capacity: nat, gauge: int, s: Sys)
    requires Inv(capacity, gauge, s) && Quiet(s)
    ensures Flows(s, MainNext(s, Disconnect))
  {
    hide ListenerOk, MainOk, StopOk;
  }

  lemma ListenerFlows(capacity: nat, gauge: int, s: Sys, u: ListenerEvent)
    requires Inv(capacity, gauge, s) && Quiet(s)
    ensures Flows(s, ListenerNext(s, u))
  {
    hide FlagsOk, ListenerOk, HelpersOk, MainOk, StopOk, Quiet, Flows;
    match u {
      case Report => ReportFlows(capacity, gauge, s);
      case Deliver => DeliverFlows(s);
      case _ => OthersFlow(capacity, gauge, s, u);
    }
  }

  /** Somebody reads what the listener reports, or will as soon as the helpers have been started. */
  lemma ReportIsRead(capacity: nat, gauge: int, s: Sys)
    requires Inv(capacity, gauge, s) && s.user.listener != Absent
    ensures s.stage != Off && (s.stage != Dialed ==> s.helpers.reader != NoReader)
  {
    hide FlagsOk, MainOk, StopOk;
  }

  lemma ReportFlows(capacity: nat, gauge: int, s: Sys)
    requires Inv(capacity, gauge, s) && Quiet(s)
    ensures Flows(s, ListenerNext(s, Report))
  {
    hide Inv, Quiet, ErrorsFlow, EventsFlow;
    var s' := ListenerNext(s, Report);
    if s.user.listener.Reporting? && !s.user.errorsClosed && s.user.errors == 0 {
      ReportIsRead(capacity, gauge, s);
      OneReported(s, s');
      EventsSame(s, s');
    } else {
      SameFlows(s, s');
    }
  }

  lemma SameFlows(s: Sys, s': Sys)
    requires Quiet(s) && s'.stage == s.stage && s'.user == s.user && s'.helpers == s.helpers
    ensures ErrorsFlow(s, s') && EventsFlow(s, s')
  {
    NothingFlows(s, s');
  }

  lemma OneReported(s: Sys, s': Sys)
    requires s'.stage == s.stage && s'.helpers == s.helpers && s'.user.errors == s.user.errors + 1
    requires Reported(s, s') && s.stage != Off && (s.stage != Dialed ==> s.helpers.reader != NoReader)
    ensures ErrorsFlow(s, s')
  {
  }

  lemma EventsSame(s: Sys, s': Sys)
    requires s'.helpers.handler == s.helpers.handler && !Delivered(s, s')
    ensures EventsFlow(s, s')
  {
  }

  lemma DeliverFlows(s: Sys)
    requires Quiet(s)
    ensures Flows(s, ListenerNext(s, Deliver))
  {
  }

  lemma OthersFlow(capacity: nat, gauge: int, s: Sys, u: ListenerEvent)
    requires Quiet(s) && u != Report && u != Deliver
    ensures Flows(s, ListenerNext(s, u))
  {
    hide Flows, Quiet, Reported, Delivered;
    OthersFrame(s, u);
    OthersPass(s, u);
    FramedFlows(s, ListenerNext(s, u));
  }

  lemma OthersFrame(s: Sys, u: ListenerEvent)
    requires u != Report && u != Deliver
    ensures var s' := ListenerNext(s, u);
            s'.stage == s.stage && s'.helpers == s.helpers && s'.user.errors == s.user.errors
  {
  }

  lemma OthersPass(s: Sys, u: ListenerEvent)
    requires u != Report && u != Deliver
    ensures !Reported(s, ListenerNext(s, u)) && !Delivered(s, ListenerNext(s, u))
  {
  }

  lemma FramedFlows(s: Sys, s': Sys)
    requires Quiet(s) && s'.stage == s.stage && s'.user.errors == s.user.errors
    requires s'.helpers.reader == s.helpers.reader && s'.helpers.handler == s.helpers.handler
    requires !Reported(s, s') && !Delivered(s, s')
    ensures Flows(s, s')
  {
  }

  lemma ErrorsFramed(s: Sys, s': Sys)
    requires Quiet(s) && s'.stage == s.stage && s'.user == s.user && s'.helpers.reader == s.helpers.reader
    ensures ErrorsFlow(s, s')
  {
  }

  lemma EventsFramed(s: Sys, s': Sys)
    requires s'.helpers.handler == s.helpers.handler && s'.user.listener == s.user.listener
    ensures EventsFlow(s, s')
  {
  }

  lemma HelperFlows(capacity: nat, gauge: int, s: Sys, h: HelperEvent)
    requires Inv(capacity, gauge, s) && Quiet(s)
    ensures Flows(s, HelperNext(capacity, s, h))
  {
    hide FlagsOk, ListenerOk, HelpersOk, MainOk, StopOk, Flows, Quiet, WgDone;
    match h {
      case ReadError => ReaderFlows(capacity, s, h);
      case RelayError => ReaderFlows(capacity, s, h);
      case ReaderDone => ReaderFlows(capacity, s, h);
      case Handled(_) => HandlerFlows(capacity, s, h);
      case Fetch => HandlerFlows(capacity, s, h);
      case StartDrain => HandlerFlows(capacity, s, h);
      case Drain => HandlerFlows(capacity, s, h);
      case HandlerDone => HandlerFlows(capacity, s, h);
      case _ => ElseFlows(capacity, s, h);
    }
  }

  lemma ReaderFlows(capacity: nat, s: Sys, h: HelperEvent)
    requires Quiet(s) && (h == ReadError || h == RelayError || h == ReaderDone)
    ensures Flows(s, HelperNext(capacity, s, h))
  {
    hide EventsFlow, ErrorsFlow, Quiet;
    var s' := HelperNext(capacity, s, h);
    EventsFramed(s, s');
    match h {
      case ReadError => ErrorRead(s, s');
      case RelayError => ErrorRelayed(s, s');
      case ReaderDone => ReaderEnded(s, s');
    }
  }

  lemma ErrorRead(s: Sys, s': Sys)
    requires Quiet(s) && s'.stage == s.stage && s'.user.listener == s.user.listener
    requires || (s'.helpers == s.helpers && s'.user == s.user)
             || (s.helpers.reader == Reading && s'.helpers.reader == Relaying && s'.user.errors == s.user.errors - 1)
    ensures ErrorsFlow(s, s')
  {
  }

  lemma ErrorRelayed(s: Sys, s': Sys)
    requires Quiet(s) && s'.stage == s.stage && s'.user == s.user
    requires || s'.helpers == s.helpers
             || (s.helpers.reader == Relaying && s'.helpers.reader == Reading && s'.log == s.log + [Other])
    requires s.helpers.reader != Relaying ==> s'.helpers == s.helpers
    ensures ErrorsFlow(s, s')
  {
  }

  lemma ReaderEnded(s: Sys, s': Sys)
    requires Quiet(s) && s'.stage == s.stage && s'.user == s.user
    requires || s'.helpers.reader == s.helpers.reader
             || (s.helpers.reader == Reading && s'.helpers.reader == NoReader && s.user.errors == 0)
    ensures ErrorsFlow(s, s')
  {
  }

  lemma HandlerFlows(capacity: nat, s: Sys, h: HelperEvent)
    requires Quiet(s) && (h.Handled? || h == Fetch || h == StartDrain || h == Drain || h == HandlerDone)
    ensures Flows(s, HelperNext(capacity, s, h))
  {
    hide Quiet, ErrorsFlow;
    ErrorsFramed(s, HelperNext(capacity, s, h));
  }

  lemma ElseFlows(capacity: nat, s: Sys, h: HelperEvent)
    requires Quiet(s) && (h == FetchSays || h == FetchDone || h == Tick || h == Poll || h == PeriodicDone)
    ensures Flows(s, HelperNext(capacity, s, h))
  {
    hide Quiet, Flows;
    FramedFlows(s, HelperNext(capacity, s, h));
  }

  lemma NextFlows(capacity: nat, gauge: int, s: Sys, e: Event)
    requires Inv(capacity, gauge, s) && Quiet(s)
    ensures Flows(s, Next(capacity, s, e))
  {
    hide FlagsOk, ListenerOk, HelpersOk, MainOk, StopOk, Quiet, Flows, MainNext, ListenerNext, HelperNext;
    match e {
      case M(m) => MainFlows(capacity, gauge, s, m);
      case U(u) => ListenerFlows(capacity, gauge, s, u);
      case H(h) => HelperFlows(capacity, gauge, s, h);
    }
  }

  /** In every interleaving each error that the listener has passed on has been said as a status, or is the one
      buffered or the one being relayed; and each event it has passed on has been handled, or is being handled.
      When the run is over, all have been. */
  lemma {:induction false} NothingLost(capacity: nat, gauge: int, states: seq<Sys>, events: seq<Event>)
    requires IsRun(capacity, gauge, states, events)
    ensures var s := states[|events|];
            && Reports(states) == Sayings(states) + s.user.errors + Bit(s.helpers.reader == Relaying)
            && Delivers(states) == Handlings(states) + Bit(s.helpers.handler == Handling)
            && (s.main == Idle ==> Reports(states) == Sayings(states) && Delivers(states) == Handlings(states))
            && Quiet(s)
  {
    hide Inv, Next, Init, Flows, Reported, Said, Delivered, WasHandled;
    var n := |events|;
    if n == 0 {
      NothingAtFirst(capacity, gauge);
    } else {
      NothingLost(capacity, gauge, states[..n], events[..n - 1]);
      RunInvariant(capacity, gauge, states, events, n - 1);
      NextFlows(capacity, gauge, states[n - 1], events[n - 1]);
      FlowsOn(states[n - 1], states[n]);
    }
    RunInvariant(capacity, gauge, states, events, n);
    if states[n].main == Idle {
      IdleHasNothing(capacity, gauge, states[n]);
    }
  }

  lemma NothingAtFirst(capacity: nat, gauge: int)
    ensures Quiet(Init(gauge)) && Pending(Init(gauge)) == 0 && Init(gauge).helpers.handler == NoHandler
  {
  }

  lemma FlowsOn(s: Sys, s': Sys)
    requires Flows(s, s')
    ensures Quiet(s')
    ensures Pending(s) + Bit(Reported(s, s')) == Pending(s') + Bit(Said(s, s'))
    ensures Bit(s.helpers.handler == Handling) + Bit(Delivered(s, s'))
            == Bit(s'.helpers.handler == Handling) + Bit(WasHandled(s, s'))
  {
    hide Quiet, Pending;
  }

  lemma IdleHasNothing(capacity: nat, gauge: int, s: Sys)
    requires Inv(capacity, gauge, s) && s.main == Idle
    ensures s.stage == Off && s.helpers.reader == NoReader && s.helpers.handler == NoHandler
  {
    hide FlagsOk, ListenerOk, StopOk;
    OffMeansNothing(capacity, gauge, s);
  }
}
