/** One simulated user as a protocol: the run of its SimulController, the listener of its UserEntity, and the
    goroutines that are started on connect: the error reader, the event handler with its fetches, and the
    periodic actions. Every interleaving is a sequence of events; one that is not possible changes nothing.
    The status channel is taken to be drained by the load-tester. */
module SimulProtocol {

  datatype Main =
    | Idle       // no run
    | Launched   // the goroutine of a run has been started and has not begun
    | Acting
    | Typing     // blocked in SendTypingEvent
    | LoggingOut // disconnected for good, about to call user.Logout
    | Ending     // about to say STOPPED
    | Closing    // has said STOPPED, about to close stoppedChan

  /** Whether a caller is in Stop, and which of stopChan and stoppedChan are closed. */
  datatype StopCall = StopCall(calling: bool, stopClosed: bool, stoppedClosed: bool)

  /** How far connect or disconnect has come. */
  datatype Stage =
    | Off           // no connection
    | Dialed        // user.Connect has returned
    | On            // the helper goroutines have been started
    | Flagged       // disconnect has cleared connectedFlag
    | Waiting       // user.Disconnect has closed wsClosing
    | Joined        // and has seen wsClosed closed
    | EventsClosed  // and has closed wsEventChan
    | TypingClosed  // and wsTyping
    | ErrorsClosed  // and wsErrorChan, and has returned
    | Notified      // disconnectChan has been received from

  datatype Listener =
    | Absent
    | Dialing
    | Selecting                     // connected, waiting for one of its channels
    | Reporting(after: AfterReport) // has an error for wsErrorChan
    | Delivering                    // has an event for wsEventChan
    | BackingOff                    // waits to reconnect

  /** What the listener does once its error is in the channel. */
  datatype AfterReport = ToBackOff | ToDeliver | ToSelect

  datatype Reader = NoReader | Reading | Relaying
  datatype Handler = NoHandler | Ranging | Handling | Draining(tokens: nat)
  datatype Periodic = NoPeriodic | Ticking | Polling | Leaving

  datatype Status = Started | Other | Stopped

  /** The UserEntity: the flag, which of its channels are closed, how many errors are buffered, the gauge of
      open connections, and how often wsClosed was made and closed. */
  datatype User = User(connected: bool, closing: bool, closed: bool, eventsClosed: bool, typingClosed: bool,
                       errorsClosed: bool, errors: nat, listener: Listener, gauge: int, made: nat, closes: nat)

  /** The helper goroutines of the controller and its wait group. */
  datatype Helpers = Helpers(wg: int, reader: Reader, handler: Handler, fetches: nat, periodic: Periodic)

  datatype Sys = Sys(main: Main, stop: StopCall, exiting: bool, stage: Stage, flag: bool, user: User, helpers: Helpers,
                     log: seq<Status>, panicked: bool)

  function Init(gauge: int): Sys {
    Sys(Idle, StopCall(false, false, false), false, Off, false,
        User(false, false, false, false, false, false, 0, Absent, gauge, 0, 0),
        Helpers(0, NoReader, NoHandler, 0, NoPeriodic), [], false)
  }

  function Panic(s: Sys): Sys { s.(panicked := true) }

  function Say(s: Sys, m: Status): Sys { s.(log := s.log + [m]) }

  // ----- the controller's run -----

  datatype MainEvent =
    | Launch | Start | Act | Connect(authenticated: bool) | StartHelpers | Disconnect | Proceed
    | BeginTyping | EndTyping(fails: bool) | Exit | Logout(works: bool) | SayStopped | CloseStopped
    | CallStop | StopReturns

  /** user.Connect makes new channels and starts the listener. */
  function ConnectUser(u: User): User {
    User(true, false, false, false, false, false, 0, Dialing, u.gauge, u.made + 1, u.closes)
  }

  function TryConnect(s: Sys, authenticated: bool): Sys {
    if s.flag || s.user.connected || !authenticated then s
    else s.(flag := true, user := ConnectUser(s.user), stage := Dialed)
  }

  function TryDisconnect(s: Sys): Sys {
    if s.flag then s.(flag := false, stage := Flagged)
    else if s.exiting then Say(s, Other).(main := Ending)
    else s
  }

  /** The next step of a disconnect under way. */
  function ProceedDisconnect(s: Sys): Sys {
    var u := s.user;
    match s.stage
    case Flagged =>
      if !u.connected then s.(stage := Off)
      else if u.closing then Panic(s)
      else s.(user := u.(closing := true), stage := Waiting)
    case Waiting => if u.closed then s.(stage := Joined) else s
    case Joined => if u.eventsClosed then Panic(s) else s.(user := u.(eventsClosed := true), stage := EventsClosed)
    case EventsClosed =>
      if u.typingClosed then Panic(s) else s.(user := u.(typingClosed := true), stage := TypingClosed)
    case TypingClosed =>
      if u.errorsClosed then Panic(s)
      else s.(user := u.(errorsClosed := true, connected := false), stage := ErrorsClosed)
    case ErrorsClosed =>
      if s.helpers.periodic != Ticking then s
      else s.(helpers := s.helpers.(periodic := Leaving), stage := Notified)
    case Notified =>
      if s.helpers.wg != 0 then s
      else s.(stage := Off, main := if s.exiting then LoggingOut else Acting)
    case _ => s
  }

  /** The run is between the steps of its actions. */
  predicate Ready(s: Sys) {
    s.main == Acting && (s.stage == Off || s.stage == On)
  }

  function MainNext(s: Sys, e: MainEvent): Sys {
    match e
    case Launch =>
      if s.main != Idle || s.stop.calling then s else s.(main := Launched, exiting := false, log := [])
    case Start => if s.main != Launched then s else s.(main := Acting, log := [Started])
    case Act => if Ready(s) && !s.exiting then Say(s, Other) else s
    case Connect(authenticated) => if Ready(s) && !s.exiting then TryConnect(s, authenticated) else s
    case StartHelpers =>
      if s.stage != Dialed then s
      else s.(stage := On, helpers := Helpers(s.helpers.wg + 3, Reading, Ranging, s.helpers.fetches, Ticking))
    case Disconnect => if Ready(s) then TryDisconnect(s) else s
    case Proceed => ProceedDisconnect(s)
    case BeginTyping => if Ready(s) && !s.exiting && s.user.connected then s.(main := Typing) else s
    case EndTyping(fails) =>
      if s.main != Typing then s
      else if s.user.typingClosed then Panic(s)
      else if s.user.listener != Selecting then s
      else s.(main := Acting, user := s.user.(listener := if fails then Reporting(ToSelect) else Selecting))
    case Exit => if Ready(s) && s.stop.stopClosed then s.(exiting := true) else s
    case Logout(works) =>
      if s.main != LoggingOut then s else (if works then s else Say(s, Other)).(main := Ending)
    case SayStopped => if s.main != Ending then s else Say(s, Stopped).(main := Closing)
    case CloseStopped =>
      if s.main != Closing then s
      else if s.stop.stoppedClosed then Panic(s)
      else s.(main := Idle, stop := s.stop.(stoppedClosed := true))
    case CallStop =>
      if s.main == Idle || s.stop.calling then s
      else if s.stop.stopClosed then Panic(s)
      else s.(stop := s.stop.(calling := true, stopClosed := true))
    case StopReturns =>
      if s.stop.calling && s.stop.stoppedClosed then s.(stop := StopCall(false, false, false)) else s
  }

  // ----- the listener -----

  datatype ListenerEvent = Dial(works: bool) | Report | TimeOut | Quit | Incoming(fails: bool) | Deliver | Lose

  /** The listener closes wsClosed and returns. */
  function Leave(s: Sys, gauge: int): Sys {
    if s.user.closed then Panic(s)
    else s.(user := s.user.(listener := Absent, closed := true, gauge := gauge, closes := s.user.closes + 1))
  }

  function At(s: Sys, l: Listener): Sys {
    s.(user := s.user.(listener := l))
  }

  function ListenerNext(s: Sys, e: ListenerEvent): Sys {
    var u := s.user;
    match e
    case Dial(works) =>
      if u.listener != Dialing then s
      else if works then s.(user := u.(listener := Selecting, gauge := u.gauge + 1))
      else At(s, Reporting(ToBackOff))
    case Report =>
      if !u.listener.Reporting? then s
      else if u.errorsClosed then Panic(s)
      else if u.errors >= 1 then s
      else
        var next := match u.listener.after
          case ToBackOff => BackingOff
          case ToDeliver => Delivering
          case ToSelect => Selecting;
        s.(user := u.(errors := u.errors + 1, listener := next))
    case TimeOut => if u.listener == BackingOff then At(s, Dialing) else s
    case Quit =>
      if !u.closing then s
      else if u.listener == BackingOff then Leave(s, u.gauge)
      else if u.listener == Selecting then Leave(s, u.gauge - 1)
      else s
    case Incoming(fails) =>
      if u.listener != Selecting then s else At(s, if fails then Reporting(ToDeliver) else Delivering)
    case Deliver =>
      if u.listener != Delivering then s
      else if u.eventsClosed then Panic(s)
      else if s.helpers.handler != Ranging then s
      else At(s, Selecting).(helpers := s.helpers.(handler := Handling))
    case Lose =>
      if u.listener != Selecting then s
      else s.(user := u.(listener := BackingOff, gauge := u.gauge - 1))
  }

  // ----- the helpers -----

  datatype HelperEvent =
    | ReadError | RelayError | ReaderDone
    | Handled(says: bool) | Fetch | StartDrain | Drain | HandlerDone
    | FetchSays | FetchDone
    | Tick | Poll | PeriodicDone

  function WgDone(s: Sys, h: Helpers): Sys {
    if s.helpers.wg <= 0 then Panic(s) else s.(helpers := h.(wg := s.helpers.wg - 1))
  }

  /** `capacity` is that of the event handler's semaphore. */
  function HelperNext(capacity: nat, s: Sys, e: HelperEvent): Sys {
    var h := s.helpers;
    match e
    case ReadError =>
      if h.reader != Reading || s.user.errors == 0 then s
      else s.(user := s.user.(errors := s.user.errors - 1), helpers := h.(reader := Relaying))
    case RelayError => if h.reader != Relaying then s else Say(s, Other).(helpers := h.(reader := Reading))
    case ReaderDone =>
      if h.reader != Reading || !s.user.errorsClosed || s.user.errors != 0 then s
      else WgDone(s, h.(reader := NoReader))
    case Handled(says) =>
      if h.handler != Handling then s
      else (if says then Say(s, Other) else s).(helpers := h.(handler := Ranging))
    case Fetch =>
      if h.handler != Handling then s
      else if h.fetches < capacity then s.(helpers := h.(handler := Ranging, fetches := h.fetches + 1))
      else Say(s, Other).(helpers := h.(handler := Ranging))
    case StartDrain =>
      if h.handler != Ranging || !s.user.eventsClosed then s else s.(helpers := h.(handler := Draining(0)))
    case Drain =>
      if !h.handler.Draining? || h.handler.tokens + h.fetches >= capacity then s
      else s.(helpers := h.(handler := Draining(h.handler.tokens + 1)))
    case HandlerDone =>
      if !h.handler.Draining? || h.handler.tokens < capacity then s else WgDone(s, h.(handler := NoHandler))
    case FetchSays => if h.fetches == 0 then s else Say(s, Other)
    case FetchDone => if h.fetches == 0 then s else s.(helpers := h.(fetches := h.fetches - 1))
    case Tick => if h.periodic != Ticking then s else s.(helpers := h.(periodic := Polling))
    case Poll => if h.periodic != Polling then s else Say(s, Other).(helpers := h.(periodic := Ticking))
    case PeriodicDone => if h.periodic != Leaving then s else WgDone(s, h.(periodic := NoPeriodic))
  }

  datatype Event = M(m: MainEvent) | U(u: ListenerEvent) | H(h: HelperEvent)

  function Next(capacity: nat, s: Sys, e: Event): Sys {
    if s.panicked then s
    else
      match e
      case M(m) => MainNext(s, m)
      case U(u) => ListenerNext(s, u)
      case H(h) => HelperNext(capacity, s, h)
  }

  /** The states a user goes through, and the events between them. */
  ghost predicate IsPath(capacity: nat, states: seq<Sys>, events: seq<Event>) {
    && |states| == |events| + 1
    && forall i | 0 <= i < |events| :: states[i + 1] == Next(capacity, states[i], events[i])
  }

  ghost predicate IsRun(capacity: nat, gauge: int, states: seq<Sys>, events: seq<Event>) {
    IsPath(capacity, states, events) && states[0] == Init(gauge)
  }

  // ----- what every step keeps -----

  function Rank(stage: Stage): nat {
    match stage
    case Off => 0 case Dialed => 1 case On => 2 case Flagged => 3 case Waiting => 4
    case Joined => 5 case EventsClosed => 6 case TypingClosed => 7 case ErrorsClosed => 8 case Notified => 9
  }

  function Bit(b: bool): nat { if b then 1 else 0 }

  /** The controller's flag agrees with the user's, and each channel is closed at its stage and not before. */
  ghost predicate FlagsOk(s: Sys) {
    var r, u := Rank(s.stage), s.user;
    && (s.flag <==> r == 1 || r == 2)
    && (u.connected <==> 1 <= r <= 7)
    && (1 <= r ==> (u.closing <==> 4 <= r) && (u.eventsClosed <==> 6 <= r) && (u.typingClosed <==> 7 <= r))
    && (1 <= r ==> (u.errorsClosed <==> 8 <= r))
  }

  ghost predicate ConnectionOpen(l: Listener) {
    l == Selecting || l == Delivering || (l.Reporting? && l.after != ToBackOff)
  }

  /** The listener lives from Connect until it has seen wsClosing closed; it closes wsClosed once, as it
      leaves; the gauge counts its open connection. */
  ghost predicate ListenerOk(gauge: int, s: Sys) {
    var r, u := Rank(s.stage), s.user;
    && (1 <= r <= 3 ==> u.listener != Absent)
    && (r == 0 || 5 <= r ==> u.listener == Absent)
    && (1 <= r ==> (u.closed <==> u.listener == Absent))
    && u.closes + Bit(u.listener != Absent) == u.made
    && u.gauge == gauge + Bit(ConnectionOpen(u.listener))
  }

  /** The wait group counts the helpers, none of which ends before its channel is closed. No fetch outlives
      the event handler. */
  ghost predicate HelpersOk(capacity: nat, s: Sys) {
    var r, h := Rank(s.stage), s.helpers;
    && h.wg == Bit(h.reader != NoReader) + Bit(h.handler != NoHandler) + Bit(h.periodic != NoPeriodic)
    && (r <= 1 ==> h.wg == 0)
    && (2 <= r <= 7 ==> h.reader != NoReader)
    && (2 <= r <= 5 ==> h.handler == Ranging || h.handler == Handling)
    && (2 <= r <= 8 ==> h.periodic == Ticking || h.periodic == Polling)
    && (r == 9 ==> h.periodic == Leaving || h.periodic == NoPeriodic)
    && h.fetches + (if h.handler.Draining? then h.handler.tokens else 0) <= capacity
    && (h.handler == NoHandler ==> h.fetches == 0)
  }

  ghost predicate NotStopped(log: seq<Status>) {
    forall i | 0 <= i < |log| :: log[i] != Stopped
  }

  /** The run has begun and has not said STOPPED. */
  predicate Speaking(m: Main) {
    m != Idle && m != Launched && m != Closing
  }

  ghost predicate EndsWithStopped(log: seq<Status>) {
    log != [] && log[|log| - 1] == Stopped && NotStopped(log[..|log| - 1])
  }

  ghost predicate MainOk(s: Sys) {
    && (s.main != Acting && s.main != Typing ==> s.stage == Off)
    && (s.main == Typing ==> s.stage == On)
    && (Speaking(s.main) ==> s.log != [] && NotStopped(s.log))
    && (s.main == Launched ==> s.log == [])
    && (s.main == Closing ==> EndsWithStopped(s.log))
    && (s.main == Idle ==> s.log == [] || EndsWithStopped(s.log))
  }

  /** A run leaves only when it has been told to stop, and whoever told it waits until it is over. */
  ghost predicate StopOk(s: Sys) {
    && (s.stop.calling <==> s.stop.stopClosed)
    && (s.stop.stoppedClosed <==> s.stop.calling && s.main == Idle)
    && (s.exiting && s.main != Idle ==> s.stop.calling)
    && (s.main == LoggingOut || s.main == Ending || s.main == Closing ==> s.exiting)
    && (s.main == Launched ==> !s.exiting)
  }

  ghost predicate Inv(capacity: nat, gauge: int, s: Sys) {
    FlagsOk(s) && ListenerOk(gauge, s) && HelpersOk(capacity, s) && MainOk(s) && StopOk(s) && !s.panicked
  }

  /** A step that is not the run's own. */
  lemma SameStop(s: Sys, s': Sys)
    requires StopOk(s) && s'.main == s.main && s'.stop == s.stop && s'.exiting == s.exiting
    ensures StopOk(s')
  {
  }

  lemma TryDisconnectKeeps(capacity: nat, gauge: int, s: Sys)
    requires Inv(capacity, gauge, s) && Ready(s)
    ensures Inv(capacity, gauge, TryDisconnect(s))
  {
    hide ListenerOk, HelpersOk, EndsWithStopped;
    SameUser(capacity, gauge, s, TryDisconnect(s));
  }

  /** A step that moves between stages in which the same goroutines live. */
  lemma SameUser(capacity: nat, gauge: int, s: Sys, s': Sys)
    requires ListenerOk(gauge, s) && HelpersOk(capacity, s)
    requires s'.user == s.user && s'.helpers == s.helpers
    requires s'.stage == s.stage || (s.stage == On && s'.stage == Flagged)
    ensures ListenerOk(gauge, s') && HelpersOk(capacity, s')
  {
  }

  lemma TryConnectKeeps(capacity: nat, gauge: int, s: Sys, authenticated: bool)
    requires Inv(capacity, gauge, s) && Ready(s)
    ensures Inv(capacity, gauge, TryConnect(s, authenticated))
  {
    hide StopOk, NotStopped, EndsWithStopped;
    SameStop(s, TryConnect(s, authenticated));
  }

  lemma StartHelpersKeeps(capacity: nat, gauge: int, s: Sys)
    requires Inv(capacity, gauge, s)
    ensures Inv(capacity, gauge, MainNext(s, StartHelpers))
  {
    hide StopOk, NotStopped, EndsWithStopped;
    SameStop(s, MainNext(s, StartHelpers));
  }

  lemma ProceedFlags(capacity: nat, gauge: int, s: Sys)
    requires Inv(capacity, gauge, s)
    ensures FlagsOk(ProceedDisconnect(s)) && !ProceedDisconnect(s).panicked
    ensures MainOk(ProceedDisconnect(s)) && StopOk(ProceedDisconnect(s))
  {
    hide ListenerOk, HelpersOk, NotStopped, EndsWithStopped;
  }

  lemma ProceedRest(capacity: nat, gauge: int, s: Sys)
    requires Inv(capacity, gauge, s)
    ensures ListenerOk(gauge, ProceedDisconnect(s)) && HelpersOk(capacity, ProceedDisconnect(s))
  {
    hide MainOk, StopOk;
  }

  lemma SayKeeps(capacity: nat, gauge: int, s: Sys, m: Status)
    requires Inv(capacity, gauge, s) && Speaking(s.main) && m != Stopped
    ensures Inv(capacity, gauge, Say(s, m))
  {
    hide FlagsOk, StopOk, EndsWithStopped;
    SameStop(s, Say(s, m));
    SameUser(capacity, gauge, s, Say(s, m));
    SameFlags(s, Say(s, m));
  }

  lemma SameFlags(s: Sys, s': Sys)
    requires FlagsOk(s) && s'.user == s.user && s'.stage == s.stage && s'.flag == s.flag
    ensures FlagsOk(s')
  {
  }

  /** A step of the run or of Stop that only concerns itself. */
  lemma RunKeeps(capacity: nat, gauge: int, s: Sys, e: MainEvent)
    requires Inv(capacity, gauge, s)
    requires e == Launch || e == Start || e == BeginTyping || e == Exit || e == CallStop || e == StopReturns
             || e == CloseStopped
    ensures Inv(capacity, gauge, MainNext(s, e))
  {
    hide ListenerOk, HelpersOk, FlagsOk, EndsWithStopped;
    SameUser(capacity, gauge, s, MainNext(s, e));
    SameFlags(s, MainNext(s, e));
    ConnectedMeansOn(s);
  }

  lemma ConnectedMeansOn(s: Sys)
    requires FlagsOk(s)
    ensures Ready(s) && s.user.connected ==> s.stage == On
  {
  }

  lemma EndKeeps(capacity: nat, gauge: int, s: Sys, e: MainEvent)
    requires Inv(capacity, gauge, s) && (e == SayStopped || e.Logout?)
    ensures Inv(capacity, gauge, MainNext(s, e))
  {
    hide FlagsOk, ListenerOk, HelpersOk;
    var s' := MainNext(s, e);
    SameUser(capacity, gauge, s, s');
    SameFlags(s, s');
    if s.main == Ending && e == SayStopped {
      assert s'.log[..|s'.log| - 1] == s.log;
    }
  }

  lemma EndTypingKeeps(capacity: nat, gauge: int, s: Sys, fails: bool)
    requires Inv(capacity, gauge, s)
    ensures Inv(capacity, gauge, MainNext(s, EndTyping(fails)))
  {
    hide NotStopped, EndsWithStopped;
  }

  lemma MainKeeps(capacity: nat, gauge: int, s: Sys, e: MainEvent)
    requires Inv(capacity, gauge, s)
    ensures Inv(capacity, gauge, MainNext(s, e))
  {
    hide Inv, TryConnect, TryDisconnect, ProceedDisconnect, Say;
    match e {
      case Act => if Ready(s) && !s.exiting { SayKeeps(capacity, gauge, s, Other); }
      case Connect(authenticated) => if Ready(s) && !s.exiting { TryConnectKeeps(capacity, gauge, s, authenticated); }
      case StartHelpers => StartHelpersKeeps(capacity, gauge, s);
      case Disconnect => if Ready(s) { TryDisconnectKeeps(capacity, gauge, s); }
      case Proceed => ProceedKeeps(capacity, gauge, s);
      case EndTyping(fails) => EndTypingKeeps(capacity, gauge, s, fails);
      case SayStopped => EndKeeps(capacity, gauge, s, e);
      case Logout(_) => EndKeeps(capacity, gauge, s, e);
      case _ => RunKeeps(capacity, gauge, s, e);
    }
  }

  lemma ProceedKeeps(capacity: nat, gauge: int, s: Sys)
    requires Inv(capacity, gauge, s)
    ensures Inv(capacity, gauge, ProceedDisconnect(s))
  {
    hide FlagsOk, ListenerOk, HelpersOk, MainOk, StopOk, ProceedDisconnect;
    ProceedFlags(capacity, gauge, s);
    ProceedRest(capacity, gauge, s);
  }

  lemma ListenerConnects(capacity: nat, gauge: int, s: Sys, e: ListenerEvent)
    requires Inv(capacity, gauge, s) && (e.Dial? || e == TimeOut)
    ensures Inv(capacity, gauge, ListenerNext(s, e))
  {
    hide StopOk, NotStopped, EndsWithStopped;
    SameStop(s, ListenerNext(s, e));
  }

  lemma ListenerMoves(capacity: nat, gauge: int, s: Sys, e: ListenerEvent)
    requires Inv(capacity, gauge, s) && (e.Incoming? || e == Lose)
    ensures Inv(capacity, gauge, ListenerNext(s, e))
  {
    hide StopOk, NotStopped, EndsWithStopped;
    SameStop(s, ListenerNext(s, e));
  }

  lemma ListenerSends(capacity: nat, gauge: int, s: Sys, e: ListenerEvent)
    requires Inv(capacity, gauge, s) && (e == Report || e == Deliver)
    ensures Inv(capacity, gauge, ListenerNext(s, e))
  {
    hide StopOk, NotStopped, EndsWithStopped;
    SameStop(s, ListenerNext(s, e));
  }

  lemma ListenerQuits(capacity: nat, gauge: int, s: Sys)
    requires Inv(capacity, gauge, s)
    ensures Inv(capacity, gauge, ListenerNext(s, Quit))
  {
    hide StopOk, NotStopped, EndsWithStopped;
    SameStop(s, ListenerNext(s, Quit));
  }

  lemma ListenerKeeps(capacity: nat, gauge: int, s: Sys, e: ListenerEvent)
    requires Inv(capacity, gauge, s)
    ensures Inv(capacity, gauge, ListenerNext(s, e))
  {
    hide Inv, ListenerNext;
    match e {
      case Quit => ListenerQuits(capacity, gauge, s);
      case Report => ListenerSends(capacity, gauge, s, e);
      case Deliver => ListenerSends(capacity, gauge, s, e);
      case Dial(_) => ListenerConnects(capacity, gauge, s, e);
      case TimeOut => ListenerConnects(capacity, gauge, s, e);
      case _ => ListenerMoves(capacity, gauge, s, e);
    }
  }

  lemma SameChannels(s: Sys, s': Sys)
    requires FlagsOk(s) && MainOk(s)
    requires s'.user.(errors := 0, listener := Absent, gauge := 0, closed := false, closes := 0)
             == s.user.(errors := 0, listener := Absent, gauge := 0, closed := false, closes := 0)
    requires s'.stage == s.stage && s'.flag == s.flag && s'.main == s.main && s'.log == s.log
    ensures FlagsOk(s') && MainOk(s')
  {
  }

  /** A helper lives, so the run is not over. */
  lemma HelperMeansRunning(capacity: nat, s: Sys)
    requires HelpersOk(capacity, s) && MainOk(s) && FlagsOk(s)
    requires s.helpers.wg > 0 || s.helpers.fetches > 0
    ensures Speaking(s.main) && s.helpers.wg > 0 && 2 <= Rank(s.stage)
    ensures s.user.eventsClosed <==> 6 <= Rank(s.stage)
    ensures s.user.errorsClosed <==> 8 <= Rank(s.stage)
  {
    hide NotStopped;
  }

  lemma HelperSpeaks(capacity: nat, gauge: int, s: Sys, e: HelperEvent)
    requires Inv(capacity, gauge, s) && (e == RelayError || e == FetchSays || e == Poll)
    ensures Inv(capacity, gauge, HelperNext(capacity, s, e))
  {
    hide FlagsOk, ListenerOk, MainOk, StopOk;
    var s' := HelperNext(capacity, s, e);
    SameStop(s, s');
    if s' != s {
      HelperMeansRunning(capacity, s);
      SaidOk(s, s');
      SameFlags(s, s');
      SameListener(gauge, s, s');
    }
  }

  lemma EventHandled(capacity: nat, gauge: int, s: Sys, e: HelperEvent)
    requires Inv(capacity, gauge, s) && (e.Handled? || e == Fetch)
    ensures Inv(capacity, gauge, HelperNext(capacity, s, e))
  {
    hide FlagsOk, ListenerOk, MainOk, StopOk;
    var s' := HelperNext(capacity, s, e);
    SameStop(s, s');
    if s' != s {
      HelperMeansRunning(capacity, s);
      SaidOk(s, s');
      SameFlags(s, s');
      SameListener(gauge, s, s');
    }
  }

  lemma SaidOk(s: Sys, s': Sys)
    requires MainOk(s) && Speaking(s.main) && s'.main == s.main && s'.stage == s.stage
    requires s'.log == s.log || s'.log == s.log + [Other]
    ensures MainOk(s')
  {
  }

  lemma SameListener(gauge: int, s: Sys, s': Sys)
    requires ListenerOk(gauge, s) && s'.stage == s.stage && s'.user.(errors := 0) == s.user.(errors := 0)
    ensures ListenerOk(gauge, s')
  {
  }

  lemma ReaderMoves(capacity: nat, gauge: int, s: Sys, e: HelperEvent)
    requires Inv(capacity, gauge, s) && (e == ReadError || e == ReaderDone)
    ensures Inv(capacity, gauge, HelperNext(capacity, s, e))
  {
    hide FlagsOk, ListenerOk, MainOk, StopOk;
    var s' := HelperNext(capacity, s, e);
    SameStop(s, s');
    if s' != s {
      HelperMeansRunning(capacity, s);
      SaidOk(s, s');
      SameChannels(s, s');
      SameListener(gauge, s, s');
    }
  }

  lemma HandlerMoves(capacity: nat, gauge: int, s: Sys, e: HelperEvent)
    requires Inv(capacity, gauge, s) && (e == StartDrain || e == Drain || e == HandlerDone || e == FetchDone)
    ensures Inv(capacity, gauge, HelperNext(capacity, s, e))
  {
    hide FlagsOk, ListenerOk, MainOk, StopOk;
    var s' := HelperNext(capacity, s, e);
    SameStop(s, s');
    if s' != s {
      HelperMeansRunning(capacity, s);
      SaidOk(s, s');
      SameChannels(s, s');
      SameListener(gauge, s, s');
    }
  }

  lemma PeriodicMoves(capacity: nat, gauge: int, s: Sys, e: HelperEvent)
    requires Inv(capacity, gauge, s) && (e == Tick || e == PeriodicDone)
    ensures Inv(capacity, gauge, HelperNext(capacity, s, e))
  {
    hide FlagsOk, ListenerOk, MainOk, StopOk;
    var s' := HelperNext(capacity, s, e);
    SameStop(s, s');
    if s' != s {
      HelperMeansRunning(capacity, s);
      SaidOk(s, s');
      SameChannels(s, s');
      SameListener(gauge, s, s');
    }
  }

  lemma HelperKeeps(capacity: nat, gauge: int, s: Sys, e: HelperEvent)
    requires Inv(capacity, gauge, s)
    ensures Inv(capacity, gauge, HelperNext(capacity, s, e))
  {
    hide Inv, HelperNext;
    match e {
      case RelayError => HelperSpeaks(capacity, gauge, s, e);
      case FetchSays => HelperSpeaks(capacity, gauge, s, e);
      case Poll => HelperSpeaks(capacity, gauge, s, e);
      case Handled(_) => EventHandled(capacity, gauge, s, e);
      case Fetch => EventHandled(capacity, gauge, s, e);
      case ReadError => ReaderMoves(capacity, gauge, s, e);
      case ReaderDone => ReaderMoves(capacity, gauge, s, e);
      case Tick => PeriodicMoves(capacity, gauge, s, e);
      case PeriodicDone => PeriodicMoves(capacity, gauge, s, e);
      case _ => HandlerMoves(capacity, gauge, s, e);
    }
  }

  lemma NextKeeps(capacity: nat, gauge: int, s: Sys, e: Event)
    requires Inv(capacity, gauge, s)
    ensures Inv(capacity, gauge, Next(capacity, s, e))
  {
    hide Inv, MainNext, ListenerNext, HelperNext;
    match e {
      case M(m) => MainKeeps(capacity, gauge, s, m);
      case U(u) => ListenerKeeps(capacity, gauge, s, u);
      case H(h) => HelperKeeps(capacity, gauge, s, h);
    }
  }

  lemma InitOk(capacity: nat, gauge: int)
    ensures Inv(capacity, gauge, Init(gauge))
  {
  }

  lemma {:induction false} PathKeeps(capacity: nat, gauge: int, states: seq<Sys>, events: seq<Event>)
    requires IsPath(capacity, states, events) && Inv(capacity, gauge, states[0])
    ensures forall n | 0 <= n < |states| :: Inv(capacity, gauge, states[n])
  {
    hide Inv, Next;
    var n := |events|;
    if n > 0 {
      PathKeeps(capacity, gauge, states[..n], events[..n - 1]);
      NextKeeps(capacity, gauge, states[n - 1], events[n - 1]);
    }
  }

  lemma RunInvariant(capacity: nat, gauge: int, states: seq<Sys>, events: seq<Event>, n: nat)
    requires IsRun(capacity, gauge, states, events) && n < |states|
    ensures Inv(capacity, gauge, states[n])
  {
    hide Inv, IsPath;
    InitOk(capacity, gauge);
    PathKeeps(capacity, gauge, states, events);
  }

  // ----- the results -----

  /** In every interleaving STOPPED is the last status of a run: it is preceded by no other STOPPED, and
      when it has been sent nothing is left that could send anything: no listener, helper or fetch, with the
      wait group at zero, the gauge where it started and the user disconnected. Only then does Stop return. */
  lemma StoppedIsLast(capacity: nat, gauge: int, states: seq<Sys>, events: seq<Event>, n: nat)
    requires IsRun(capacity, gauge, states, events) && n < |states|
    ensures var s := states[n];
            && (forall i | 0 <= i < |s.log| && s.log[i] == Stopped :: i == |s.log| - 1)
            && (s.main == Idle ==> s.log == [] || s.log[|s.log| - 1] == Stopped)
            && (s.main == Idle || Stopped in s.log ==>
                  && !Speaking(s.main)
                  && s.user.listener == Absent && s.user.gauge == gauge && !s.user.connected && !s.flag
                  && s.helpers == Helpers(0, NoReader, NoHandler, 0, NoPeriodic))
            && (s.stop.stoppedClosed <==> s.stop.calling && s.main == Idle)
  {
    hide IsRun, FlagsOk, ListenerOk;
    var s := states[n];
    RunInvariant(capacity, gauge, states, events, n);
    if !Speaking(s.main) {
      OffMeansNothing(capacity, gauge, s);
    }
  }

  lemma OffMeansNothing(capacity: nat, gauge: int, s: Sys)
    requires Inv(capacity, gauge, s) && s.stage == Off
    ensures s.user.listener == Absent && s.user.gauge == gauge && !s.user.connected && !s.flag
    ensures s.helpers == Helpers(0, NoReader, NoHandler, 0, NoPeriodic)
  {
    hide MainOk;
  }

  /** In every interleaving nobody sends on a closed channel, closes one twice, or takes the wait group below
      zero. Every wsClosed that was made has been closed exactly once, except that of a listener still
      alive; the gauge counts the open connection; and before each action the controller's flag agrees with
      the user's, so that a disconnect never fails halfway. */
  lemma NeverPanics(capacity: nat, gauge: int, states: seq<Sys>, events: seq<Event>, n: nat)
    requires IsRun(capacity, gauge, states, events) && n < |states|
    ensures var s := states[n];
            && !s.panicked
            && s.user.closes + Bit(s.user.listener != Absent) == s.user.made
            && s.user.gauge == gauge + Bit(ConnectionOpen(s.user.listener))
            && s.helpers.wg >= 0
            && (Ready(s) || s.stage == Flagged ==> (s.user.connected <==> s.flag || s.stage == Flagged))
  {
    hide IsRun, MainOk;
    RunInvariant(capacity, gauge, states, events, n);
  }

  // ----- stopping -----

  /** How far the run, and a call of Stop, are from their end. */
  function Distance(s: Sys): nat {
    match s.main
    case Idle => if s.stop.calling then 1 else 0
    case Closing => 2
    case Ending => 3
    case LoggingOut => 4
    case Launched => 8
    case Typing => 18
    case Acting =>
      match s.stage
      case Off => if s.exiting then 5 else if s.stop.stopClosed then 6 else 7
      case On => if s.exiting then 15 else if s.stop.stopClosed then 16 else 17
      case Dialed => 18
      case Flagged => 14
      case Waiting => 13
      case Joined => 12
      case EventsClosed => 11
      case TypingClosed => 10
      case ErrorsClosed => 9
      case Notified => 8
  }

  /** A run that types waits for the listener to select. One that does not only waits for it to end, and it
      can do so while it backs off as well. */
  function ListenerWork(typing: bool, l: Listener): nat {
    match l
    case Absent => 0
    case Selecting => 5
    case Dialing => if typing then 10 else 15
    case BackingOff => if typing then 15 else 5
    case Delivering => 20
    case Reporting(next) =>
      match next
      case ToSelect => 10
      case ToBackOff => if typing then 20 else 10
      case ToDeliver => 25
  }

  function HelperWork(capacity: nat, h: Helpers): nat {
    (match h.reader case NoReader => 0 case Reading => 1 case Relaying => 2)
    + (match h.handler
       case NoHandler => 0
       case Ranging => capacity + 2
       case Handling => capacity + 3
       case Draining(tokens) => if tokens < capacity then 1 + capacity - tokens else 1)
    + h.fetches
    + (match h.periodic case NoPeriodic => 0 case Ticking => 0 case Polling => 1 case Leaving => 1)
  }

  /** What is left to do for the goroutines the run waits for. */
  function Work(capacity: nat, s: Sys): nat {
    ListenerWork(s.main == Typing, s.user.listener) + 3 * s.user.errors + HelperWork(capacity, s.helpers)
  }

  ghost predicate Closer(capacity: nat, s: Sys, s': Sys) {
    Distance(s') < Distance(s) || (Distance(s') == Distance(s) && Work(capacity, s') < Work(capacity, s))
  }

  /** The run waits to type for a listener that has no connection. */
  ghost predicate Stalled(s: Sys) {
    s.main == Typing && !ConnectionOpen(s.user.listener)
  }

  /** Something that only happens while there is a server to talk to. */
  predicate NeedsServer(e: Event) {
    || e == U(Dial(true)) || (e.U? && e.u.Incoming?)
    || e == M(Connect(true)) || e == M(EndTyping(false)) || e == M(Logout(true))
  }

  /** The event needs a server only where the run is stalled, and does not stall it. */
  ghost predicate Harmless(s: Sys, e: Event) {
    && (NeedsServer(e) ==> Stalled(s))
    && e != M(BeginTyping) && e != U(Lose) && (e == U(Quit) ==> s.main != Typing)
  }

  /** No run is under way, and nobody waits in Stop. */
  predicate Over(s: Sys) {
    s.main == Idle && !s.stop.calling
  }

  /** The error reader makes room for the listener's error. */
  lemma MakeRoom(capacity: nat, gauge: int, s: Sys) returns (e: Event)
    requires Inv(capacity, gauge, s) && s.user.errors > 0
    requires s.helpers.reader != NoReader
    ensures Closer(capacity, s, Next(capacity, s, e)) && Harmless(s, e)
  {
    hide FlagsOk, ListenerOk, MainOk, HelpersOk;
    e := if s.helpers.reader == Reading then H(ReadError) else H(RelayError);
  }

  /** Events go to the event handler, which is free once it has handled the one it has. */
  lemma DeliverCloser(capacity: nat, gauge: int, s: Sys) returns (e: Event)
    requires Inv(capacity, gauge, s) && s.user.listener == Delivering && 2 <= Rank(s.stage) <= 4
    ensures Closer(capacity, s, Next(capacity, s, e)) && Harmless(s, e)
  {
    hide MainOk, StopOk, ListenerOk, Distance;
    e := if s.helpers.handler == Ranging then U(Deliver) else H(Handled(false));
    SameDistance(s, Next(capacity, s, e));
  }

  /** The listener gets to where it selects, or to where it backs off if nobody waits for it to type. */
  lemma MoveListener(capacity: nat, gauge: int, s: Sys) returns (e: Event)
    requires Inv(capacity, gauge, s) && s.user.listener != Absent && s.user.listener != Selecting
    requires 2 <= Rank(s.stage) <= 4 && (s.user.listener == BackingOff ==> s.main == Typing)
    ensures Closer(capacity, s, Next(capacity, s, e)) && Harmless(s, e)
  {
    hide MainOk, StopOk, ListenerOk, Distance, HelperWork;
    match s.user.listener {
      case Dialing =>
        e := U(Dial(s.main == Typing));
        SameDistance(s, Next(capacity, s, e));
      case BackingOff =>
        e := U(TimeOut);
        SameDistance(s, Next(capacity, s, e));
      case Delivering => e := DeliverCloser(capacity, gauge, s);
      case Reporting(_) =>
        if s.user.errors == 0 {
          e := U(Report);
          SameDistance(s, Next(capacity, s, e));
        } else {
          e := MakeRoom(capacity, gauge, s);
        }
    }
  }

  lemma WaitForListener(capacity: nat, gauge: int, s: Sys) returns (e: Event)
    requires Inv(capacity, gauge, s) && s.main == Acting && s.stage == Waiting
    ensures Closer(capacity, s, Next(capacity, s, e)) && Harmless(s, e)
  {
    hide MainOk, HelpersOk, StopOk;
    if s.user.closed {
      e := M(Proceed);
    } else if s.user.listener == Selecting || s.user.listener == BackingOff {
      e := U(Quit);
    } else {
      e := MoveListener(capacity, gauge, s);
    }
  }

  lemma DrainHelpers(capacity: nat, gauge: int, s: Sys) returns (e: Event)
    requires Inv(capacity, gauge, s) && s.main == Acting && s.stage == Notified
    ensures Closer(capacity, s, Next(capacity, s, e)) && Harmless(s, e)
  {
    hide MainOk, ListenerOk, StopOk;
    var h := s.helpers;
    if h.wg == 0 {
      e := M(Proceed);
    } else if h.periodic == Leaving {
      e := H(PeriodicDone);
    } else if h.reader != NoReader {
      if h.reader == Reading && s.user.errors == 0 {
        e := H(ReaderDone);
      } else {
        e := if h.reader == Reading then H(ReadError) else H(RelayError);
      }
    } else {
      e := DrainHandler(capacity, gauge, s);
    }
  }

  /** The event handler takes every token of its semaphore once the fetches have given theirs back. */
  lemma DrainTokens(capacity: nat, gauge: int, s: Sys) returns (e: Event)
    requires Inv(capacity, gauge, s) && s.helpers.handler.Draining?
    ensures Closer(capacity, s, Next(capacity, s, e)) && Harmless(s, e)
  {
    hide MainOk, ListenerOk, StopOk, FlagsOk, ListenerWork, Distance, Rank;
    var h := s.helpers;
    e := if h.handler.tokens == capacity then H(HandlerDone)
         else if h.handler.tokens + h.fetches < capacity then H(Drain)
         else H(FetchDone);
    SameDistance(s, Next(capacity, s, e));
  }

  lemma SameDistance(s: Sys, s': Sys)
    requires s'.main == s.main && s'.stop == s.stop && s'.stage == s.stage && s'.exiting == s.exiting
    ensures Distance(s') == Distance(s)
  {
  }

  lemma DrainHandler(capacity: nat, gauge: int, s: Sys) returns (e: Event)
    requires Inv(capacity, gauge, s) && s.helpers.handler != NoHandler && 6 <= Rank(s.stage)
    ensures Closer(capacity, s, Next(capacity, s, e)) && Harmless(s, e)
  {
    hide MainOk, ListenerOk, StopOk, HelpersOk, ListenerWork, Distance;
    if s.helpers.handler.Draining? {
      e := DrainTokens(capacity, gauge, s);
    } else {
      e := if s.helpers.handler == Handling then H(Handled(false)) else H(StartDrain);
      SameDistance(s, Next(capacity, s, e));
    }
  }

  /** Between its actions the run is told to stop, sees it, and disconnects for good. */
  lemma LeaveForGood(capacity: nat, gauge: int, s: Sys) returns (e: Event)
    requires Inv(capacity, gauge, s) && Ready(s)
    ensures Closer(capacity, s, Next(capacity, s, e)) && Harmless(s, e)
  {
    hide MainOk, ListenerOk, HelpersOk, Work;
    e := if s.exiting then M(Disconnect) else if s.stop.stopClosed then M(Exit) else M(CallStop);
  }

  lemma StepOn(capacity: nat, gauge: int, s: Sys) returns (e: Event)
    requires Inv(capacity, gauge, s) && s.main == Acting && !Ready(s) && s.stage != Waiting && s.stage != Notified
    ensures Closer(capacity, s, Next(capacity, s, e)) && Harmless(s, e)
  {
    hide MainOk, ListenerOk, StopOk, Harmless;
    match s.stage {
      case Dialed => e := M(StartHelpers);
      case ErrorsClosed => e := if s.helpers.periodic == Ticking then M(Proceed) else H(Poll);
      case _ => e := M(Proceed);
    }
    PlainIsHarmless(s, e);
  }

  lemma PlainIsHarmless(s: Sys, e: Event)
    requires e == M(StartHelpers) || e == M(Proceed) || e == H(Poll)
    ensures Harmless(s, e)
  {
  }

  lemma Progress(capacity: nat, gauge: int, s: Sys) returns (e: Event)
    requires Inv(capacity, gauge, s) && !Over(s)
    ensures Closer(capacity, s, Next(capacity, s, e)) && Harmless(s, e)
  {
    hide FlagsOk, HelpersOk, ListenerOk, Closer, Next;
    match s.main {
      case Idle => e := M(StopReturns);
        EndIsCloser(capacity, s, StopReturns);
      case Launched => e := M(Start);
        EndIsCloser(capacity, s, Start);
      case LoggingOut => e := M(Logout(false));
        EndIsCloser(capacity, s, Logout(false));
      case Ending => e := M(SayStopped);
        EndIsCloser(capacity, s, SayStopped);
      case Closing => e := M(CloseStopped);
        EndIsCloser(capacity, s, CloseStopped);
      case Typing =>
        TypingMeansOn(capacity, gauge, s);
        if s.user.listener == Selecting {
          e := M(EndTyping(true));
          TypedIsCloser(capacity, gauge, s);
        } else {
          e := MoveListener(capacity, gauge, s);
        }
      case Acting =>
        if s.stage == Waiting {
          e := WaitForListener(capacity, gauge, s);
        } else if s.stage == Notified {
          e := DrainHelpers(capacity, gauge, s);
        } else if Ready(s) {
          e := LeaveForGood(capacity, gauge, s);
        } else {
          e := StepOn(capacity, gauge, s);
        }
    }
  }

  lemma EndIsCloser(capacity: nat, s: Sys, e: MainEvent)
    requires MainOk(s) && StopOk(s) && !s.panicked && !Over(s)
    requires match s.main
             case Idle => e == StopReturns
             case Launched => e == Start
             case LoggingOut => e == Logout(false)
             case Ending => e == SayStopped
             case Closing => e == CloseStopped
             case _ => false
    ensures Closer(capacity, s, Next(capacity, s, M(e)))
  {
  }

  lemma TypingMeansOn(capacity: nat, gauge: int, s: Sys)
    requires Inv(capacity, gauge, s) && s.main == Typing
    ensures Rank(s.stage) == 2 && s.user.listener != Absent
  {
  }

  lemma TypedIsCloser(capacity: nat, gauge: int, s: Sys)
    requires Inv(capacity, gauge, s) && s.main == Typing && s.user.listener == Selecting
    ensures Closer(capacity, s, Next(capacity, s, M(EndTyping(true))))
  {
    hide ListenerOk, HelpersOk;
  }

  lemma OneStepMore(capacity: nat, s: Sys, e: Event, states: seq<Sys>, events: seq<Event>)
    requires IsPath(capacity, states, events) && states[0] == Next(capacity, s, e)
    ensures IsPath(capacity, [s] + states, [e] + events)
  {
    hide Next;
  }

  lemma ProceedElsewhere(s: Sys)
    ensures s.main != Typing ==> ProceedDisconnect(s).main != Typing
  {
    match s.stage
    case Flagged =>
    case ErrorsClosed =>
    case Notified =>
    case _ =>
  }

  lemma ProceedAlone(s: Sys)
    ensures ProceedDisconnect(s).user.listener == s.user.listener
  {
    match s.stage
    case Flagged =>
    case ErrorsClosed =>
    case Notified =>
    case _ =>
  }

  lemma DisconnectElsewhere(s: Sys)
    ensures s.main != Typing ==> TryDisconnect(s).main != Typing
    ensures forall authenticated :: TryConnect(s, authenticated).main == s.main
  {
  }

  lemma MainUnstalled(s: Sys, m: MainEvent)
    requires m != BeginTyping && !Stalled(s)
    ensures !Stalled(MainNext(s, m))
  {
    hide ConnectionOpen, ProceedDisconnect, TryDisconnect, TryConnect;
    ProceedElsewhere(s);
    ProceedAlone(s);
    DisconnectElsewhere(s);
  }

  lemma ListenerUnstalled(s: Sys, u: ListenerEvent)
    requires Harmless(s, U(u)) && !Stalled(s)
    ensures !Stalled(ListenerNext(s, u))
  {
  }

  /** A harmless step does not stall the run. */
  lemma StaysUnstalled(capacity: nat, s: Sys, e: Event)
    requires !Stalled(s) && Harmless(s, e)
    ensures !Stalled(Next(capacity, s, e))
  {
    hide ConnectionOpen, MainNext, ListenerNext, HelperNext, NeedsServer;
    match e {
      case M(m) => MainUnstalled(s, m);
      case U(u) => ListenerUnstalled(s, u);
      case H(h) => HelperElsewhere(capacity, s, h);
    }
  }

  lemma HelperElsewhere(capacity: nat, s: Sys, h: HelperEvent)
    ensures var s' := HelperNext(capacity, s, h);
            s'.main == s.main && s'.user.listener == s.user.listener && s'.stage == s.stage
  {
    hide WgDone;
    match h {
      case ReaderDone => WgElsewhere(s, s.helpers.(reader := NoReader));
      case HandlerDone => WgElsewhere(s, s.helpers.(handler := NoHandler));
      case PeriodicDone => WgElsewhere(s, s.helpers.(periodic := NoPeriodic));
      case _ =>
    }
  }

  lemma WgElsewhere(s: Sys, h: Helpers)
    ensures var s' := WgDone(s, h);
            s'.main == s.main && s'.user.listener == s.user.listener && s'.stage == s.stage
  {
  }

  /** A stalled run stays stalled until the listener has dialed. */
  lemma StaysStalled(capacity: nat, gauge: int, s: Sys, e: Event)
    requires Inv(capacity, gauge, s) && Stalled(s) && e != U(Dial(true))
    ensures Stalled(Next(capacity, s, e))
  {
    hide HelpersOk, StopOk;
    match e {
      case M(_) =>
      case U(_) =>
      case H(h) => HelperElsewhere(capacity, s, h);
    }
  }

  /** The continuation ends the run with STOPPED, and lets Stop return. */
  ghost predicate Ends(capacity: nat, s: Sys, states: seq<Sys>, events: seq<Event>) {
    IsPath(capacity, states, events) && states[0] == s && Over(states[|events|])
  }

  ghost predicate ServerGone(events: seq<Event>) {
    forall e | e in events :: !NeedsServer(e)
  }

  lemma OneEventMore(s: Sys, e: Event, events: seq<Event>)
    requires Harmless(s, e) && !Stalled(s) && ServerGone(events)
    ensures ServerGone([e] + events)
  {
    hide NeedsServer, Stalled;
  }

  /** No interleaving leads to a deadlock: from every state some continuation ends the run and lets Stop return.
      Unless the run is stalled, it needs no server. */
  lemma {:induction false} CanAlwaysStop(capacity: nat, gauge: int, s: Sys)
    returns (states: seq<Sys>, events: seq<Event>)
    requires Inv(capacity, gauge, s)
    ensures Ends(capacity, s, states, events)
    ensures !Stalled(s) ==> ServerGone(events)
    decreases Distance(s), Work(capacity, s)
  {
    hide Inv, Next, Distance, Work, Stalled, Harmless, ServerGone;
    if Over(s) {
      states, events := [s], [];
      NobodyAsked();
    } else {
      var e := Progress(capacity, gauge, s);
      NextKeeps(capacity, gauge, s, e);
      var rest, after := CanAlwaysStop(capacity, gauge, Next(capacity, s, e));
      OneStepMore(capacity, s, e, rest, after);
      states, events := [s] + rest, [e] + after;
      if !Stalled(s) {
        StaysUnstalled(capacity, s, e);
        OneEventMore(s, e, after);
      }
    }
  }

  lemma NobodyAsked()
    ensures ServerGone([])
  {
  }

  /** The same for every state that can be reached. */
  lemma ReachableCanStop(capacity: nat, gauge: int, states: seq<Sys>, events: seq<Event>, n: nat)
    returns (more: seq<Sys>, after: seq<Event>)
    requires IsRun(capacity, gauge, states, events) && n < |states|
    ensures Ends(capacity, states[n], more, after)
  {
    hide Ends, IsRun, Inv;
    RunInvariant(capacity, gauge, states, events, n);
    more, after := CanAlwaysStop(capacity, gauge, states[n]);
  }

  lemma {:induction false} StalledUntilDialed(capacity: nat, gauge: int, states: seq<Sys>, events: seq<Event>)
    requires IsPath(capacity, states, events) && Inv(capacity, gauge, states[0]) && Stalled(states[0])
    requires U(Dial(true)) !in events
    ensures forall i | 0 <= i < |states| :: Stalled(states[i])
    ensures Inv(capacity, gauge, states[|events|])
  {
    hide Inv, Next, Stalled;
    var n := |events|;
    if n > 0 {
      StalledUntilDialed(capacity, gauge, states[..n], events[..n - 1]);
      NextKeeps(capacity, gauge, states[n - 1], events[n - 1]);
      StaysStalled(capacity, gauge, states[n - 1], events[n - 1]);
    }
  }

  /** From a state that can be reached, the run can end and Stop return without a server if and only if the run
      is not stalled. If it is, each continuation in which Stop returns has a reconnect that succeeds. */
  lemma StopsWithoutServer(capacity: nat, gauge: int, states: seq<Sys>, events: seq<Event>, n: nat)
    requires IsRun(capacity, gauge, states, events) && n < |states|
    ensures (exists more, after :: Ends(capacity, states[n], more, after) && ServerGone(after))
            <==> !Stalled(states[n])
    ensures Stalled(states[n]) ==>
              forall more, after | Ends(capacity, states[n], more, after) :: U(Dial(true)) in after
  {
    hide IsRun, Inv, IsPath;
    var s := states[n];
    RunInvariant(capacity, gauge, states, events, n);
    if Stalled(s) {
      forall more, after | Ends(capacity, s, more, after) ensures U(Dial(true)) in after {
        StalledIsNotOver(capacity, gauge, s, more, after);
      }
    } else {
      var more, after := CanAlwaysStop(capacity, gauge, s);
    }
  }

  lemma StalledIsNotOver(capacity: nat, gauge: int, s: Sys, more: seq<Sys>, after: seq<Event>)
    requires Ends(capacity, s, more, after) && Inv(capacity, gauge, s) && Stalled(s)
    ensures U(Dial(true)) in after
  {
    hide Inv, Next;
    if U(Dial(true)) !in after {
      StalledUntilDialed(capacity, gauge, more, after);
      assert false;
    }
  }
}
