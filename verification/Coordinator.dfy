/** coordinator/coordinator.go: the feedback loop. */
module Coordinators {
  import opened Wrappers
  import opened LeastSquares
  import opened SampleWindows

  /** The samples slice: a backing array and the part of it in use. */
  class SampleBuffer {
    var data: array<Point>
    var len: nat

    ghost predicate Valid()
      reads this
    {
      len <= data.Length
    }

    ghost function Contents(): (s: seq<Point>)
      requires Valid()
      reads this, data
      ensures |s| == len
    {
      data[..len]
    }

    constructor ()
      ensures Valid() && fresh(data) && Contents() == []
    {
      data := new Point[0];
      len := 0;
    }

    method Append(p: Point)
      requires Valid()
      modifies this, data
      ensures Valid() && (data == old(data) || fresh(data))
      ensures old(len) < old(data.Length) ==> data == old(data)
      ensures Contents() == old(Contents()) + [p]
    {
      if len == data.Length {
        var bigger := new Point[2 * len + 1];
        for i := 0 to len
          invariant data == old(data) && len == old(len) && Valid()
          invariant data[..] == old(data[..])
          invariant bigger[..i] == data[..i]
        {
          bigger[i] := data[i];
        }
        data := bigger;
      }
      data[len] := p;
      len := len + 1;
    }

    /** Moves the samples from k on to the front, within the same array, and drops the rest. */
    method Trim(k: nat)
      requires Valid() && k <= len
      modifies this, data
      ensures Valid() && data == old(data)
      ensures Contents() == old(Contents())[k..]
    {
      var n := len - k;
      for j := 0 to n
        invariant data == old(data) && len == old(len) && Valid()
        invariant data[..j] == old(data[..])[k..k + j]
        invariant data[j..] == old(data[..])[j..]
      {
        data[j] := data[k + j];
      }
      len := n;
    }

    /** The stop test, given the start of the latest window. */
    method StopTest(k: nat) returns (done: bool)
      requires Valid() && IsLatestStart(Contents(), SAMPLES_TIME_RANGE, k)
      ensures done == Done(Contents(), SAMPLES_TIME_RANGE)
    {
      hide Latest, WindowSlope;
      LatestIs(Contents(), SAMPLES_TIME_RANGE, k);
      assert Contents()[k..] == data[k..len];
      done := false;
      if 0 < len - k < len {
        var r := Slope(data[k..len]);
        WindowSlopeIs(data[k..len]);
        done := r.Some? && -STOP_THRESHOLD < r.value < STOP_THRESHOLD;
      }
    }

    /** One sample of the loop: whether the load-test is done, and if not the buffer is trimmed. */
    method Record(p: Point) returns (done: bool)
      requires Valid()
      modifies this, data
      ensures Valid() && (data == old(data) || fresh(data))
      ensures done == Done(old(Contents()) + [p], SAMPLES_TIME_RANGE)
      ensures Contents() == if done then old(Contents()) + [p]
                            else Trimmed(old(Contents()) + [p], SAMPLES_TIME_RANGE)
    {
      hide IsLatestStart, Latest, WindowSlope, Done, Trimmed;
      Append(p);
      ghost var s := Contents();
      var k := GetLatestSamples(data[..len], SAMPLES_TIME_RANGE);
      InRange(s, SAMPLES_TIME_RANGE, k);
      done := StopTest(k);
      TrimmedIs(s, SAMPLES_TIME_RANGE, k);
      if !done && len >= 2 * (len - k) {
        Trim(k);
      }
    }
  }

  lemma TrimmedIs(s: seq<Point>, d: int, k: nat)
    requires s != [] && IsLatestStart(s, d, k)
    ensures Trimmed(s, d) == if |s| >= 2 * (|s| - k) then s[k..] else s
  {
    hide Latest;
    LatestIs(s, d, k);
  }

  lemma InRange(s: seq<Point>, d: int, k: nat)
    requires IsLatestStart(s, d, k)
    ensures k < |s|
  {
  }

  lemma WindowSlopeIs(s: seq<Point>)
    ensures WindowSlope(s) == SlopeOf(Coords(s, FirstSecond(s)))
  {
  }

  // ----- when to act -----

  datatype Settings = Settings(inc: nat, dec: nat, rest: int, max: int)

  /** What one iteration sees: the status, the clock each time it is read, and whether a request succeeds. */
  datatype Tick = Tick(alert: bool, users: int, alertTime: int, sampleTime: int,
                       actionCheck: int, alertCheck: int, doneTime: int, ok: bool)

  datatype Action = Stay | Remove(n: nat) | Add(n: nat)

  datatype Times = Times(action: Option<int>, alert: Option<int>)

  predicate HasPassed(now: int, t: int, d: int) {
    t + d < now
  }

  function Min(a: int, b: int): int {
    if a < b then a else b
  }

  function Noticed(s: Times, t: Tick): Times {
    if t.alert then s.(alert := Some(t.alertTime)) else s
  }

  function Decide(c: Settings, s: Times, t: Tick): Action {
    if s.alert.None? || s.action.None? || HasPassed(t.actionCheck, s.action.value, c.rest) then
      if t.alert then Remove(c.dec)
      else if (s.alert.None? || HasPassed(t.alertCheck, s.alert.value, c.rest)) && t.users < c.max then
        Add(Min(c.inc, c.max - t.users))
      else Stay
    else Stay
  }

  predicate Acts(c: Settings, s: Times, t: Tick) {
    t.ok && Decide(c, Noticed(s, t), t) != Stay
  }

  function After(c: Settings, s: Times, t: Tick): Times {
    if Acts(c, s, t) then Noticed(s, t).(action := Some(t.doneTime)) else Noticed(s, t)
  }

  function Run(c: Settings, ticks: seq<Tick>): Times {
    if ticks == [] then Times(None, None)
    else After(c, Run(c, ticks[..|ticks| - 1]), ticks[|ticks| - 1])
  }

  // ----- the same over the whole history -----

  /** The times of all alerts. */
  ghost function Alerts(ticks: seq<Tick>): seq<int> {
    if ticks == [] then []
    else
      var t := ticks[|ticks| - 1];
      Alerts(ticks[..|ticks| - 1]) + if t.alert then [t.alertTime] else []
  }

  /** The times of all actions that succeeded. */
  ghost function Actions(c: Settings, ticks: seq<Tick>): seq<int> {
    if ticks == [] then []
    else
      var before, t := ticks[..|ticks| - 1], ticks[|ticks| - 1];
      Actions(c, before) + if Acts(c, Run(c, before), t) then [t.doneTime] else []
  }

  /** The samples taken: none before the first alert, then one per iteration. */
  ghost function Samples(ticks: seq<Tick>): seq<Point> {
    if ticks == [] then []
    else
      var t := ticks[|ticks| - 1];
      Samples(ticks[..|ticks| - 1]) + if Alerts(ticks) == [] then [] else [Point(t.sampleTime, t.users)]
  }

  ghost function Last(times: seq<int>): Option<int> {
    if times == [] then None else Some(times[|times| - 1])
  }

  /** More than d has passed since every one of the times. */
  ghost predicate AllPassed(now: int, times: seq<int>, d: int) {
    forall t | t in times :: t + d < now
  }

  /** Add users only long enough after every alert, and do anything only long enough after every action. */
  ghost function Policy(c: Settings, ticks: seq<Tick>, t: Tick): Action {
    var alerts, actions := Alerts(ticks + [t]), Actions(c, ticks);
    if t.alert then
      if AllPassed(t.actionCheck, actions, c.rest) then Remove(c.dec) else Stay
    else if t.users < c.max
         && (|| alerts == []
             || (AllPassed(t.actionCheck, actions, c.rest) && AllPassed(t.alertCheck, alerts, c.rest))) then
      Add(Min(c.inc, c.max - t.users))
    else Stay
  }

  predicate Forward(t: Tick) {
    t.alertTime <= t.sampleTime <= t.actionCheck <= t.alertCheck <= t.doneTime
  }

  /** The clock never goes back. */
  predicate Ordered(ticks: seq<Tick>) {
    && (forall i | 0 <= i < |ticks| :: Forward(ticks[i]))
    && (forall i, j | 0 <= i < j < |ticks| :: ticks[i].doneTime <= ticks[j].alertTime)
  }

  lemma {:induction false} RunIsLast(c: Settings, ticks: seq<Tick>)
    ensures Run(c, ticks) == Times(Last(Actions(c, ticks)), Last(Alerts(ticks)))
  {
    hide Acts;
    if ticks != [] {
      RunIsLast(c, ticks[..|ticks| - 1]);
    }
  }

  ghost predicate UpTo(times: seq<int>, now: int) {
    forall t | t in times :: t <= now
  }

  /** The last of the times is the latest. */
  ghost predicate LastIsLatest(times: seq<int>) {
    times == [] || UpTo(times, times[|times| - 1])
  }

  lemma {:induction false} TimesOrdered(c: Settings, ticks: seq<Tick>, now: int)
    requires Ordered(ticks)
    requires ticks == [] || ticks[|ticks| - 1].doneTime <= now
    ensures UpTo(Alerts(ticks), now) && UpTo(Actions(c, ticks), now)
    ensures LastIsLatest(Alerts(ticks)) && LastIsLatest(Actions(c, ticks))
  {
    hide Acts, Ordered, UpTo, LastIsLatest;
    if ticks == [] {
      NoTimes(now);
    } else {
      var before, t := ticks[..|ticks| - 1], ticks[|ticks| - 1];
      assert before + [t] == ticks;
      PrefixOrdered(before, t);
      TimesOrdered(c, before, t.alertTime);
      OneMoreTime(Alerts(before), if t.alert then [t.alertTime] else [], t.alertTime, now);
      OneMoreTime(Actions(c, before), if Acts(c, Run(c, before), t) then [t.doneTime] else [], t.alertTime, now);
    }
  }

  lemma NoTimes(now: int)
    ensures UpTo([], now) && LastIsLatest([])
  {
  }

  lemma OneMoreTime(times: seq<int>, more: seq<int>, before: int, now: int)
    requires UpTo(times, before) && LastIsLatest(times) && before <= now
    requires more == [] || (|more| == 1 && before <= more[0] <= now)
    ensures UpTo(times + more, now) && LastIsLatest(times + more)
  {
  }

  lemma PassedSinceLast(now: int, times: seq<int>, d: int)
    requires LastIsLatest(times)
    ensures AllPassed(now, times, d) <==> times == [] || HasPassed(now, times[|times| - 1], d)
  {
    if times != [] {
      assert times[|times| - 1] in times;
    }
  }

  /** No more than a step at a time, and up to the maximum: less than a step only where that reaches it. */
  predicate Measured(c: Settings, t: Tick, a: Action) {
    match a
    case Stay => true
    case Remove(n) => t.alert && n == c.dec
    case Add(n) =>
      && !t.alert && n <= c.inc && t.users + n <= c.max && (n == c.inc || t.users + n == c.max)
  }

  /** When users are removed and when they are added, by all alerts and actions there have been. */
  ghost predicate WellTimed(c: Settings, ticks: seq<Tick>, t: Tick, a: Action) {
    var alerts, actions := Alerts(ticks + [t]), Actions(c, ticks);
    && (a.Remove? <==> t.alert && AllPassed(t.actionCheck, actions, c.rest))
    && (a.Add? <==>
          && !t.alert && t.users < c.max
          && (|| alerts == []
              || (AllPassed(t.actionCheck, actions, c.rest) && AllPassed(t.alertCheck, alerts, c.rest))))
  }

  /** The policy in terms of what it does to the number of users, and when. */
  lemma PolicyIs(c: Settings, ticks: seq<Tick>, t: Tick)
    ensures Measured(c, t, Policy(c, ticks, t)) && WellTimed(c, ticks, t, Policy(c, ticks, t))
  {
    hide AllPassed, Alerts, Actions;
  }

  /** Remembering only the last alert and the last action decides as the policy over the whole history does. */
  lemma DecidesByPolicy(c: Settings, ticks: seq<Tick>, t: Tick)
    requires Ordered(ticks + [t])
    ensures Decide(c, Noticed(Run(c, ticks), t), t) == Policy(c, ticks, t)
    ensures var action := Decide(c, Noticed(Run(c, ticks), t), t);
            Measured(c, t, action) && WellTimed(c, ticks, t, action)
  {
    hide Ordered, LastIsLatest, Acts, AllPassed, Measured, WellTimed;
    PolicyIs(c, ticks, t);
    PrefixOrdered(ticks, t);
    assert (ticks + [t])[..|ticks|] == ticks;
    RunIsLast(c, ticks);
    TimesOrdered(c, ticks, t.alertTime);
    TimesOrdered(c, ticks + [t], t.doneTime);
    PassedSinceLast(t.actionCheck, Actions(c, ticks), c.rest);
    PassedSinceLast(t.alertCheck, Alerts(ticks + [t]), c.rest);
  }

  lemma PrefixOrdered(ticks: seq<Tick>, t: Tick)
    requires Ordered(ticks + [t])
    ensures Ordered(ticks) && Forward(t)
    ensures ticks == [] || ticks[|ticks| - 1].doneTime <= t.alertTime
  {
    var all := ticks + [t];
    assert all[|ticks|] == t;
    if ticks != [] {
      assert all[|ticks| - 1] == ticks[|ticks| - 1];
    }
    forall i | 0 <= i < |ticks| ensures Forward(ticks[i]) {
      assert all[i] == ticks[i];
    }
    forall i, j | 0 <= i < j < |ticks| ensures ticks[i].doneTime <= ticks[j].alertTime {
      assert all[i] == ticks[i] && all[j] == ticks[j];
    }
  }

  // ----- the loop -----

  /** The time samples are taken never goes back either. */
  lemma {:induction false} SamplesOrdered(ticks: seq<Tick>, now: int)
    requires Ordered(ticks)
    requires ticks == [] || ticks[|ticks| - 1].doneTime <= now
    ensures NonDecreasing(Samples(ticks))
    ensures forall p | p in Samples(ticks) :: p.x <= now
  {
    hide Ordered, Alerts;
    if ticks != [] {
      var before, t := ticks[..|ticks| - 1], ticks[|ticks| - 1];
      assert before + [t] == ticks;
      PrefixOrdered(before, t);
      SamplesOrdered(before, t.alertTime);
    }
  }

  lemma OneMoreTick(c: Settings, ticks: seq<Tick>, t: Tick)
    ensures Run(c, ticks + [t]) == After(c, Run(c, ticks), t)
    ensures Noticed(Run(c, ticks), t).alert.None? <==> Alerts(ticks + [t]) == []
    ensures Samples(ticks + [t])
            == Samples(ticks) + if Alerts(ticks + [t]) == [] then [] else [Point(t.sampleTime, t.users)]
  {
    hide After;
    assert (ticks + [t])[..|ticks|] == ticks;
    RunIsLast(c, ticks);
  }

  /** The stop test holds for all samples ever taken, and the buffer holds more than the latest of them. */
  ghost predicate Stops(ticks: seq<Tick>, t: Tick) {
    var all := Samples(ticks + [t]);
    && all != Samples(ticks)
    && Done(all, SAMPLES_TIME_RANGE)
    && |Latest(all, SAMPLES_TIME_RANGE)| <= |Buffer(Samples(ticks), SAMPLES_TIME_RANGE)|
  }

  lemma StopsSampled(ticks: seq<Tick>, t: Tick)
    requires Stops(ticks, t)
    ensures Samples(ticks + [t]) != Samples(ticks)
  {
  }

  class FeedbackLoop {
    const settings: Settings
    const samples: SampleBuffer
    var lastActionTime: Option<int>
    var lastAlertTime: Option<int>
    ghost var ticks: seq<Tick>

    ghost predicate Valid()
      reads this, samples, samples.data
    {
      && samples.Valid()
      && Ordered(ticks)
      && Times(lastActionTime, lastAlertTime) == Run(settings, ticks)
      && samples.Contents() == Buffer(Samples(ticks), SAMPLES_TIME_RANGE)
    }

    constructor (settings: Settings)
      ensures Valid() && fresh(samples) && fresh(samples.data)
      ensures this.settings == settings && ticks == []
    {
      this.settings := settings;
      samples := new SampleBuffer();
      lastActionTime, lastAlertTime, ticks := None, None, [];
    }

    /** The sampling part of an iteration. */
    method TakeSample(t: Tick, ghost times: Times) returns (done: bool)
      requires samples.Valid() && Ordered(ticks + [t])
      requires samples.Contents() == Buffer(Samples(ticks), SAMPLES_TIME_RANGE)
      requires times == Noticed(Run(settings, ticks), t) && lastAlertTime == times.alert
      modifies samples, samples.data
      ensures samples.data == old(samples.data) || fresh(samples.data)
      ensures samples.Valid()
      ensures done <==> Stops(ticks, t)
      ensures !done ==> samples.Contents() == Buffer(Samples(ticks + [t]), SAMPLES_TIME_RANGE)
    {
      hide Buffer, Done, Ordered, Trimmed, NonDecreasing, Run, Noticed, Latest;
      OneMoreTick(settings, ticks, t);
      done := false;
      if lastAlertTime.Some? {
        ghost var history, p := Samples(ticks), Point(t.sampleTime, t.users);
        HistoryOrdered(ticks + [t]);
        done := samples.Record(Point(t.sampleTime, t.users));
        DoneWithHistory(history, p);
        BufferGrows(history, p);
      } else {
        assert Samples(ticks + [t]) == Samples(ticks);
      }
    }

    /** One iteration. Once it is done the loop returns, so only a loop that goes on stays valid. */
    method Iterate(t: Tick) returns (done: bool, action: Action)
      requires Valid() && Ordered(ticks + [t])
      modifies this, samples, samples.data
      ensures samples.data == old(samples.data) || fresh(samples.data)
      ensures done <==> Stops(old(ticks), t)
      ensures done ==> action == Stay && Alerts(old(ticks) + [t]) != []
      ensures !done ==> Valid() && ticks == old(ticks) + [t] && action == Policy(settings, old(ticks), t)
      ensures action.Add? ==>
                && !t.alert && action.n <= settings.inc && t.users + action.n <= settings.max
                && (action.n == settings.inc || t.users + action.n == settings.max)
      ensures action.Remove? ==> t.alert && action.n == settings.dec
      ensures !done ==> WellTimed(settings, old(ticks), t, action)
      ensures lastAlertTime == if t.alert then Some(t.alertTime) else old(lastAlertTime)
      ensures lastActionTime == if action != Stay && t.ok then Some(t.doneTime) else old(lastActionTime)
    {
      hide WellTimed, Buffer, Stops, Ordered, Policy, Samples, Decide, After, Run;
      ghost var times := Noticed(Run(settings, ticks), t);
      DecidesByPolicy(settings, ticks, t);
      action := Stay;
      if t.alert {
        lastAlertTime := Some(t.alertTime);
      }
      done := TakeSample(t, times);
      if done {
        OneMoreTick(settings, ticks, t);
        StopsSampled(ticks, t);
        return;
      }
      action := ChooseAction(t);
      if action != Stay && t.ok {
        lastActionTime := Some(t.doneTime);
      }
      RunGrows(settings, ticks, t, times, action);
      ticks := ticks + [t];
    }

    method ChooseAction(t: Tick) returns (action: Action)
      ensures action == Decide(settings, Times(lastActionTime, lastAlertTime), t)
    {
      action := Stay;
      if lastAlertTime.None? || lastActionTime.None?
         || HasPassed(t.actionCheck, lastActionTime.value, settings.rest) {
        if t.alert {
          action := Remove(settings.dec);
        } else if lastAlertTime.None? || HasPassed(t.alertCheck, lastAlertTime.value, settings.rest) {
          if t.users < settings.max {
            action := Add(Min(settings.inc, settings.max - t.users));
          }
        }
      }
    }
  }

  lemma HistoryOrdered(ticks: seq<Tick>)
    requires Ordered(ticks)
    ensures NonDecreasing(Samples(ticks))
  {
    SamplesOrdered(ticks, if ticks == [] then 0 else ticks[|ticks| - 1].doneTime);
  }

  lemma DoneWithHistory(history: seq<Point>, p: Point)
    requires NonDecreasing(history + [p])
    ensures Done(Buffer(history, SAMPLES_TIME_RANGE) + [p], SAMPLES_TIME_RANGE)
            <==> Done(history + [p], SAMPLES_TIME_RANGE)
                 && |Latest(history + [p], SAMPLES_TIME_RANGE)| <= |Buffer(history, SAMPLES_TIME_RANGE)|
  {
    hide Done, NonDecreasing, Latest, Buffer;
    DoneExactly(history, p, SAMPLES_TIME_RANGE);
  }

  lemma RunGrows(c: Settings, ticks: seq<Tick>, t: Tick, s: Times, a: Action)
    requires s == Noticed(Run(c, ticks), t) && a == Decide(c, s, t)
    ensures Run(c, ticks + [t]) == if a != Stay && t.ok then s.(action := Some(t.doneTime)) else s
  {
    hide Decide;
    assert (ticks + [t])[..|ticks|] == ticks;
  }

  lemma BufferGrows(history: seq<Point>, p: Point)
    ensures Buffer(history + [p], SAMPLES_TIME_RANGE)
            == Trimmed(Buffer(history, SAMPLES_TIME_RANGE) + [p], SAMPLES_TIME_RANGE)
  {
    assert (history + [p])[..|history|] == history;
  }
}
