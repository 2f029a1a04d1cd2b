/** coordinator/cluster/cluster.go:154-175: error totals that survive the restart of an agent. */
module ErrorTotals {

  datatype ErrorTrack = ErrorTrack(lastError: int, totalErrors: int)

  /** One reading of an agent's error counter. */
  function Observe(e: ErrorTrack, current: int): ErrorTrack {
    ErrorTrack(current, if current < e.lastError then e.totalErrors + e.lastError else e.totalErrors)
  }

  function Track(readings: seq<int>): ErrorTrack {
    if readings == [] then ErrorTrack(0, 0) else Observe(Track(readings[..|readings| - 1]), readings[|readings| - 1])
  }

  /** What the status says about one agent after these readings. */
  function Reported(readings: seq<int>): int {
    Track(readings).lastError + Track(readings).totalErrors
  }

  /** The increase since the previous reading, or the whole reading when the counter has dropped. */
  ghost function NewErrors(previous: int, current: int): int {
    if current < previous then current else current - previous
  }

  ghost function LastReading(readings: seq<int>): int {
    if readings == [] then 0 else readings[|readings| - 1]
  }

  ghost function AllNewErrors(readings: seq<int>): int {
    if readings == [] then 0
    else
      var before := readings[..|readings| - 1];
      AllNewErrors(before) + NewErrors(LastReading(before), readings[|readings| - 1])
  }

  /** The total is the sum of what each reading adds. */
  lemma {:induction false} ReportedIsSum(readings: seq<int>)
    ensures Reported(readings) == AllNewErrors(readings)
    ensures Track(readings).lastError == LastReading(readings)
  {
    if readings != [] {
      ReportedIsSum(readings[..|readings| - 1]);
    }
  }

  /** A further reading never lowers the total. */
  lemma ReportedNeverDrops(readings: seq<int>, current: int)
    requires 0 <= current
    ensures Reported(readings) <= Reported(readings + [current])
  {
    assert (readings + [current])[..|readings|] == readings;
    ReportedIsSum(readings);
    ReportedIsSum(readings + [current]);
  }

  /** The life of an agent: an error occurs, the agent restarts with a counter of zero, its counter is read. */
  datatype Event = Failure | Restart | Reading

  ghost function Counter(life: seq<Event>): nat {
    if life == [] then 0
    else
      var before := Counter(life[..|life| - 1]);
      match life[|life| - 1]
      case Failure => before + 1
      case Restart => 0
      case Reading => before
  }

  /** All errors that ever occurred, in every incarnation. */
  ghost function TrueErrors(life: seq<Event>): nat {
    if life == [] then 0
    else TrueErrors(life[..|life| - 1]) + if life[|life| - 1] == Failure then 1 else 0
  }

  ghost function Readings(life: seq<Event>): seq<int> {
    if life == [] then []
    else Readings(life[..|life| - 1]) + if life[|life| - 1] == Reading then [Counter(life)] else []
  }

  /** Errors the current incarnation has had since the last reading, in this incarnation or an earlier one. */
  ghost function Unread(life: seq<Event>): int {
    NewErrors(LastReading(Readings(life)), Counter(life))
  }

  /** Errors no reading will ever show: those unread when the agent restarts, and, when the counter of a
      restarted agent has grown back to the last reading before anybody looked, as many as that reading. */
  ghost function Lost(life: seq<Event>): nat {
    if life == [] then 0
    else
      var before := life[..|life| - 1];
      Lost(before)
      + match life[|life| - 1]
        case Reading => 0
        case Restart => NewErrors(LastReading(Readings(before)), Counter(before))
        case Failure => if Counter(life) == LastReading(Readings(before)) then Counter(life) else 0
  }

  /** Every error is in the total, waiting to be read, or lost. */
  lemma {:induction false} ErrorsConserved(life: seq<Event>)
    ensures TrueErrors(life) == Reported(Readings(life)) + Unread(life) + Lost(life)
    ensures 0 <= LastReading(Readings(life)) && 0 <= Unread(life)
  {
    hide Reported, AllNewErrors;
    if life == [] {
      ReportedIsSum([]);
      NothingReported();
    } else {
      var before := life[..|life| - 1];
      ErrorsConserved(before);
      if life[|life| - 1] == Reading {
        ReadingCounts(Readings(before), Counter(before));
      } else {
        assert Readings(life) == Readings(before);
      }
    }
  }

  lemma NothingReported()
    ensures Reported([]) == 0
  {
  }

  lemma ReadingCounts(readings: seq<int>, current: int)
    ensures Reported(readings + [current]) == Reported(readings) + NewErrors(LastReading(readings), current)
  {
    assert (readings + [current])[..|readings|] == readings;
    ReportedIsSum(readings);
    ReportedIsSum(readings + [current]);
  }

  /** The total never exceeds the true number of errors over all incarnations. It is exact just when
      everything has been read and nothing was lost. */
  lemma NeverOvercounts(life: seq<Event>)
    ensures Reported(Readings(life)) <= TrueErrors(life)
    ensures Reported(Readings(life)) == TrueErrors(life) <==> Unread(life) == 0 && Lost(life) == 0
  {
    hide *;
    ErrorsConserved(life);
  }
}
