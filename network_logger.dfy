/**
  The throttled traffic logger (Assets/scripts/NetworkLogger.cs). Every name
  sent is logged, except the two high-frequency pose streams, which are
  counted per name and logged once per LogFrequency sends. Debug.Log output is
  modelled as the tagged lines each method returns.
*/
module Logging {
  import opened Wrappers
  import opened DataModels

  const LogFrequency: int := 100

  predicate IsHighFrequency(eventName: string) {
    eventName == "HeadPose" || eventName == "Poses"
  }

  /** Only the two pose streams are throttled; the comparison is exact, so case matters. */
  lemma OnlyPoseStreamsThrottled(eventName: string)
    ensures IsHighFrequency(eventName) <==> eventName in {"HeadPose", "Poses"}
    ensures !IsHighFrequency("headpose") && !IsHighFrequency("Pose") && !IsHighFrequency("Pong")
  {
  }

  datatype LogLine =
    | SendType(eventName: string)                  // "[WS Send] Type: …"
    | SendSummary(eventName: string, skipped: int) // "[WS Send] Type: … (skipped … entries)"
    | SendDetail(data: Outgoing)                   // "[WS Send] Data: …"
    | ReceiveType(messageType: string)             // "[WS Recv] Type: …"
    | ReceiveDetail(frame: string)                 // "[WS Recv] Data: …"

  /** The counter of a name, an absent key reading as zero. */
  function Count(counters: map<string, int>, eventName: string): int {
    if eventName in counters then counters[eventName] else 0
  }

  /** The invariant kept between calls: only high-frequency names are counted, each in [0, LogFrequency). */
  ghost predicate Bounded(counters: map<string, int>) {
    forall name :: name in counters ==> IsHighFrequency(name) && 0 <= counters[name] < LogFrequency
  }

  datatype SendStep = SendStep(lines: seq<LogLine>, counters: map<string, int>)

  /** Whether a send of this name, from these counters, is swallowed without any line. */
  predicate Suppressed(counters: map<string, int>, eventName: string) {
    IsHighFrequency(eventName) && Count(counters, eventName) + 1 < LogFrequency
  }

  /** What one LogSend call prints and leaves in the counters. */
  function SendLog(counters: map<string, int>, showSendDetails: bool, eventName: string, data: Option<Outgoing>): (r: SendStep)
    // a suppressed call prints nothing at all, not even the detail line
    ensures r.lines == [] <==> Suppressed(counters, eventName)
    ensures Suppressed(counters, eventName) ==> r.counters == counters[eventName := Count(counters, eventName) + 1]
    // every other call prints exactly one type line, first
    ensures !Suppressed(counters, eventName) ==>
      && 1 <= |r.lines| <= 2
      && r.lines[0] == (if IsHighFrequency(eventName) then SendSummary(eventName, LogFrequency - 1) else SendType(eventName))
      && (|r.lines| == 2 <==> showSendDetails && data.Some?)
      && (|r.lines| == 2 ==> r.lines[1] == SendDetail(data.value))
    // a low-frequency name leaves the counters as they were
    ensures !IsHighFrequency(eventName) ==> r.counters == counters
    // a high-frequency counter that reaches LogFrequency is reset
    ensures IsHighFrequency(eventName) && !Suppressed(counters, eventName) ==> r.counters == counters[eventName := 0]
    // no other name's counter moves
    ensures forall other :: other != eventName ==>
      (other in r.counters <==> other in counters) && Count(r.counters, other) == Count(counters, other)
    ensures Bounded(counters) ==> Bounded(r.counters)
  {
    var details := if showSendDetails && data.Some? then [SendDetail(data.value)] else [];
    if IsHighFrequency(eventName) then
      var c := Count(counters, eventName) + 1;
      if c < LogFrequency then SendStep([], counters[eventName := c])
      else SendStep([SendSummary(eventName, LogFrequency - 1)] + details, counters[eventName := 0])
    else
      SendStep([SendType(eventName)] + details, counters)
  }

  datatype Send = Send(eventName: string, data: Option<Outgoing>)

  /** A run of LogSend calls, in order. */
  function SendAll(counters: map<string, int>, showSendDetails: bool, sends: seq<Send>): SendStep
    decreases |sends|
  {
    if sends == [] then SendStep([], counters)
    else
      var first := SendLog(counters, showSendDetails, sends[0].eventName, sends[0].data);
      var rest := SendAll(first.counters, showSendDetails, sends[1..]);
      SendStep(first.lines + rest.lines, rest.counters)
  }

  /** How many sends in the run carry this name. */
  function Occurrences(sends: seq<Send>, eventName: string): nat {
    if sends == [] then 0
    else (if sends[0].eventName == eventName then 1 else 0) + Occurrences(sends[1..], eventName)
  }

  /** How many throttled summary lines for this name were printed. */
  function Summaries(lines: seq<LogLine>, eventName: string): nat {
    if lines == [] then 0
    else (if lines[0].SendSummary? && lines[0].eventName == eventName then 1 else 0) + Summaries(lines[1..], eventName)
  }

  lemma {:induction false} SummariesAppend(a: seq<LogLine>, b: seq<LogLine>, eventName: string)
    ensures Summaries(a + b, eventName) == Summaries(a, eventName) + Summaries(b, eventName)
  {
    if a != [] {
      assert (a + b)[1..] == a[1..] + b;
      SummariesAppend(a[1..], b, eventName);
    } else {
      assert a + b == b;
    }
  }

  /**
    The counting law of the throttle, for one high-frequency name in any
    interleaving of sends: the final counter plus LogFrequency times the number
    of summary lines equals the starting counter plus the number of sends of
    that name. Sends of other names contribute nothing.
  */
  lemma {:induction false} ThrottleBalance(counters: map<string, int>, showSendDetails: bool, sends: seq<Send>, eventName: string)
    requires Bounded(counters) && IsHighFrequency(eventName)
    ensures Bounded(SendAll(counters, showSendDetails, sends).counters)
    ensures Count(SendAll(counters, showSendDetails, sends).counters, eventName)
              + LogFrequency * Summaries(SendAll(counters, showSendDetails, sends).lines, eventName)
            == Count(counters, eventName) + Occurrences(sends, eventName)
    decreases |sends|
  {
    if sends != [] {
      var first := SendLog(counters, showSendDetails, sends[0].eventName, sends[0].data);
      ThrottleBalance(first.counters, showSendDetails, sends[1..], eventName);
      SummariesAppend(first.lines, SendAll(first.counters, showSendDetails, sends[1..]).lines, eventName);
      if sends[0].eventName == eventName {
        assert Count(first.counters, eventName) + LogFrequency * Summaries(first.lines, eventName)
            == Count(counters, eventName) + 1;
      } else {
        assert Summaries(first.lines, eventName) == 0 by {
          assert forall i :: 0 <= i < |first.lines| ==> !(first.lines[i].SendSummary? && first.lines[i].eventName == eventName);
          if first.lines != [] {
            assert Summaries(first.lines[1..], eventName) == 0 by {
              if |first.lines| == 2 { assert Summaries(first.lines[1..][1..], eventName) == 0; }
            }
          }
        }
      }
    }
  }

  lemma DivModUnique(x: int, q: int, r: int)
    requires 0 <= r < LogFrequency && x == LogFrequency * q + r
    ensures x / LogFrequency == q && x % LogFrequency == r
  {
  }

  /**
    Exactly one summary line per LogFrequency sends of a high-frequency name,
    whatever else is sent meanwhile; the counter keeps the remainder.
  */
  lemma ThrottleRate(counters: map<string, int>, showSendDetails: bool, sends: seq<Send>, eventName: string)
    requires Bounded(counters) && IsHighFrequency(eventName)
    ensures Summaries(SendAll(counters, showSendDetails, sends).lines, eventName)
            == (Count(counters, eventName) + Occurrences(sends, eventName)) / LogFrequency
    ensures Count(SendAll(counters, showSendDetails, sends).counters, eventName)
            == (Count(counters, eventName) + Occurrences(sends, eventName)) % LogFrequency
  {
    ThrottleBalance(counters, showSendDetails, sends, eventName);
    var r := SendAll(counters, showSendDetails, sends);
    DivModUnique(Count(counters, eventName) + Occurrences(sends, eventName), Summaries(r.lines, eventName), Count(r.counters, eventName));
  }

  /** What one LogReceive call prints: always the type line, and the frame too when receive details are on. */
  function ReceiveLines(showReceiveDetails: bool, messageType: string, frame: string): (lines: seq<LogLine>)
    ensures |lines| >= 1 && lines[0] == ReceiveType(messageType)
    ensures |lines| == (if showReceiveDetails then 2 else 1)
    ensures |lines| == 2 ==> lines[1] == ReceiveDetail(frame)
  {
    [ReceiveType(messageType)] + if showReceiveDetails then [ReceiveDetail(frame)] else []
  }

  class NetworkLogger {
    var showReceiveDetails: bool
    var showSendDetails: bool
    var counters: map<string, int>

    constructor ()
      ensures !showReceiveDetails && !showSendDetails && counters == map[]
    {
      showReceiveDetails := false;
      showSendDetails := false;
      counters := map[];
    }

    method LogSend(eventName: string, data: Option<Outgoing>) returns (lines: seq<LogLine>)
      modifies this`counters
      ensures SendStep(lines, counters) == SendLog(old(counters), showSendDetails, eventName, data)
    {
      ghost var before := counters;
      lines := [];
      if IsHighFrequency(eventName) {
        if eventName !in counters {
          counters := counters[eventName := 0];
        }
        assert counters[eventName] == Count(before, eventName);
        counters := counters[eventName := counters[eventName] + 1];
        assert counters == before[eventName := Count(before, eventName) + 1];
        if counters[eventName] < LogFrequency {
          return;
        }
        lines := [SendSummary(eventName, LogFrequency - 1)];
        counters := counters[eventName := 0];
      } else {
        lines := [SendType(eventName)];
      }
      if showSendDetails && data.Some? {
        lines := lines + [SendDetail(data.value)];
      }
    }

    /** Counters are not touched: the method changes nothing. */
    method LogReceive(messageType: string, frame: string) returns (lines: seq<LogLine>)
      ensures lines == ReceiveLines(showReceiveDetails, messageType, frame)
    {
      lines := [ReceiveType(messageType)];
      if showReceiveDetails {
        lines := lines + [ReceiveDetail(frame)];
      }
    }

    method ResetCounters()
      modifies this`counters
      ensures counters == map[]
    {
      counters := map[];
    }
  }

  /** After a reset the next high-frequency send starts the count again at one, silently. */
  lemma AfterResetCountStartsAtOne(showSendDetails: bool, eventName: string, data: Option<Outgoing>)
    requires IsHighFrequency(eventName)
    ensures SendLog(map[], showSendDetails, eventName, data) == SendStep([], map[eventName := 1])
  {
  }
}
