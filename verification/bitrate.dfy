/** Bitrate-change derivation from an item's access log, run each time the log
    gains an entry: the current event is the last one, the previous event the one
    just before the first index holding the current event. */
module Bitrate {
  import opened Wrappers
  import opened Publisher
  import opened PlayerCore

  /** An `AVPlayerItemAccessLogEvent`: its identity and its indicated bitrate. */
  datatype LogEvent = LogEvent(id: nat, indicatedBitrate: int)

  /** `index(of:)`: the first index holding `e`, if any. */
  function IndexOf(log: seq<LogEvent>, e: LogEvent): (r: Option<nat>)
    ensures r.Some? <==> e in log
    ensures r.Some? ==> r.value < |log| && log[r.value] == e
    ensures r.Some? ==> forall j :: 0 <= j < r.value ==> log[j] != e
  {
    if |log| == 0 then None
    else if log[0] == e then Some(0)
    else
      match IndexOf(log[1..], e)
      case None => None
      case Some(i) => Some(i + 1)
  }

  /** What one run of the access-log handler does. */
  datatype Derivation =
    | Silent
    | Changed(previousRate: Option<int>, currentRate: int)
      /** `events[i]` with `i` out of range: a runtime trap. */
    | OutOfRange(index: int)

  /** The handler as written: `index(of:)` of the last event, then `advanced(by: -1)`,
      then `events[previousIndex!]`. The index is never `nil`, so the `nil` branch of
      the conditional is dead, and index -1 traps. */
  function DeriveAsWritten(log: seq<LogEvent>): (d: Derivation)
    ensures d.Silent? <==> |log| == 0
    ensures |log| > 0 ==>
      var i := IndexOf(log, log[|log| - 1]).value;
      && (i == 0 ==> d == OutOfRange(-1))
      && (i > 0 ==> d == Changed(Some(log[i - 1].indicatedBitrate), log[|log| - 1].indicatedBitrate))
  {
    if |log| == 0 then Silent
    else
      var current := log[|log| - 1];
      match IndexOf(log, current)
      case None => Changed(None, current.indicatedBitrate)
      case Some(i) =>
        var previousIndex := i - 1;
        if previousIndex < 0 then OutOfRange(previousIndex)
        else Changed(Some(log[previousIndex].indicatedBitrate), current.indicatedBitrate)
  }

  /** No event appears twice in the log. */
  predicate Distinct(log: seq<LogEvent>) {
    forall i, j :: 0 <= i < j < |log| ==> log[i] != log[j]
  }

  /** The handler traps exactly when the first event of a nonempty log is also its
      last, and then always at index -1. */
  lemma AsWrittenTrapsIff(log: seq<LogEvent>)
    ensures DeriveAsWritten(log).OutOfRange? <==> |log| > 0 && log[0] == log[|log| - 1]
    ensures DeriveAsWritten(log).OutOfRange? ==> DeriveAsWritten(log).index == -1
  {
    if |log| > 0 {
      var i := IndexOf(log, log[|log| - 1]);
      assert log[|log| - 1] in log;
      if log[0] == log[|log| - 1] {
        assert i == Some(0);
      }
    }
  }

  /** A one-event log traps: the finding's witness. */
  lemma AsWrittenSingleEventTraps(e: LogEvent)
    ensures DeriveAsWritten([e]) == OutOfRange(-1)
  {
    AsWrittenTrapsIff([e]);
  }

  /** For a log of at least two distinct events the handler reports the last two
      events' bitrates, previous first. */
  lemma AsWrittenReportsLastTwo(log: seq<LogEvent>)
    ensures |log| >= 2 && Distinct(log) ==>
      DeriveAsWritten(log) == Changed(Some(log[|log| - 2].indicatedBitrate), log[|log| - 1].indicatedBitrate)
  {
    if |log| >= 2 && Distinct(log) {
      var last := log[|log| - 1];
      assert last in log;
      var i := IndexOf(log, last);
      assert i == Some(|log| - 1);
    }
  }

  /** The handler with the guard the conditional evidently meant: no previous event
      when the current one is first in the log. */
  function DeriveIntended(log: seq<LogEvent>): (d: Derivation)
    ensures !d.OutOfRange?
    ensures d.Silent? <==> |log| == 0
    ensures |log| == 1 ==> d == Changed(None, log[0].indicatedBitrate)
    ensures |log| > 0 ==> d.Changed? && d.currentRate == log[|log| - 1].indicatedBitrate
  {
    if |log| == 0 then Silent
    else
      var current := log[|log| - 1];
      match IndexOf(log, current)
      case None => Changed(None, current.indicatedBitrate)
      case Some(i) =>
        if i == 0 then Changed(None, current.indicatedBitrate)
        else Changed(Some(log[i - 1].indicatedBitrate), current.indicatedBitrate)
  }

  /** The intended handler differs from the written one only where the written one traps. */
  lemma IntendedAgreesUnlessTrap(log: seq<LogEvent>)
    ensures !DeriveAsWritten(log).OutOfRange? ==> DeriveIntended(log) == DeriveAsWritten(log)
    ensures DeriveAsWritten(log).OutOfRange? ==>
      DeriveIntended(log) == Changed(None, log[|log| - 1].indicatedBitrate)
  {
    AsWrittenTrapsIff(log);
  }

  /** The handler installed by `init()` for `AVPlayerItemNewAccessLogEntry`. `log` is
      the posting item's access log, `None` when the notification carries no item or
      the item has no access log. A derived change is published to the bitrate
      callback; a trap ends the process, reported as `Failure` with the bad index. */
  function NewAccessLogEntry(p: Player, log: Option<seq<LogEvent>>): (r: Result<Player, int>)
    ensures log.None? ==> r == Success(p)
    ensures log.Some? && |log.value| == 0 ==> r == Success(p)
    ensures log.Some? && |log.value| == 1 ==> r == Failure(-1)
    ensures log.Some? && |log.value| >= 2 && Distinct(log.value) ==>
      r == Success(p.(trace := p.trace + [Emission(Handler(p.callbacks, OnBitrateChanged),
        BitrateChanged(Some(log.value[|log.value| - 2].indicatedBitrate),
                       log.value[|log.value| - 1].indicatedBitrate))]))
    ensures r.Success? ==> r.value == p.(trace := r.value.trace) && |r.value.trace| <= |p.trace| + 1
  {
    match log
    case None => Success(p)
    case Some(events) =>
      AsWrittenReportsLastTwo(events);
      AsWrittenTrapsIff(events);
      match DeriveAsWritten(events)
      case Silent => Success(p)
      case Changed(previous, current) =>
        Success(Emit(p, BitrateChanged(previous, current)))
      case OutOfRange(i) => Failure(i)
  }

  /** Appending `b2` to the log `[b1]` makes the handler report `b1`'s bitrate as
      previous and `b2`'s as current, exactly once. */
  lemma TwoSamplesReportTransition(p: Player, b1: LogEvent, b2: LogEvent)
    requires b1 != b2
    ensures NewAccessLogEntry(p, Some([b1, b2]))
      == Success(p.(trace := p.trace + [Emission(Handler(p.callbacks, OnBitrateChanged),
           BitrateChanged(Some(b1.indicatedBitrate), b2.indicatedBitrate))]))
  {
  }
}
