/** What a failed assertion tells the test framework.

    The checker never raises: a failure becomes one report, which the
    severity level sends to the test's error channel, to its log, or
    nowhere.  The message text is abstracted to a tagged report.
 */
module Sink {
  import opened Reflection

  /** The three kinds of message the checker writes. */
  datatype Report =
    | Mismatch(expected: Value, actual: Value)
    | UnsupportedKinds(expectedKind: Kind, actualKind: Kind)
    | LengthMismatch(expectedLen: nat, actualLen: nat)

  /** `t.Error` marks the test failed; `t.Log` only records a line. */
  datatype Channel = Error | Log

  datatype Entry = Entry(channel: Channel, report: Report)

  /** Levels at which a failure is written somewhere at all. */
  predicate Audible(level: int) {
    level == 0 || level == 1
  }

  /** The channel an audible level writes to. */
  function ChannelOf(level: int): Channel {
    if level == 0 then Error else Log
  }

  /** The entries one failure adds to the test's record: level 0 writes an
      error, level 1 a log line, every other level nothing. */
  function Emit(level: int, report: Report): (trace: seq<Entry>)
    ensures |trace| == 1 <==> Audible(level)
    ensures |trace| <= 1
    ensures forall i :: 0 <= i < |trace| ==> trace[i] == Entry(ChannelOf(level), report)
  {
    if level == 0 then [Entry(Error, report)]
    else if level == 1 then [Entry(Log, report)]
    else []
  }

  /** The answer of an assertion together with what it wrote to the test. */
  datatype Outcome = Outcome(ok: bool, trace: seq<Entry>)

  const Pass: Outcome := Outcome(true, [])

  function Fail(level: int, report: Report): Outcome {
    Outcome(false, Emit(level, report))
  }

  /** The reporting discipline: a success writes nothing, a failure writes
      exactly one entry when the level is audible and none otherwise, and
      every entry goes to the level's channel. */
  predicate WellReported(level: int, r: Outcome) {
    && |r.trace| == (if r.ok || !Audible(level) then 0 else 1)
    && forall i :: 0 <= i < |r.trace| ==> r.trace[i].channel == ChannelOf(level)
  }

  /** The entries `trace` would have been had every report been sent under
      `level` instead. */
  function Reroute(level: int, trace: seq<Entry>): (r: seq<Entry>)
    ensures Audible(level) ==> |r| == |trace|
    ensures Audible(level) ==>
      forall i :: 0 <= i < |r| ==> r[i] == Entry(ChannelOf(level), trace[i].report)
    ensures !Audible(level) ==> r == []
  {
    if trace == [] then []
    else Emit(level, trace[0].report) + Reroute(level, trace[1..])
  }

  /** Rerouting a failure sent at level 0 is sending it at `level`. */
  lemma RerouteFail(level: int, report: Report)
    ensures Fail(level, report) == Outcome(false, Reroute(level, Fail(0, report).trace))
  {
    assert Fail(0, report).trace == [Entry(Error, report)];
    assert Reroute(level, []) == [];
  }
}
