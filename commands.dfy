/** What the two message callbacks have in common: the reset command, the
    pulse sequence step, and the confirmation and status records that follow
    a pulse command. */
module Command {
  import opened Values
  import opened Effects
  import opened Pulse
  import opened Config
  import opened Board

  /** The effect of one callback: what it did, the file system afterwards and how it ended. */
  datatype Reaction = Reaction(events: seq<Event>, files: Store, outcome: Outcome)

  /** The `UnicodeError` (a `ValueError`) that `msg.decode()` raises, outside any `try`. */
  const UnicodeFailure: Exc := Error(ValueError, "UnicodeError")

  /** `payload_data.get(...)` on a decoded value that is not a JSON object. */
  function NoGet(j: Json): (e: Exc)
    requires !j.JObject?
    ensures e.kind == AttributeError
  {
    Error(AttributeError, "'" + TypeName(j) + "' object has no attribute 'get'")
  }

  /** The reset command: publish `{"status": "resetting"}`, pause 1 s only if
      that publish did not raise, then `machine.reset()`. */
  function ResetSpec(t: Topics, delivered: nat -> bool, fs: Store): Reaction
  {
    Reaction([Publish(t.status, Status("resetting"), delivered(0))]
             + (if delivered(0) then [Sleep(1000)] else []) + [Reset],
             fs, Rebooted)
  }

  /** The reset command always reboots, after exactly one "resetting" record,
      whether or not that record got out; it drives no pin and touches no file. */
  lemma ResetShape(t: Topics, delivered: nat -> bool, fs: Store)
    ensures var r := ResetSpec(t, delivered, fs);
      && r.outcome == Rebooted && r.files == fs
      && r.events[|r.events| - 1] == Reset
      && Sent(r.events, t.status) == [Status("resetting")]
      && (forall topic :: topic != t.status ==> Sent(r.events, topic) == [])
      && Sleeps(r.events) == (if delivered(0) then [1000] else [])
      && PinTrace(r.events) == []
  {
    var r := ResetSpec(t, delivered, fs);
    var head := Publish(t.status, Status("resetting"), delivered(0));
    var pause: seq<Event> := if delivered(0) then [Sleep(1000)] else [];
    assert r.events == [head] + (pause + [Reset]);
    SingleEvent(head);
    SingleEvent(Reset);
    if delivered(0) {
      SingleEvent(Sleep(1000));
    }
    NoPublishSendsNothing(pause + [Reset]);
    NoPinDrivesNothing(pause + [Reset]);
    SleepsAppend(pause, [Reset]);
    SleepsAppend([head], pause + [Reset]);
    PinTraceAppend([head], pause + [Reset]);
    forall topic ensures Sent(r.events, topic) == Sent([head], topic) + Sent(pause + [Reset], topic) {
      SentAppend([head], pause + [Reset], topic);
    }
  }

  /** The pulse loop runs only for a positive count; otherwise nothing happens. */
  function PulseStep(n: int, fault: PinFault): PulseOutcome
  {
    if n > 0 then PulseRun(n as nat, fault) else PulseOutcome([], None)
  }

  /** The records that close a pulse command: a confirmation on the confirm
      topic when the QR id is truthy, then the device status record, which is
      attempted whatever became of the confirmation. */
  function PulseReport(t: Topics, qr: Json, n: int, ok: bool, detail: Detail, delivered: nat -> bool): seq<Event>
  {
    var confirm := if Truthy(qr) then [Publish(t.confirm, Confirm(qr, StatusWord(ok)), delivered(0))] else [];
    confirm + [Publish(t.status, StatusRecord(qr, n, ok, detail), delivered(|confirm|))]
  }

  /** The device status record of a pulse command. */
  function StatusRecord(qr: Json, n: int, ok: bool, detail: Detail): Msg
  {
    DeviceStatus(StatusWord(ok), qr, if Truthy(qr) then Some(n) else None,
                 if ok then n else 0, if ok then NoDetail else detail)
  }

  /** Exactly one confirmation when the QR id is truthy and none otherwise,
      exactly one status record, which reports the error only on failure and
      counts the pulses only on success; nothing on the other topics, no pin
      and no pause. */
  lemma PulseReportShape(t: Topics, qr: Json, n: int, ok: bool, detail: Detail, delivered: nat -> bool)
    requires Distinct(t)
    ensures var e := PulseReport(t, qr, n, ok, detail, delivered);
      && Sent(e, t.confirm) == (if Truthy(qr) then [Confirm(qr, StatusWord(ok))] else [])
      && Sent(e, t.status) == [StatusRecord(qr, n, ok, detail)]
      && (forall topic :: topic != t.confirm && topic != t.status ==> Sent(e, topic) == [])
      && PinTrace(e) == [] && Sleeps(e) == []
  {
    var e := PulseReport(t, qr, n, ok, detail, delivered);
    var last := Publish(t.status, StatusRecord(qr, n, ok, detail), if Truthy(qr) then delivered(1) else delivered(0));
    SingleEvent(last);
    if Truthy(qr) {
      var first := Publish(t.confirm, Confirm(qr, StatusWord(ok)), delivered(0));
      assert e == [first] + [last];
      SingleEvent(first);
      forall topic ensures Sent(e, topic) == Sent([first], topic) + Sent([last], topic) {
        SentAppend([first], [last], topic);
      }
      PinTraceAppend([first], [last]);
      SleepsAppend([first], [last]);
    } else {
      assert e == [last];
    }
  }

  /** Whether the confirmation got out changes nothing about the status
      record that follows: the same record is attempted either way. */
  lemma StatusIndependentOfConfirm(t: Topics, qr: Json, n: int, ok: bool, detail: Detail,
                                   delivered: nat -> bool, delivered': nat -> bool)
    requires Distinct(t)
    ensures Sent(PulseReport(t, qr, n, ok, detail, delivered), t.status)
         == Sent(PulseReport(t, qr, n, ok, detail, delivered'), t.status)
         == [StatusRecord(qr, n, ok, detail)]
  {
    PulseReportShape(t, qr, n, ok, detail, delivered);
    PulseReportShape(t, qr, n, ok, detail, delivered');
  }

  /** A pulse command that passed validation: run the sequence, then report
      its outcome, with the pin error as detail on failure. */
  function PulseAndReport(t: Topics, qr: Json, n: int, fault: PinFault, delivered: nat -> bool): seq<Event>
  {
    var run := PulseStep(n, fault);
    var ok := run.failure.None?;
    run.events + PulseReport(t, qr, n, ok, if ok then NoDetail else PulseFailed(qr, run.failure.value), delivered)
  }

  /** Success means no pin call among the `2 * n` raised; then the pin went
      through `n` on/off pairs, otherwise through fewer levels. Either way one
      confirmation follows when the QR id is truthy and one status record. */
  lemma PulseAndReportShape(t: Topics, qr: Json, n: int, fault: PinFault, delivered: nat -> bool)
    requires Distinct(t)
    ensures var run := PulseStep(n, fault);
      var ok := run.failure.None?;
      var e := PulseAndReport(t, qr, n, fault, delivered);
      && (ok <==> forall k :: 0 <= k < 2 * n ==> FaultAt(fault, k).None?)
      && Sent(e, t.confirm) == (if Truthy(qr) then [Confirm(qr, StatusWord(ok))] else [])
      && Sent(e, t.status) == [StatusRecord(qr, n, ok, if ok then NoDetail else PulseFailed(qr, run.failure.value))]
      && Alternating(PinTrace(e))
      && (ok ==> |PinTrace(e)| == 2 * (if n > 0 then n else 0))
      && (!ok ==> |PinTrace(e)| < 2 * n)
  {
    var run := PulseStep(n, fault);
    var ok := run.failure.None?;
    var detail := if ok then NoDetail else PulseFailed(qr, run.failure.value);
    var report := PulseReport(t, qr, n, ok, detail, delivered);
    assert PulseAndReport(t, qr, n, fault, delivered) == run.events + report;
    PulseReportShape(t, qr, n, ok, detail, delivered);
    PulseStepShape(n, fault);
    PinTraceAppend(run.events, report);
    SentAppend(run.events, report, t.confirm);
    SentAppend(run.events, report, t.status);
  }

  /** The pulse step on its own: nothing at all for a count of zero or less,
      the iff for success, the pin trace, and no publish. */
  lemma PulseStepShape(n: int, fault: PinFault)
    ensures var run := PulseStep(n, fault);
      && (run.failure.None? <==> forall k :: 0 <= k < 2 * n ==> FaultAt(fault, k).None?)
      && Alternating(PinTrace(run.events))
      && (run.failure.None? ==> |PinTrace(run.events)| == 2 * (if n > 0 then n else 0))
      && (run.failure.Some? ==> |PinTrace(run.events)| < 2 * n)
      && (n <= 0 ==> run.events == [] && run.failure.None?)
      && forall topic :: Sent(run.events, topic) == []
  {
    if n > 0 {
      PulseSucceedsIff(n as nat, fault);
      if PulseRun(n as nat, fault).failure.None? {
        PulseSuccessTrace(n as nat, fault);
      } else {
        PulseFailureTrace(n as nat, fault);
      }
    }
  }
}
