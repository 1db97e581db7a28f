/** The `while True` loop at the end of `main()`, identical in both scripts:
    poll, heartbeat, 0.1 s pause; on `OSError` wait 5 s and reconnect once
    (10 s more if that fails); on any other exception wait 10 s and reset. */
module Supervisor {
  import opened Values
  import opened Effects

  const TickMs: nat := 100
  const BackoffMs: nat := 5000
  const RetryMs: nat := 10000

  /** One loop iteration's injected outcomes: what `client.check_msg()` did
      (it runs the message callback: returned, rebooted the device, or let an
      exception escape; a broken link is an escaping `OSError`), and whether
      `client.connect()` + `client.subscribe()` would succeed. */
  datatype Tick = Tick(poll: Outcome, reconnectOk: bool)

  /** Serving: the last poll or reconnect succeeded. LinkDown: the reconnect
      failed and the loop goes on. Halted: the device was reset. */
  datatype State = Serving | LinkDown | Halted

  datatype TickResult = TickResult(next: State, delays: seq<nat>, heartbeat: bool, reset: bool)

  predicate IsTransportError(o: Outcome)
  {
    o.Escaped? && o.e.kind == OSError
  }

  /** The outcomes that end the loop: a reboot from a command, or any
      exception other than `OSError`. */
  predicate Fatal(o: Outcome)
  {
    o.Rebooted? || (o.Escaped? && o.e.kind != OSError)
  }

  /** One iteration of the loop body and its two handlers. */
  function Step(t: Tick): TickResult
  {
    match t.poll
    case Continue => TickResult(Serving, [TickMs], true, false)
    case Rebooted => TickResult(Halted, [], false, false)
    case Escaped(e) =>
      if e.kind == OSError then
        if t.reconnectOk then TickResult(Serving, [BackoffMs], false, false)
        else TickResult(LinkDown, [BackoffMs, RetryMs], false, false)
      else TickResult(Halted, [RetryMs], false, true)
  }

  /** The loop as far as it has run: state, pauses requested, heartbeat
      calls made, and `machine.reset()` calls made by the loop itself. */
  datatype Loop = Loop(state: State, delays: seq<nat>, heartbeats: nat, resets: nat)

  function Apply(l: Loop, t: Tick): Loop
  {
    var r := Step(t);
    Loop(r.next, l.delays + r.delays, l.heartbeats + (if r.heartbeat then 1 else 0),
         l.resets + (if r.reset then 1 else 0))
  }

  /** The loop over a finite prefix of its iterations; nothing runs after a reset. */
  function RunSpec(ticks: seq<Tick>): Loop
  {
    if ticks == [] then Loop(Serving, [], 0, 0)
    else
      var prev := RunSpec(ticks[..|ticks| - 1]);
      if prev.state == Halted then prev else Apply(prev, ticks[|ticks| - 1])
  }

  /** Once the device is reset, later iterations change nothing. */
  lemma {:induction false} HaltedStays(ticks: seq<Tick>, i: nat)
    requires i <= |ticks|
    requires RunSpec(ticks[..i]).state == Halted
    ensures RunSpec(ticks) == RunSpec(ticks[..i])
    decreases |ticks| - i
  {
    if i < |ticks| {
      assert ticks[..i + 1][..i] == ticks[..i];
      HaltedStays(ticks, i + 1);
    } else {
      assert ticks[..i] == ticks;
    }
  }

  /** `while True:` over the injected iterations, until the device resets. */
  method Run(ticks: seq<Tick>) returns (state: State, delays: seq<nat>, heartbeats: nat, resets: nat)
    ensures Loop(state, delays, heartbeats, resets) == RunSpec(ticks)
  {
    state, delays, heartbeats, resets := Serving, [], 0, 0;
    var i := 0;
    while i < |ticks| && state != Halted
      invariant 0 <= i <= |ticks|
      invariant Loop(state, delays, heartbeats, resets) == RunSpec(ticks[..i])
    {
      var t := ticks[i];
      assert ticks[..i + 1][..i] == ticks[..i];
      match t.poll {
        case Continue =>
          heartbeats := heartbeats + 1;   // publish_health_status(client)
          delays := delays + [TickMs];
          state := Serving;
        case Rebooted =>
          state := Halted;
        case Escaped(e) =>
          if e.kind == OSError {
            delays := delays + [BackoffMs];
            if t.reconnectOk {
              state := Serving;
            } else {
              delays := delays + [RetryMs];
              state := LinkDown;
            }
          } else {
            delays := delays + [RetryMs];
            resets := resets + 1;
            state := Halted;
          }
      }
      i := i + 1;
    }
    if i < |ticks| {
      HaltedStays(ticks, i);
    } else {
      assert ticks[..i] == ticks;
    }
  }

  /** The device halts exactly when some iteration was fatal, and the loop
      itself resets at most once. */
  lemma {:induction false} HaltsIffFatal(ticks: seq<Tick>)
    ensures RunSpec(ticks).state == Halted <==> exists i :: 0 <= i < |ticks| && Fatal(ticks[i].poll)
    ensures RunSpec(ticks).resets <= 1
    ensures RunSpec(ticks).resets == 1 ==> RunSpec(ticks).state == Halted
  {
    if ticks != [] {
      var init := ticks[..|ticks| - 1];
      HaltsIffFatal(init);
      var last := ticks[|ticks| - 1];
      if exists i :: 0 <= i < |init| && Fatal(init[i].poll) {
        var i :| 0 <= i < |init| && Fatal(init[i].poll);
        assert ticks[i] == init[i];
      }
      if exists i :: 0 <= i < |ticks| && Fatal(ticks[i].poll) {
        var i :| 0 <= i < |ticks| && Fatal(ticks[i].poll);
        if i < |init| {
          assert init[i] == ticks[i];
        }
      }
    }
  }

  /** Transport errors alone never reset the device, however many there are. */
  lemma TransportErrorsNeverReset(ticks: seq<Tick>)
    requires forall i :: 0 <= i < |ticks| ==> ticks[i].poll.Continue? || IsTransportError(ticks[i].poll)
    ensures RunSpec(ticks).state != Halted && RunSpec(ticks).resets == 0
  {
    HaltsIffFatal(ticks);
  }

  /** After a transport error the loop waits 5 s and reconnects; a successful
      reconnect resumes serving, a failed one waits 10 s more and the loop goes
      on. Another exception waits 10 s and resets. A poll that returns is
      followed by one heartbeat call and the 0.1 s pause. */
  lemma StepPolicy(prefix: seq<Tick>, t: Tick)
    requires RunSpec(prefix).state != Halted
    ensures var before := RunSpec(prefix); var after := RunSpec(prefix + [t]);
      && (t.poll.Continue? ==>
            after.state == Serving && after.delays == before.delays + [TickMs]
            && after.heartbeats == before.heartbeats + 1 && after.resets == before.resets)
      && (IsTransportError(t.poll) && t.reconnectOk ==>
            after.state == Serving && after.delays == before.delays + [BackoffMs]
            && after.heartbeats == before.heartbeats && after.resets == before.resets)
      && (IsTransportError(t.poll) && !t.reconnectOk ==>
            after.state == LinkDown && after.delays == before.delays + [BackoffMs, RetryMs]
            && after.resets == before.resets)
      && (t.poll.Escaped? && !IsTransportError(t.poll) ==>
            after.state == Halted && after.delays == before.delays + [RetryMs]
            && after.resets == before.resets + 1)
      && (t.poll.Rebooted? ==> after.state == Halted && after.delays == before.delays && after.resets == before.resets)
  {
    assert (prefix + [t])[..|prefix + [t]| - 1] == prefix;
  }

  /** The heartbeat is called once per poll that returned normally, before any halt. */
  lemma {:induction false} HeartbeatsCountPolls(ticks: seq<Tick>)
    requires forall i :: 0 <= i < |ticks| ==> !Fatal(ticks[i].poll)
    ensures RunSpec(ticks).heartbeats == |set i | 0 <= i < |ticks| && ticks[i].poll.Continue?|
  {
    if ticks != [] {
      var init := ticks[..|ticks| - 1];
      HeartbeatsCountPolls(init);
      HaltsIffFatal(init);
      var n := |ticks| - 1;
      var s := set i | 0 <= i < |ticks| && ticks[i].poll.Continue?;
      var s' := set i | 0 <= i < |init| && init[i].poll.Continue?;
      assert s' == set i | 0 <= i < n && ticks[i].poll.Continue?;
      if ticks[n].poll.Continue? {
        assert s == s' + {n};
      } else {
        assert s == s';
      }
    }
  }
}
