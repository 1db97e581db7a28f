/** The heartbeat gate of `publish_health_status`, identical in both scripts:
    publish a health record once `HEALTH_CHECK_INTERVAL` seconds have passed
    since the last SUCCESSFUL publish, and move the timestamp only after one. */
module Heartbeat {
  import opened Values
  import opened Effects

  /** `HEALTH_CHECK_INTERVAL`, in seconds. */
  const Interval: int := 60

  /** The data-preparation step: `check_memory()`, the second `time.time()`
      (reported as uptime) and `ujson.dumps`, or the exception that stopped it. */
  datatype Sample = PrepFailed | Sampled(uptime: int, memFree: int, memAlloc: int)

  /** The new `last_health_check` and what the call did. */
  datatype BeatResult = BeatResult(last: int, events: seq<Event>)

  predicate Due(last: int, now: int)
  {
    now - last >= Interval
  }

  /** One call of `publish_health_status` at time `now`. */
  function Beat(topic: string, last: int, now: int, sample: Sample, delivered: bool): BeatResult
  {
    if Due(last, now) && sample.Sampled? then
      BeatResult(if delivered then now else last,
                 [Publish(topic, Health(sample.uptime, sample.memFree, sample.memAlloc), delivered)])
    else
      BeatResult(last, [])
  }

  /** One call publishes exactly one health record when due and prepared,
      nothing otherwise, and nothing on any other topic; the timestamp moves,
      to `now`, exactly when that record was delivered. */
  lemma BeatGate(topic: string, last: int, now: int, sample: Sample, delivered: bool)
    ensures var r := Beat(topic, last, now, sample, delivered);
      && |Sent(r.events, topic)| == (if Due(last, now) && sample.Sampled? then 1 else 0)
      && (forall t :: t != topic ==> Sent(r.events, t) == [])
      && PinTrace(r.events) == [] && Sleeps(r.events) == []
      && (r.last != last ==> Due(last, now) && sample.Sampled? && delivered && r.last == now)
      && (Due(last, now) && sample.Sampled? && delivered ==> r.last == now)
      && (!Due(last, now) ==> r.events == [] && r.last == last)
  {
    var r := Beat(topic, last, now, sample, delivered);
    if Due(last, now) && sample.Sampled? {
      assert r.events[1..] == [];
    }
  }

  /** A call that was due but did not get its record delivered leaves the
      gate open: the very next call, at any later time, is due again. */
  lemma BeatRetriesAfterFailure(topic: string, last: int, now: int, sample: Sample, delivered: bool, later: int)
    requires Due(last, now) && !(sample.Sampled? && delivered)
    requires later >= now
    ensures Due(Beat(topic, last, now, sample, delivered).last, later)
  {
  }

  /** One heartbeat call of the supervisor loop, with its injected outcomes. */
  datatype Call = Call(now: int, sample: Sample, delivered: bool)

  /** Successive calls from timestamp `last`. */
  function BeatRun(topic: string, last: int, calls: seq<Call>): BeatResult
    decreases |calls|
  {
    if calls == [] then BeatResult(last, [])
    else
      var first := Beat(topic, last, calls[0].now, calls[0].sample, calls[0].delivered);
      var rest := BeatRun(topic, first.last, calls[1..]);
      BeatResult(rest.last, first.events + rest.events)
  }

  /** Calls that all come less than an interval after `last` do nothing. */
  lemma {:induction false} BeatRunQuiet(topic: string, last: int, calls: seq<Call>)
    requires forall i :: 0 <= i < |calls| ==> calls[i].now < last + Interval
    ensures BeatRun(topic, last, calls) == BeatResult(last, [])
    decreases |calls|
  {
    if calls != [] {
      BeatRunQuiet(topic, last, calls[1..]);
    }
  }

  predicate Nondecreasing(calls: seq<Call>)
  {
    forall i, j :: 0 <= i <= j < |calls| ==> calls[i].now <= calls[j].now
  }

  /** Calls whose times stay within one interval deliver at most one health
      record, whatever the preparation and transport outcomes. */
  lemma {:induction false} AtMostOncePerInterval(topic: string, last: int, calls: seq<Call>)
    requires Nondecreasing(calls)
    requires forall i :: 0 <= i < |calls| ==> calls[i].now < calls[0].now + Interval
    ensures DeliveredOn(BeatRun(topic, last, calls).events, topic) <= 1
    decreases |calls|
  {
    if calls != [] {
      var c := calls[0];
      var first := Beat(topic, last, c.now, c.sample, c.delivered);
      var rest := BeatRun(topic, first.last, calls[1..]);
      DeliveredOnAppend(first.events, rest.events, topic);
      if Due(last, c.now) && c.sample.Sampled? {
        assert first.events[1..] == [];
      }
      if Due(last, c.now) && c.sample.Sampled? && c.delivered {
        BeatRunQuiet(topic, first.last, calls[1..]);
      } else {
        assert DeliveredOn(first.events, topic) == 0;
        AtMostOncePerInterval(topic, first.last, calls[1..]);
      }
    }
  }
}
