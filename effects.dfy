/** What the controller does to the outside world: the records it publishes,
    the pin levels it drives, the pauses it asks for and the reboot. */
module Effects {
  import opened Values

  /** The `error` field of a pulse status record (`error_detail` in the source). */
  datatype Detail =
    | NoDetail                         // ""
    | PulseFailed(qrcode: Json, e: Exc) // "Error during pulse generation for QR ID ...: ..."
    | CouldNotParse(e: Exc)            // "Could not parse payload or missing field: ..."
    | GeneralFailure(e: Exc)           // "General error processing message: ..."

  /** A JSON record the controller publishes. */
  datatype Msg =
    | Status(status: string)                                   // {"status": s}
    | StatusUrl(status: string, url: Json)                     // {"status": s, "url": u}
    | StatusText(status: string, message: string)              // {"status": s, "error": "literal"}
    | StatusExc(status: string, error: Exc)                    // {"status": s, "error": str(e)}
    | Confirm(qrcodeId: Json, result: string)                  // {"qrcode_id": q, "status": r}
    | DeviceStatus(lastActionStatus: string, lastQrcodeId: Json,
                   pulsesRequested: Option<int>, pulsesGenerated: int, detail: Detail)
    | Health(uptime: int, memFree: int, memAlloc: int)         // {"status": "healthy", ...}

  /** One observable step. A publish records whether the transport delivered it. */
  datatype Event =
    | Publish(topic: string, msg: Msg, delivered: bool)
    | Pin(on: bool)
    | Sleep(ms: nat)
    | Reset

  /** An inbound MQTT payload: bytes that are not UTF-8 (`msg.decode()`
      raises), text that `ujson.loads` rejects with a `ValueError`, or the
      decoded value. */
  datatype Payload = NotUtf8 | Undecodable(detail: string) | Decoded(value: Json)

  /** How a callback ends: it returns, it reboots the device, or an exception escapes it. */
  datatype Outcome = Continue | Rebooted | Escaped(e: Exc)

  /** `action_status` as published. */
  function StatusWord(ok: bool): string
  {
    if ok then "success" else "failure"
  }

  /** The records attempted on one topic, in order. */
  function Sent(events: seq<Event>, topic: string): seq<Msg>
  {
    if events == [] then []
    else
      (if events[0].Publish? && events[0].topic == topic then [events[0].msg] else [])
      + Sent(events[1..], topic)
  }

  /** The number of records on one topic the transport delivered. */
  function DeliveredOn(events: seq<Event>, topic: string): nat
  {
    if events == [] then 0
    else
      (if events[0].Publish? && events[0].topic == topic && events[0].delivered then 1 else 0)
      + DeliveredOn(events[1..], topic)
  }

  /** The pin levels driven, in order. */
  function PinTrace(events: seq<Event>): seq<bool>
  {
    if events == [] then []
    else (if events[0].Pin? then [events[0].on] else []) + PinTrace(events[1..])
  }

  /** The pauses requested, in milliseconds. */
  function Sleeps(events: seq<Event>): seq<nat>
  {
    if events == [] then []
    else (if events[0].Sleep? then [events[0].ms] else []) + Sleeps(events[1..])
  }

  lemma {:induction false} SentAppend(a: seq<Event>, b: seq<Event>, topic: string)
    ensures Sent(a + b, topic) == Sent(a, topic) + Sent(b, topic)
  {
    if a != [] {
      assert (a + b)[1..] == a[1..] + b;
      SentAppend(a[1..], b, topic);
    } else {
      assert a + b == b;
    }
  }

  lemma {:induction false} DeliveredOnAppend(a: seq<Event>, b: seq<Event>, topic: string)
    ensures DeliveredOn(a + b, topic) == DeliveredOn(a, topic) + DeliveredOn(b, topic)
  {
    if a != [] {
      assert (a + b)[1..] == a[1..] + b;
      DeliveredOnAppend(a[1..], b, topic);
    } else {
      assert a + b == b;
    }
  }

  lemma {:induction false} PinTraceAppend(a: seq<Event>, b: seq<Event>)
    ensures PinTrace(a + b) == PinTrace(a) + PinTrace(b)
  {
    if a != [] {
      assert (a + b)[1..] == a[1..] + b;
      PinTraceAppend(a[1..], b);
    } else {
      assert a + b == b;
    }
  }

  lemma {:induction false} SleepsAppend(a: seq<Event>, b: seq<Event>)
    ensures Sleeps(a + b) == Sleeps(a) + Sleeps(b)
  {
    if a != [] {
      assert (a + b)[1..] == a[1..] + b;
      SleepsAppend(a[1..], b);
    } else {
      assert a + b == b;
    }
  }

  /** What the filters see in a one-event log. */
  lemma SingleEvent(e: Event)
    ensures forall topic :: Sent([e], topic) == (if e.Publish? && e.topic == topic then [e.msg] else [])
    ensures forall topic :: DeliveredOn([e], topic) == (if e.Publish? && e.topic == topic && e.delivered then 1 else 0)
    ensures PinTrace([e]) == (if e.Pin? then [e.on] else [])
    ensures Sleeps([e]) == (if e.Sleep? then [e.ms] else [])
  {
    assert [e][1..] == [];
  }

  /** What the filters see in a log that starts with `e`. */
  lemma Cons(e: Event, rest: seq<Event>)
    ensures forall topic ::
              Sent([e] + rest, topic) == (if e.Publish? && e.topic == topic then [e.msg] else []) + Sent(rest, topic)
    ensures PinTrace([e] + rest) == (if e.Pin? then [e.on] else []) + PinTrace(rest)
    ensures Sleeps([e] + rest) == (if e.Sleep? then [e.ms] else []) + Sleeps(rest)
  {
    assert ([e] + rest)[1..] == rest;
  }

  /** A log without publishes sends nothing on any topic. */
  lemma {:induction false} NoPublishSendsNothing(events: seq<Event>)
    requires forall i :: 0 <= i < |events| ==> !events[i].Publish?
    ensures forall t :: Sent(events, t) == [] && DeliveredOn(events, t) == 0
  {
    if events != [] {
      NoPublishSendsNothing(events[1..]);
    }
  }

  /** A log without pin events drives no level. */
  lemma {:induction false} NoPinDrivesNothing(events: seq<Event>)
    requires forall i :: 0 <= i < |events| ==> !events[i].Pin?
    ensures PinTrace(events) == []
  {
    if events != [] {
      NoPinDrivesNothing(events[1..]);
    }
  }
}
