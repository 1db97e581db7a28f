/** main.template.py, the earlier controller: a fixed machine id, no
    configuration file and no OTA update. Its callback reports every failure
    in the device status record, and reads `qrcode_id` after its handlers,
    so a failure before that variable is assigned escapes the callback. */
module TemplatePy {
  import opened Values
  import opened Effects
  import opened Pulse
  import opened Config
  import opened Board
  import opened Command
  import opened Runtime
  import opened Supervisor
  import MainPy

  const MachineId: string := "VENDING_001"

  /** `MQTT_TOPIC_SUB`, `MQTT_TOPIC_PUB`, `MQTT_TOPIC_CONFIRM`, `MQTT_TOPIC_HEALTH`. */
  const TemplateTopics: Topics := TopicsFor(MachineId)

  /** `MQTT_CLIENT_ID`. */
  const TemplateClientId: string := ClientId(MachineId)

  /** The constants spelled out, and the four topics distinct. */
  lemma TemplateIdentity()
    ensures TemplateTopics == Topics("vending/machine/VENDING_001/trigger", "vending/machine/VENDING_001/status",
                                     "vending/machine/VENDING_001/confirm", "vending/machine/VENDING_001/health")
    ensures TemplateClientId == "vending_VENDING_001"
    ensures Distinct(TemplateTopics)
  {
    var p := "vending/machine/VENDING_001";
    assert TopicPrefix + MachineId == p;
    assert p + "/trigger" == "vending/machine/VENDING_001/trigger";
    assert p + "/status" == "vending/machine/VENDING_001/status";
    assert p + "/confirm" == "vending/machine/VENDING_001/confirm";
    assert p + "/health" == "vending/machine/VENDING_001/health";
    TopicsDistinct(MachineId);
  }

  // ---------------------------------------------------------------------------
  // Boot

  /** How the set-up part of `main()` ends. */
  datatype Boot = Started(lastHealthCheck: int) | WifiFailed | FatalReset(delays: seq<nat>)

  /** `last_health_check = time.time()`, `indicate_reset()`, `connect_wifi()`,
      the first connect and subscribe. */
  function TemplateBoot(bootTime: int, wifiOk: bool, connectOk: bool): (b: Boot)
    ensures b.Started? <==> wifiOk && connectOk
    ensures b.Started? ==> b.lastHealthCheck == bootTime
    ensures wifiOk && !connectOk ==> b == FatalReset([10000])
  {
    if !wifiOk then WifiFailed
    else if !connectOk then FatalReset([10000])
    else Started(bootTime)
  }

  /** The template's set-up is main.py's for a configuration that names
      `VENDING_001`: they start, fail on WiFi and reset after a failed
      connect on the same inputs, and a start has the template's topics,
      client id and heartbeat clock. */
  lemma BootAgreesWithMain(fields: map<string, Json>, bootTime: int, wifiOk: bool, connectOk: bool)
    requires "wifi_ssid" in fields && "wifi_password" in fields && "mqtt_broker" in fields
    requires "machine_id" in fields && fields["machine_id"] == JStr(MachineId)
    ensures var m := MainPy.MainBoot(Parsed(JObject(fields)), bootTime, wifiOk, connectOk);
      var b := TemplateBoot(bootTime, wifiOk, connectOk);
      && (m.Started? <==> b.Started?)
      && (m.WifiFailed? <==> b.WifiFailed?)
      && (m.FatalReset? <==> b.FatalReset?)
      && (m.FatalReset? ==> m.delays == b.delays)
      && !m.Crashed?
      && (m.Started? ==> m.topics == TemplateTopics && m.clientId == TemplateClientId
                         && m.lastHealthCheck == b.lastHealthCheck)
  {
    AcceptsObject(fields);
  }

  // ---------------------------------------------------------------------------
  // Message callback

  /** The `NameError` that `if qrcode_id:` raises when the `try` failed before assigning it. */
  const UnboundQrcode: Exc := Error(NameError, "local variable referenced before assignment")

  const MissingQrcode: Exc := Error(ValueError, "Missing 'qrcode_id' in payload")

  /** The `error_detail` each handler sets. */
  function Caught(e: Exc): Detail
  {
    if e.kind == ValueError then CouldNotParse(e) else GeneralFailure(e)
  }

  /** The callback ends with the unbound-variable error, having published nothing. */
  function Unbound(fs: Store): Reaction
  {
    Reaction([], fs, Escaped(UnboundQrcode))
  }

  /** The pulse logic, for any action other than "reset". */
  function PulseSpec(t: Topics, m: map<string, Json>, pin: PinDriver, delivered: nat -> bool, fs: Store): Reaction
  {
    match PyInt(GetOr(m, "pulses", JInt(0)))
    case Err(_) => Unbound(fs)
    case Ok(n) =>
      var qr := GetOr(m, "qrcode_id", JNull);
      if qr == JNull then Reaction(PulseReport(t, qr, n, false, Caught(MissingQrcode), delivered), fs, Continue)
      else if n > 0 && pin.initError.Some? then
        Reaction(PulseReport(t, qr, n, false, Caught(pin.initError.value), delivered), fs, Continue)
      else
        Reaction(PulseAndReport(t, qr, n, pin.fault, delivered), fs, Continue)
  }

  /** `sub_cb(topic, msg)` of main.template.py. */
  function Dispatch(t: Topics, topic: string, payload: Payload, pin: PinDriver, delivered: nat -> bool, fs: Store): Reaction
  {
    if payload.NotUtf8? then Reaction([], fs, Escaped(UnicodeFailure))
    else if topic != t.trigger then Reaction([], fs, Continue)
    else match payload
      case Undecodable(_) => Unbound(fs)
      case Decoded(j) =>
        if !j.JObject? then Unbound(fs)
        else if GetOr(j.fields, "action", JNull) == JStr("reset") then ResetSpec(t, delivered, fs)
        else PulseSpec(t, j.fields, pin, delivered, fs)
  }

  /** `sub_cb(topic, msg)` on the controller's board. */
  method SubCb(c: Controller, topic: string, payload: Payload, pin: PinDriver, delivered: nat -> bool)
    returns (outcome: Outcome)
    modifies c.board
    ensures var r := Dispatch(c.topics, topic, payload, pin, delivered, old(c.board.files));
      c.board.events == old(c.board.events) + r.events && c.board.files == r.files && outcome == r.outcome
  {
    if payload.NotUtf8? {
      return Escaped(UnicodeFailure);
    }
    if topic != c.topics.trigger {
      return Continue;
    }
    var qr: Option<Json> := None;   // `qrcode_id`, once assigned
    var n := 0;
    var ok := false;
    var detail := NoDetail;
    match payload {
      case Undecodable(text) =>
        detail := Caught(Error(ValueError, text));
      case Decoded(j) =>
        if !j.JObject? {
          detail := Caught(NoGet(j));
        } else if GetOr(j.fields, "action", JNull) == JStr("reset") {
          outcome := c.ResetCommand(delivered);
          return;
        } else {
          var m := j.fields;
          var pulses := PyInt(GetOr(m, "pulses", JInt(0)));
          if pulses.Err? {
            detail := Caught(pulses.error);
          } else {
            n := pulses.value;
            qr := Some(GetOr(m, "qrcode_id", JNull));
            if qr.value == JNull {
              detail := Caught(MissingQrcode);
            } else if n > 0 && pin.initError.Some? {
              detail := Caught(pin.initError.value);
            } else {
              var failure := c.PulseCommand(n, pin.fault);
              ok := failure.None?;
              detail := if ok then NoDetail else PulseFailed(qr.value, failure.value);
            }
          }
        }
    }
    if qr.None? {
      return Escaped(UnboundQrcode);
    }
    c.ReportPulse(qr.value, n, ok, detail, delivered);
    return Continue;
  }

  // ---------------------------------------------------------------------------
  // Properties of the callback

  /** There is no update command: every action but "reset", "update" included,
      is treated as a pulse command, exactly as if there were no action. */
  lemma NoUpdateCommand(t: Topics, m: map<string, Json>, pin: PinDriver, delivered: nat -> bool, fs: Store)
    requires GetOr(m, "action", JNull) != JStr("reset")
    ensures Dispatch(t, t.trigger, Decoded(JObject(m)), pin, delivered, fs)
         == Dispatch(t, t.trigger, Decoded(JObject(m - {"action"})), pin, delivered, fs)
    ensures Dispatch(t, t.trigger, Decoded(JObject(m)), pin, delivered, fs).files == fs
  {
    var m' := m - {"action"};
    assert GetOr(m', "pulses", JInt(0)) == GetOr(m, "pulses", JInt(0));
    assert GetOr(m', "qrcode_id", JNull) == GetOr(m, "qrcode_id", JNull);
  }

  /** The reset command reboots after one "resetting" record, as in main.py. */
  lemma ResetCommandReboots(t: Topics, m: map<string, Json>, pin: PinDriver, delivered: nat -> bool, fs: Store)
    requires GetOr(m, "action", JNull) == JStr("reset")
    ensures var r := Dispatch(t, t.trigger, Decoded(JObject(m)), pin, delivered, fs);
      && r.outcome == Rebooted && r.files == fs
      && Sent(r.events, t.status) == [Status("resetting")]
      && r.events[|r.events| - 1] == Reset
  {
    ResetShape(t, delivered, fs);
  }

  /** A payload that does not decode, is not an object, or has a pulse count
      `int()` rejects publishes nothing and lets the unbound-variable error
      escape the callback. */
  lemma MalformedEscapes(t: Topics, payload: Payload, pin: PinDriver, delivered: nat -> bool, fs: Store)
    requires payload.Undecodable?
          || (payload.Decoded? && !payload.value.JObject?)
          || (payload.Decoded? && payload.value.JObject?
              && GetOr(payload.value.fields, "action", JNull) != JStr("reset")
              && PyInt(GetOr(payload.value.fields, "pulses", JInt(0))).Err?)
    ensures Dispatch(t, t.trigger, payload, pin, delivered, fs) == Reaction([], fs, Escaped(UnboundQrcode))
  {
  }

  /** Such a payload resets the device: the supervisor loop treats the escaped
      error as unexpected, waits 10 s and calls `machine.reset()`. */
  lemma MalformedResetsDevice(prefix: seq<Tick>, t: Topics, payload: Payload, pin: PinDriver,
                              delivered: nat -> bool, fs: Store, reconnectOk: bool)
    requires RunSpec(prefix).state != Halted
    requires payload.Undecodable? || (payload.Decoded? && !payload.value.JObject?)
    ensures var r := Dispatch(t, t.trigger, payload, pin, delivered, fs);
      var after := RunSpec(prefix + [Tick(r.outcome, reconnectOk)]);
      && r.events == []
      && after.state == Halted
      && after.delays == RunSpec(prefix).delays + [RetryMs]
      && after.resets == RunSpec(prefix).resets + 1
  {
    MalformedEscapes(t, payload, pin, delivered, fs);
    StepPolicy(prefix, Tick(Escaped(UnboundQrcode), reconnectOk));
  }

  /** A missing `qrcode_id` is reported without a confirmation: one status
      record with "failure", no QR id, no pulse count and the parse error. */
  lemma MissingQrcodeReported(t: Topics, m: map<string, Json>, pin: PinDriver, delivered: nat -> bool, fs: Store)
    requires Distinct(t)
    requires PyInt(GetOr(m, "pulses", JInt(0))).Ok? && GetOr(m, "qrcode_id", JNull) == JNull
    ensures var r := PulseSpec(t, m, pin, delivered, fs);
      && r.outcome == Continue && r.files == fs
      && Sent(r.events, t.confirm) == []
      && Sent(r.events, t.status) == [DeviceStatus("failure", JNull, None, 0, CouldNotParse(MissingQrcode))]
      && PinTrace(r.events) == []
  {
    var n := PyInt(GetOr(m, "pulses", JInt(0))).value;
    PulseReportShape(t, JNull, n, false, Caught(MissingQrcode), delivered);
  }

  /** A pin that cannot be set up fails the command: a "failure" confirmation
      when the QR id is truthy, a status record with no pulses generated and
      the error under the handler that caught it, and no pin level driven. */
  lemma PinSetupFailure(t: Topics, m: map<string, Json>, pin: PinDriver, delivered: nat -> bool, fs: Store)
    requires Distinct(t)
    requires PyInt(GetOr(m, "pulses", JInt(0))).Ok? && PyInt(GetOr(m, "pulses", JInt(0))).value > 0
    requires GetOr(m, "qrcode_id", JNull) != JNull && pin.initError.Some?
    ensures var qr := GetOr(m, "qrcode_id", JNull);
      var n := PyInt(GetOr(m, "pulses", JInt(0))).value;
      var r := PulseSpec(t, m, pin, delivered, fs);
      && r.outcome == Continue && r.files == fs
      && Sent(r.events, t.confirm) == (if Truthy(qr) then [Confirm(qr, "failure")] else [])
      && Sent(r.events, t.status) == [DeviceStatus("failure", qr, if Truthy(qr) then Some(n) else None, 0,
                                                   Caught(pin.initError.value))]
      && PinTrace(r.events) == []
  {
    var qr := GetOr(m, "qrcode_id", JNull);
    var n := PyInt(GetOr(m, "pulses", JInt(0))).value;
    PulseReportShape(t, qr, n, false, Caught(pin.initError.value), delivered);
  }

  /** On a pulse command both scripts accept, a present QR id and a pin that
      can be set up, the two callbacks do the same thing. */
  lemma AgreesWithMainOnPulses(t: Topics, m: map<string, Json>, pin: PinDriver, delivered: nat -> bool, fs: Store)
    requires PyInt(GetOr(m, "pulses", JInt(0))).Ok?
    requires GetOr(m, "qrcode_id", JNull) != JNull
    requires PyInt(GetOr(m, "pulses", JInt(0))).value > 0 ==> pin.initError.None?
    ensures PulseSpec(t, m, pin, delivered, fs) == MainPy.PulseSpec(t, m, pin, delivered, fs)
  {
  }

  /** Where the two callbacks part on a rejected pulse command: main.py
      publishes a single error record and no confirmation, the template
      publishes a device status record instead, or escapes. */
  lemma DiffersFromMainOnMissingQrcode(t: Topics, m: map<string, Json>, pin: PinDriver, delivered: nat -> bool, fs: Store)
    requires Distinct(t)
    requires PyInt(GetOr(m, "pulses", JInt(0))).Ok? && GetOr(m, "qrcode_id", JNull) == JNull
    ensures var r := PulseSpec(t, m, pin, delivered, fs);
      var q := MainPy.PulseSpec(t, m, pin, delivered, fs);
      && Sent(q.events, t.status) == [StatusExc("payload_error", MainPy.MissingQrcode)]
      && Sent(r.events, t.status) == [DeviceStatus("failure", JNull, None, 0, CouldNotParse(MissingQrcode))]
  {
    MissingQrcodeReported(t, m, pin, delivered, fs);
    var q := MainPy.PulseSpec(t, m, pin, delivered, fs);
    SingleEvent(q.events[0]);
  }
}
