/** main.py, the OTA-capable controller: boot from `config.json`, the OTA
    update and the message callback with its reset, update and pulse commands. */
module MainPy {
  import opened Values
  import opened Effects
  import opened Pulse
  import opened Config
  import opened Board
  import opened Command
  import opened Runtime

  // ---------------------------------------------------------------------------
  // Boot

  /** How `main()` ends its set-up: ready to serve, reset after a 10 s pause
      (no configuration, or the first connect failed), returned without a
      reset (no WiFi), or crashed with an exception. */
  datatype Boot =
    | Started(topics: Topics, clientId: string, lastHealthCheck: int)
    | FatalReset(delays: seq<nat>)
    | WifiFailed
    | Crashed(e: Exc)

  /** `config['machine_id']` on an accepted configuration that is not an object. */
  function IndexError(j: Json): (e: Exc)
    requires !j.JObject?
    ensures e.kind == TypeError
  {
    Error(TypeError, TypeName(j) + " indices must be integers, not str")
  }

  /** The set-up part of `main()`: `load_config()`, topics and client id from
      `machine_id`, `last_health_check = time.time()`, `connect_wifi`, the
      first connect and subscribe. */
  function MainBoot(read: ConfigRead, bootTime: int, wifiOk: bool, connectOk: bool): Boot
  {
    if !(read.Parsed? && Accepts(read.value)) then FatalReset([10000])
    else if !read.value.JObject? then Crashed(IndexError(read.value))
    else
      AcceptsObject(read.value.fields);
      var id := IdText(read.value.fields["machine_id"]);
      if !wifiOk then WifiFailed
      else if !connectOk then FatalReset([10000])
      else Started(TopicsFor(id), ClientId(id), bootTime)
  }

  /** A missing or incomplete configuration, or a failed first connection,
      resets the device after 10 s; a WiFi failure stops without a reset; a
      complete configuration with a working network starts with the four
      distinct topics of its machine id and the heartbeat clock at boot. */
  lemma BootPolicy(read: ConfigRead, bootTime: int, wifiOk: bool, connectOk: bool)
    ensures var b := MainBoot(read, bootTime, wifiOk, connectOk);
      && (!(read.Parsed? && Accepts(read.value)) ==> b == FatalReset([10000]))
      && (read.Parsed? && read.value.JObject? && Accepts(read.value) ==>
            && (!wifiOk ==> b == WifiFailed)
            && (wifiOk && !connectOk ==> b == FatalReset([10000]))
            && (wifiOk && connectOk ==>
                  b.Started? && Distinct(b.topics) && b.lastHealthCheck == bootTime
                  && b.topics == TopicsFor(IdText(GetOr(read.value.fields, "machine_id", JNull)))
                  && b.clientId == "vending_" + IdText(GetOr(read.value.fields, "machine_id", JNull))))
      && (read.Parsed? && Accepts(read.value) && !read.value.JObject? ==>
            (read.value.JArray? || read.value.JStr?) && b.Crashed? && b.e.kind == TypeError)
      && (b.Started? ==> read.Parsed? && read.value.JObject? && wifiOk && connectOk)
  {
    if read.Parsed? && Accepts(read.value) {
      AcceptsOnlySearchable(read.value);
    }
    if read.Parsed? && read.value.JObject? && Accepts(read.value) {
      AcceptsObject(read.value.fields);
      TopicsDistinct(IdText(read.value.fields["machine_id"]));
    }
  }

  /** A configuration holding the four keys as text starts with the topics of
      that machine id. */
  lemma BootWithTextId(fields: map<string, Json>, id: string, bootTime: int)
    requires "wifi_ssid" in fields && "wifi_password" in fields && "mqtt_broker" in fields
    requires "machine_id" in fields && fields["machine_id"] == JStr(id)
    ensures MainBoot(Parsed(JObject(fields)), bootTime, true, true)
         == Started(TopicsFor(id), "vending_" + id, bootTime)
  {
    AcceptsObject(fields);
  }

  // ---------------------------------------------------------------------------
  // OTA update

  const Staged: string := "main_next.py"
  const Backup: string := "main_old.py"
  const Live: string := "main.py"

  /** What `urequests.get(url)` did: a response, or an exception. */
  datatype HttpResult = Response(statusCode: int, body: seq<byte>) | HttpRaised(e: Exc)

  /** The injected environment of one update: the download, a storage fault
      while writing the staged file, and one on the final rename. */
  datatype OtaEnv = OtaEnv(http: HttpResult, writeFault: Option<Exc>, finalFault: Option<Exc>)

  /** `download_successful`: status 200, the write succeeded, the file is not empty. */
  predicate DownloadOk(env: OtaEnv)
  {
    env.http.Response? && env.http.statusCode == 200 && env.writeFault.None? && |env.http.body| > 0
  }

  /** The file system after the download phase. A raised request or a failed
      write deletes the staged file, even a stale one; an empty body is written
      then deleted; any other status code leaves the store as it was. */
  function Download(env: OtaEnv, fs: Store): (r: Store)
    ensures DownloadOk(env) ==> r == fs[Staged := env.http.body]
    ensures !DownloadOk(env) ==> r == fs || r == fs - {Staged}
  {
    match env.http
    case HttpRaised(_) => fs - {Staged}
    case Response(code, body) =>
      if code != 200 then fs
      else if DownloadOk(env) then fs[Staged := body]
      else fs - {Staged}
  }

  /** Remove the old backup (if any), then move the live script to the backup
      slot (if there is one). */
  function SwapOut(fs: Store): (r: Store)
    ensures Live !in r
    ensures Live in fs ==> Backup in r && r[Backup] == fs[Live]
    ensures Live !in fs ==> Backup !in r
    ensures forall p :: p != Live && p != Backup ==> (p in r <==> p in fs) && (p in fs ==> r[p] == fs[p])
  {
    var cleared := fs - {Backup};
    if Live in cleared then (cleared - {Live})[Backup := cleared[Live]] else cleared
  }

  /** `perform_ota_update(url)`; `delivered(k)` says whether its `k`-th publish got out. */
  function OtaSpec(t: Topics, url: Json, env: OtaEnv, fs: Store, delivered: nat -> bool): Reaction
  {
    var starting := Publish(t.status, StatusUrl("ota_starting", url), delivered(0));
    var downloaded := Download(env, fs);
    if !DownloadOk(env) then
      Reaction([starting, Publish(t.status, Status("ota_download_failed"), delivered(1))], downloaded, Continue)
    else
      var swapped := SwapOut(downloaded);
      match env.finalFault
      case Some(e) =>
        Reaction([starting, Publish(t.status, StatusExc("ota_finalize_failed", e), delivered(1))], swapped, Continue)
      case None =>
        Reaction([starting, Publish(t.status, Status("ota_success_rebooting"), delivered(1)), Sleep(2000), Reset],
                 Installed(swapped), Rebooted)
  }

  /** The final `uos.rename('main_next.py', 'main.py')`. */
  function Installed(fs: Store): Store
    requires Staged in fs
  {
    (fs - {Staged})[Live := fs[Staged]]
  }

  /** The download phase of `perform_ota_update`: fetch, write the staged
      file, check its size, clean up on failure. */
  method FetchScript(board: Board, env: OtaEnv) returns (downloadOk: bool)
    modifies board
    ensures downloadOk == DownloadOk(env)
    ensures board.files == Download(env, old(board.files))
    ensures board.events == old(board.events)
  {
    downloadOk := false;
    match env.http {
      case HttpRaised(_) =>
        var missing := board.Remove(Staged);
      case Response(code, body) =>
        if code == 200 {
          var err := board.Write(Staged, body, env.writeFault);
          if err.Some? {
            var missing := board.Remove(Staged);
            assert board.files == old(board.files) - {Staged};
          } else {
            var size := board.Size(Staged);
            if size.Ok? && size.value > 0 {
              downloadOk := true;
            } else {
              var missing := board.Remove(Staged);
              assert board.files == old(board.files) - {Staged};
            }
          }
        }
    }
  }

  /** The finalisation phase of `perform_ota_update`: the backup shuffle,
      whose errors are ignored, then the rename that installs the download. */
  method InstallScript(board: Board, fault: Option<Exc>) returns (err: Option<Exc>)
    requires Staged in board.files
    modifies board
    ensures err == fault
    ensures board.files == (if fault.Some? then SwapOut(old(board.files)) else Installed(SwapOut(old(board.files))))
    ensures board.events == old(board.events)
  {
    var noBackup := board.Remove(Backup);
    var noLive := board.Rename(Live, Backup, None);
    assert board.files == SwapOut(old(board.files));
    err := board.Rename(Staged, Live, fault);
  }

  /** `perform_ota_update(url)` on the controller's board. */
  method PerformOtaUpdate(c: Controller, url: Json, env: OtaEnv, delivered: nat -> bool) returns (outcome: Outcome)
    modifies c.board
    ensures var r := OtaSpec(c.topics, url, env, old(c.board.files), delivered);
      c.board.events == old(c.board.events) + r.events && c.board.files == r.files && outcome == r.outcome
  {
    var board := c.board;
    ghost var spec := OtaSpec(c.topics, url, env, board.files, delivered);
    ghost var before := board.events;
    board.Publish(c.topics.status, StatusUrl("ota_starting", url), delivered(0));
    var downloadOk := FetchScript(board, env);
    if !downloadOk {
      board.Publish(c.topics.status, Status("ota_download_failed"), delivered(1));
      assert board.events == before + spec.events;
      return Continue;
    }
    var err := InstallScript(board, env.finalFault);
    if err.Some? {
      board.Publish(c.topics.status, StatusExc("ota_finalize_failed", err.value), delivered(1));
      assert board.events == before + spec.events;
      return Continue;
    }
    board.Publish(c.topics.status, Status("ota_success_rebooting"), delivered(1));
    board.Sleep(2000);
    board.Reset();
    assert board.events == before + spec.events;
    return Rebooted;
  }

  /** Two files are the same at one path: both absent, or both present with equal content. */
  predicate SameAt(a: Store, b: Store, p: string)
  {
    (p in a <==> p in b) && (p in a ==> a[p] == b[p])
  }

  /** A failed download reports "ota_starting" then "ota_download_failed", never
      resets, leaves the live script and the backup untouched, and leaves no
      staged file behind unless the server answered with a status other than 200. */
  lemma OtaDownloadFailure(t: Topics, url: Json, env: OtaEnv, fs: Store, delivered: nat -> bool)
    requires !DownloadOk(env)
    ensures var r := OtaSpec(t, url, env, fs, delivered);
      && r.outcome == Continue && Reset !in r.events
      && Sent(r.events, t.status) == [StatusUrl("ota_starting", url), Status("ota_download_failed")]
      && Sleeps(r.events) == [] && PinTrace(r.events) == []
      && SameAt(r.files, fs, Live) && SameAt(r.files, fs, Backup)
      && (env.http.Response? && env.http.statusCode != 200 ==> r.files == fs)
      && (!(env.http.Response? && env.http.statusCode != 200) ==> Staged !in r.files)
  {
    var r := OtaSpec(t, url, env, fs, delivered);
    var last := Publish(t.status, Status("ota_download_failed"), delivered(1));
    assert r.events == [r.events[0]] + [last];
    Cons(r.events[0], [last]);
    SingleEvent(last);
  }

  /** A successful update puts the download in place of main.py, keeps the
      previous main.py (if any) as main_old.py, leaves no staged file, reports
      "ota_starting" then "ota_success_rebooting", pauses 2 s and resets. No
      other file changes. */
  lemma OtaSuccess(t: Topics, url: Json, env: OtaEnv, fs: Store, delivered: nat -> bool)
    requires DownloadOk(env) && env.finalFault.None?
    ensures var r := OtaSpec(t, url, env, fs, delivered);
      && r.outcome == Rebooted && r.events[|r.events| - 1] == Reset
      && Sent(r.events, t.status) == [StatusUrl("ota_starting", url), Status("ota_success_rebooting")]
      && Sleeps(r.events) == [2000]
      && Live in r.files && r.files[Live] == env.http.body
      && Staged !in r.files
      && (Live in fs ==> Backup in r.files && r.files[Backup] == fs[Live])
      && (Live !in fs ==> Backup !in r.files)
      && forall p :: p != Live && p != Backup && p != Staged ==> SameAt(r.files, fs, p)
  {
    var r := OtaSpec(t, url, env, fs, delivered);
    var e := r.events;
    var tail: seq<Event> := [Sleep(2000), Reset];
    assert e == [e[0]] + ([e[1]] + tail);
    Cons(e[0], [e[1]] + tail);
    Cons(e[1], tail);
    assert tail == [Sleep(2000)] + [Reset];
    Cons(Sleep(2000), [Reset]);
    SingleEvent(Reset);
    InstalledFiles(env.http.body, fs);
  }

  /** The store after staging `body` and running both renames. */
  lemma InstalledFiles(body: seq<byte>, fs: Store)
    ensures var swapped := SwapOut(fs[Staged := body]);
      var r := Installed(swapped);
      && Live in r && r[Live] == body && Staged !in r
      && (Live in fs ==> Backup in r && r[Backup] == fs[Live])
      && (Live !in fs ==> Backup !in r)
      && forall p :: p != Live && p != Backup && p != Staged ==> SameAt(r, fs, p)
  {
    var staged := fs[Staged := body];
    var swapped := SwapOut(staged);
    assert Staged in swapped && swapped[Staged] == body;
    var r := Installed(swapped);
    forall p | p != Live && p != Backup && p != Staged
      ensures SameAt(r, fs, p)
    {
      assert SameAt(swapped, staged, p);
    }
  }

  /** When the final rename fails the update reports "ota_finalize_failed" with
      the error and carries on without a reset, and there is no rollback: the
      previous main.py sits in main_old.py and no main.py is left. */
  lemma OtaFinalizeFailure(t: Topics, url: Json, env: OtaEnv, fs: Store, delivered: nat -> bool)
    requires DownloadOk(env) && env.finalFault.Some?
    ensures var r := OtaSpec(t, url, env, fs, delivered);
      && r.outcome == Continue && Reset !in r.events
      && Sent(r.events, t.status) == [StatusUrl("ota_starting", url), StatusExc("ota_finalize_failed", env.finalFault.value)]
      && Live !in r.files
      && Staged in r.files && r.files[Staged] == env.http.body
      && (Live in fs ==> Backup in r.files && r.files[Backup] == fs[Live])
  {
    var r := OtaSpec(t, url, env, fs, delivered);
    var last := Publish(t.status, StatusExc("ota_finalize_failed", env.finalFault.value), delivered(1));
    assert r.events == [r.events[0]] + [last];
    Cons(r.events[0], [last]);
    SingleEvent(last);
  }

  // ---------------------------------------------------------------------------
  // Message callback

  const MissingQrcode: Exc := Error(ValueError, "Missing 'qrcode_id' in payload for pulse action")

  /** The handler an exception inside the `try` reaches. */
  function Handler(e: Exc): string
  {
    if e.kind == ValueError then "payload_error" else "processing_error"
  }

  /** The single record `except ValueError` or `except Exception` publishes. */
  function ErrorReport(t: Topics, e: Exc, delivered: nat -> bool, fs: Store): Reaction
  {
    Reaction([Publish(t.status, StatusExc(Handler(e), e), delivered(0))], fs, Continue)
  }

  /** The pulse branch, for an action that is neither "reset" nor "update". */
  function PulseSpec(t: Topics, m: map<string, Json>, pin: PinDriver, delivered: nat -> bool, fs: Store): Reaction
  {
    match PyInt(GetOr(m, "pulses", JInt(0)))
    case Err(e) => ErrorReport(t, e, delivered, fs)
    case Ok(n) =>
      var qr := GetOr(m, "qrcode_id", JNull);
      if qr == JNull then ErrorReport(t, MissingQrcode, delivered, fs)
      else if n > 0 && pin.initError.Some? then ErrorReport(t, pin.initError.value, delivered, fs)
      else
        Reaction(PulseAndReport(t, qr, n, pin.fault, delivered), fs, Continue)
  }

  /** `sub_cb(topic, msg)` of main.py. */
  function Dispatch(t: Topics, topic: string, payload: Payload, pin: PinDriver, env: OtaEnv,
                    delivered: nat -> bool, fs: Store): Reaction
  {
    if payload.NotUtf8? then Reaction([], fs, Escaped(UnicodeFailure))
    else if topic != t.trigger then Reaction([], fs, Continue)
    else match payload
      case Undecodable(detail) => ErrorReport(t, Error(ValueError, detail), delivered, fs)
      case Decoded(j) =>
        if !j.JObject? then ErrorReport(t, NoGet(j), delivered, fs)
        else
          var action := GetOr(j.fields, "action", JNull);
          if action == JStr("reset") then ResetSpec(t, delivered, fs)
          else if action == JStr("update") then
            var url := GetOr(j.fields, "url", JNull);
            if Truthy(url) then OtaSpec(t, url, env, fs, delivered)
            else Reaction([Publish(t.status, StatusText("ota_error", "missing_url"), delivered(0))], fs, Continue)
          else PulseSpec(t, j.fields, pin, delivered, fs)
  }

  /** The pulse branch inside the `try`: it completes, or raises the
      exception that the handlers then report. */
  method PulseBranch(c: Controller, m: map<string, Json>, pin: PinDriver, delivered: nat -> bool)
    returns (raised: Option<Exc>)
    modifies c.board
    ensures var r := PulseSpec(c.topics, m, pin, delivered, old(c.board.files));
      && (raised.None? ==> c.board.events == old(c.board.events) + r.events && r.outcome == Continue)
      && (raised.Some? ==> c.board.events == old(c.board.events) && r == ErrorReport(c.topics, raised.value, delivered, old(c.board.files)))
      && c.board.files == old(c.board.files) && r.files == old(c.board.files)
  {
    var pulses := PyInt(GetOr(m, "pulses", JInt(0)));
    if pulses.Err? {
      return Some(pulses.error);
    }
    var n := pulses.value;
    var qr := GetOr(m, "qrcode_id", JNull);
    if qr == JNull {
      return Some(MissingQrcode);
    }
    if n > 0 && pin.initError.Some? {
      return pin.initError;
    }
    var failure := c.PulseCommand(n, pin.fault);
    var ok := failure.None?;
    c.ReportPulse(qr, n, ok, if ok then NoDetail else PulseFailed(qr, failure.value), delivered);
    return None;
  }

  /** `sub_cb(topic, msg)` on the controller's board. */
  method SubCb(c: Controller, topic: string, payload: Payload, pin: PinDriver, env: OtaEnv, delivered: nat -> bool)
    returns (outcome: Outcome)
    modifies c.board
    ensures var r := Dispatch(c.topics, topic, payload, pin, env, delivered, old(c.board.files));
      c.board.events == old(c.board.events) + r.events && c.board.files == r.files && outcome == r.outcome
  {
    if payload.NotUtf8? {
      return Escaped(UnicodeFailure);
    }
    if topic != c.topics.trigger {
      return Continue;
    }
    var raised: Exc;
    match payload {
      case Undecodable(detail) =>
        raised := Error(ValueError, detail);
      case Decoded(j) =>
        if !j.JObject? {
          raised := NoGet(j);
        } else {
          var m := j.fields;
          var action := GetOr(m, "action", JNull);
          if action == JStr("reset") {
            outcome := c.ResetCommand(delivered);
            return;
          } else if action == JStr("update") {
            var url := GetOr(m, "url", JNull);
            if Truthy(url) {
              outcome := PerformOtaUpdate(c, url, env, delivered);
            } else {
              c.board.Publish(c.topics.status, StatusText("ota_error", "missing_url"), delivered(0));
              outcome := Continue;
            }
            return;
          }
          var pulseError := PulseBranch(c, m, pin, delivered);
          if pulseError.None? {
            return Continue;
          }
          raised := pulseError.value;
        }
    }
    c.board.Publish(c.topics.status, StatusExc(Handler(raised), raised), delivered(0));
    return Continue;
  }

  // ---------------------------------------------------------------------------
  // Properties of the callback

  /** Messages on any topic but the trigger topic are ignored, and a payload
      that is not UTF-8 escapes the callback before the topic is looked at. */
  lemma OtherTopicIgnored(t: Topics, topic: string, payload: Payload, pin: PinDriver, env: OtaEnv,
                          delivered: nat -> bool, fs: Store)
    requires topic != t.trigger
    ensures Dispatch(t, topic, payload, pin, env, delivered, fs)
         == if payload.NotUtf8? then Reaction([], fs, Escaped(UnicodeFailure)) else Reaction([], fs, Continue)
  {
  }

  /** main.py lets no exception out of the callback except the decoding
      error, so on a well-formed payload the supervisor loop never resets the
      device on its own; only the reset command and a successful update reboot. */
  lemma CallbackContained(t: Topics, topic: string, payload: Payload, pin: PinDriver, env: OtaEnv,
                          delivered: nat -> bool, fs: Store)
    ensures var r := Dispatch(t, topic, payload, pin, env, delivered, fs);
      && (r.outcome.Escaped? <==> payload.NotUtf8?)
      && (r.outcome.Rebooted? ==> r.events != [] && r.events[|r.events| - 1] == Reset)
  {
    var r := Dispatch(t, topic, payload, pin, env, delivered, fs);
    if !payload.NotUtf8? && topic == t.trigger && payload.Decoded? && payload.value.JObject? {
      var m := payload.value.fields;
      var action := GetOr(m, "action", JNull);
      if action == JStr("reset") {
        ResetShape(t, delivered, fs);
      } else if action == JStr("update") && Truthy(GetOr(m, "url", JNull)) {
        if DownloadOk(env) && env.finalFault.None? {
          OtaSuccess(t, GetOr(m, "url", JNull), env, fs, delivered);
        }
      }
    }
  }

  /** A payload `ujson.loads` rejects is a payload error; a decoded value
      that is not an object fails at `.get` and is a processing error. Either
      way one record goes out and nothing else happens. */
  lemma MalformedReported(t: Topics, payload: Payload, pin: PinDriver, env: OtaEnv, delivered: nat -> bool, fs: Store)
    requires payload.Undecodable? || (payload.Decoded? && !payload.value.JObject?)
    ensures var r := Dispatch(t, t.trigger, payload, pin, env, delivered, fs);
      && r.outcome == Continue && r.files == fs && |r.events| == 1
      && r.events[0].Publish? && r.events[0].topic == t.status && r.events[0].msg.StatusExc?
      && (payload.Undecodable? ==> r.events[0].msg == StatusExc("payload_error", Error(ValueError, payload.detail)))
      && (payload.Decoded? ==> r.events[0].msg.status == "processing_error"
                               && r.events[0].msg.error.kind == AttributeError)
  {
  }

  /** An update command with a truthy url runs the update; one without
      reports "ota_error"/"missing_url" and does nothing else. */
  lemma UpdateCommand(t: Topics, m: map<string, Json>, pin: PinDriver, env: OtaEnv, delivered: nat -> bool, fs: Store)
    requires GetOr(m, "action", JNull) == JStr("update")
    ensures var r := Dispatch(t, t.trigger, Decoded(JObject(m)), pin, env, delivered, fs);
      && (Truthy(GetOr(m, "url", JNull)) ==> r == OtaSpec(t, GetOr(m, "url", JNull), env, fs, delivered))
      && (!Truthy(GetOr(m, "url", JNull)) ==>
            r.outcome == Continue && r.files == fs
            && r.events == [Publish(t.status, StatusText("ota_error", "missing_url"), delivered(0))])
  {
  }

  /** The reset command reboots after one "resetting" record. */
  lemma ResetCommandReboots(t: Topics, m: map<string, Json>, pin: PinDriver, env: OtaEnv, delivered: nat -> bool, fs: Store)
    requires GetOr(m, "action", JNull) == JStr("reset")
    ensures var r := Dispatch(t, t.trigger, Decoded(JObject(m)), pin, env, delivered, fs);
      && r.outcome == Rebooted && r.files == fs
      && Sent(r.events, t.status) == [Status("resetting")]
      && r.events[|r.events| - 1] == Reset
  {
    ResetShape(t, delivered, fs);
  }

  /** An action other than "reset" and "update" is the same as no action: the pulse command. */
  lemma OtherActionIsPulse(t: Topics, m: map<string, Json>, pin: PinDriver, env: OtaEnv, delivered: nat -> bool, fs: Store)
    requires GetOr(m, "action", JNull) != JStr("reset") && GetOr(m, "action", JNull) != JStr("update")
    ensures Dispatch(t, t.trigger, Decoded(JObject(m)), pin, env, delivered, fs)
         == Dispatch(t, t.trigger, Decoded(JObject(m - {"action"})), pin, env, delivered, fs)
  {
    var m' := m - {"action"};
    assert GetOr(m', "pulses", JInt(0)) == GetOr(m, "pulses", JInt(0));
    assert GetOr(m', "qrcode_id", JNull) == GetOr(m, "qrcode_id", JNull);
  }

  /** Rejected pulse commands publish exactly one error record, with the
      exception routed by its class, and neither drive the pin nor confirm. */
  lemma PulseRejected(t: Topics, m: map<string, Json>, pin: PinDriver, delivered: nat -> bool, fs: Store)
    requires PyInt(GetOr(m, "pulses", JInt(0))).Err?
          || GetOr(m, "qrcode_id", JNull) == JNull
          || (PyInt(GetOr(m, "pulses", JInt(0))).Ok? && PyInt(GetOr(m, "pulses", JInt(0))).value > 0 && pin.initError.Some?)
    ensures var r := PulseSpec(t, m, pin, delivered, fs);
      && r.outcome == Continue && r.files == fs && |r.events| == 1
      && r.events[0].Publish? && r.events[0].topic == t.status
      && r.events[0].msg.StatusExc?
      && r.events[0].msg.status == Handler(r.events[0].msg.error)
      && (PyInt(GetOr(m, "pulses", JInt(0))).Err? ==> r.events[0].msg.error == PyInt(GetOr(m, "pulses", JInt(0))).error)
      && (PyInt(GetOr(m, "pulses", JInt(0))).Ok? && GetOr(m, "qrcode_id", JNull) == JNull ==>
            r.events[0].msg == StatusExc("payload_error", MissingQrcode))
  {
  }

  /** A non-numeric text pulse count is a payload error; a list, object or null is a processing error. */
  lemma PulseCountRouting(t: Topics, m: map<string, Json>, pin: PinDriver, delivered: nat -> bool, fs: Store)
    requires PyInt(GetOr(m, "pulses", JInt(0))).Err?
    ensures var r := PulseSpec(t, m, pin, delivered, fs);
      r.events[0].Publish? && r.events[0].msg.StatusExc? &&
      (r.events[0].msg.status == "payload_error" <==> GetOr(m, "pulses", JInt(0)).JStr?)
  {
  }

  /** An accepted pulse command runs the sequence and then reports: exactly
      one confirmation when the QR id is truthy, exactly one status record
      whatever became of the confirmation. Success means no pin call raised,
      and then the pin went through `n` on/off pairs. */
  lemma PulseAccepted(t: Topics, m: map<string, Json>, pin: PinDriver, delivered: nat -> bool, fs: Store)
    requires Distinct(t)
    requires PyInt(GetOr(m, "pulses", JInt(0))).Ok?
    requires GetOr(m, "qrcode_id", JNull) != JNull
    requires PyInt(GetOr(m, "pulses", JInt(0))).value > 0 ==> pin.initError.None?
    ensures var n := PyInt(GetOr(m, "pulses", JInt(0))).value;
      var qr := GetOr(m, "qrcode_id", JNull);
      var run := PulseStep(n, pin.fault);
      var ok := run.failure.None?;
      var r := PulseSpec(t, m, pin, delivered, fs);
      && r.outcome == Continue && r.files == fs
      && (ok <==> forall k :: 0 <= k < 2 * n ==> FaultAt(pin.fault, k).None?)
      && Sent(r.events, t.confirm) == (if Truthy(qr) then [Confirm(qr, StatusWord(ok))] else [])
      && Sent(r.events, t.status) == [StatusRecord(qr, n, ok, if ok then NoDetail else PulseFailed(qr, run.failure.value))]
      && Alternating(PinTrace(r.events))
      && (ok ==> |PinTrace(r.events)| == 2 * (if n > 0 then n else 0))
      && (!ok ==> |PinTrace(r.events)| < 2 * n)
  {
    var n := PyInt(GetOr(m, "pulses", JInt(0))).value;
    PulseAndReportShape(t, GetOr(m, "qrcode_id", JNull), n, pin.fault, delivered);
  }
}
