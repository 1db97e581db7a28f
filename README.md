# Vending machine MQTT controller, modelled in Dafny

The repository is the MicroPython firmware of an ESP32 that sits in a
vending machine. It joins WiFi, connects to an MQTT broker and listens on
`vending/machine/<id>/trigger`. A pulse command blinks the camera flash
(GPIO 4) `pulses` times, then confirms on `/confirm` and reports on
`/status`. A reset command reboots the board. In `main.py` an update
command downloads a new `main.py` over HTTP and swaps it in (OTA). Every
60 s a health record goes to `/health`. A `while True` loop polls the
broker, reconnects after transport errors and resets the board after any
other error.

`main.py` is the current controller, with its settings read from
`config.json`. `main.template.py` is the earlier one: its machine id is a
constant, it has no update command, and its callback reports errors in a
different way.

The model is organised by concern:

- `values.dfy` (`Values`): decoded JSON values, Python exceptions, truthiness, `dict.get`, `in` and `int()`.
- `effects.dfy` (`Effects`): the records the controller publishes and the event log.
  - Events are publishes (with whether each one got out), pin levels, pauses and the reset.
  - Filters read a log by topic, pin level and pause.
- `pulse.dfy` (`Pulse`): the on/off pulse sequence, including a pin call that raises part-way.
- `board.dfy` (`Board`): a class holding the event log and the flash file system (`map<string, seq<byte>>`).
  - Its methods are the primitives: publish, sleep, reset, pin calls, `uos.remove`, `uos.rename`, file write, `uos.stat`.
  - It also holds the pulse loop.
- `heartbeat.dfy` (`Heartbeat`): the `publish_health_status` gate and its runs over time.
- `config.dfy` (`Config`): the `load_config` key check, the topic set and the client id.
- `supervisor.dfy` (`Supervisor`): the main loop, as a step function with a `while` method proved against it.
- `commands.dfy` (`Command`): what both callbacks share.
  - The reset command.
  - The pulse step.
  - The confirm and status records that close a pulse command.
- `runtime.dfy` (`Runtime`): a class holding the script's global state.
  - The state is the board, the topics and `last_health_check`.
  - The shared callback pieces are its methods.
- `main_py.dfy` (`MainPy`): main.py's boot, OTA update and `sub_cb`.
- `main_template.dfy` (`TemplatePy`): main.template.py's constants, boot and `sub_cb`, and how it differs from main.py.

The environment is passed in as parameters:

- `delivered(k)`: whether the `k`-th publish of one callback got out. A publish that raises counts as not delivered.
- The pin driver's set-up error and the one call at which it raises.
- The HTTP result and storage faults.
- Timestamps and memory figures.
- The outcome of each poll and whether the reconnect worked.

Each imperative operation is a method whose `ensures` ties the new state to a specification function. The lemmas state the properties of those functions.

## Model

| member | source | states |
|---|---|---|
| Values.PyInt | main.py:325 | `int(x)` raises only `ValueError` or `TypeError`. It raises `ValueError` exactly for text that is not a signed run of decimal digits, optionally surrounded by whitespace, in which `_` is skipped. An integer converts to itself |
| Values.UnderscoreIgnored | main.py:325 | a `_` between two runs of digits does not change the number `int()` reads, with or without a sign |
| Values.ParseShowInt | main.py:325 | reading back the decimal text of any integer gives that integer (`int(str(n)) == n`) |
| Values.IsInfix | main.py:63 | `k in s` on two strings holds exactly when `k` occurs at some position of `s` |
| Config.LoadConfig | main.py:54-74 | the record is returned iff it was read and decoded and every required key passes `in`. The record returned is the one read. Otherwise the result is `None` |
| Config.AcceptsObject | main.py:61-64 | for a JSON object, the check holds iff all four of `wifi_ssid`, `wifi_password`, `machine_id`, `mqtt_broker` are keys |
| Config.AcceptsList | main.py:61-64 | `in` on a list tests elements, so a list passes the check iff it holds the four key names as strings |
| Config.AcceptsText | main.py:61-64 | `in` on a string tests substrings, so a string passes the check iff all four key names occur in it |
| Config.AcceptsOnlySearchable | main.py:62-74 | numbers, booleans and null are never accepted |
| Config.TopicsDistinct | main.py:439-442 | the trigger, status, confirm and health topics of a machine are pairwise different |
| Config.TopicsInjective | main.py:438-442 | two machine ids that share any topic, or the client id, are equal |
| Heartbeat.BeatGate | main.py:137-179 | one call publishes exactly one health record when 60 s have passed and the data was prepared, and nothing otherwise. Nothing goes to other topics. The timestamp moves, to `now`, exactly when that record got out |
| Heartbeat.BeatRetriesAfterFailure | main.py:159-177 | after a due call whose preparation or publish failed, every later call is due again |
| Heartbeat.BeatRunQuiet | main.py:142 | calls that all come before `last + 60` do nothing and keep the timestamp |
| Heartbeat.AtMostOncePerInterval | main.py:140-171 | calls in time order that stay within 60 s of the first one get at most one health record out, whatever the outcomes |
| Runtime.Controller.constructor | main.template.py:298-300 | the globals after set-up: the given board and topics, and `last_health_check` equal to the boot time |
| Runtime.Controller.PublishHealthStatus | main.template.py:126-168 | the new timestamp and the records added are the ones `Heartbeat.Beat` gives for the old timestamp. Files are unchanged |
| Pulse.CyclesShape | main.py:340-344 | `k` cycles drive `2k` levels alternating on/off and request `2k` pauses alternating 200/300 ms. They publish nothing |
| Pulse.PulseSucceedsIff | main.py:339-349 | the sequence succeeds iff none of its `2n` pin calls raises |
| Pulse.PulseSuccessTrace | main.py:340-346 | on success the pin went through exactly `n` on/off pairs with 200/300 ms pauses |
| Pulse.PulseFailureTrace | main.py:347-349 | on failure the error is the one the pin raised. Exactly the calls before it took effect, fewer than `2n`, alternating. The flash is left on iff `off()` raised |
| Board.Board.Pulses | main.py:339-349 | the loop appends exactly the events of `Pulse.PulseRun` and returns its failure. Files are unchanged |
| Board.Board.Remove | main.py:228-230 | the path is gone afterwards. A missing path raises "not found" |
| Board.Board.Rename | main.py:244-251 | moves the content from `src` to `dst`, replacing `dst`. A missing `src` raises "not found" and changes nothing. A storage fault changes nothing |
| Board.Board.Write | main.py:209-210 | the file holds the content, or is left empty when the write raises |
| Board.Board.Size | main.py:214 | the size of an existing file, or "not found" |
| Command.ResetShape | main.py:293-303 | the reset command always reboots after one "resetting" record, whether or not it got out. The 1 s pause happens only if it did. No pin is driven and no file is touched |
| Runtime.Controller.ResetCommand | main.template.py:182-192 | appends exactly the events of `Command.ResetSpec` and reports the reboot |
| Command.PulseStepShape | main.py:333-356 | a count of zero or less does nothing and succeeds. Otherwise success iff no pin call among `2n` raises; then `2n` alternating levels, on failure fewer. Nothing is published |
| Runtime.Controller.PulseCommand | main.template.py:203-225 | appends the events of `Command.PulseStep` and returns its failure |
| Command.PulseReportShape | main.py:358-387 | exactly one confirmation with the action status when the QR id is truthy, none otherwise. Then exactly one status record: `pulses_requested` only for a truthy QR id, `pulses_generated` = `n` on success and 0 on failure, error text only on failure |
| Command.StatusIndependentOfConfirm | main.py:359-387 | the status record is the same whether or not the confirmation got out |
| Command.PulseAndReportShape | main.py:333-387 | a validated pulse command combines both: the success iff, the confirm and status records, and the pin trace |
| Runtime.Controller.ReportPulse | main.template.py:241-274 | appends exactly the confirm and status events of `Command.PulseReport` |
| MainPy.BootPolicy | main.py:427-477 | a missing or rejected configuration waits 10 s and resets. With a complete configuration: no WiFi returns without a reset; a failed first connect waits 10 s and resets; otherwise the device starts with the distinct topics and client id of its `machine_id` and the heartbeat clock at boot. An accepted configuration that is not an object is a list or a string, and `config['machine_id']` on it crashes the boot with a `TypeError` |
| MainPy.BootWithTextId | main.py:436-442 | a configuration whose `machine_id` is the text `id` starts with `TopicsFor(id)` and client id `"vending_" + id` |
| MainPy.Download | main.py:201-231 | after the download phase the store is either unchanged or without `main_next.py`. On a successful download the staged file holds the body |
| MainPy.SwapOut | main.py:235-248 | after the backup shuffle there is no `main.py`. `main_old.py` holds the former `main.py` if there was one and is absent otherwise. Every other file is unchanged |
| MainPy.FetchScript | main.py:202-231 | the download phase returns `download_successful` and leaves the store given by `MainPy.Download`. Nothing is published |
| MainPy.InstallScript | main.py:234-251 | the backup shuffle, then the final rename. A fault on that rename is reported and leaves the store after the shuffle |
| MainPy.PerformOtaUpdate | main.py:182-278 | the records, files and outcome are exactly those of `MainPy.OtaSpec` for the store before the call |
| MainPy.OtaDownloadFailure | main.py:196-231 | a failed download reports "ota_starting" then "ota_download_failed", pauses nowhere and does not reset. `main.py` and `main_old.py` are untouched. No staged file is left, unless the server answered with a status other than 200; then nothing changes |
| MainPy.OtaSuccess | main.py:233-263 | `main.py` holds the download and `main_next.py` is gone. `main_old.py` holds the former `main.py`, or is gone on a first deploy. No other file changes. "ota_starting" then "ota_success_rebooting", a 2 s pause, then the reset |
| MainPy.InstalledFiles | main.py:236-251 | the file-system half of a successful update, for any store |
| MainPy.OtaFinalizeFailure | main.py:236-271 | a failed final rename reports "ota_finalize_failed" with the error and does not reset. There is no rollback: no `main.py` is left, the download stays staged and `main_old.py` holds the former `main.py` |
| MainPy.PulseBranch | main.py:324-356 | the pulse branch either completes with exactly the events of `MainPy.PulseSpec`, or raises the exception whose report `MainPy.PulseSpec` gives, having done nothing |
| MainPy.SubCb | main.py:281-408 | the records, files and outcome are exactly those of `MainPy.Dispatch` for the store before the call |
| MainPy.OtherTopicIgnored | main.py:407-408 | a message on another topic does nothing, unless its payload is not UTF-8 |
| MainPy.CallbackContained | main.py:288-405 | only a non-UTF-8 payload lets an exception out of the callback. Every reboot ends the log with the reset |
| MainPy.MalformedReported | main.py:390-405 | undecodable JSON gives one "payload_error" record with the decoder's error. A non-object gives one "processing_error" record with the `AttributeError` |
| MainPy.UpdateCommand | main.py:306-321 | an update with a truthy `url` runs the OTA update for that url. Without one: a single "ota_error"/"missing_url" record, no file touched |
| MainPy.ResetCommandReboots | main.py:293-303 | a reset command reboots after one "resetting" record, with files unchanged |
| MainPy.OtherActionIsPulse | main.py:323-326 | any action other than "reset" and "update" behaves exactly like no action |
| MainPy.PulseRejected | main.py:325-336 | a bad pulse count, a missing QR id or a failing pin set-up publishes exactly one error record, routed by exception class. A missing QR id gives "payload_error" |
| MainPy.PulseCountRouting | main.py:325 | a bad pulse count is a "payload_error" exactly when it is text, and a "processing_error" otherwise |
| MainPy.PulseAccepted | main.py:333-387 | a validated pulse command succeeds iff no pin call raises. It confirms iff the QR id is truthy and always sends the status record. On success the pin trace is `n` on/off pairs |
| TemplatePy.TemplateIdentity | main.template.py:58-62 | the four topics are the `VENDING_001` strings and are distinct. The client id is `vending_VENDING_001` |
| TemplatePy.BootAgreesWithMain | main.template.py:298-334 | the template's set-up behaves as main.py's does for a configuration naming `VENDING_001`: both start, fail on WiFi, or wait 10 s and reset on the same network outcomes, never crash, and a start has the template's topics, client id and the boot time as heartbeat clock |
| TemplatePy.SubCb | main.template.py:171-278 | the records and outcome are exactly those of `TemplatePy.Dispatch` |
| TemplatePy.NoUpdateCommand | main.template.py:182-195 | every action but "reset", "update" included, behaves exactly like no action. No file is touched |
| TemplatePy.ResetCommandReboots | main.template.py:182-192 | a reset command reboots after one "resetting" record |
| TemplatePy.MalformedEscapes | main.template.py:179-242 | undecodable JSON, a non-object, or a pulse count that `int()` rejects publishes nothing. The unbound-variable error escapes the callback |
| TemplatePy.MalformedResetsDevice | main.template.py:361-364 | undecodable JSON or a non-object payload publishes nothing, and the main loop then waits 10 s and resets the device |
| TemplatePy.MissingQrcodeReported | main.template.py:200-274 | a missing QR id sends no confirmation and one status record: "failure", no QR id, no pulse count, 0 generated, and the parse error |
| TemplatePy.PinSetupFailure | main.template.py:203-274 | a pin that cannot be set up gives a "failure" confirmation for a truthy QR id. The status record has 0 generated and the error under its handler's heading. No pin level is driven |
| TemplatePy.AgreesWithMainOnPulses | main.template.py:203-274 | on a validated pulse command both callbacks do exactly the same thing |
| TemplatePy.DiffersFromMainOnMissingQrcode | main.template.py:200-274 | on a missing QR id, main.py sends a "payload_error" record and the template a "failure" device status record |
| Supervisor.Run | main.py:479-507 | the loop's state, pauses, heartbeat calls and resets are exactly `Supervisor.RunSpec` of the iterations |
| Supervisor.HaltedStays | main.py:504-507 | once the device has reset, later iterations change nothing |
| Supervisor.HaltsIffFatal | main.py:480-507 | the device halts iff some iteration rebooted or raised something other than `OSError`. The loop resets at most once |
| Supervisor.TransportErrorsNeverReset | main.py:493-503 | any number of transport errors, with reconnects failing or not, never resets the device |
| Supervisor.StepPolicy | main.template.py:336-364 | a poll that returns: one heartbeat and 0.1 s. `OSError`: 5 s and a reconnect, then either serving again or 10 s more and still looping. Any other error: 10 s and a reset. A reboot ends the loop |
| Supervisor.HeartbeatsCountPolls | main.py:485-491 | before any halt, the heartbeat runs once per poll that returned |

## Left out

- qr_esp32.py is not part of this model: a single `msg == b'1'` check toggling a pin.
- `connect_wifi`, the MQTT socket and `urequests` are not modelled; only their success or failure is passed in.
- JSON encoding and decoding are not modelled: a payload arrives as a decoded value or a decoding error, and `ujson.dumps` cannot fail on the values modelled.
- JSON floating-point numbers are not modelled, so neither is `int()` truncating them.
- `check_memory`, `gc` and `time.time()` are not modelled: their values are integers passed in.
- `indicate_reset`, the 3 s boot flash, is not modelled. Its errors are swallowed and it changes no state the model tracks.
- `print` logging is not modelled.
- `time.sleep` is recorded as a pause in milliseconds, not as time passing.
- `machine.reset()` is recorded as a terminal event and outcome, not as a reboot.
- The non-UTF-8 topic name is not modelled: `topic.decode()` raises in the same place as `msg.decode()`, and only the payload case is modelled.
- Values.PyInt: non-ASCII digits are rejected, as in MicroPython. A `_` is skipped wherever it appears among the digits, following MicroPython's parser; CPython accepts one only between two digits.
- Exception texts raised by the interpreter follow MicroPython wording only approximately. Only the exception class matters to any property.
- Config.IdText: a list or object `machine_id` is rendered as a placeholder rather than as Python's `str()` of it.
- MainPy.InstallScript: the source ignores any `OSError` from the first `uos.remove` and `uos.rename`, printing it and going on to the final rename. The model injects only the "not found" case there. Since every storage fault is an `OSError`, the remaining storage errors would take the same path.
- MainPy.FetchScript: a fault raised by `uos.stat` or by `response.close()` is not modelled.
- Heartbeat.Beat: an `OSError` and any other exception from the health publish are both "not delivered"; the source treats them alike.
- Supervisor.RunSpec: the loop is modelled over a finite prefix of its iterations.
- The boot sequence's two handlers for the first connect (`OSError` and any other exception) act the same, so the model has a single "connect failed" input.
