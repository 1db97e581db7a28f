/** The script's global state once `main()` has set it up: the connected
    client and board it drives, the topic set and `last_health_check`, with
    the operations both callbacks share. */
module Runtime {
  import opened Values
  import opened Effects
  import opened Pulse
  import opened Config
  import opened Board
  import opened Heartbeat
  import opened Command

  class Controller {
    const board: Board
    const topics: Topics
    var lastHealthCheck: int

    /** The globals as `main()` leaves them before its loop: topics derived,
        `last_health_check = time.time()` at boot. */
    constructor (board: Board, topics: Topics, bootTime: int)
      ensures this.board == board && this.topics == topics && lastHealthCheck == bootTime
    {
      this.board := board;
      this.topics := topics;
      lastHealthCheck := bootTime;
    }

    /** `publish_health_status(client)` at time `now`: the specification is `Beat`. */
    method PublishHealthStatus(now: int, sample: Sample, delivered: bool)
      modifies this`lastHealthCheck, board
      ensures var r := Beat(topics.health, old(lastHealthCheck), now, sample, delivered);
        lastHealthCheck == r.last && board.events == old(board.events) + r.events
      ensures board.files == old(board.files)
    {
      if now - lastHealthCheck >= Interval {
        match sample {
          case PrepFailed =>
            return;
          case Sampled(uptime, memFree, memAlloc) =>
            board.Publish(topics.health, Health(uptime, memFree, memAlloc), delivered);
            if delivered {
              lastHealthCheck := now;
            }
        }
      }
    }

    /** The reset branch of `sub_cb`. */
    method ResetCommand(delivered: nat -> bool) returns (outcome: Outcome)
      modifies board
      ensures var r := ResetSpec(topics, delivered, old(board.files));
        board.events == old(board.events) + r.events && board.files == r.files && outcome == r.outcome
    {
      board.Publish(topics.status, Status("resetting"), delivered(0));
      if delivered(0) {
        board.Sleep(1000);
      }
      board.Reset();
      return Rebooted;
    }

    /** `if num_pulses > 0: ... for i in range(num_pulses): ...`, once the pin exists. */
    method PulseCommand(n: int, fault: PinFault) returns (failure: Option<Exc>)
      modifies board
      ensures board.events == old(board.events) + PulseStep(n, fault).events
      ensures failure == PulseStep(n, fault).failure
      ensures board.files == old(board.files)
    {
      if n > 0 {
        failure := board.Pulses(n as nat, fault);
      } else {
        failure := None;
      }
    }

    /** The confirmation (when the QR id is truthy) and the device status record. */
    method ReportPulse(qr: Json, n: int, ok: bool, detail: Detail, delivered: nat -> bool)
      modifies board
      ensures board.events == old(board.events) + PulseReport(topics, qr, n, ok, detail, delivered)
      ensures board.files == old(board.files)
    {
      var k := 0;
      if Truthy(qr) {
        board.Publish(topics.confirm, Confirm(qr, StatusWord(ok)), delivered(0));
        k := 1;
      }
      board.Publish(topics.status, StatusRecord(qr, n, ok, detail), delivered(k));
    }
  }
}
