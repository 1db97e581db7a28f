/** The device as the controller drives it: the MQTT client it publishes
    through, the flash pin, `time.sleep`, `machine.reset()` and the flash file
    system (`uos`). Everything observable is appended to `events`; the file
    system is a map from path to content. */
module Board {
  import opened Values
  import opened Effects
  import opened Pulse

  type Store = map<string, seq<byte>>

  /** The `OSError` that `uos.remove` and `uos.rename` raise for a missing file. */
  const NotFound: Exc := Error(OSError, "[Errno 2] ENOENT")

  class Board {
    var events: seq<Event>
    var files: Store

    constructor (files: Store)
      ensures this.events == [] && this.files == files
    {
      this.events := [];
      this.files := files;
    }

    /** `client.publish(topic, record)`; whether the transport accepted it is injected. */
    method Publish(topic: string, msg: Msg, delivered: bool)
      modifies this
      ensures events == old(events) + [Event.Publish(topic, msg, delivered)]
      ensures files == old(files)
    {
      events := events + [Event.Publish(topic, msg, delivered)];
    }

    /** `time.sleep(ms / 1000)`. */
    method Sleep(ms: nat)
      modifies this
      ensures events == old(events) + [Event.Sleep(ms)]
      ensures files == old(files)
    {
      events := events + [Event.Sleep(ms)];
    }

    /** `machine.reset()`: the last thing the running script does. */
    method Reset()
      modifies this
      ensures events == old(events) + [Event.Reset]
      ensures files == old(files)
    {
      events := events + [Event.Reset];
    }

    /** `flash.on()` / `flash.off()`; the call either takes effect or raises `fault`. */
    method DrivePin(on: bool, fault: Option<Exc>) returns (err: Option<Exc>)
      modifies this
      ensures err == fault
      ensures events == old(events) + (if fault.None? then [Event.Pin(on)] else [])
      ensures files == old(files)
    {
      err := fault;
      if fault.None? {
        events := events + [Event.Pin(on)];
      }
    }

    /** The `for i in range(num_pulses)` loop of the pulse handler. */
    method Pulses(n: nat, fault: PinFault) returns (failure: Option<Exc>)
      modifies this
      ensures events == old(events) + PulseRun(n, fault).events
      ensures failure == PulseRun(n, fault).failure
      ensures files == old(files)
    {
      var i := 0;
      while i < n
        invariant 0 <= i <= n
        invariant events == old(events) + Cycles(i)
        invariant files == old(files)
        invariant !(fault.FailsAt? && fault.call < 2 * i)
      {
        var err := DrivePin(true, FaultAt(fault, 2 * i));
        if err.Some? {
          return err;
        }
        Sleep(OnMs);
        err := DrivePin(false, FaultAt(fault, 2 * i + 1));
        if err.Some? {
          return err;
        }
        Sleep(OffMs);
        i := i + 1;
      }
      return None;
    }

    /** `uos.remove(path)`. */
    method Remove(path: string) returns (err: Option<Exc>)
      modifies this
      ensures files == old(files) - {path}
      ensures err == (if path in old(files) then None else Some(NotFound))
      ensures events == old(events)
    {
      err := if path in files then None else Some(NotFound);
      files := files - {path};
    }

    /** `uos.rename(src, dst)`; a storage fault leaves the store as it was. */
    method Rename(src: string, dst: string, fault: Option<Exc>) returns (err: Option<Exc>)
      requires src != dst
      modifies this
      ensures fault.Some? ==> err == fault && files == old(files)
      ensures fault.None? && src !in old(files) ==> err == Some(NotFound) && files == old(files)
      ensures fault.None? && src in old(files) ==>
        err.None? && files == (old(files) - {src})[dst := old(files)[src]]
      ensures events == old(events)
    {
      if fault.Some? {
        err := fault;
      } else if src !in files {
        err := Some(NotFound);
      } else {
        files := (files - {src})[dst := files[src]];
        err := None;
      }
    }

    /** `open(path, 'wb').write(content)`; on a storage fault the file is left
        created but empty. */
    method Write(path: string, content: seq<byte>, fault: Option<Exc>) returns (err: Option<Exc>)
      modifies this
      ensures err == fault
      ensures files == old(files)[path := if fault.None? then content else []]
      ensures events == old(events)
    {
      err := fault;
      files := files[path := if fault.None? then content else []];
    }

    /** `uos.stat(path)[6]`, the size in bytes. */
    method Size(path: string) returns (r: Result<nat>)
      ensures path in files ==> r == Ok(|files[path]|)
      ensures path !in files ==> r == Err(NotFound)
    {
      r := if path in files then Ok(|files[path]|) else Err(NotFound);
    }
  }
}
