/** A session on one blink(1) device: the `Blink1` class
    (include/blink1.hpp:13-205, src/blink1.cpp:42-447) with its action queue,
    its worker flag, its hardware revision and the feature reports it writes.
    The HID transport is outside the model: a device handle is a value that
    names the serial it was opened for, and a report "written" is one handed
    to `hid_send_feature_report`, recorded in `sent`. */
module Session {
  import opened CTypes
  import opened Revision
  import opened Protocol
  import opened Actions
  import opened Worker
  import opened Registry

  /** An open `hid_device`, for the device with this serial. */
  datatype Handle = Handle(serial: seq<char>)

  /** What `hid_get_serial_number_string` leaves in a buffer nine wide: at most
      eight characters, the last place being kept for the terminator. */
  function SerialPrefix(s: seq<char>): (p: seq<char>)
    ensures |p| <= 8 && p <= s
    ensures |s| <= 8 ==> p == s
    ensures |s| > 8 ==> p == s[..8]
  {
    if |s| <= 8 then s else s[..8]
  }

  class Blink1 {
    /** Stands for the static `m_busy`, shared by every session. */
    const registry: BusyRegistry
    /** `m_device`; `None` is NULL. */
    var device: Option<Handle>
    /** `m_build` */
    var build: Build
    /** `m_worker_running` */
    var workerRunning: bool
    /** Whether `Init` has spawned the worker thread (`m_repeat_worker`). */
    var workerStarted: bool
    /** `m_actions` */
    var actions: seq<Slot>
    /** The reports handed to the transport so far, oldest first. */
    var sent: seq<Report>

    /** What reaches the transport when a command writes `reports`: all of
        them with a device, none without. */
    function Delivered(reports: seq<Report>): (r: seq<Report>)
      reads this
      ensures device.None? ==> r == []
      ensures device.Some? ==> r == reports
    {
      if device.Some? then reports else []
    }

    /** The content of the buffer `GetDeviceSerial` fills: the device's serial,
        or nothing (a zero-filled buffer) when no device is loaded. */
    function DeviceSerial(): (s: seq<char>)
      reads this
      ensures device.None? ==> s == []
      ensures device.Some? ==> s == SerialPrefix(device.value.serial)
    {
      match device
      case None => []
      case Some(h) => SerialPrefix(h.serial)
    }

    // -------------------------------------------------------------------------
    // Acquisition and release

    /** `Blink1(wchar_t *serial)`: a busy serial is refused before the device is
        opened; otherwise `deviceFound` is whether `hid_open` found the device, and
        only then is the caller's buffer registered and `Init` run. */
    constructor Open(registry: BusyRegistry, serial: SerialBuffer, deviceFound: bool)
      modifies registry
      ensures this.registry == registry
      ensures actions == [] && sent == [] && !workerRunning
      ensures
        var admitted := !old(registry.Busy(serial.chars)) && deviceFound;
        && registry.busy == (if admitted then old(registry.busy) + [serial] else old(registry.busy))
        && device == (if admitted then Some(Handle(serial.chars)) else None)
        && workerStarted == admitted
        && (admitted ==> build == InitBuild(SerialPrefix(serial.chars)) == Mk2)
      ensures old(registry.Distinct()) ==> registry.Distinct()
    {
      this.registry := registry;
      actions := [];
      sent := [];
      workerRunning := false;
      workerStarted := false;
      build := Mk1;
      var held := registry.SerialBusy(serial);
      if held {
        // The constructor returns early and leaves `m_device` unset.
        device := None;
      } else {
        var handle := if deviceFound then Some(Handle(serial.chars)) else None;
        device := handle;
        if handle.Some? {
          registry.busy := registry.busy + [serial];
        }
      }
      new;
      if device.Some? {
        Init();
      }
    }

    /** `Blink1()`: takes the first enumerated serial no session holds (see
        `GetNextSerial`); `deviceFound` is whether `hid_open` found that device. */
    constructor OpenNext(registry: BusyRegistry, enumerated: seq<SerialBuffer>, deviceFound: bool)
      modifies registry
      ensures this.registry == registry
      ensures actions == [] && sent == [] && !workerRunning
      ensures
        var next := old(registry.FirstFreeFrom(enumerated, 0));
        var admitted := next.Some? && deviceFound;
        && registry.busy == (if admitted then old(registry.busy) + [enumerated[next.value]] else old(registry.busy))
        && device == (if admitted then Some(Handle(enumerated[next.value].chars)) else None)
        && workerStarted == admitted
        && (admitted ==> build == Mk2)
      ensures old(registry.Distinct()) ==> registry.Distinct()
    {
      this.registry := registry;
      actions := [];
      sent := [];
      workerRunning := false;
      workerStarted := false;
      build := Mk1;
      var serial := registry.GetNextSerial(enumerated);
      if serial == null {
        device := None;
      } else {
        var handle := if deviceFound then Some(Handle(serial.chars)) else None;
        device := handle;
        if handle.Some? {
          registry.busy := registry.busy + [serial];
        }
      }
      new;
      if device.Some? {
        Init();
      }
    }

    /** `Init`: classifies the hardware from the serial read back from the
        device, leaves the worker halted and starts the worker thread. */
    method Init()
      modifies this`build, this`workerRunning, this`workerStarted
      ensures build == InitBuild(DeviceSerial()) && build == Mk2
      ensures !workerRunning && workerStarted
    {
      var s := GetDeviceSerial();
      build := InitBuild(s.chars);
      workerRunning := false;
      workerStarted := true;
    }

    /** `GetDeviceSerial`: a newly allocated buffer holding the device's serial,
        empty when there is no device. */
    method GetDeviceSerial() returns (s: SerialBuffer)
      ensures fresh(s)
      ensures s.chars == DeviceSerial()
    {
      s := new SerialBuffer(DeviceSerial());
    }

    /** `~Blink1`: looks for the buffer `GetDeviceSerial` has just allocated among
        the registered buffers, by address. No registered buffer can be that
        new one, so nothing is removed; the handle is then closed. */
    method Release()
      modifies this`device, registry`busy
      ensures registry.busy == old(registry.busy)
      ensures device == None
    {
      var serial := GetDeviceSerial();
      var j := 0;
      while j < |registry.busy|
        invariant 0 <= j <= |registry.busy|
        invariant registry.busy == old(registry.busy)
      {
        if registry.busy[j] == serial {
          // Every registered buffer was allocated before `serial`, so the
          // addresses never match and the erase-and-break never runs.
          assert false;
        }
        j := j + 1;
      }
      device := None;
    }

    // -------------------------------------------------------------------------
    // The action queue

    /** `AddAction`: appends one action; each colour argument is an `unsigned
        int` stored in a byte, so it keeps its value modulo 256. */
    method AddAction(
      red: uint32, green: uint32, blue: uint32,
      displayDuration: uint32 := 1000, fadeTime: uint32 := 1000,
      red2: uint32 := 0, green2: uint32 := 0, blue2: uint32 := 0)
      modifies this`actions
      ensures actions == old(actions) + [Some(Action(displayDuration, fadeTime,
        red % 0x100, green % 0x100, blue % 0x100, red2 % 0x100, green2 % 0x100, blue2 % 0x100))]
      ensures old(NoNullSlots(actions)) ==> NoNullSlots(actions)
    {
      var a := Action(displayDuration, fadeTime,
        ToByte(red), ToByte(green), ToByte(blue), ToByte(red2), ToByte(green2), ToByte(blue2));
      actions := actions + [Some(a)];
    }

    /** `SetAction`: replaces the action at an existing position, appends at a
        position equal to the size, and otherwise discards the new action. */
    method SetAction(
      position: uint16,
      red: uint32, green: uint32, blue: uint32,
      displayDuration: uint32 := 1000, fadeTime: uint32 := 1000,
      red2: uint32 := 0, green2: uint32 := 0, blue2: uint32 := 0)
      modifies this`actions
      ensures actions == SetAt(old(actions), position, Some(Action(displayDuration, fadeTime,
        red % 0x100, green % 0x100, blue % 0x100, red2 % 0x100, green2 % 0x100, blue2 % 0x100)))
      ensures old(NoNullSlots(actions)) ==> NoNullSlots(actions)
    {
      var a := Some(Action(displayDuration, fadeTime,
        ToByte(red), ToByte(green), ToByte(blue), ToByte(red2), ToByte(green2), ToByte(blue2)));
      if position < |actions| {
        actions := actions[position := a];
      } else if |actions| == position {
        actions := actions + [a];
      }
    }

    /** `RemoveAction`: erases the entry at a valid position. */
    method RemoveAction(position: uint32)
      modifies this`actions
      ensures actions == RemoveAt(old(actions), position)
      ensures old(NoNullSlots(actions)) ==> NoNullSlots(actions)
    {
      if position < |actions| {
        actions := actions[..position] + actions[position + 1..];
      }
    }

    /** `ClearActions`: halts the worker, then erases the front entry until the
        queue is empty. The final state does not depend on the one before, so
        a second call changes nothing. */
    method ClearActions()
      modifies this`actions, this`workerRunning
      ensures actions == [] && !workerRunning
    {
      workerRunning := false;
      while actions != []
        invariant !workerRunning
        decreases |actions|
      {
        actions := actions[1..];
      }
    }

    /** `StartActionLoop` */
    method StartActionLoop()
      modifies this`workerRunning
      ensures workerRunning
    {
      workerRunning := true;
    }

    /** `HaltActionLoop` */
    method HaltActionLoop()
      modifies this`workerRunning
      ensures !workerRunning
    {
      workerRunning := false;
    }

    // -------------------------------------------------------------------------
    // Writing reports

    /** `Write`: with no device nothing is sent and the result is false. */
    method Write(report: Report) returns (ok: bool)
      modifies this`sent
      ensures ok <==> device.Some?
      ensures sent == old(sent) + Delivered([report])
    {
      if device.None? {
        return false;
      }
      sent := sent + [report];
      ok := true;
    }

    /** `SetRGB`: clears the queue (and the worker flag), then sets the colour. */
    method SetRGB(red: byte, green: byte, blue: byte)
      modifies this`actions, this`workerRunning, this`sent
      ensures actions == [] && !workerRunning
      ensures sent == old(sent) + Delivered([SetRgbReport(red, green, blue)])
    {
      ClearActions();
      var _ := Write(SetRgbReport(red, green, blue));
    }

    /** `_FadeToRGB`: from the worker (`fromLoop`) it leaves the queue and the
        flag alone; from a caller it halts the worker and clears the queue. */
    method InternalFadeToRGB(f: int32, r: byte, g: byte, b: byte, fromLoop: bool)
      modifies this`actions, this`workerRunning, this`sent
      ensures fromLoop ==> actions == old(actions) && workerRunning == old(workerRunning)
      ensures !fromLoop ==> actions == [] && !workerRunning
      ensures sent == old(sent) + Delivered([FadeReport(f, r, g, b, 0)])
    {
      if !fromLoop {
        workerRunning := false;
        ClearActions();
      }
      var _ := Write(FadeReport(f, r, g, b, 0));
    }

    /** `FadeToRGB` */
    method FadeToRGB(fadeDuration: int32, red: byte, green: byte, blue: byte)
      modifies this`actions, this`workerRunning, this`sent
      ensures actions == [] && !workerRunning
      ensures sent == old(sent) + Delivered([FadeReport(fadeDuration, red, green, blue, 0)])
    {
      InternalFadeToRGB(fadeDuration, red, green, blue, false);
    }

    /** `_FadeToRGBN`: as `_FadeToRGB`, for LED channel `n`. */
    method InternalFadeToRGBN(f: int32, r: byte, g: byte, b: byte, n: byte, fromLoop: bool)
      modifies this`actions, this`workerRunning, this`sent
      ensures fromLoop ==> actions == old(actions) && workerRunning == old(workerRunning)
      ensures !fromLoop ==> actions == [] && !workerRunning
      ensures sent == old(sent) + Delivered([FadeReport(f, r, g, b, n)])
    {
      if !fromLoop {
        workerRunning := false;
        ClearActions();
      }
      var _ := Write(FadeReport(f, r, g, b, n));
    }

    /** `FadeToRGBN` */
    method FadeToRGBN(f: int32, r: byte, g: byte, b: byte, n: byte)
      modifies this`actions, this`workerRunning, this`sent
      ensures actions == [] && !workerRunning
      ensures sent == old(sent) + Delivered([FadeReport(f, r, g, b, n)])
    {
      InternalFadeToRGBN(f, r, g, b, n, false);
    }

    /** `Play`: clears the queue, then starts the device's own pattern player;
        on MK1 the end position and count are sent as zero. */
    method Play(play: byte, start: byte, end: byte := 0, count: byte := 0)
      modifies this`actions, this`workerRunning, this`sent
      ensures actions == [] && !workerRunning
      ensures sent == old(sent) + Delivered([PlayReport(build, play, start, end, count)])
    {
      ClearActions();
      var _ := Write(PlayReport(build, play, start, end, count));
    }

    /** `ServerTickle`: halts the worker but keeps the queue; on MK1
        `maintain` is sent as zero. */
    method ServerTickle(onOff: byte, timeout: byte, startPos: byte, endPos: byte, maintain: byte := 0)
      modifies this`workerRunning, this`sent
      ensures !workerRunning
      ensures sent == old(sent) + Delivered([TickleReport(build, onOff, timeout, startPos, endPos, maintain)])
    {
      workerRunning := false;
      var _ := Write(TickleReport(build, onOff, timeout, startPos, endPos, maintain));
    }

    /** `TurnOff`: `ServerTickle(0, 0, 0, 0, 0)`. */
    method TurnOff()
      modifies this`workerRunning, this`sent
      ensures !workerRunning
      ensures sent == old(sent) + Delivered([[1, 'D' as int, 0, 0, 0, 0, 0, 0, 0]])
    {
      TurnOffReport(build);
      ServerTickle(0, 0, 0, 0, 0);
    }

    /** `WritePatternStep`: writes one step of the device's stored pattern; the
        queue and the worker flag are left alone. */
    method WritePatternStep(f: uint16, r: byte, g: byte, b: byte, p: byte)
      modifies this`sent
      ensures sent == old(sent) + Delivered([PatternStepReport(f, r, g, b, p)])
    {
      var _ := Write(PatternStepReport(f, r, g, b, p));
    }

    // -------------------------------------------------------------------------
    // The worker

    /** One iteration of `WorkerThread`'s loop from cursor `pos`: it writes the
        reports of `Step` and returns the sleep and the next cursor. Only a
        session whose `Init` spawned the thread runs it. */
    method WorkerIteration(pos: uint32) returns (wait: uint32, next: uint32)
      requires workerStarted
      modifies this`actions, this`workerRunning, this`sent
      ensures actions == old(actions) && workerRunning == old(workerRunning)
      ensures
        var st := Step(actions, pos, workerRunning, build);
        wait == st.wait && next == st.cursor && sent == old(sent) + Delivered(st.reports)
    {
      if workerRunning && |actions| > 0 {
        var p := pos;
        if p >= |actions| {
          p := 0;
        }
        var act := actions[p];
        wait := 0;
        if act.Some? {
          var a := act.value;
          if build == Mk2 {
            InternalFadeToRGBN(ToInt32(a.fadeTime), a.red, a.green, a.blue, 1, true);
            InternalFadeToRGBN(ToInt32(a.fadeTime), a.red2, a.green2, a.blue2, 2, true);
          } else {
            InternalFadeToRGB(ToInt32(a.fadeTime), a.red, a.green, a.blue, true);
          }
          wait := ToUint32(a.fadeTime + a.displayDuration);
        }
        next := ToUint32(p + 1);
      } else {
        next := 0;
        wait := IdleWait;
      }
    }
  }
}
