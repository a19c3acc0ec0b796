/** Sessions used together, as a program using the library would: what the
    shared registry of busy serials and the queue operations mean across
    several calls. */
module Scenarios {
  import opened CTypes
  import opened Protocol
  import opened Worker
  import opened Registry
  import opened Session

  /** Two sessions asked for the same serial, one after the other: the first
      gets the device, the second is refused because the serial is busy,
      even though its buffer is a different one. */
  method ExclusiveAcquisition(serial: seq<char>) returns (first: Blink1, second: Blink1)
    ensures first.device == Some(Handle(serial))
    ensures second.device == None
    ensures first.registry == second.registry && |first.registry.busy| == 1
  {
    var registry := new BusyRegistry();
    var mine := new SerialBuffer(serial);
    first := new Blink1.Open(registry, mine, true);
    assert registry.busy[0].chars == serial;
    var theirs := new SerialBuffer(serial);
    second := new Blink1.Open(registry, theirs, true);
  }

  /** Releasing a session leaves its serial registered, so the device cannot
      be acquired again for as long as the process runs. */
  method ReleaseKeepsSerialBusy(serial: seq<char>) returns (again: Blink1)
    ensures again.device == None
    ensures again.registry.Busy(serial)
  {
    var registry := new BusyRegistry();
    var mine := new SerialBuffer(serial);
    var first := new Blink1.Open(registry, mine, true);
    first.Release();
    assert registry.busy[0].chars == serial;
    var next := new SerialBuffer(serial);
    again := new Blink1.Open(registry, next, true);
  }

  /** A queue set up and started, then interrupted by `SetRGB`: the next
      iteration of the worker writes nothing and sleeps the idle second, and
      the only report sent is the colour change. */
  method SetRgbStopsTheLoop(serial: seq<char>, pos: uint32) returns (wait: uint32, next: uint32, sent: seq<Report>)
    ensures wait == IdleWait && next == 0
    ensures sent == [SetRgbReport(10, 20, 30)]
  {
    var registry := new BusyRegistry();
    var mine := new SerialBuffer(serial);
    var session := new Blink1.Open(registry, mine, true);
    session.AddAction(255, 0, 0);
    session.AddAction(0, 0, 255, 500, 0);
    session.StartActionLoop();
    session.SetRGB(10, 20, 30);
    wait, next := session.WorkerIteration(pos);
    sent := session.sent;
  }

  /** With the loop started, the worker writes the first action's fades, one
      per LED on an MK2 device, and sleeps its fade and hold; the next
      iteration moves on to the second action. */
  method WorkerPlaysQueue(serial: seq<char>) returns (wait: uint32, next: uint32, sent: seq<Report>)
    ensures wait == 2000 && next == 1
    ensures sent == [FadeReport(1000, 255, 0, 0, 1), FadeReport(1000, 0, 0, 0, 2)]
  {
    var registry := new BusyRegistry();
    var mine := new SerialBuffer(serial);
    var session := new Blink1.Open(registry, mine, true);
    session.AddAction(255, 0, 0);
    session.AddAction(0, 0, 255, 500, 0);
    session.StartActionLoop();
    wait, next := session.WorkerIteration(0);
    sent := session.sent;
  }
}
