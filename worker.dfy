/** One iteration of the background worker that replays the action queue
    (src/blink1.cpp:42-82), and what a run of iterations over an unchanged
    queue emits and waits. */
module Worker {
  import opened CTypes
  import opened Revision
  import opened Protocol
  import opened Actions

  /** The sleep, in milliseconds, when the loop is halted or the queue empty. */
  const IdleWait: uint32 := 1000

  /** What one iteration does: the reports it writes, how long it then sleeps,
      and the cursor `pos` the next iteration starts from. */
  datatype StepResult = StepResult(reports: seq<Report>, wait: uint32, cursor: uint32)

  /** The index an iteration reads: a cursor past the end (the queue shrank
      under it, or a cycle ended) is reset to 0 first. */
  function ReadIndex(queue: seq<Slot>, pos: uint32): (i: nat)
    requires |queue| > 0
    ensures i < |queue|
    ensures pos < |queue| ==> i == pos
    ensures pos >= |queue| ==> i == 0
  {
    if pos >= |queue| then 0 else pos
  }

  /** The fades written for one action (src/blink1.cpp:58-69). */
  function Emission(a: Action, build: Build): (reports: seq<Report>)
    ensures |reports| == Width(build)
  {
    var f := ToInt32(a.fadeTime);
    if build == Mk2 then
      [FadeReport(f, a.red, a.green, a.blue, 1), FadeReport(f, a.red2, a.green2, a.blue2, 2)]
    else
      [FadeReport(f, a.red, a.green, a.blue, 0)]
  }

  /** On MK2 an action writes one fade per LED, channel 1 with the first
      colour and then channel 2 with the second; on MK1 a single fade on
      channel 0. Each carries the action's fade time, the unsigned value passed
      as an `int`. */
  lemma EmissionFades(a: Action, build: Build)
    ensures var reports := Emission(a, build);
      && |reports| == Width(build)
      && (build == Mk2 ==>
        && Parse(reports[0]) == FadeTo(Rgb(a.red, a.green, a.blue), WireCentis(ToInt32(a.fadeTime)), 1)
        && Parse(reports[1]) == FadeTo(Rgb(a.red2, a.green2, a.blue2), WireCentis(ToInt32(a.fadeTime)), 2))
      && (build == Mk1 ==>
        Parse(reports[0]) == FadeTo(Rgb(a.red, a.green, a.blue), WireCentis(ToInt32(a.fadeTime)), 0))
  {
  }

  /** The sleep after an action, `fade_time + display_duration` in `unsigned
      int` arithmetic: the visible time, wrapped around at 2^32. */
  function ActionWait(a: Action): (ms: uint32)
    ensures ms == VisibleTime(a) || ms == VisibleTime(a) - 0x1_0000_0000
    ensures VisibleTime(a) < 0x1_0000_0000 ==> ms == VisibleTime(a)
  {
    ToUint32(a.fadeTime + a.displayDuration)
  }

  /** What a slot contributes: an action writes its fades and sleeps its time;
      a NULL slot writes nothing and does not sleep. */
  function SlotReports(s: Slot, build: Build): (r: seq<Report>)
    ensures s.None? ==> r == []
    ensures s.Some? ==> |r| == Width(build) && r == Emission(s.value, build)
  {
    match s
    case None => []
    case Some(a) => Emission(a, build)
  }

  function SlotWait(s: Slot): (ms: uint32)
    ensures s.None? ==> ms == 0
    ensures s.Some? ==> ms == ActionWait(s.value)
    ensures s.Some? && VisibleTime(s.value) < 0x1_0000_0000 ==> ms == VisibleTime(s.value)
  {
    match s
    case None => 0
    case Some(a) => ActionWait(a)
  }

  /** One pass of the inner loop's test and body, or, when the test fails, the
      cursor reset and the idle sleep after it. */
  function Step(queue: seq<Slot>, pos: uint32, running: bool, build: Build): (r: StepResult)
    ensures !(running && |queue| > 0) ==> r == StepResult([], IdleWait, 0)
    ensures running && 0 < |queue| < 0x1_0000_0000 ==>
      var i := ReadIndex(queue, pos);
      r.cursor == i + 1 <= |queue| && r.wait == SlotWait(queue[i]) && r.reports == SlotReports(queue[i], build)
  {
    if running && |queue| > 0 then
      var i := ReadIndex(queue, pos);
      StepResult(SlotReports(queue[i], build), SlotWait(queue[i]), ToUint32(i + 1))
    else
      StepResult([], IdleWait, 0)
  }

  /** Everything `n` iterations write and sleep while the queue and the flag
      stay as they are. */
  datatype Trace = Trace(reports: seq<Report>, waits: seq<uint32>, cursor: uint32)

  /** `n` iterations of a step function from cursor `pos`: the reports of each
      step in order, its sleeps in order, and the cursor the last one leaves. */
  function Iterate(step: uint32 -> StepResult, pos: uint32, n: nat): (t: Trace)
    ensures |t.waits| == n
    decreases n
  {
    if n == 0 then Trace([], [], pos)
    else
      var s := step(pos);
      var t := Iterate(step, s.cursor, n - 1);
      Trace(s.reports + t.reports, [s.wait] + t.waits, t.cursor)
  }

  /** `n` iterations of the worker's loop over a queue and a flag that stay
      as they are: one sleep per iteration; while halted, or with an empty
      queue, nothing is written, every sleep is the idle second and the cursor
      is reset. */
  function Run(queue: seq<Slot>, pos: uint32, running: bool, build: Build, n: nat): (t: Trace)
    ensures |t.waits| == n
    ensures !(running && |queue| > 0) ==>
      && t.reports == []
      && (forall k :: 0 <= k < n ==> t.waits[k] == IdleWait)
      && (n > 0 ==> t.cursor == 0)
  {
    var step := (p: uint32) => Step(queue, p, running, build);
    if !(running && |queue| > 0) then
      IterateIdle(step, pos, n);
      Iterate(step, pos, n)
    else
      Iterate(step, pos, n)
  }

  /** Iterating a step that always idles writes nothing, sleeps the idle
      second each time and leaves the cursor at 0. */
  lemma {:induction false} IterateIdle(step: uint32 -> StepResult, pos: uint32, n: nat)
    requires forall p :: step(p) == StepResult([], IdleWait, 0)
    ensures Iterate(step, pos, n).reports == []
    ensures forall k :: 0 <= k < n ==> Iterate(step, pos, n).waits[k] == IdleWait
    ensures n > 0 ==> Iterate(step, pos, n).cursor == 0
    decreases n
  {
    if n > 0 {
      IterateIdle(step, 0, n - 1);
      assert step(pos) == StepResult([], IdleWait, 0);
    }
  }

  /** The sequences `emit` gives for the items, one after the other. */
  function Concat<S, T>(items: seq<S>, emit: S -> seq<T>): seq<T>
    decreases |items|
  {
    if items == [] then [] else emit(items[0]) + Concat(items[1..], emit)
  }

  /** The reports of the slots, in queue order. */
  function CycleReports(slots: seq<Slot>, build: Build): seq<Report>
  {
    Concat(slots, (s: Slot) => SlotReports(s, build))
  }

  /** The sleeps of the slots, in queue order. */
  function CycleWaits(slots: seq<Slot>): (ws: seq<uint32>)
    ensures |ws| == |slots|
    ensures forall i :: 0 <= i < |slots| ==> ws[i] == SlotWait(slots[i])
  {
    seq(|slots|, i requires 0 <= i < |slots| => SlotWait(slots[i]))
  }

  /** Reports per action: two on MK2, one on MK1. */
  function Width(build: Build): nat
  {
    if build == Mk2 then 2 else 1
  }

  /** While running over an unchanged queue, iterations walk the queue in
      order from the cursor, one slot each. */
  lemma {:induction false} RunWalksQueue(queue: seq<Slot>, i: nat, k: nat, build: Build)
    requires i + k <= |queue| < 0x1_0000_0000
    ensures Run(queue, i, true, build, k)
         == Trace(CycleReports(queue[i..i + k], build), CycleWaits(queue[i..i + k]), i + k)
    decreases k
  {
    if k > 0 {
      var slots := queue[i..i + k];
      RunFirstStep(queue, i, build, k);
      RunWalksQueue(queue, i + 1, k - 1, build);
      assert slots[0] == queue[i] && slots[1..] == queue[i + 1..i + k];
      assert CycleWaits(slots) == [SlotWait(queue[i])] + CycleWaits(queue[i + 1..i + k]);
    }
  }

  /** An iteration from a cursor inside the queue handles that slot and
      moves the cursor one on. */
  lemma RunFirstStep(queue: seq<Slot>, i: nat, build: Build, k: nat)
    requires i < |queue| < 0x1_0000_0000 && k > 0
    ensures var t := Run(queue, i + 1, true, build, k - 1);
      Run(queue, i, true, build, k) == Trace(SlotReports(queue[i], build) + t.reports, [SlotWait(queue[i])] + t.waits, t.cursor)
  {
    assert Step(queue, i, true, build) == StepResult(SlotReports(queue[i], build), SlotWait(queue[i]), i + 1);
  }

  /** Iterating `m + n` times is iterating `m` times, then `n` more from where
      the first ones left the cursor. */
  lemma {:induction false} IterateSplits(step: uint32 -> StepResult, pos: uint32, m: nat, n: nat)
    ensures
      var first := Iterate(step, pos, m);
      var rest := Iterate(step, first.cursor, n);
      Iterate(step, pos, m + n) == Trace(first.reports + rest.reports, first.waits + rest.waits, rest.cursor)
    decreases m
  {
    if m > 0 {
      var s := step(pos);
      var first := Iterate(step, s.cursor, m - 1);
      var rest := Iterate(step, first.cursor, n);
      IterateSplits(step, s.cursor, m - 1, n);
      assert m + n - 1 == (m - 1) + n;
      assert s.reports + (first.reports + rest.reports) == (s.reports + first.reports) + rest.reports;
      assert [s.wait] + (first.waits + rest.waits) == ([s.wait] + first.waits) + rest.waits;
    }
  }

  /** Running `m + n` iterations is running `m`, then `n` more from where the
      first ones left the cursor. */
  lemma RunSplits(queue: seq<Slot>, pos: uint32, build: Build, m: nat, n: nat)
    ensures
      var first := Run(queue, pos, true, build, m);
      var rest := Run(queue, first.cursor, true, build, n);
      Run(queue, pos, true, build, m + n) == Trace(first.reports + rest.reports, first.waits + rest.waits, rest.cursor)
  {
    IterateSplits((p: uint32) => Step(queue, p, true, build), pos, m, n);
  }

  /** A full cycle from cursor 0 writes every slot's reports in queue order and
      leaves the cursor at the size of the queue, which the next iteration
      resets: the worker loops back to the first action. */
  lemma WorkerCycle(queue: seq<Slot>, build: Build)
    requires 0 < |queue| < 0x1_0000_0000
    ensures Run(queue, 0, true, build, |queue|)
         == Trace(CycleReports(queue, build), CycleWaits(queue), |queue|)
    ensures Step(queue, |queue|, true, build) == Step(queue, 0, true, build)
  {
    RunWalksQueue(queue, 0, |queue|, build);
    assert queue[0..|queue|] == queue;
  }

  /** Repeat(s, m) is `m` copies of `s` in a row. */
  function Repeat<T>(s: seq<T>, m: nat): (r: seq<T>)
    ensures |r| == m * |s|
  {
    if m == 0 then [] else s + Repeat(s, m - 1)
  }

  /** From cursor 0 with the loop running and the queue left alone, `m` full
      cycles write the cycle's reports `m` times over and sleep the cycle's
      sleeps `m` times over. */
  lemma {:induction false} WorkerRepeats(queue: seq<Slot>, build: Build, m: nat)
    requires 0 < |queue| < 0x1_0000_0000
    requires m > 0
    ensures Run(queue, 0, true, build, m * |queue|)
         == Trace(Repeat(CycleReports(queue, build), m), Repeat(CycleWaits(queue), m), |queue|)
    decreases m
  {
    WorkerCycle(queue, build);
    if m > 1 {
      var n := |queue|;
      WorkerRepeats(queue, build, m - 1);
      assert m * n == n + (m - 1) * n;
      RunSplits(queue, 0, build, n, (m - 1) * n);
      RunFromEnd(queue, build, (m - 1) * n);
    }
  }

  /** A cursor left at the size of the queue behaves like cursor 0, for any
      positive number of iterations. */
  lemma RunFromEnd(queue: seq<Slot>, build: Build, n: nat)
    requires 0 < |queue| < 0x1_0000_0000
    requires n > 0
    ensures Run(queue, |queue|, true, build, n) == Run(queue, 0, true, build, n)
  {
    assert Step(queue, |queue|, true, build) == Step(queue, 0, true, build);
  }

  /** When every item gives `w` elements, the concatenation holds `w` per
      item, and those of item `i` sit at positions `w * i` onwards. */
  lemma {:induction false} ConcatLayout<S, T>(items: seq<S>, emit: S -> seq<T>, w: nat)
    requires forall k :: 0 <= k < |items| ==> |emit(items[k])| == w
    ensures |Concat(items, emit)| == w * |items|
    ensures forall i, c :: 0 <= i < |items| && 0 <= c < w && w * i + c < |Concat(items, emit)| ==>
      Concat(items, emit)[w * i + c] == emit(items[i])[c]
    decreases |items|
  {
    if items != [] {
      var tail := items[1..];
      var head := emit(items[0]);
      var rest := Concat(tail, emit);
      assert forall k :: 0 <= k < |tail| ==> tail[k] == items[k + 1];
      ConcatLayout(tail, emit, w);
      assert w * |items| == w + w * |tail|;
      forall i, c | 0 <= i < |items| && 0 <= c < w && w * i + c < |head + rest|
        ensures (head + rest)[w * i + c] == emit(items[i])[c]
      {
        if i > 0 {
          assert tail[i - 1] == items[i];
          ShiftedIndex(head, rest, w, i - 1, c);
        }
      }
    }
  }

  /** With no NULL slot, a cycle writes `Width(build)` reports per action, and
      the reports of action `i` sit at positions `Width(build) * i` onwards. */
  lemma CycleReportsLayout(queue: seq<Slot>, build: Build)
    requires NoNullSlots(queue)
    ensures |CycleReports(queue, build)| == Width(build) * |queue|
    ensures forall i, c :: 0 <= i < |queue| && 0 <= c < Width(build) ==>
      CycleReports(queue, build)[Width(build) * i + c] == Emission(queue[i].value, build)[c]
  {
    var emit := (s: Slot) => SlotReports(s, build);
    ConcatLayout(queue, emit, Width(build));
  }

  /** Index `w * (i + 1) + c` of `head + rest`, with `|head| == w`, is index
      `w * i + c` of `rest`. */
  lemma ShiftedIndex<T>(head: seq<T>, rest: seq<T>, w: nat, i: nat, c: nat)
    requires |head| == w && c < w && w * i + c < |rest|
    ensures w * (i + 1) + c < |head + rest|
    ensures (head + rest)[w * (i + 1) + c] == rest[w * i + c]
  {
    assert w * (i + 1) == w * i + w;
  }
}
