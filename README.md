# blink(1) session library, modelled in Dafny

The library drives a blink(1) USB RGB LED through 9-byte HID feature
reports. A `Blink1` session does four things:

- It claims one device by serial number. A process-wide list of busy serials
  keeps two sessions from owning the same device.
- It detects the hardware revision (MK1 or MK2).
- It keeps a queue of colour actions. A background worker replays the queue
  as fades while the loop is started.
- It offers immediate commands: set a colour now, fade, play the stored
  pattern, server tickle, turn off, and write a pattern step.

The model follows the C++ code in `src/blink1.cpp` and `include/blink1.hpp`.
It has these modules:

- `CTypes` (`ctypes.dfy`): the C integer types, narrowing to `unsigned char`,
  32-bit wrap-around, signed reinterpretation, and C's truncating `/` and `%`
  and `>>`.
- `Revision` (`revision.dfy`): `eBlinkBuild` and the classification `Init`
  performs.
- `Protocol` (`protocol.dfy`): the report layout, one encoder per command, a
  reader `Parse` of the layout, and the `GammaE` table.
- `Actions` (`actions.dfy`): `ActionRGB`, queue slots, and the index rules of
  `SetAction` and `RemoveAction`.
- `Worker` (`worker.dfy`): one iteration of `WorkerThread` as a function
  `Step`, and `Run`, any number of iterations over an unchanged queue.
- `Registry` (`registry.dfy`): the static `m_busy`, a class holding serial
  buffers that have identity. `SerialBusy` and `GetNextSerial` are loops over
  it.
- `Session` (`session.dfy`): the `Blink1` class itself. It has the fields
  `device`, `build`, `workerRunning`, `actions` and a `sent` log of the
  reports handed to the transport. Both constructors, the destructor
  (`Release`), every queue operation, every command, and one worker iteration
  are methods that change those fields.
- `Scenarios` (`scenarios.dfy`): sessions used together. Covers exclusive
  acquisition, a released serial staying busy, `SetRGB` stopping the loop,
  and the worker playing the first queued action.

Where the library's stated intent and its code differ, the model follows the
code and proves what the code does:

- **Revision detection always yields MK2.** `Init` indexes
  `"0123456789ABCDEF"` with the serial's first character modulo 16. It then
  compares the resulting character code, which is at least 48, with 2. So
  every session that opened its device is `eMk2`, and the MK1 branches of
  the worker, `Play` and `ServerTickle` never take effect
  (`Revision.InitBuild`). A session that was refused, or whose open failed,
  never runs `Init` and keeps the MK1 value of the model. Its `Play` and
  `ServerTickle` compute MK1 reports, but nothing is sent without a device. The comment above
  `Init` intends a numeric rule: MK1 up to 0x1FFFFFFF. It is stated as
  `Revision.DocumentedBuild`, and `Revision.InitIgnoresDocumentedRule` shows
  the two rules disagree on `1FFFFFFF`.
- **A destroyed session's serial stays busy.**
  - The destructor looks for the buffer `GetDeviceSerial` has just allocated
    among the registered buffers, comparing pointers. While callers keep
    their serial buffers allocated, no registered buffer can be that new one,
    so nothing is ever removed.
  - A released device therefore cannot be claimed again by content
    (`Session.Blink1.Release`, `Scenarios.ReleaseKeepsSerialBusy`).
  - The destructor's own comment says it removes the serial from the list of
    busy devices (src/blink1.cpp:433). The header says it "frees" the
    Blink1 (include/blink1.hpp:194). The code removes nothing.
- **`ServerTickle` and `TurnOff` only halt the loop; they keep the queue.**
  The header comment says "clears the action loop". The code clears only
  `m_worker_running`, so `StartActionLoop` resumes the old queue.
- **Most fade times of 2550 ms or more are garbled on the wire.**
  - The low time byte is `(f / 10) % 0xFF`, a remainder modulo 255 rather
    than a mask.
  - A non-negative fade arrives as the intended `f / 10` centiseconds in
    exactly two ranges: `f / 10` below 255, or `f / 10` from 65280 to
    65534 (`Protocol.WireCentisExact`). Every other fade from 2550 ms on
    arrives with a different time (`Protocol.WireCentisPastLowByte`).
  - In `ServerTickle` the modulus is `0xFFc`, that is 4092. Because the
    timeout is a byte, the value sent is exactly `f / 10` there.

## Model

| member | source | states |
|---|---|---|
| CTypes.ToByte | src/blink1.cpp:117-125 | storing an `unsigned int` in an `unsigned char` field keeps the value modulo 256, and an in-range value unchanged |
| CTypes.ToUint32 | src/blink1.cpp:72 | `unsigned int` addition wraps modulo 2^32; an in-range sum is exact |
| CTypes.ToInt32 | src/blink1.cpp:60-68 | an `unsigned int` fade time passed as `int` is the two's-complement reading of the same bits: converting back gives the original, and it is negative exactly from 2^31 on |
| CTypes.Quot | src/blink1.cpp:240 | C's `/` truncates toward zero: the product with the divisor lies between zero and the dividend, within one divisor of it |
| CTypes.Rem | src/blink1.cpp:240 | C's `%` gives the remainder matching truncating division, smaller than the divisor in magnitude and with the dividend's sign |
| CTypes.ShiftRight8 | src/blink1.cpp:240 | `>> 8` on an `int` rounds toward negative infinity: `r * 256 <= a < r * 256 + 256` |
| Revision.InitBuild | src/blink1.cpp:189-194 | the classification as written, `hex[*s % 16] >= 2`, gives `eMk2` for every serial |
| Revision.HexValue | src/blink1.cpp:184-186 | on a character of the lookup string `"0123456789ABCDEF"` the value is its position there; the value is -1 exactly for a character that is no hexadecimal digit of either case |
| Revision.HexNumber | src/blink1.cpp:184-186 | the number a serial of hexadecimal digits spells is below 16 to the power of its length |
| Revision.HexNumberLeading | src/blink1.cpp:184-186 | the leading digit of a serial contributes its value times 16 to the power of the digits after it |
| Revision.DocumentedBuild | src/blink1.cpp:184-186 | the comment's rule read off the leading digit: on an eight-digit serial it gives MK1 exactly when the serial's value is at most 0x1FFFFFFF |
| Revision.InitIgnoresDocumentedRule | src/blink1.cpp:184-194 | the comment's rule and the code's rule disagree: `1FFFFFFF` is MK1 by the comment and MK2 by the code |
| Protocol.TimeHigh | src/blink1.cpp:240 | for a non-negative time, the high time byte is the second byte of the centisecond count `f / 10` |
| Protocol.TimeLow | src/blink1.cpp:240 | for a non-negative time, the low time byte is the centisecond count modulo 255, which equals the count's low byte below 2550 ms |
| Protocol.WireCentis | src/blink1.cpp:240 | the time the device reads from the two time bytes of a fade is below 2^16, equals `f / 10` for fades under 2550 ms, and never has low byte 0xFF |
| Protocol.WireCentisExact | src/blink1.cpp:240 | a non-negative fade reads back as exactly `f / 10` if and only if `f / 10` is below 255 or between 65280 and 65534 |
| Protocol.WireCentisPastLowByte | src/blink1.cpp:289 | fades of 2549, 2550 and 2560 ms reach the device as 254, 0 and 257 centiseconds |
| Protocol.SetRgbReport | src/blink1.cpp:226-233 | the set-now report reads back as an immediate change to exactly the given colour |
| Protocol.FadeReport | src/blink1.cpp:283-291 | the fade report reads back as a fade to the given colour on the given channel, over the wire time of `f` |
| Protocol.PlayReport | src/blink1.cpp:251-259 | the play report reads back with the caller's fields on MK2, and with end and count zero on MK1 |
| Protocol.TickleReport | src/blink1.cpp:266-274 | the tickle report reads back with the caller's on/off, start and end, a time of `f / 10` and `maintain` zeroed on MK1; the high time byte is 0 |
| Protocol.TurnOffReport | src/blink1.cpp:261-264 | turning off sends `'D'` followed by seven zero bytes, on either build |
| Protocol.PatternStepReport | src/blink1.cpp:276-281 | the pattern-step report reads back with each colour passed through `GammaE`, the wire time of `f` and the position |
| Protocol.GammaEShape | src/blink1.cpp:18-38 | the gamma table has 256 entries, maps 0 to 0 and 255 to 255, and never decreases |
| Actions.VisibleTime | include/blink1.hpp:59-65 | an action is visible for its fade plus its hold, at least as long as either; a zero fade makes the change instant |
| Actions.SetAt | src/blink1.cpp:152-169 | setting an existing position replaces exactly that entry, a position equal to the size appends, and a larger one leaves the queue unchanged |
| Actions.RemoveAt | src/blink1.cpp:95-103 | removing a valid position drops exactly that entry, keeps the earlier ones and shifts the later ones down, as a multiset difference; any other position changes nothing |
| Actions.NoNullSlotsKept | src/blink1.cpp:95-170 | adding, setting and removing actions never leaves a NULL slot in a queue that had none |
| Worker.Emission | src/blink1.cpp:58-69 | an action writes one fade per LED of the build: two on MK2, one on MK1 |
| Worker.SlotReports | src/blink1.cpp:52-69 | a NULL slot writes nothing; an action writes its fades, one per LED |
| Worker.SlotWait | src/blink1.cpp:54-74 | a NULL slot does not sleep; an action sleeps its fade plus hold wrapped at 2^32 (`ActionWait`), which is its visible time when that fits in 32 bits |
| Worker.Step | src/blink1.cpp:48-80 | halted or with an empty queue, an iteration writes nothing, resets the cursor and idles 1000 ms; otherwise it handles the slot at the read index, sleeps that slot's time and leaves the cursor one past it, never beyond the queue |
| Worker.Run | src/blink1.cpp:46-81 | `n` iterations sleep `n` times; halted or with an empty queue they write nothing, every sleep is the idle 1000 ms and the cursor is reset to 0 |
| Worker.ReadIndex | src/blink1.cpp:50-52 | the index read is the cursor when the cursor is inside the queue, and exactly 0 when the cursor is at or past its end |
| Worker.EmissionFades | src/blink1.cpp:54-69 | an action writes one fade per LED on MK2 (channel 1 with the first colour, then channel 2 with the second) and one fade on channel 0 on MK1 |
| Worker.ActionWait | src/blink1.cpp:72-73 | the sleep after an action is its visible time, wrapped at 2^32 |
| Worker.RunFirstStep | src/blink1.cpp:48-75 | an iteration at a cursor inside the queue handles that slot and moves the cursor one on |
| Worker.RunWalksQueue | src/blink1.cpp:46-76 | while running over an unchanged queue, `k` iterations from cursor `i` write the reports of slots `i` to `i + k - 1` in order, sleep their sleeps, and leave the cursor at `i + k` |
| Worker.RunSplits | src/blink1.cpp:46-81 | `m + n` iterations are `m` iterations followed by `n` more from the cursor the first ones leave |
| Worker.WorkerCycle | src/blink1.cpp:46-81 | a pass from cursor 0 writes every slot's reports in queue order, and the cursor it leaves behaves like 0 |
| Worker.RunFromEnd | src/blink1.cpp:50 | a cursor at the size of the queue behaves like cursor 0 |
| Worker.WorkerRepeats | src/blink1.cpp:46-81 | from cursor 0, `m` passes write the pass's reports `m` times over and sleep its sleeps `m` times over: the queue loops |
| Worker.CycleReportsLayout | src/blink1.cpp:54-69 | with no NULL slot, a pass writes two reports per action on MK2 and one on MK1, and the reports of action `i` sit at positions `Width * i` onwards |
| Registry.BusyRegistry.constructor | src/blink1.cpp:40 | the busy list starts empty |
| Registry.BusyRegistry.SerialBusy | src/blink1.cpp:363-373 | the scan answers true exactly when some registered buffer holds the same characters |
| Registry.BusyRegistry.FirstFreeFrom | src/blink1.cpp:375-387 | the first enumerated serial from `i` on that is not busy, with every earlier one busy; none exactly when all are busy |
| Registry.BusyRegistry.GetNextSerial | src/blink1.cpp:375-387 | the first enumerated buffer whose serial is not busy, or NULL when every one is |
| Session.SerialPrefix | src/blink1.cpp:84-93 | a nine-wide buffer holds at most eight characters of the serial, a prefix of it, and all of a short serial |
| Session.Blink1.Open | src/blink1.cpp:389-405 | a busy serial is refused; otherwise, if the device opens, the caller's buffer is registered, the handle kept and `Init` run; the registry stays free of duplicates |
| Session.Blink1.OpenNext | src/blink1.cpp:407-424 | the first free enumerated serial is opened and registered; none free or no device leaves the session empty and the registry as it was |
| Session.Blink1.Init | src/blink1.cpp:187-198 | the build is classified from the device's serial (always MK2), and the worker is started in the halted state |
| Session.Blink1.DeviceSerial | src/blink1.cpp:86-92 | the content of the serial buffer: empty (all zeros) without a device, otherwise the first eight characters of the device's serial |
| Session.Blink1.GetDeviceSerial | src/blink1.cpp:84-93 | a newly allocated buffer holding the device's serial, empty with no device |
| Session.Blink1.Release | src/blink1.cpp:426-447 | the busy list is left exactly as it was, and the handle is closed |
| Session.Blink1.AddAction | src/blink1.cpp:106-128 | the queue gains one action at its end, colours taken modulo 256, and nothing else changes |
| Session.Blink1.SetAction | src/blink1.cpp:131-170 | the queue becomes `SetAt` of the old queue and the new action |
| Session.Blink1.RemoveAction | src/blink1.cpp:95-103 | the queue becomes `RemoveAt` of the old queue and the position |
| Session.Blink1.ClearActions | src/blink1.cpp:172-182 | the worker is halted and the queue emptied |
| Session.Blink1.StartActionLoop | src/blink1.cpp:353-356 | the worker flag is set |
| Session.Blink1.HaltActionLoop | src/blink1.cpp:358-361 | the worker flag is cleared |
| Session.Blink1.Write | src/blink1.cpp:200-210 | the report is sent and true returned with a device; without one nothing is sent and false is returned |
| Session.Blink1.SetRGB | src/blink1.cpp:226-233 | the queue is cleared, the worker halted, then the set-now report sent |
| Session.Blink1.InternalFadeToRGB | src/blink1.cpp:235-242 | from the worker the queue and flag are untouched; from a caller they are cleared; then the channel-0 fade is sent |
| Session.Blink1.FadeToRGB | src/blink1.cpp:244-249 | the queue is cleared, the worker halted, then the fade sent |
| Session.Blink1.InternalFadeToRGBN | src/blink1.cpp:283-291 | as `_FadeToRGB`, for LED channel `n` |
| Session.Blink1.FadeToRGBN | src/blink1.cpp:294-299 | the queue is cleared, the worker halted, then the fade on channel `n` sent |
| Session.Blink1.Play | src/blink1.cpp:251-259 | the queue is cleared, the worker halted, then the play report for the session's build sent |
| Session.Blink1.ServerTickle | src/blink1.cpp:266-274 | the worker is halted, the queue kept, then the tickle report for the session's build sent |
| Session.Blink1.TurnOff | src/blink1.cpp:261-264 | the worker is halted and the all-zero tickle report sent |
| Session.Blink1.WritePatternStep | src/blink1.cpp:276-281 | the pattern-step report is sent; queue and worker flag are left alone |
| Session.Blink1.WorkerIteration | src/blink1.cpp:42-82 | on a session whose `Init` spawned the worker, one iteration writes the reports of `Step`, returns its sleep and next cursor, and leaves the queue and flag alone |
| Scenarios.ExclusiveAcquisition | src/blink1.cpp:389-405 | a second session for the same serial content is refused while the first holds the device |
| Scenarios.ReleaseKeepsSerialBusy | src/blink1.cpp:426-447 | after a session is destroyed its serial is still busy and a new session for it is refused |
| Scenarios.SetRgbStopsTheLoop | src/blink1.cpp:227-233 | after `SetRGB` on a started queue, the worker writes nothing and sleeps the idle second; only the colour change is sent |
| Scenarios.WorkerPlaysQueue | src/blink1.cpp:42-75 | a started queue's first iteration writes the first action's two fades with the default 1000 ms, sleeps 2000 ms and moves to the second action |

## Left out

- The HID transport (`hid_open`, `hid_send_feature_report`, `hid_get_serial_number_string`, `hid_close`, `hid_enumerate`) is not modelled. Whether a device opens is a parameter of the constructors. The enumerated serials are a parameter of `OpenNext`. A device's serial is the one it was opened with.
- `Read`, `GetRGB`, `GetDeviceSerials` and `PrintDeviceSerials` are not modelled. They are transport reads and console output.
- Threads, the two mutexes and `sleep_for` are not modelled. The worker is modelled as single iterations, each returning its sleep. `Run` is any number of iterations over a queue and flag that stay unchanged. Interleavings with the caller's thread, and a queue changing mid-sleep, are out of scope. The model does cover the cursor reset that such a change triggers (`Worker.ReadIndex`).
- Memory management is not modelled: the leaked `new`-allocated buffers, the actions deleted by `ClearActions` and `SetAction`, and the worker thread never being joined.
- `GammaE` is modelled as its 256 literal entries. The floating-point formula in the comment that produced them is not modelled.
- Three constructor paths leave fields uninitialised in the source, and the model gives them NULL, MK1 and false:
  - `Blink1(wchar_t *serial)` refusing a busy serial returns without setting `m_device`, `m_build` or `m_worker_running`.
  - `Blink1()` finding no free serial sets `m_device` to NULL but leaves `m_build` and `m_worker_running` unset.
  - In either constructor, a failed `hid_open` leaves `m_build` and `m_worker_running` unset.
- The busy list is a static member shared by every session. In the model it is a `BusyRegistry` object passed to each constructor, and nothing forces two sessions to be given the same one. Exclusive acquisition is proved for sessions that share a registry.
- Session.Blink1.Release: the model takes the buffer allocated by the destructor to differ from every registered buffer, because the registered ones are still allocated. If a caller frees the serial buffer it passed to the constructor, the allocator may return that same address to the destructor. The pointer comparison could then match and remove the entry. The model does not capture freeing or address reuse.
- Session.Blink1.Write: the transport's return code is not modelled. A write with a device is taken to succeed, so a `-1` from `hid_send_feature_report` (line 209) is not represented.
- CTypes.ToInt32: the model takes the conversion of an `unsigned int` of 2^31 or more to `int` to be the two's-complement reading. Before C++20 that conversion is implementation-defined.
- Registry.SerialBuffer: the model takes a serial buffer's content to stay fixed after registration (`const chars`). The source keeps the caller's own pointer in `m_busy` (src/blink1.cpp:401) and compares its current content on every `SerialBusy` (src/blink1.cpp:367). A caller who overwrites a registered buffer would make the old serial acquirable again and the new content busy. The model cannot express that aliasing.
- CTypes.ShiftRight8: the model takes `>>` on a negative `int` to be an arithmetic shift. That is implementation-defined in the C++ the library targets.
- Registry.SerialBuffer: only the content up to the terminator is modelled. Characters past a terminator inside the buffer are not.
