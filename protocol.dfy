/** The 9-byte HID feature reports a session writes for its immediate
    commands and for each queued fade (src/blink1.cpp:21-38, 226-299), in
    blink(1)'s vendor-defined layout, and a reader of that layout. */
module Protocol {
  import opened CTypes
  import opened Revision

  /** Every command is one feature report of exactly nine bytes. */
  type Report = s: seq<byte> | |s| == 9 witness [0, 0, 0, 0, 0, 0, 0, 0, 0]

  /** Byte 0 of every report: the report id. */
  const ReportId: byte := 1

  /** Byte 1 of every report: the command letter. */
  const SetNowCode: byte := 'n' as int
  const FadeCode: byte := 'c' as int
  const PlayCode: byte := 'p' as int
  const TickleCode: byte := 'D' as int
  const PatternStepCode: byte := 'P' as int

  datatype Rgb = Rgb(red: byte, green: byte, blue: byte)

  /** What the device reads from a report. A time is the 16-bit big-endian
      number, in units of 10 ms, held in a high byte and the low byte after it;
      unused trailing bytes must be zero. */
  datatype Command =
    | SetNow(color: Rgb)
    | FadeTo(color: Rgb, centis: nat, channel: byte)
    | Play(on: byte, start: byte, end: byte, count: byte)
    | Tickle(on: byte, centis: nat, maintain: byte, start: byte, end: byte)
    | PatternStep(color: Rgb, centis: nat, position: byte)
    | Unrecognised

  function Parse(rep: Report): Command
  {
    if rep[0] != ReportId then Unrecognised
    else if rep[1] == SetNowCode && rep[5..] == [0, 0, 0, 0] then
      SetNow(Rgb(rep[2], rep[3], rep[4]))
    else if rep[1] == FadeCode && rep[8] == 0 then
      FadeTo(Rgb(rep[2], rep[3], rep[4]), rep[5] as int * 0x100 + rep[6], rep[7])
    else if rep[1] == PlayCode && rep[6..] == [0, 0, 0] then
      Play(rep[2], rep[3], rep[4], rep[5])
    else if rep[1] == TickleCode && rep[8] == 0 then
      Tickle(rep[2], rep[3] as int * 0x100 + rep[4], rep[5], rep[6], rep[7])
    else if rep[1] == PatternStepCode && rep[8] == 0 then
      PatternStep(Rgb(rep[2], rep[3], rep[4]), rep[5] as int * 0x100 + rep[6], rep[7])
    else Unrecognised
  }

  // ---------------------------------------------------------------------------
  // Time fields

  /** High time byte of a fade: `(f / 10) >> 8`, narrowed to a byte. */
  function TimeHigh(f: int): (h: byte)
    ensures 0 <= f ==> h == f / 10 / 0x100 % 0x100
  {
    ToByte(ShiftRight8(Quot(f, 10)))
  }

  /** Low time byte of a fade: `(f / 10) % 0xFF`, narrowed to a byte. The
      operator is a remainder modulo 255, not a mask of the low eight bits. */
  function TimeLow(f: int): (l: byte)
    ensures 0 <= f ==> l == f / 10 % 0xFF
    ensures 0 <= f < 2550 ==> l == f / 10 % 0x100
  {
    ToByte(Rem(Quot(f, 10), 0xFF))
  }

  /** The time the device reads back from the two bytes written for a fade of
      `f` milliseconds. The low byte is a remainder modulo 255, so it never
      takes the value 0xFF for a non-negative time; `WireCentisExact` says
      exactly when the intended `f / 10` centiseconds arrive. */
  function WireCentis(f: int): (t: nat)
    ensures t < 0x1_0000
    ensures 0 <= f < 2550 ==> t == f / 10
    ensures 0 <= f ==> t % 0x100 != 0xFF
  {
    TimeHigh(f) * 0x100 + TimeLow(f)
  }

  /** A non-negative fade reaches the device as the intended `f / 10`
      centiseconds exactly when `f / 10` is below 255, or in the last stretch
      65280 to 65534 below 2^16, where the remainder modulo 255 and the low
      byte agree again. */
  lemma WireCentisExact(f: int32)
    requires 0 <= f
    ensures WireCentis(f) == f / 10 <==> (f / 10 < 255 || 65280 <= f / 10 < 65535)
  {
    assert TimeHigh(f) == f / 10 / 0x100 % 0x100;
    assert TimeLow(f) == f / 10 % 0xFF;
  }

  /** Fades of 2550 ms and 2560 ms reach the device as 0 and 257
      centiseconds, instead of 255 and 256. */
  lemma WireCentisPastLowByte()
    ensures WireCentis(2549) == 254
    ensures WireCentis(2550) == 0
    ensures WireCentis(2560) == 257
  {
  }

  // ---------------------------------------------------------------------------
  // Encoders

  /** `SetRGB`: `{1, 'n', r, g, b, 0, 0, 0, 0}`. */
  function SetRgbReport(r: byte, g: byte, b: byte): (rep: Report)
    ensures Parse(rep) == SetNow(Rgb(r, g, b))
  {
    [ReportId, SetNowCode, r, g, b, 0, 0, 0, 0]
  }

  /** `_FadeToRGBN` (and `_FadeToRGB` with `n` = 0):
      `{1, 'c', r, g, b, (f / 10) >> 8, (f / 10) % 0xFF, n, 0}`. */
  function FadeReport(f: int32, r: byte, g: byte, b: byte, n: byte): (rep: Report)
    ensures Parse(rep) == FadeTo(Rgb(r, g, b), WireCentis(f), n)
  {
    [ReportId, FadeCode, r, g, b, TimeHigh(f), TimeLow(f), n, 0]
  }

  /** `Play`: `{1, 'p', o, b, e, c, 0, 0, 0}`, where an MK1 device gets zero
      for both the end position and the count. */
  function PlayReport(build: Build, o: byte, b: byte, e: byte, c: byte): (rep: Report)
    ensures build == Mk2 ==> Parse(rep) == Play(o, b, e, c)
    ensures build == Mk1 ==> Parse(rep) == Play(o, b, 0, 0)
  {
    var e' := if build == Mk1 then 0 else e;
    var c' := if build == Mk1 then 0 else c;
    [ReportId, PlayCode, o, b, e', c', 0, 0, 0]
  }

  /** `ServerTickle`: `{1, 'D', o, (f / 10) >> 8, (f / 10) % 0xFFc, m, b, e}`
      and a zero ninth byte; `0xFFc` is the literal 4092, and an MK1 device
      gets zero for `maintain`. As the timeout is a byte, its time field is
      exactly `f / 10`. */
  function TickleReport(build: Build, o: byte, f: byte, b: byte, e: byte, m: byte): (rep: Report)
    ensures Parse(rep) == Tickle(o, f / 10, if build == Mk1 then 0 else m, b, e)
    ensures rep[3] == 0 && rep[4] == f / 10
  {
    var m' := if build == Mk1 then 0 else m;
    [ReportId, TickleCode, o, ToByte(ShiftRight8(Quot(f, 10))), ToByte(Rem(Quot(f, 10), 0xFFC)), m', b, e, 0]
  }

  /** `TurnOff` is `ServerTickle(0, 0, 0, 0, 0)`: the letter 'D' and seven zero
      bytes, on either build. */
  lemma TurnOffReport(build: Build)
    ensures TickleReport(build, 0, 0, 0, 0, 0) == [1, 'D' as int, 0, 0, 0, 0, 0, 0, 0]
  {
  }

  /** `WritePatternStep`: `{1, 'P', GammaE[r], GammaE[g], GammaE[b],
      (f / 10) >> 8, (f / 10) % 0xff, p, 0}`; each colour byte indexes the
      256-entry table, so every lookup is in range. */
  function PatternStepReport(f: uint16, r: byte, g: byte, b: byte, p: byte): (rep: Report)
    ensures Parse(rep) == PatternStep(Rgb(GammaE[r], GammaE[g], GammaE[b]), WireCentis(f), p)
  {
    [ReportId, PatternStepCode, GammaE[r], GammaE[g], GammaE[b], TimeHigh(f), TimeLow(f), p, 0]
  }

  // ---------------------------------------------------------------------------
  // Gamma table

  /** `GammaE`, the gamma-correction table of the WS2812 LED, written as sixteen
      rows of sixteen entries. */
  const GammaRow0: seq<byte> := [0, 0, 0, 0, 0, 0, 0, 0, 0, 0, 0, 0, 0, 0, 0, 0]
  const GammaRow1: seq<byte> := [0, 0, 0, 0, 0, 0, 1, 1, 1, 1, 1, 1, 1, 2, 2, 2]
  const GammaRow2: seq<byte> := [2, 2, 2, 3, 3, 3, 3, 3, 4, 4, 4, 4, 5, 5, 5, 5]
  const GammaRow3: seq<byte> := [6, 6, 6, 7, 7, 7, 8, 8, 8, 9, 9, 9, 10, 10, 11, 11]
  const GammaRow4: seq<byte> := [11, 12, 12, 13, 13, 13, 14, 14, 15, 15, 16, 16, 17, 17, 18, 18]
  const GammaRow5: seq<byte> := [19, 19, 20, 21, 21, 22, 22, 23, 23, 24, 25, 25, 26, 27, 27, 28]
  const GammaRow6: seq<byte> := [29, 29, 30, 31, 31, 32, 33, 34, 34, 35, 36, 37, 37, 38, 39, 40]
  const GammaRow7: seq<byte> := [40, 41, 42, 43, 44, 45, 46, 46, 47, 48, 49, 50, 51, 52, 53, 54]
  const GammaRow8: seq<byte> := [55, 56, 57, 58, 59, 60, 61, 62, 63, 64, 65, 66, 67, 68, 69, 70]
  const GammaRow9: seq<byte> := [71, 72, 73, 74, 76, 77, 78, 79, 80, 81, 83, 84, 85, 86, 88, 89]
  const GammaRow10: seq<byte> := [90, 91, 93, 94, 95, 96, 98, 99, 100, 102, 103, 104, 106, 107, 109, 110]
  const GammaRow11: seq<byte> := [111, 113, 114, 116, 117, 119, 120, 121, 123, 124, 126, 128, 129, 131, 132, 134]
  const GammaRow12: seq<byte> := [135, 137, 138, 140, 142, 143, 145, 146, 148, 150, 151, 153, 155, 157, 158, 160]
  const GammaRow13: seq<byte> := [162, 163, 165, 167, 169, 170, 172, 174, 176, 178, 179, 181, 183, 185, 187, 189]
  const GammaRow14: seq<byte> := [191, 193, 194, 196, 198, 200, 202, 204, 206, 208, 210, 212, 214, 216, 218, 220]
  const GammaRow15: seq<byte> := [222, 224, 227, 229, 231, 233, 235, 237, 239, 241, 244, 246, 248, 250, 252, 255]

  const GammaQuarter0: seq<byte> := (GammaRow0 + GammaRow1) + (GammaRow2 + GammaRow3)
  const GammaQuarter1: seq<byte> := (GammaRow4 + GammaRow5) + (GammaRow6 + GammaRow7)
  const GammaQuarter2: seq<byte> := (GammaRow8 + GammaRow9) + (GammaRow10 + GammaRow11)
  const GammaQuarter3: seq<byte> := (GammaRow12 + GammaRow13) + (GammaRow14 + GammaRow15)
  const GammaE: seq<byte> := (GammaQuarter0 + GammaQuarter1) + (GammaQuarter2 + GammaQuarter3)

  ghost predicate NonDecreasing(s: seq<int>)
  {
    forall i, j :: 0 <= i <= j < |s| ==> s[i] <= s[j]
  }

  /** Neighbouring entries from `i` on are in order. */
  predicate InOrderFrom(s: seq<int>, i: nat)
    decreases |s| - i
  {
    i + 1 >= |s| || (s[i] <= s[i + 1] && InOrderFrom(s, i + 1))
  }

  lemma {:induction false} InOrderFromSorted(s: seq<int>, i: nat)
    requires InOrderFrom(s, i)
    ensures forall j, k :: i <= j <= k < |s| ==> s[j] <= s[k]
    decreases |s| - i
  {
    if i + 1 < |s| {
      InOrderFromSorted(s, i + 1);
    }
  }

  lemma NonDecreasingJoin(a: seq<int>, b: seq<int>)
    requires NonDecreasing(a) && NonDecreasing(b)
    requires a != [] && b != [] && a[|a| - 1] <= b[0]
    ensures NonDecreasing(a + b)
  {
    var ab := a + b;
    forall i, j | 0 <= i <= j < |ab|
      ensures ab[i] <= ab[j]
    {
      if j < |a| {
      } else if i >= |a| {
        assert ab[i] == b[i - |a|] && ab[j] == b[j - |a|];
      } else {
        assert a[i] <= a[|a| - 1];
        assert b[0] <= b[j - |a|];
      }
    }
  }

  lemma RowNonDecreasing(row: seq<int>)
    requires InOrderFrom(row, 0)
    ensures NonDecreasing(row)
  {
    InOrderFromSorted(row, 0);
  }

  /** Four rows in order, each in order, make a quarter of the table in order. */
  lemma QuarterNonDecreasing(r0: seq<int>, r1: seq<int>, r2: seq<int>, r3: seq<int>)
    requires InOrderFrom(r0, 0) && InOrderFrom(r1, 0) && InOrderFrom(r2, 0) && InOrderFrom(r3, 0)
    requires |r0| == |r1| == |r2| == |r3| == 16
    requires r0[15] <= r1[0] && r1[15] <= r2[0] && r2[15] <= r3[0]
    ensures NonDecreasing((r0 + r1) + (r2 + r3))
  {
    RowNonDecreasing(r0);
    RowNonDecreasing(r1);
    RowNonDecreasing(r2);
    RowNonDecreasing(r3);
    NonDecreasingJoin(r0, r1);
    NonDecreasingJoin(r2, r3);
    NonDecreasingJoin(r0 + r1, r2 + r3);
  }

  lemma GammaLowQuartersNonDecreasing()
    ensures NonDecreasing(GammaQuarter0) && NonDecreasing(GammaQuarter1)
  {
    QuarterNonDecreasing(GammaRow0, GammaRow1, GammaRow2, GammaRow3);
    QuarterNonDecreasing(GammaRow4, GammaRow5, GammaRow6, GammaRow7);
  }

  lemma GammaHighQuartersNonDecreasing()
    ensures NonDecreasing(GammaQuarter2) && NonDecreasing(GammaQuarter3)
  {
    QuarterNonDecreasing(GammaRow8, GammaRow9, GammaRow10, GammaRow11);
    QuarterNonDecreasing(GammaRow12, GammaRow13, GammaRow14, GammaRow15);
  }

  /** The table has 256 entries, starts at 0, ends at 255 and never decreases. */
  lemma GammaEShape()
    ensures |GammaE| == 256
    ensures GammaE[0] == 0 && GammaE[255] == 255
    ensures NonDecreasing(GammaE)
  {
    GammaLowQuartersNonDecreasing();
    GammaHighQuartersNonDecreasing();
    assert |GammaQuarter0| == |GammaQuarter1| == |GammaQuarter2| == |GammaQuarter3| == 64;
    assert GammaQuarter0[63] <= GammaQuarter1[0];
    assert GammaQuarter2[63] <= GammaQuarter3[0];
    NonDecreasingJoin(GammaQuarter0, GammaQuarter1);
    NonDecreasingJoin(GammaQuarter2, GammaQuarter3);
    assert (GammaQuarter0 + GammaQuarter1)[127] <= (GammaQuarter2 + GammaQuarter3)[0];
    NonDecreasingJoin(GammaQuarter0 + GammaQuarter1, GammaQuarter2 + GammaQuarter3);
  }
}
