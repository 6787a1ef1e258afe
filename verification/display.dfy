/** The command layer of the TM1651 driver (D7Segment.py): the segment table,
    the chip's command constants, and the D7Display operations set_brightness,
    set_digit, set_integer and clear_display, each a pure function from the
    driver's state, its arguments and the sampled acknowledge levels to the
    bus trace it emits.
 */
module Display {
  import opened Bus
  import opened Receiver

  /** CHAR_ARRAY: segment patterns for digits 0-9, letters A-F (10-15), blank
      (16) and six unit glyphs (17-22). Bit 7, the decimal point, is never set. */
  const CharArray: seq<int> := [
    0x3f, 0x06, 0x5b, 0x4f, 0x66, 0x6d, 0x7d, 0x07, 0x7f, 0x6f,
    0x77, 0x7c, 0x39, 0x5e, 0x79, 0x71,
    0x00, 0x63, 0x5c, 0x01, 0x40, 0x08, 0x49
  ]

  /** Index of the blank glyph in CharArray. */
  const Blank := 16

  /** Command constants of the chip. */
  const AddrFixed := 0x44   // data command: fixed address mode
  const DisplayOff := 0x80  // display control: display off
  const DisplayOn := 0x88   // display control: display on, brightness in the low 3 bits
  const AddrStart := 0xC0   // address command: display register 0

  datatype Option<T> = None | Some(value: T)

  /** The driver's state: the brightness last stored by set_brightness. */
  datatype D7Display = D7Display(brightness: int)

  /** The outcome of set_digit: either it returned the AND of the acknowledges,
      or the glyph lookup raised IndexError after the first transaction was sent. */
  datatype DigitResult = Written(trace: Trace, ack: bool) | IndexError(trace: Trace)

  /** `CHAR_ARRAY[num]` with Python's list indexing: a negative index counts
      from the end, anything outside -23..22 raises IndexError (None here). */
  function Glyph(num: int): (r: Option<int>)
    ensures r.Some? <==> -|CharArray| <= num < |CharArray|
    ensures r.Some? ==> 0 <= r.value < 0x80
    ensures r.Some? ==> r.value == CharArray[num % |CharArray|]
    ensures 0 <= num < |CharArray| ==> r == Some(CharArray[num])
  {
    if 0 <= num < |CharArray| then
      DivUnique(num, |CharArray|, 0, num);
      Some(CharArray[num])
    else if -|CharArray| <= num < 0 then
      DivUnique(num, |CharArray|, -1, |CharArray| + num);
      Some(CharArray[|CharArray| + num])
    else None
  }

  /** set_brightness: only stores the level; nothing goes on the bus. */
  function SetBrightness(d: D7Display, brightness: int): D7Display {
    d.(brightness := brightness)
  }

  /** set_digit: three transactions (fixed address mode; register address with
      the segment pattern; display on with the brightness), each sent whatever
      the previous ones' acknowledges were; the result is their AND. */
  function SetDigit(d: D7Display, digit: int, num: int, levels: seq<bool>): (r: DigitResult)
    requires |levels| == 4
    ensures r.Written? <==> -|CharArray| <= num < |CharArray|
    ensures r.Written? ==> (r.ack <==> AllLow(levels))
  {
    var fixed := SendCommand([AddrFixed], levels[..1]);
    match Glyph(num)
    case None => IndexError(fixed.trace)
    case Some(pattern) =>
      var write := SendCommand([AddrStart + digit, pattern], levels[1..3]);
      var show := SendCommand([DisplayOn + d.brightness], levels[3..]);
      AllLowSplit(levels);
      Written(fixed.trace + write.trace + show.trace, show.ack && (write.ack && (fixed.ack && true)))
  }

  lemma AllLowSplit(levels: seq<bool>)
    requires |levels| == 4
    ensures AllLow(levels) <==> AllLow(levels[..1]) && AllLow(levels[1..3]) && AllLow(levels[3..])
  {
    if AllLow(levels[..1]) && AllLow(levels[1..3]) && AllLow(levels[3..]) {
      assert !levels[..1][0] && !levels[1..3][0] && !levels[1..3][1] && !levels[3..][0];
    }
  }

  /** The clamped value set_integer shows: values above 999 become 999. */
  function Clamp(num: int): int {
    if num > 999 then 999 else num
  }

  /** The three digits set_integer sends, hundreds first. */
  function DigitsOf(num: int): (r: (int, int, int))
    requires num >= 0
    ensures 0 <= r.0 < 10 && 0 <= r.1 < 10 && 0 <= r.2 < 10
    ensures 100 * r.0 + 10 * r.1 + r.2 == Clamp(num)
  {
    var n := Clamp(num);
    DecimalDigits(n);
    (n / 100 % 10, n / 10 % 10, n % 10)
  }

  /** A number below 1000 is its hundreds, tens and units digits recombined. */
  lemma DecimalDigits(n: int)
    requires 0 <= n <= 999
    ensures 100 * (n / 100 % 10) + 10 * (n / 10 % 10) + n % 10 == n
  {
    var h, r := n / 100, n % 100;
    assert 0 <= h < 10 by {
      if h >= 10 { MulMono(100, 10, h); }
    }
    DivUnique(h, 10, 0, h);
    DivUnique(n, 10, 10 * h + r / 10, r % 10);
    DivUnique(10 * h + r / 10, 10, h, r / 10);
  }

  /** Three set_digit calls in a row, four acknowledge levels each, with their
      results dropped. */
  function ThreeDigits(d: D7Display, a: int, na: int, b: int, nb: int, c: int, nc: int,
                       levels: seq<bool>): Trace
    requires |levels| == 12
  {
    SetDigit(d, a, na, levels[..4]).trace
      + SetDigit(d, b, nb, levels[4..8]).trace
      + SetDigit(d, c, nc, levels[8..]).trace
  }

  /** set_integer: clamps, then sets positions 0, 1, 2 to the hundreds, tens and
      units digits. It returns nothing, so the acknowledges are dropped. */
  function SetInteger(d: D7Display, num: int, levels: seq<bool>): Trace
    requires num >= 0 && |levels| == 12
  {
    var (h, t, u) := DigitsOf(num);
    ThreeDigits(d, 0, h, 1, t, 2, u, levels)
  }

  /** clear_display as written: blanks position 0 and then position 1 twice;
      position 2 is never written. Returns nothing. */
  function ClearDisplay(d: D7Display, levels: seq<bool>): Trace
    requires |levels| == 12
  {
    ThreeDigits(d, 0, Blank, 1, Blank, 1, Blank, levels)
  }

  /** clear_display as evidently intended: blanks positions 0, 1 and 2. */
  function ClearAllDigits(d: D7Display, levels: seq<bool>): Trace
    requires |levels| == 12
  {
    ThreeDigits(d, 0, Blank, 1, Blank, 2, Blank, levels)
  }

  /** The segment table: 23 entries, no decimal point, blank at 16, the
      standard seven-segment digits at 0-9. */
  lemma CharArrayFacts()
    ensures |CharArray| == 23
    ensures forall i :: 0 <= i < |CharArray| ==> 0 <= CharArray[i] <= 0x7F
    ensures CharArray[Blank] == 0x00
    ensures CharArray[..10] == [0x3f, 0x06, 0x5b, 0x4f, 0x66, 0x6d, 0x7d, 0x07, 0x7f, 0x6f]
  {
  }

  /** The frames of one set_digit, as the receiver sees them. */
  function DigitFrames(d: D7Display, digit: int, pattern: int): seq<seq<int>> {
    [[AddrFixed], [Low8(AddrStart + digit), pattern], [Low8(DisplayOn + d.brightness)]]
  }

  lemma Low8Pair(a: int, b: int)
    ensures Low8All([a, b]) == [Low8(a), Low8(b)]
  {
    assert [a, b][1..] == [b];
  }

  lemma Low8One(b: int)
    ensures Low8All([b]) == [Low8(b)]
  {
    assert [b][1..] == [];
  }

  /** Three transactions in a row are three frames in a row. */
  lemma ThreeTransactions(a: seq<int>, la: seq<bool>, b: seq<int>, lb: seq<bool>,
                          c: seq<int>, lc: seq<bool>, s: State)
    requires |la| == |a| && |lb| == |b| && |lc| == |c| && s.rx.Idle?
    ensures Run(SendCommand(a, la).trace + SendCommand(b, lb).trace + SendCommand(c, lc).trace, s)
         == State(Wire(true, true), Idle, s.frames + [Low8All(a), Low8All(b), Low8All(c)])
  {
    var s1 := State(Wire(true, true), Idle, s.frames + [Low8All(a)]);
    var s2 := State(Wire(true, true), Idle, s1.frames + [Low8All(b)]);
    var s3 := State(Wire(true, true), Idle, s2.frames + [Low8All(c)]);
    SendCommandFrame(a, la, s);
    SendCommandFrame(b, lb, s1);
    SendCommandFrame(c, lc, s2);
    Compose3(SendCommand(a, la).trace, SendCommand(b, lb).trace, SendCommand(c, lc).trace, s, s1, s2, s3);
    assert s3.frames == s.frames + [Low8All(a), Low8All(b), Low8All(c)];
  }

  /** With a valid glyph, set_digit's trace is its three transactions in order. */
  lemma SetDigitTrace(d: D7Display, digit: int, num: int, levels: seq<bool>)
    requires |levels| == 4 && Glyph(num).Some?
    ensures SetDigit(d, digit, num, levels).trace
         == SendCommand([AddrFixed], levels[..1]).trace
          + SendCommand([AddrStart + digit, Glyph(num).value], levels[1..3]).trace
          + SendCommand([DisplayOn + d.brightness], levels[3..]).trace
  {
    var pattern := Glyph(num).value;
    assert SetDigit(d, digit, num, levels)
        == Written(SendCommand([AddrFixed], levels[..1]).trace
                   + SendCommand([AddrStart + digit, pattern], levels[1..3]).trace
                   + SendCommand([DisplayOn + d.brightness], levels[3..]).trace,
                   SendCommand([DisplayOn + d.brightness], levels[3..]).ack
                   && (SendCommand([AddrStart + digit, pattern], levels[1..3]).ack
                   && (SendCommand([AddrFixed], levels[..1]).ack && true)));
  }

  /** The three transactions of set_digit for a known pattern, from an idle bus:
      three frames, the address and brightness bytes taken modulo 256. */
  lemma PatternFrames(d: D7Display, digit: int, pattern: int, levels: seq<bool>, s: State)
    requires |levels| == 4 && s.rx.Idle? && 0 <= pattern < 256
    ensures Run(SendCommand([AddrFixed], levels[..1]).trace
                + SendCommand([AddrStart + digit, pattern], levels[1..3]).trace
                + SendCommand([DisplayOn + d.brightness], levels[3..]).trace, s)
         == State(Wire(true, true), Idle, s.frames + DigitFrames(d, digit, pattern))
  {
    var fixed, write, show := [AddrFixed], [AddrStart + digit, pattern], [DisplayOn + d.brightness];
    assert [Low8All(fixed), Low8All(write), Low8All(show)] == DigitFrames(d, digit, pattern) by {
      Low8One(AddrFixed);
      assert Low8(AddrFixed) == AddrFixed;
      Low8Pair(AddrStart + digit, pattern);
      DivUnique(pattern, 256, 0, pattern);
      Low8One(DisplayOn + d.brightness);
    }
    ThreeTransactions(fixed, levels[..1], write, levels[1..3], show, levels[3..], s);
  }

  /** set_digit on the bus: with a valid glyph, exactly three frames, the
      address byte and brightness byte modulo 256 and the glyph's pattern
      unchanged; on IndexError only the fixed-address frame. Either way, for
      every acknowledge pattern, and the bus is quiet afterwards. */
  lemma SetDigitFrames(d: D7Display, digit: int, num: int, levels: seq<bool>, s: State)
    requires |levels| == 4 && s.rx.Idle?
    ensures var r := SetDigit(d, digit, num, levels);
      && (r.Written? ==>
            Run(r.trace, s) == State(Wire(true, true), Idle, s.frames + DigitFrames(d, digit, Glyph(num).value)))
      && (r.IndexError? ==>
            Run(r.trace, s) == State(Wire(true, true), Idle, s.frames + [[AddrFixed]]))
  {
    var r := SetDigit(d, digit, num, levels);
    if Glyph(num).Some? {
      assert Run(r.trace, s) == State(Wire(true, true), Idle, s.frames + DigitFrames(d, digit, Glyph(num).value)) by {
        SetDigitTrace(d, digit, num, levels);
        PatternFrames(d, digit, Glyph(num).value, levels, s);
      }
    } else {
      assert Run(r.trace, s) == State(Wire(true, true), Idle, s.frames + [[AddrFixed]]) by {
        assert r.trace == SendCommand([AddrFixed], levels[..1]).trace;
        SendCommandFrame([AddrFixed], levels[..1], s);
        Low8One(AddrFixed);
        assert Low8(AddrFixed) == AddrFixed;
      }
    }
  }

  lemma PatternSamples(d: D7Display, digit: int, pattern: int, levels: seq<bool>)
    requires |levels| == 4
    ensures Samples(SendCommand([AddrFixed], levels[..1]).trace
                    + SendCommand([AddrStart + digit, pattern], levels[1..3]).trace
                    + SendCommand([DisplayOn + d.brightness], levels[3..]).trace) == levels
  {
    var fixed := SendCommand([AddrFixed], levels[..1]);
    var write := SendCommand([AddrStart + digit, pattern], levels[1..3]);
    var show := SendCommand([DisplayOn + d.brightness], levels[3..]);
    SendCommandSamples([AddrFixed], levels[..1]);
    SendCommandSamples([AddrStart + digit, pattern], levels[1..3]);
    SendCommandSamples([DisplayOn + d.brightness], levels[3..]);
    SamplesAppend(fixed.trace + write.trace, show.trace);
    SamplesAppend(fixed.trace, write.trace);
    assert levels[..1] + levels[1..3] + levels[3..] == levels;
  }

  /** set_digit reads the data line once per byte it sends, in order: all four
      levels with a valid glyph, only the first on IndexError. */
  lemma SetDigitSamples(d: D7Display, digit: int, num: int, levels: seq<bool>)
    requires |levels| == 4
    ensures var r := SetDigit(d, digit, num, levels);
      Samples(r.trace) == if r.Written? then levels else levels[..1]
  {
    var r := SetDigit(d, digit, num, levels);
    if Glyph(num).Some? {
      assert Samples(r.trace) == levels by {
        SetDigitTrace(d, digit, num, levels);
        PatternSamples(d, digit, Glyph(num).value, levels);
      }
    } else {
      assert Samples(r.trace) == levels[..1] by {
        assert r.trace == SendCommand([AddrFixed], levels[..1]).trace;
        SendCommandSamples([AddrFixed], levels[..1]);
      }
    }
  }

  /** One missing acknowledge anywhere fails set_digit, and all present
      acknowledges succeed; the bytes on the bus are the same either way. */
  lemma SingleMissingAckFails(d: D7Display, digit: int, num: int, levels: seq<bool>, i: int)
    requires |levels| == 4 && AllLow(levels) && 0 <= i < 4
    requires Glyph(num).Some?
    ensures SetDigit(d, digit, num, levels).ack
    ensures !SetDigit(d, digit, num, levels[i := true]).ack
    ensures Frames(SetDigit(d, digit, num, levels[i := true]).trace) == Frames(SetDigit(d, digit, num, levels).trace)
  {
    assert !AllLow(levels[i := true]) by {
      assert levels[i := true][i];
    }
    SetDigitFrames(d, digit, num, levels, Quiet);
    SetDigitFrames(d, digit, num, levels[i := true], Quiet);
  }

  /** set_brightness takes effect in the display-on byte of every later
      set_digit: what the digit sends depends on the stored level alone, and
      for levels 0..7 the last frame is exactly 0x88 + level. */
  lemma BrightnessRidesOnDisplayOn(d: D7Display, brightness: int, digit: int, num: int, levels: seq<bool>)
    requires |levels| == 4 && Glyph(num).Some?
    ensures Frames(SetDigit(SetBrightness(d, brightness), digit, num, levels).trace)
         == DigitFrames(D7Display(brightness), digit, Glyph(num).value)
    ensures 0 <= brightness <= 7 ==>
      DigitFrames(D7Display(brightness), digit, Glyph(num).value)[2] == [DisplayOn + brightness]
  {
    if 0 <= brightness <= 7 {
      assert DigitFrames(D7Display(brightness), digit, Glyph(num).value)[2] == [DisplayOn + brightness] by {
        assert Low8(DisplayOn + brightness) == DisplayOn + brightness;
      }
    }
    ValidDigitFrames(SetBrightness(d, brightness), digit, num, levels);
  }

  /** Digit 7 at position 0 with brightness 2: the bytes are 0x44, then 0xC0
      with the pattern 0x07, then 0x8A, whatever the acknowledges. */
  lemma SevenAtPositionZero(levels: seq<bool>)
    requires |levels| == 4
    ensures Frames(SetDigit(D7Display(2), 0, 7, levels).trace) == [[0x44], [0xC0, 0x07], [0x8A]]
  {
    assert DigitFrames(D7Display(2), 0, Glyph(7).value) == [[0x44], [0xC0, 0x07], [0x8A]] by {
      assert Glyph(7).value == CharArray[7] == 0x07;
      assert Low8(0xC0) == 0xC0 && Low8(0x8A) == 0x8A;
    }
    ValidDigitFrames(D7Display(2), 0, 7, levels);
  }

  /** From a quiet bus, a set_digit with an in-range glyph index decodes to
      exactly its three frames. */
  lemma ValidDigitFrames(d: D7Display, digit: int, num: int, levels: seq<bool>)
    requires |levels| == 4 && Glyph(num).Some?
    ensures Frames(SetDigit(d, digit, num, levels).trace) == DigitFrames(d, digit, Glyph(num).value)
  {
    SetDigitFrames(d, digit, num, levels, Quiet);
    assert [] + DigitFrames(d, digit, Glyph(num).value) == DigitFrames(d, digit, Glyph(num).value);
  }

  /** Three set_digit calls in a row, seen on the bus: their frames in order. */
  lemma ThreeDigitsFrames(d: D7Display, a: int, b: int, c: int, na: int, nb: int, nc: int, levels: seq<bool>)
    requires |levels| == 12
    requires 0 <= na < |CharArray| && 0 <= nb < |CharArray| && 0 <= nc < |CharArray|
    ensures Frames(ThreeDigits(d, a, na, b, nb, c, nc, levels))
         == DigitFrames(d, a, CharArray[na]) + DigitFrames(d, b, CharArray[nb]) + DigitFrames(d, c, CharArray[nc])
  {
    var fa, fb, fc := DigitFrames(d, a, CharArray[na]), DigitFrames(d, b, CharArray[nb]), DigitFrames(d, c, CharArray[nc]);
    var s1 := State(Wire(true, true), Idle, fa);
    var s2 := State(Wire(true, true), Idle, fa + fb);
    var s3 := State(Wire(true, true), Idle, fa + fb + fc);
    DigitRun(d, a, na, levels[..4], Quiet, s1);
    DigitRun(d, b, nb, levels[4..8], s1, s2);
    DigitRun(d, c, nc, levels[8..], s2, s3);
    Compose3(SetDigit(d, a, na, levels[..4]).trace, SetDigit(d, b, nb, levels[4..8]).trace,
             SetDigit(d, c, nc, levels[8..]).trace, Quiet, s1, s2, s3);
  }

  /** One set_digit with a valid glyph from a quiet bus adds its three frames. */
  lemma DigitRun(d: D7Display, digit: int, num: int, levels: seq<bool>, s: State, s': State)
    requires |levels| == 4 && 0 <= num < |CharArray| && s.rx.Idle?
    requires s' == State(Wire(true, true), Idle, s.frames + DigitFrames(d, digit, CharArray[num]))
    ensures Run(SetDigit(d, digit, num, levels).trace, s) == s'
  {
    SetDigitFrames(d, digit, num, levels, s);
  }

  lemma Compose3(ta: Trace, tb: Trace, tc: Trace, s0: State, s1: State, s2: State, s3: State)
    requires Run(ta, s0) == s1 && Run(tb, s1) == s2 && Run(tc, s2) == s3
    ensures Run(ta + tb + tc, s0) == s3
  {
    RunAppend(ta + tb, tc, s0);
    RunAppend(ta, tb, s0);
  }

  /** set_integer on the bus: nine frames, the hundreds, tens and units digits
      of the clamped value at positions 0, 1, 2, whatever the acknowledges. */
  lemma SetIntegerFrames(d: D7Display, num: int, levels: seq<bool>)
    requires num >= 0 && |levels| == 12
    ensures var n := Clamp(num);
      Frames(SetInteger(d, num, levels))
        == DigitFrames(d, 0, CharArray[n / 100 % 10])
         + DigitFrames(d, 1, CharArray[n / 10 % 10])
         + DigitFrames(d, 2, CharArray[n % 10])
  {
    var (h, t, u) := DigitsOf(num);
    ThreeDigitsFrames(d, 0, 1, 2, h, t, u, levels);
  }

  /** Values above 999 are sent exactly as 999 is. */
  lemma SetIntegerCaps(d: D7Display, num: int, levels: seq<bool>)
    requires num > 999 && |levels| == 12
    ensures SetInteger(d, num, levels) == SetInteger(d, 999, levels)
  {
  }

  /** clear_display as written on the bus: blank patterns for position 0, then
      twice for position 1; no frame addresses position 2. */
  lemma ClearDisplayFrames(d: D7Display, levels: seq<bool>)
    requires |levels| == 12
    ensures Frames(ClearDisplay(d, levels))
         == DigitFrames(d, 0, 0x00) + DigitFrames(d, 1, 0x00) + DigitFrames(d, 1, 0x00)
  {
    ThreeDigitsFrames(d, 0, 1, 1, Blank, Blank, Blank, levels);
    CharArrayFacts();
  }

  /** The corrected clear addresses each of the three positions once. */
  lemma ClearAllDigitsFrames(d: D7Display, levels: seq<bool>)
    requires |levels| == 12
    ensures Frames(ClearAllDigits(d, levels))
         == DigitFrames(d, 0, 0x00) + DigitFrames(d, 1, 0x00) + DigitFrames(d, 2, 0x00)
  {
    ThreeDigitsFrames(d, 0, 1, 2, Blank, Blank, Blank, levels);
    CharArrayFacts();
  }
}
