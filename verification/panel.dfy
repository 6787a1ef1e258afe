/** What a TM1651 on the bus makes of the decoded frames, reduced to what the
    driver uses: an address command 0xC0 + k followed by one data byte writes
    display register k; a display-control byte 0x88..0x8F switches the display
    on with brightness = its low 3 bits; 0x80..0x87 switches it off. Any other
    frame (among them the fixed-address data command 0x44) leaves registers and
    display control as they were.

    This is the write-only display state the driver cannot read back; it lets
    the effect of set_integer and clear_display be stated as what the three
    digit positions show.
 */
module Panel {
  import opened Bus
  import opened Receiver
  import opened Display

  datatype Control = Off | On(brightness: int)

  datatype Panel = Panel(registers: map<int, int>, control: Control)

  function Apply(p: Panel, frame: seq<int>): Panel {
    if |frame| == 2 && frame[0] >= AddrStart then
      p.(registers := p.registers[frame[0] - AddrStart := frame[1]])
    else if |frame| == 1 && DisplayOff <= frame[0] < DisplayOff + 8 then
      p.(control := Off)
    else if |frame| == 1 && DisplayOn <= frame[0] < DisplayOn + 8 then
      p.(control := On(frame[0] - DisplayOn))
    else p
  }

  function ApplyAll(p: Panel, frames: seq<seq<int>>): Panel
    decreases |frames|
  {
    if |frames| == 0 then p else ApplyAll(Apply(p, frames[0]), frames[1..])
  }

  /** What the panel shows after a trace has been played on a quiet bus. */
  function Shown(p: Panel, t: Trace): Panel {
    ApplyAll(p, Frames(t))
  }

  lemma {:induction false} ApplyAllAppend(p: Panel, a: seq<seq<int>>, b: seq<seq<int>>)
    ensures ApplyAll(p, a + b) == ApplyAll(ApplyAll(p, a), b)
    decreases |a|
  {
    if |a| == 0 {
      assert a + b == b;
    } else {
      assert (a + b)[0] == a[0];
      assert (a + b)[1..] == a[1..] + b;
      ApplyAllAppend(Apply(p, a[0]), a[1..], b);
    }
  }

  lemma ApplyAll3(p: Panel, f1: seq<int>, f2: seq<int>, f3: seq<int>)
    ensures ApplyAll(p, [f1, f2, f3]) == Apply(Apply(Apply(p, f1), f2), f3)
  {
    var p1, p2 := Apply(p, f1), Apply(Apply(p, f1), f2);
    assert [f1, f2, f3][1..] == [f2, f3];
    assert [f2, f3][1..] == [f3];
    assert [f3][1..] == [];
    assert ApplyAll(p2, [f3]) == ApplyAll(Apply(p2, f3), []);
    assert ApplyAll(p1, [f2, f3]) == ApplyAll(p2, [f3]);
  }

  /** The frames of one set_digit write the pattern into the register of its
      position, touch no other register, and switch the display on with the
      stored brightness when that brightness is a valid level 0..7. */
  lemma DigitFramesShow(p: Panel, d: D7Display, digit: int, pattern: int)
    requires 0 <= digit < 64
    ensures ApplyAll(p, DigitFrames(d, digit, pattern)).registers == p.registers[digit := pattern]
    ensures 0 <= d.brightness <= 7 ==> ApplyAll(p, DigitFrames(d, digit, pattern)).control == On(d.brightness)
  {
    ApplyAll3(p, [AddrFixed], [Low8(AddrStart + digit), pattern], [Low8(DisplayOn + d.brightness)]);
    assert Low8(AddrStart + digit) == AddrStart + digit;
  }

  /** set_digit with a valid glyph shows the glyph at its position. */
  lemma SetDigitShows(p: Panel, d: D7Display, digit: int, num: int, levels: seq<bool>)
    requires |levels| == 4 && 0 <= digit < 64 && Glyph(num).Some?
    ensures Shown(p, SetDigit(d, digit, num, levels).trace).registers == p.registers[digit := Glyph(num).value]
    ensures 0 <= d.brightness <= 7 ==> Shown(p, SetDigit(d, digit, num, levels).trace).control == On(d.brightness)
  {
    ValidDigitFrames(d, digit, num, levels);
    DigitFramesShow(p, d, digit, Glyph(num).value);
  }

  lemma ThreeDigitsShow(p: Panel, d: D7Display, a: int, b: int, c: int, pa: int, pb: int, pc: int)
    requires 0 <= a < 64 && 0 <= b < 64 && 0 <= c < 64
    ensures ApplyAll(p, DigitFrames(d, a, pa) + DigitFrames(d, b, pb) + DigitFrames(d, c, pc)).registers
         == p.registers[a := pa][b := pb][c := pc]
    ensures 0 <= d.brightness <= 7 ==>
      ApplyAll(p, DigitFrames(d, a, pa) + DigitFrames(d, b, pb) + DigitFrames(d, c, pc)).control == On(d.brightness)
  {
    var fa, fb, fc := DigitFrames(d, a, pa), DigitFrames(d, b, pb), DigitFrames(d, c, pc);
    ApplyAllAppend(p, fa + fb, fc);
    ApplyAllAppend(p, fa, fb);
    DigitFramesShow(p, d, a, pa);
    DigitFramesShow(ApplyAll(p, fa), d, b, pb);
    DigitFramesShow(ApplyAll(ApplyAll(p, fa), fb), d, c, pc);
  }

  /** set_integer shows the hundreds, tens and units digits of the clamped value
      at positions 0, 1, 2, and switches the display on at the stored brightness. */
  lemma SetIntegerShows(p: Panel, d: D7Display, num: int, levels: seq<bool>)
    requires num >= 0 && |levels| == 12
    ensures var n := Clamp(num);
      Shown(p, SetInteger(d, num, levels)).registers
        == p.registers[0 := CharArray[n / 100 % 10]][1 := CharArray[n / 10 % 10]][2 := CharArray[n % 10]]
    ensures 0 <= d.brightness <= 7 ==> Shown(p, SetInteger(d, num, levels)).control == On(d.brightness)
  {
    var n := Clamp(num);
    SetIntegerFrames(d, num, levels);
    ThreeDigitsShow(p, d, 0, 1, 2, CharArray[n / 100 % 10], CharArray[n / 10 % 10], CharArray[n % 10]);
  }

  /** The digit a segment pattern shows, if it is one of the ten digit patterns. */
  function DigitOf(pattern: int): (r: Option<int>)
    ensures r.Some? ==> 0 <= r.value < 10 && CharArray[r.value] == pattern
  {
    DigitFrom(pattern, 0)
  }

  function DigitFrom(pattern: int, i: nat): (r: Option<int>)
    requires i <= 10
    ensures r.Some? ==> i <= r.value < 10 && CharArray[r.value] == pattern
    ensures r.None? ==> forall j :: i <= j < 10 ==> CharArray[j] != pattern
    decreases 10 - i
  {
    if i == 10 then None
    else if CharArray[i] == pattern then Some(i)
    else DigitFrom(pattern, i + 1)
  }

  /** The ten digit patterns are pairwise distinct, so a digit can be read
      back from the pattern that shows it. */
  lemma DigitPatternsDistinct(k: int)
    requires 0 <= k < 10
    ensures DigitOf(CharArray[k]) == Some(k)
  {
    CharArrayFacts();
    var r := DigitOf(CharArray[k]);
    assert r.Some?;
    var j := r.value;
    assert CharArray[j] == CharArray[k];
    assert CharArray[..10][j] == CharArray[j] && CharArray[..10][k] == CharArray[k];
  }

  /** The number three positions show, read as decimal digits, hundreds first. */
  function ReadNumber(registers: map<int, int>): Option<int> {
    if 0 in registers && 1 in registers && 2 in registers then
      match (DigitOf(registers[0]), DigitOf(registers[1]), DigitOf(registers[2]))
      case (Some(h), Some(t), Some(u)) => Some(100 * h + 10 * t + u)
      case _ => None
    else None
  }

  /** Three digit patterns at positions 0, 1, 2 read back as the number they spell. */
  lemma ReadDigits(m: map<int, int>, h: int, t: int, u: int)
    requires 0 <= h < 10 && 0 <= t < 10 && 0 <= u < 10
    ensures ReadNumber(m[0 := CharArray[h]][1 := CharArray[t]][2 := CharArray[u]]) == Some(100 * h + 10 * t + u)
  {
    var r := m[0 := CharArray[h]][1 := CharArray[t]][2 := CharArray[u]];
    assert r[0] == CharArray[h] && r[1] == CharArray[t] && r[2] == CharArray[u];
    DigitPatternsDistinct(h);
    DigitPatternsDistinct(t);
    DigitPatternsDistinct(u);
  }

  /** Reading the display after set_integer gives back the clamped number. */
  lemma SetIntegerReadsBack(p: Panel, d: D7Display, num: int, levels: seq<bool>)
    requires num >= 0 && |levels| == 12
    ensures ReadNumber(Shown(p, SetInteger(d, num, levels)).registers) == Some(if num > 999 then 999 else num)
  {
    var n := Clamp(num);
    SetIntegerShows(p, d, num, levels);
    ReadDigits(p.registers, n / 100 % 10, n / 10 % 10, n % 10);
    assert 100 * (n / 100 % 10) + 10 * (n / 10 % 10) + n % 10 == n by {
      var (h, t, u) := DigitsOf(num);
    }
  }

  /** clear_display as written blanks positions 0 and 1 and writes no other
      register. */
  lemma ClearDisplayShows(p: Panel, d: D7Display, levels: seq<bool>)
    requires |levels| == 12
    ensures Shown(p, ClearDisplay(d, levels)).registers == p.registers[0 := 0x00][1 := 0x00]
  {
    assert p.registers[0 := 0x00][1 := 0x00][1 := 0x00] == p.registers[0 := 0x00][1 := 0x00];
    ClearDisplayFrames(d, levels);
    ThreeDigitsShow(p, d, 0, 1, 1, 0x00, 0x00, 0x00);
  }

  /** ... so position 2 keeps showing whatever it showed before. */
  lemma ClearDisplayLeavesPosition2(p: Panel, d: D7Display, levels: seq<bool>)
    requires |levels| == 12 && 2 in p.registers
    ensures 2 in Shown(p, ClearDisplay(d, levels)).registers
    ensures Shown(p, ClearDisplay(d, levels)).registers[2] == p.registers[2]
  {
    assert p.registers[0 := 0x00][1 := 0x00][2] == p.registers[2];
    ClearDisplayShows(p, d, levels);
  }

  /** A display showing 888 still shows the 8 (pattern 0x7f, not the blank
      pattern 0x00) at position 2 after clear_display. */
  lemma ClearDisplayKeepsEight(d: D7Display, levels: seq<bool>)
    requires |levels| == 12
    ensures var p := Panel(map[0 := 0x7f, 1 := 0x7f, 2 := 0x7f], On(2));
      var q := Shown(p, ClearDisplay(d, levels)).registers;
      2 in q && q[2] == 0x7f != 0x00
  {
    var p := Panel(map[0 := 0x7f, 1 := 0x7f, 2 := 0x7f], On(2));
    ClearDisplayLeavesPosition2(p, d, levels);
  }

  /** The corrected clear blanks all three positions. */
  lemma ClearAllDigitsBlanks(p: Panel, d: D7Display, levels: seq<bool>)
    requires |levels| == 12
    ensures Shown(p, ClearAllDigits(d, levels)).registers == p.registers[0 := 0x00][1 := 0x00][2 := 0x00]
  {
    ClearAllDigitsFrames(d, levels);
    ThreeDigitsShow(p, d, 0, 1, 2, 0x00, 0x00, 0x00);
  }
}
