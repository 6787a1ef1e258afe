/** The bit-banged two-wire bus engine of the TM1651 driver (class D7Display,
    methods start/stop/write_byte/send_command and their half-cycle helpers).

    Every pin action becomes an event of a trace. Delays are dropped: they only
    stretch the time between events and never change their order. The level the
    driver reads from the data line during an acknowledge clock is not produced
    by the driver, so it is an input: one level per byte written, `true` meaning
    the line was high (no acknowledge) and `false` meaning the device pulled it low.
 */
module Bus {

  /** One pin action of the driver. `Sample(level)` is the read of the data line
      during the 9th clock of a byte, recording the level that was read. */
  datatype Event =
    | SetClock(high: bool)
    | SetData(high: bool)
    | Sample(level: bool)

  type Trace = seq<Event>

  /** What a bus operation leaves behind: the events it emitted and its boolean result. */
  datatype Outcome = Outcome(trace: Trace, ack: bool)

  /** Every sampled level is low: each byte was acknowledged. */
  predicate AllLow(levels: seq<bool>) {
    forall i :: 0 <= i < |levels| ==> !levels[i]
  }

  /** The levels of the `Sample` events of a trace, in order. */
  function Samples(t: Trace): seq<bool> {
    if |t| == 0 then []
    else (if t[0].Sample? then [t[0].level] else []) + Samples(t[1..])
  }

  /** Clock low, then the data bit (half_cycle_clock_low). */
  function HalfCycleClockLow(bit: bool): Trace {
    [SetClock(false), SetData(bit)]
  }

  /** Clock high (half_cycle_clock_high). */
  function HalfCycleClockHigh(): Trace {
    [SetClock(true)]
  }

  /** The acknowledge half-cycle (half_cycle_clock_high_ack): raise the clock,
      read the line, force data low only when the read level was low, drop the
      clock. The result is the level read, not yet inverted. */
  function HalfCycleClockHighAck(level: bool): (o: Outcome)
    ensures o.ack == level
    ensures |o.trace| >= 3 && o.trace[0] == SetClock(true) && o.trace[1] == Sample(level)
    ensures o.trace[|o.trace| - 1] == SetClock(false)
    ensures SetData(false) in o.trace <==> !level
    ensures Samples(o.trace) == [level]
  {
    var forceLow := if level then [] else [SetData(false)];
    var t := [SetClock(true), Sample(level)] + forceLow + [SetClock(false)];
    assert t[1..] == [Sample(level)] + forceLow + [SetClock(false)];
    assert t[2..] == forceLow + [SetClock(false)];
    assert Samples(forceLow + [SetClock(false)]) == [] by {
      assert [SetClock(false)][1..] == [];
      if !level {
        assert (forceLow + [SetClock(false)])[1..] == [SetClock(false)];
      }
    }
    Outcome(t, level)
  }

  /** Data to `begin`, clock high, then data to the opposite level while the
      clock stays high (delineate_transmission). */
  function Delineate(begin: bool): Trace {
    [SetData(begin), SetClock(true), SetData(!begin)]
  }

  /** START: data falls while the clock is high. */
  function Start(): Trace {
    Delineate(true)
  }

  /** STOP: data rises while the clock is high. */
  function Stop(): Trace {
    Delineate(false)
  }

  function Pow2(n: nat): (r: nat)
    ensures r >= 1
  {
    if n == 0 then 1 else 2 * Pow2(n - 1)
  }

  /** Bit `i` of `b`, Python's `(b >> i) & 1`. For every integer `b` (negative
      ones included) `b >> i` is `b / 2^i` rounded towards minus infinity, which
      is what `/` does here for a positive divisor, and `& 1` is `% 2`. */
  function Bit(b: int, i: nat): bool {
    (b / Pow2(i)) % 2 == 1
  }

  /** The lowest `n` bits of `b`, least-significant first. */
  function Bits(b: int, n: nat): (r: seq<bool>)
    ensures |r| == n
    ensures forall i :: 0 <= i < n ==> r[i] == Bit(b, i)
  {
    seq(n, i requires 0 <= i < n => Bit(b, i))
  }

  /** One round of the bit loop per bit: clock low, the bit on the data line,
      clock high. */
  function Rounds(bits: seq<bool>): Trace
    decreases |bits|
  {
    if |bits| == 0 then []
    else HalfCycleClockLow(bits[0]) + HalfCycleClockHigh() + Rounds(bits[1..])
  }

  /** The acknowledge clock after the 8 data bits: clock low with data high,
      then the acknowledge half-cycle. */
  function AckClock(level: bool): Trace {
    HalfCycleClockLow(true) + HalfCycleClockHighAck(level).trace
  }

  /** write_byte: 8 bits LSB-first, then the acknowledge clock; true iff the
      sampled level was low. */
  function WriteByte(b: int, level: bool): (o: Outcome)
    ensures o.ack <==> !level
  {
    var a := HalfCycleClockHighAck(level);
    Outcome(Rounds(Bits(b, 8)) + AckClock(level), !a.ack)
  }

  /** What write_byte puts on the wire: round `i` drops the clock, puts bit `i`
      of the value on the data line and raises the clock, so the line carries
      that bit at the `i`-th rising edge; then the data line is released high
      for the ninth clock, during which the line is read exactly once. */
  lemma WriteByteOnWire(b: int, level: bool)
    ensures var t := WriteByte(b, level).trace;
      && |t| >= 28
      && (forall i :: 0 <= i < 8 ==>
            t[3 * i .. 3 * i + 3] == [SetClock(false), SetData(Bit(b, i)), SetClock(true)])
      && t[24 .. 28] == [SetClock(false), SetData(true), SetClock(true), Sample(level)]
      && Samples(t) == [level]
  {
    var rounds := Rounds(Bits(b, 8));
    var t := WriteByte(b, level).trace;
    RoundsShape(Bits(b, 8));
    assert t[..24] == rounds;
    assert Samples(t) == [level] by {
      RoundsSamples(Bits(b, 8));
      SamplesAppend(rounds, AckClock(level));
      SamplesAppend(HalfCycleClockLow(true), HalfCycleClockHighAck(level).trace);
      assert HalfCycleClockLow(true)[1..][1..] == [];
    }
  }

  /** Round `i` of the bit loop occupies events 3i..3i+2: clock low, bit `i`
      on the data line, clock high. */
  lemma {:induction false} RoundsShape(bits: seq<bool>)
    ensures |Rounds(bits)| == 3 * |bits|
    ensures forall i :: 0 <= i < |bits| ==>
      Rounds(bits)[3 * i .. 3 * i + 3] == [SetClock(false), SetData(bits[i]), SetClock(true)]
    decreases |bits|
  {
    if |bits| > 0 {
      var round := HalfCycleClockLow(bits[0]) + HalfCycleClockHigh();
      var rest := Rounds(bits[1..]);
      RoundsShape(bits[1..]);
      forall i | 0 <= i < |bits|
        ensures Rounds(bits)[3 * i .. 3 * i + 3] == [SetClock(false), SetData(bits[i]), SetClock(true)]
      {
        if i > 0 {
          assert bits[1..][i - 1] == bits[i];
          assert (round + rest)[3 * i .. 3 * i + 3] == rest[3 * (i - 1) .. 3 * (i - 1) + 3];
        }
      }
    }
  }

  lemma {:induction false} SamplesAppend(a: Trace, b: Trace)
    ensures Samples(a + b) == Samples(a) + Samples(b)
    decreases |a|
  {
    if |a| == 0 {
      assert a + b == b;
    } else {
      assert (a + b)[0] == a[0];
      assert (a + b)[1..] == a[1..] + b;
      SamplesAppend(a[1..], b);
    }
  }

  /** The bit rounds never read the line. */
  lemma {:induction false} RoundsSamples(bits: seq<bool>)
    ensures Samples(Rounds(bits)) == []
    decreases |bits|
  {
    if |bits| > 0 {
      var round := HalfCycleClockLow(bits[0]) + HalfCycleClockHigh();
      assert round == [SetClock(false), SetData(bits[0]), SetClock(true)];
      assert round[1..][1..][1..] == [];
      assert Samples(round[1..][1..]) == [];
      assert Samples(round[1..]) == [];
      SamplesAppend(round, Rounds(bits[1..]));
      RoundsSamples(bits[1..]);
    }
  }

  /** The loop of send_command: every byte is written, in order, and the
      per-byte results are AND-ed; a failed acknowledge does not stop the loop. */
  function WriteAll(data: seq<int>, levels: seq<bool>): (o: Outcome)
    requires |levels| == |data|
    ensures o.ack <==> AllLow(levels)
    decreases |levels|
  {
    if |data| == 0 then Outcome([], true)
    else
      var first := WriteByte(data[0], levels[0]);
      var rest := WriteAll(data[1..], levels[1..]);
      assert AllLow(levels) <==> !levels[0] && AllLow(levels[1..]) by {
        if !levels[0] && AllLow(levels[1..]) {
          forall i | 0 <= i < |levels| ensures !levels[i] {
            if i > 0 { assert levels[i] == levels[1..][i - 1]; }
          }
        }
      }
      Outcome(first.trace + rest.trace, rest.ack && first.ack)
  }

  /** send_command: START, every byte, STOP; the AND of all acknowledges. */
  function SendCommand(data: seq<int>, levels: seq<bool>): (o: Outcome)
    requires |levels| == |data|
    ensures o.ack <==> AllLow(levels)
    ensures |o.trace| >= 6 && o.trace[..3] == Start() && o.trace[|o.trace| - 3..] == Stop()
  {
    var body := WriteAll(data, levels);
    Outcome(Start() + body.trace + Stop(), body.ack)
  }

  /** Dividing twice is dividing by the product (for positive divisors, so
      that shifting right by `i` and then by `j` is shifting by `i + j`). */
  lemma DivDiv(b: int, p: int, q: int)
    requires p > 0 && q > 0
    ensures (b / p) / q == b / (p * q)
  {
    var a, r := b / p, b % p;
    var k, m := a / q, a % q;
    assert b == p * a + r;
    assert p * a == (p * q) * k + p * m by {
      assert a == q * k + m;
      assert p * (q * k + m) == (p * q) * k + p * m;
    }
    assert p * m <= p * (q - 1) by {
      assert m <= q - 1;
      MulMono(p, m, q - 1);
    }
    assert p * (q - 1) == p * q - p;
    assert 0 <= p * m + r < p * q;
    DivUnique(b, p * q, k, p * m + r);
  }

  lemma MulMono(p: int, x: int, y: int)
    requires p > 0 && 0 <= x <= y
    ensures p * x <= p * y
  {
    assert p * y - p * x == p * (y - x);
  }

  /** Shifting right by one more bit. */
  lemma ShiftAgain(b: int, i: nat)
    ensures (b / Pow2(i)) / 2 == b / Pow2(i + 1)
  {
    DivDiv(b, Pow2(i), 2);
  }

  /** Euclidean division is unique. */
  lemma DivUnique(x: int, d: int, k: int, m: int)
    requires d > 0 && 0 <= m < d && x == d * k + m
    ensures x / d == k && x % d == m
  {
    var k', m' := x / d, x % d;
    assert x == d * k' + m';
    assert d * k + m == d * k' + m';
    assert d * (k - k') == m' - m by {
      assert d * (k - k') == d * k - d * k';
    }
    if k > k' {
      MulMono(d, 1, k - k');
    } else if k < k' {
      MulMono(d, 1, k' - k);
    }
  }

  lemma {:induction false} RoundsSnoc(bits: seq<bool>, bit: bool)
    ensures Rounds(bits + [bit]) == Rounds(bits) + HalfCycleClockLow(bit) + HalfCycleClockHigh()
    decreases |bits|
  {
    if |bits| == 0 {
      assert bits + [bit] == [bit];
    } else {
      assert (bits + [bit])[0] == bits[0];
      assert (bits + [bit])[1..] == bits[1..] + [bit];
      RoundsSnoc(bits[1..], bit);
    }
  }

  /** write_byte as the source writes it: 8 rounds, each putting the lowest bit
      of the working value on the line and then shifting the value right by one,
      followed by the acknowledge clock. */
  method WriteByteLoop(writeData: int, level: bool) returns (t: Trace, ack: bool)
    ensures t == WriteByte(writeData, level).trace
    ensures ack == WriteByte(writeData, level).ack
  {
    var data := writeData;
    t := [];
    var i := 0;
    while i < 8
      invariant 0 <= i <= 8
      invariant data == writeData / Pow2(i)
      invariant t == Rounds(Bits(writeData, 8)[..i])
    {
      assert Bits(writeData, 8)[..i + 1] == Bits(writeData, 8)[..i] + [data % 2 == 1];
      RoundsSnoc(Bits(writeData, 8)[..i], data % 2 == 1);
      t := t + HalfCycleClockLow(data % 2 == 1) + HalfCycleClockHigh();
      ShiftAgain(writeData, i);
      data := data / 2;
      i := i + 1;
    }
    assert Bits(writeData, 8)[..8] == Bits(writeData, 8);
    var a := HalfCycleClockHighAck(level);
    t := t + HalfCycleClockLow(true) + a.trace;
    ack := !a.ack;
  }
}
