/** A reference receiver for the two-wire bus, independent of how the driver
    produces its events: it tracks the two wire levels, recognises START (data
    falls while the clock is high) and STOP (data rises while the clock is high),
    latches the data level at every rising clock edge, and assembles each group
    of 9 clocks into a byte, the first 8 levels least-significant bit first and
    the 9th clock being the acknowledge clock. A frame is the list of bytes
    received between a START and the next STOP.

    A `Sample(level)` event is the moment the driver reads the line; the line is
    at `level` then, whatever the driver last drove, because the device pulls it
    low to acknowledge. The receiver takes that level silently: the device's own
    pull-down is not a START.
 */
module Receiver {
  import opened Bus

  datatype Wire = Wire(clock: bool, data: bool)

  /** Idle between frames; Receiving while inside a frame, with the bytes
      completed so far and the levels latched for the byte in progress. */
  datatype Rx = Idle | Receiving(bytes: seq<int>, bits: seq<bool>)

  datatype State = State(wire: Wire, rx: Rx, frames: seq<seq<int>>)

  /** The bus at rest, as a STOP leaves it: both lines high, no frame open. */
  const Quiet := State(Wire(true, true), Idle, [])

  /** The value of a list of levels read least-significant bit first. */
  function FromBits(bits: seq<bool>): (v: nat)
    ensures v < Pow2(|bits|)
  {
    if |bits| == 0 then 0
    else (if bits[0] then 1 else 0) + 2 * FromBits(bits[1..])
  }

  /** The byte a value puts on the wire: its lowest 8 bits. */
  function Low8(b: int): int {
    b % 256
  }

  function Low8All(data: seq<int>): (r: seq<int>)
    ensures |r| == |data|
  {
    if |data| == 0 then [] else [Low8(data[0])] + Low8All(data[1..])
  }

  /** A rising clock edge with the data line at `level`. */
  function Rise(rx: Rx, level: bool): Rx {
    match rx
    case Idle => Idle
    case Receiving(bytes, bits) =>
      if |bits| == 8 then Receiving(bytes + [FromBits(bits)], [])
      else Receiving(bytes, bits + [level])
  }

  function Step(s: State, e: Event): State {
    match e
    case SetClock(c) =>
      if c && !s.wire.clock then State(Wire(true, s.wire.data), Rise(s.rx, s.wire.data), s.frames)
      else s.(wire := s.wire.(clock := c))
    case SetData(d) =>
      var w := s.wire.(data := d);
      if s.wire.clock && s.wire.data && !d then
        State(w, Receiving([], []), s.frames)
      else if s.wire.clock && !s.wire.data && d then
        (match s.rx
         case Idle => s.(wire := w)
         case Receiving(bytes, _) => State(w, Idle, s.frames + [bytes]))
      else s.(wire := w)
    case Sample(level) =>
      s.(wire := s.wire.(data := level))
  }

  function Run(t: Trace, s: State): State
    decreases |t|
  {
    if |t| == 0 then s else Run(t[1..], Step(s, t[0]))
  }

  /** The frames a receiver sees when the trace is played on a quiet bus. */
  function Frames(t: Trace): seq<seq<int>> {
    Run(t, Quiet).frames
  }

  lemma {:induction false} RunAppend(a: Trace, b: Trace, s: State)
    ensures Run(a + b, s) == Run(b, Run(a, s))
    decreases |a|
  {
    if |a| == 0 {
      assert a + b == b;
    } else {
      assert (a + b)[0] == a[0];
      assert (a + b)[1..] == a[1..] + b;
      RunAppend(a[1..], b, Step(s, a[0]));
    }
  }

  lemma Run2(e1: Event, e2: Event, s: State)
    ensures Run([e1, e2], s) == Step(Step(s, e1), e2)
  {
    assert [e1, e2][1..] == [e2];
    assert [e2][1..] == [];
    assert Run([e2], Step(s, e1)) == Run([], Step(Step(s, e1), e2));
  }

  /** Playing a trace of three events is three steps. */
  lemma Run3(e1: Event, e2: Event, e3: Event, s: State)
    ensures Run([e1, e2, e3], s) == Step(Step(Step(s, e1), e2), e3)
  {
    var s1, s2 := Step(s, e1), Step(Step(s, e1), e2);
    assert [e1, e2, e3][1..] == [e2, e3];
    assert [e2, e3][1..] == [e3];
    assert [e3][1..] == [];
    assert Run([e3], s2) == Run([], Step(s2, e3));
    assert Run([e2, e3], s1) == Run([e3], s2);
  }

  /** LSB-first reconstruction of the lowest `n` bits of `b` gives `b` modulo 2^n. */
  lemma {:induction false} BitsRoundTrip(b: int, n: nat)
    ensures FromBits(Bits(b, n)) == b % Pow2(n)
    decreases n
  {
    if n > 0 {
      BitsTail(b, n);
      BitsRoundTrip(b / 2, n - 1);
      ModStep(b, n);
    }
  }

  /** Dropping the lowest bit is shifting right by one. */
  lemma BitsTail(b: int, n: nat)
    requires n > 0
    ensures Bits(b, n)[1..] == Bits(b / 2, n - 1)
    ensures Bits(b, n)[0] == (b % 2 == 1)
  {
    var bits := Bits(b, n);
    forall i | 0 <= i < n - 1
      ensures bits[1..][i] == Bits(b / 2, n - 1)[i]
    {
      DivDiv(b, 2, Pow2(i));
    }
  }

  /** b mod 2^n is the lowest bit plus twice (b / 2) mod 2^(n-1). */
  lemma ModStep(b: int, n: nat)
    requires n > 0
    ensures b % Pow2(n) == b % 2 + 2 * ((b / 2) % Pow2(n - 1))
  {
    var q, r := b / 2, b % 2;
    var k, m := q / Pow2(n - 1), q % Pow2(n - 1);
    assert b == 2 * q + r;
    assert q == Pow2(n - 1) * k + m;
    assert b == Pow2(n) * k + (2 * m + r);
    DivUnique(b, Pow2(n), k, 2 * m + r);
  }

  /** Each round of the bit loop is seen as exactly one rising edge carrying
      that round's bit; nothing else happens on the bus. */
  lemma {:induction false} RoundsLatch(bits: seq<bool>, s: State)
    requires s.rx.Receiving? && |s.rx.bits| + |bits| <= 8
    ensures Run(Rounds(bits), s).rx == Receiving(s.rx.bytes, s.rx.bits + bits)
    ensures Run(Rounds(bits), s).frames == s.frames
    decreases |bits|
  {
    if |bits| == 0 {
      assert s.rx.bits + bits == s.rx.bits;
    } else {
      var round := HalfCycleClockLow(bits[0]) + HalfCycleClockHigh();
      assert round == [SetClock(false), SetData(bits[0]), SetClock(true)];
      RunAppend(round, Rounds(bits[1..]), s);
      Run3(SetClock(false), SetData(bits[0]), SetClock(true), s);
      var s3 := Run(round, s);
      assert s3.rx == Receiving(s.rx.bytes, s.rx.bits + [bits[0]]);
      RoundsLatch(bits[1..], s3);
      assert (s.rx.bits + [bits[0]]) + bits[1..] == s.rx.bits + bits;
    }
  }

  /** The acknowledge clock completes the byte in progress, whatever level is
      sampled, and leaves the clock low with the data line at the sampled level. */
  lemma AckClockCompletes(level: bool, s: State)
    requires s.rx.Receiving? && |s.rx.bits| == 8
    ensures Run(AckClock(level), s)
         == State(Wire(false, level), Receiving(s.rx.bytes + [FromBits(s.rx.bits)], []), s.frames)
  {
    var head := [SetClock(false), SetData(true), SetClock(true)];
    var tail := if level then [Sample(level), SetClock(false)]
                else [Sample(level), SetData(false), SetClock(false)];
    assert AckClock(level) == head + tail;
    RunAppend(head, tail, s);
    Run3(SetClock(false), SetData(true), SetClock(true), s);
    var s3 := Run(head, s);
    assert s3 == State(Wire(true, true), Receiving(s.rx.bytes + [FromBits(s.rx.bits)], []), s.frames);
    if level {
      Run2(tail[0], tail[1], s3);
    } else {
      Run3(tail[0], tail[1], tail[2], s3);
    }
  }

  /** write_byte as seen on the bus: one more byte, `b` modulo 256, completes
      the frame in progress, and nothing else happens. */
  lemma WriteByteReceived(b: int, level: bool, s: State)
    requires s.rx.Receiving? && s.rx.bits == []
    ensures Run(WriteByte(b, level).trace, s)
         == State(Wire(false, level), Receiving(s.rx.bytes + [Low8(b)], []), s.frames)
  {
    RunAppend(Rounds(Bits(b, 8)), AckClock(level), s);
    RoundsLatch(Bits(b, 8), s);
    assert s.rx.bits + Bits(b, 8) == Bits(b, 8);
    BitsRoundTrip(b, 8);
    assert Pow2(8) == 256;
    AckClockCompletes(level, Run(Rounds(Bits(b, 8)), s));
  }

  /** START from any wire levels opens a new, empty frame and leaves the clock
      high with data low. */
  lemma StartOpensFrame(s: State)
    requires s.rx.Idle?
    ensures Run(Start(), s) == State(Wire(true, false), Receiving([], []), s.frames)
  {
    Run3(SetData(true), SetClock(true), SetData(false), s);
  }

  /** STOP, after a byte or directly after START, closes the frame and leaves
      the bus quiet (both lines high). */
  lemma StopClosesFrame(s: State)
    requires BetweenBytes(s)
    ensures Run(Stop(), s) == State(Wire(true, true), Idle, s.frames + [s.rx.bytes])
  {
    Run3(SetData(false), SetClock(true), SetData(true), s);
  }

  /** Inside a frame, between bytes: no bits pending, and the wire is not at
      clock-high/data-high, so the next STOP is seen as a data rise. */
  predicate BetweenBytes(s: State) {
    s.rx.Receiving? && s.rx.bits == [] && !(s.wire.clock && s.wire.data)
  }

  lemma WriteAllCons(data: seq<int>, levels: seq<bool>)
    requires |levels| == |data| > 0
    ensures WriteAll(data, levels).trace
         == WriteByte(data[0], levels[0]).trace + WriteAll(data[1..], levels[1..]).trace
  {
  }

  lemma WriteByteBetween(b: int, level: bool, s: State)
    requires BetweenBytes(s)
    ensures BetweenBytes(Run(WriteByte(b, level).trace, s))
    ensures Run(WriteByte(b, level).trace, s).rx.bytes == s.rx.bytes + [Low8(b)]
    ensures Run(WriteByte(b, level).trace, s).frames == s.frames
  {
    WriteByteReceived(b, level, s);
  }

  lemma {:induction false} WriteAllReceived(data: seq<int>, levels: seq<bool>, s: State)
    requires |levels| == |data|
    requires BetweenBytes(s)
    ensures BetweenBytes(Run(WriteAll(data, levels).trace, s))
    ensures Run(WriteAll(data, levels).trace, s).rx.bytes == s.rx.bytes + Low8All(data)
    ensures Run(WriteAll(data, levels).trace, s).frames == s.frames
    decreases |levels|
  {
    if |data| == 0 {
      assert s.rx.bytes + Low8All(data) == s.rx.bytes;
    } else {
      var first := WriteByte(data[0], levels[0]).trace;
      var rest := WriteAll(data[1..], levels[1..]).trace;
      WriteAllCons(data, levels);
      RunAppend(first, rest, s);
      WriteByteBetween(data[0], levels[0], s);
      WriteAllReceived(data[1..], levels[1..], Run(first, s));
      assert Low8All(data) == [Low8(data[0])] + Low8All(data[1..]);
      assert (s.rx.bytes + [Low8(data[0])]) + Low8All(data[1..]) == s.rx.bytes + Low8All(data);
    }
  }

  /** send_command as seen on the bus: exactly one frame holding every byte,
      each modulo 256, in order, whatever the acknowledge levels; the bus is
      quiet again afterwards. */
  lemma SendCommandFrame(data: seq<int>, levels: seq<bool>, s: State)
    requires |levels| == |data|
    requires s.rx.Idle?
    ensures Run(SendCommand(data, levels).trace, s) == State(Wire(true, true), Idle, s.frames + [Low8All(data)])
  {
    var body := WriteAll(data, levels).trace;
    RunAppend(Start() + body, Stop(), s);
    RunAppend(Start(), body, s);
    StartOpensFrame(s);
    var s1 := Run(Start(), s);
    WriteAllReceived(data, levels, s1);
    StopClosesFrame(Run(body, s1));
    assert [] + Low8All(data) == Low8All(data);
  }

  /** send_command reads the data line once per byte, taking the levels in order. */
  lemma {:induction false} SendCommandSamples(data: seq<int>, levels: seq<bool>)
    requires |levels| == |data|
    ensures Samples(SendCommand(data, levels).trace) == levels
  {
    WriteAllSamples(data, levels);
    var body := WriteAll(data, levels).trace;
    SamplesAppend(Start() + body, Stop());
    SamplesAppend(Start(), body);
    assert Start()[1..][1..][1..] == [];
    assert Stop()[1..][1..][1..] == [];
  }

  lemma {:induction false} WriteAllSamples(data: seq<int>, levels: seq<bool>)
    requires |levels| == |data|
    ensures Samples(WriteAll(data, levels).trace) == levels
    decreases |levels|
  {
    if |data| > 0 {
      var first := WriteByte(data[0], levels[0]);
      SamplesAppend(first.trace, WriteAll(data[1..], levels[1..]).trace);
      WriteAllSamples(data[1..], levels[1..]);
      WriteByteOnWire(data[0], levels[0]);
      assert [levels[0]] + levels[1..] == levels;
    }
  }
}
