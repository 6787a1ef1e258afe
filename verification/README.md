# TM1651 three-digit seven-segment driver, modelled in Dafny

`D7Segment.py` drives a TM1651 LED controller (the three-digit "Gotek"
display) from MicroPython. It bit-bangs a two-wire bus: a clock pin and a data
pin, one byte at a time, least-significant bit first, with a ninth clock for
the device's acknowledge. It sends each command byte group between a START
and a STOP. This project models that driver as pure functions over event
traces and proves what the traces mean.

The modules follow the program's layers:

- `Bus` (`bus.dfy`) covers the pin helpers and the byte engine.
  - Every `set_clock`/`set_data` call is an event `SetClock(level)`/`SetData(level)`.
  - The read of the data line during the acknowledge clock is an event `Sample(level)`.
  - On top of these sit `half_cycle_clock_low`, `half_cycle_clock_high` and
    `half_cycle_clock_high_ack`, `delineate_transmission`/`start`/`stop`,
    `write_byte` and `send_command`.
  - `write_byte` is modelled twice: as a function over the bit list, and as the
    source's own shift loop (`WriteByteLoop`), which is proved equal to it.
- `Receiver` (`receiver.dfy`) is an independent reference.
  - It is a state machine that watches the two wire levels. It recognises
    START and STOP, latches a bit on every rising clock edge, groups 9 clocks
    into a byte, and collects the bytes between START and STOP into a frame.
  - Playing a driver trace into it gives the bytes the device receives.
  - The bus lemmas are stated against it: a transaction is received as exactly
    one frame of its bytes taken modulo 256, and the acknowledge levels are read
    once per byte, in order.
- `Display` (`display.dfy`) covers the segment table `CHAR_ARRAY`, the
  `Command` constants, `set_brightness`, `set_digit`, `set_integer` and
  `clear_display`.
- `Panel` (`panel.dfy`) reads the received frames as the TM1651's display
  registers and display control. This makes it possible to say what the three
  digit positions show after each operation. It is also where the
  `clear_display` defect becomes visible (see Findings).

The driver cannot choose the level it reads from the data line. Each operation
therefore takes `levels: seq<bool>`, one level per byte it can send:
- `true` means the line was high, i.e. no acknowledge;
- `false` means the device pulled it low.

Delays are dropped. They change only the spacing between events, never their
order.

The model follows the code as written:
- `clear_display` writes position 1 twice and never writes position 2.
- Brightness and digit position are not validated.
  - The display-on byte is `0x88 + brightness` and goes on the wire modulo 256.
  - The address byte is `0xC0 + digit`, also modulo 256.
- `set_digit` sends three separate START…STOP transactions, not one.
- An out-of-range glyph index raises Python's `IndexError` after the first
  transaction (fixed-address mode) has already gone out. Negative indices count
  from the end of the table.

## Model

| member | source | states |
|---|---|---|
| Bus.HalfCycleClockHighAck | D7Segment.py:143-166 | The acknowledge half-cycle raises the clock, reads the line once, drives data low only when the level read was low, and ends with the clock low. It returns the level read, not inverted. |
| Bus.WriteByte | D7Segment.py:189-191 | The result of `write_byte` is the negation of the level the acknowledge half-cycle reads: true exactly when the device pulled the line low. |
| Bus.WriteByteOnWire | D7Segment.py:168-191 | On the wire, round `i` (for `i` in 0..7) is clock low, bit `i` of the value on the data line, clock high, so the line carries that bit at the `i`-th rising edge. Then comes clock low with data released high, the ninth rising edge, and exactly one read of the line, the only read in the whole byte. |
| Bus.WriteByteLoop | D7Segment.py:168-191 | The source's loop gives exactly the trace and result of `WriteByte`: each round puts `write_data & 1` on the line, then shifts `write_data` right by one. This holds for every integer, negative ones included. |
| Bus.WriteAll | D7Segment.py:89-92 | The byte loop of `send_command` succeeds exactly when every byte was acknowledged. |
| Bus.SendCommand | D7Segment.py:88-94 | `send_command` begins with START and ends with STOP. Its result is true exactly when every byte was acknowledged. |
| Receiver.BitsRoundTrip | D7Segment.py:175-180 | Reading back, least-significant first, the n bits that `write_byte` puts on the line gives the value modulo 2^n. |
| Receiver.RoundsLatch | D7Segment.py:131-141 | Each clock-low/data/clock-high round is seen by a receiver as exactly one latched bit, that round's bit. |
| Receiver.AckClockCompletes | D7Segment.py:182-191 | The ninth clock completes the byte in progress, whatever level the device answers with. |
| Receiver.WriteByteReceived | D7Segment.py:168-191 | One `write_byte` adds exactly one byte, the value modulo 256, to the frame in progress, and changes nothing else. |
| Receiver.WriteAllReceived | D7Segment.py:91-92 | For every acknowledge pattern, the byte loop adds all its bytes, each modulo 256 and in order, to the frame in progress. A failed acknowledge does not stop the loop, and no frame is closed. |
| Receiver.StartOpensFrame | D7Segment.py:97-113 | `start` on a quiet bus (both lines high) is a START condition and opens an empty frame. |
| Receiver.StopClosesFrame | D7Segment.py:97-120 | `stop` after a whole byte is a STOP condition. It delivers the frame and leaves the bus quiet. |
| Receiver.SendCommandFrame | D7Segment.py:88-94 | For every acknowledge pattern, a `send_command` on a quiet bus is received as exactly one frame holding its bytes modulo 256, and leaves the bus quiet. |
| Receiver.SendCommandSamples | D7Segment.py:88-94 | `send_command` reads the data line exactly once per byte, in byte order. |
| Display.CharArrayFacts | D7Segment.py:20-24 | The segment table has 23 entries. None uses the decimal-point segment. Entry 16 is blank, and entries 0-9 are the ten digit patterns. |
| Display.Glyph | D7Segment.py:84 | `CHAR_ARRAY[num]` with Python list indexing. A pattern exists exactly for -23 <= num < 23. It is the table entry at `num mod 23`, so a negative index selects `CHAR_ARRAY[23 + num]`. |
| Display.SetDigit | D7Segment.py:81-86 | `set_digit` completes exactly when the glyph index is in range. It then returns true exactly when all four bytes were acknowledged. |
| Display.SetDigitFrames | D7Segment.py:81-86 | `set_digit` is received as three frames: fixed-address mode `0x44`; address `0xC0 + digit` with the glyph's pattern; display-on `0x88 + brightness`. This holds whatever the acknowledges. On `IndexError` only the first frame goes out. |
| Display.SetDigitSamples | D7Segment.py:81-86 | `set_digit` reads the line once per byte: four times, or once when the glyph index raises `IndexError`. |
| Display.SingleMissingAckFails | D7Segment.py:82-86 | For any glyph index Python accepts, one missing acknowledge on any of the four bytes makes `set_digit` return false. The bytes sent are the same either way. |
| Display.BrightnessRidesOnDisplayOn | D7Segment.py:64-65 | After `set_brightness(level)`, the frames of a later `set_digit` depend only on that level, not on anything set before. For levels 0..7 the display-on frame is exactly `0x88 + level`. |
| Display.SevenAtPositionZero | D7Segment.py:31-38 | Digit 7 at position 0 with brightness 2 sends `0x44`, then `0xC0 0x07`, then `0x8A`. |
| Display.DigitsOf | D7Segment.py:73-78 | `set_integer`'s three digits are each in 0..9 and recombine to the value clamped to 999. |
| Display.SetIntegerFrames | D7Segment.py:73-78 | `set_integer` is received as the frames of three `set_digit` calls: positions 0, 1, 2 with the hundreds, tens and units digit patterns of the clamped value. |
| Display.SetIntegerCaps | D7Segment.py:74-75 | Every value above 999 produces exactly the events that 999 does. |
| Display.ClearDisplayFrames | D7Segment.py:67-70 | `clear_display` as written is received as blank-pattern writes to position 0, position 1 and position 1 again. |
| Display.ClearAllDigitsFrames | D7Segment.py:67-70 | The corrected clear is received as blank-pattern writes to positions 0, 1 and 2. |
| Panel.DigitFramesShow | D7Segment.py:31-38 | The frames of one `set_digit` write the pattern into that position's register and no other. For brightness 0..7 they switch the display on at that brightness. |
| Panel.SetDigitShows | D7Segment.py:81-86 | After `set_digit` with any glyph index Python accepts (-23..22), the position shows that glyph and the other registers are unchanged. |
| Panel.SetIntegerShows | D7Segment.py:73-78 | After `set_integer`, positions 0, 1, 2 show the hundreds, tens and units digits of the clamped value. |
| Panel.DigitPatternsDistinct | D7Segment.py:20-21 | The ten digit patterns are pairwise distinct, so a shown digit can be read back. |
| Panel.SetIntegerReadsBack | D7Segment.py:73-78 | Reading the three positions after `set_integer(n)` gives back `n`, or 999 when `n > 999`. |
| Panel.ClearDisplayShows | D7Segment.py:67-70 | `clear_display` as written blanks registers 0 and 1 and writes no other register. |
| Panel.ClearDisplayLeavesPosition2 | D7Segment.py:67-70 | After `clear_display` as written, position 2 still shows what it showed before. |
| Panel.ClearDisplayKeepsEight | D7Segment.py:67-70 | A display showing 888 still shows the 8 at position 2 after `clear_display`. |
| Panel.ClearAllDigitsBlanks | D7Segment.py:67-70 | The corrected clear blanks all three positions. |

## Left out

- Every `sleep` and the `TM1651_CYCLE` timing (D7Segment.py:28): delays never change the order of pin events.
- Pin construction (D7Segment.py:49-50) is left out.
- The calls `self.data_pin(Pin.IN)` and `self.data_pin(Pin.OUT)` (D7Segment.py:150, 158) are left out of the trace.
  - In MicroPython, calling a pin object sets its output level. It does not change the pin's mode.
  - So these two calls are level writes on the data line during the acknowledge clock. The level each writes is whatever integer the port assigns to `Pin.IN` and `Pin.OUT`.
  - They happen while the clock is high, so a change of level there could look like a START or STOP condition to the chip. The model does not explore this.
  - The level the driver reads in between is the `levels` input.
- `__init__` (D7Segment.py:47-61) is left out. It prints to the console and calls `sys.exit` without importing `sys`. It also tests the result of `clear_display`, which returns `None`, so it cannot report a missing device as intended.
- `DHT22_LED.py` is an application that uses the driver, not part of it.
- The Python-level values 0/1 passed to `Pin.value` are modelled as booleans.
- `Command.DISPLAY_OFF` is never sent by the driver. `Panel` still reads bytes 0x80..0x87 as display-off.
- `Panel` is a reading of the TM1651 commands this driver sends, and nothing more.
  - It does not model the chip's auto-increment mode.
  - It does not model key scanning.
  - It does not model display memory beyond one register per address.
- Display.SetInteger: requires `num >= 0`. For negative values and floats, the source's `int(num / 100)` rounds a floating-point quotient towards zero, and that is not modelled.
- Display.SetDigit: takes exactly four acknowledge levels, one per byte it can send. On `IndexError`, only the first level is read.
- Display.SetInteger and Display.ClearDisplay: each takes twelve acknowledge levels and returns only the event trace. The source returns `None`, so the acknowledges are dropped.
- Panel.SetDigitShows: the display-control conclusion is stated only for brightness 0..7. Other values wrap modulo 256 into another command byte.
- Panel.DigitFramesShow: stated for positions 0..63, the addresses `0xC0 + digit` reaches without wrapping modulo 256.

## Findings

| source | as written | input that shows it | evidently intended | confidence | as-written member | corrected member |
|---|---|---|---|---|---|---|
| D7Segment.py:67-70 | `clear_display` calls `set_digit(1, 16)` twice and never `set_digit(2, 16)` | a display showing 888, then `clear_display()`: position 2 still shows 8 (pattern 0x7f) | blank positions 0, 1 and 2 | high, not executed | Panel.ClearDisplayKeepsEight | Panel.ClearAllDigitsBlanks |
