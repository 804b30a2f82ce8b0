/**
 * The RGB LED server (`js-servers/rgb_led.js`): an `oic.r.colour.rgb`
 * resource whose updates carry a colour as the string "r,g,b". An accepted
 * colour is clocked out bit by bit on two GPIO pins to the LED's driver
 * chip as a 12-byte frame.
 */
module RgbLed {
  import opened Wrappers
  import opened Scheduling
  import opened JsString

  const ResourceType := "oic.r.colour.rgb"

  /** The valid range of every channel, as the resource publishes it. */
  const Range := "0,255"

  /** Delay of the notification every request schedules, in milliseconds. */
  const NotifyDelay: nat := 200

  /** The resource payload `{rt, id, rgbValue, range}`. */
  datatype Properties = Properties(rt: string, id: string, rgbValue: string, range: string)

  /** `getProperties`. */
  function Payload(rgbValue: string): (p: Properties)
    ensures p.rt == ResourceType && p.id == "rgbled"
    ensures p.rgbValue == rgbValue && p.range == Range
  {
    Properties(ResourceType, "rgbled", rgbValue, Range)
  }

  datatype Colour = Colour(red: bv8, green: bv8, blue: bv8)

  /** The colour the LED is switched to at start-up. */
  const Off := Colour(0, 0, 0)

  // ---------------------------------------------------------------------
  // Parsing "r,g,b"

  /** `parts[i]`, or the string `parseInt` makes of `undefined` past the end. */
  function Item(parts: seq<string>, i: nat): string {
    if i < |parts| then parts[i] else "undefined"
  }

  /** Channel `i` of an update: `parseInt(input.split(',')[i])`. */
  function Channel(input: string, i: nat): (c: Option<int>)
    ensures i >= |Split(input, ',')| ==> c == None
  {
    ParseUndefined();
    ParseInt(Item(Split(input, ','), i))
  }

  /** `a >= b` and `a <= b` on numbers that may be `NaN`: false when either is. */
  predicate AtLeast(a: Option<int>, b: Option<int>) {
    a.Some? && b.Some? && a.value >= b.value
  }

  predicate AtMost(a: Option<int>, b: Option<int>) {
    a.Some? && b.Some? && a.value <= b.value
  }

  /** The bounds `checkColour` parses out of `Range` are 0 and 255. */
  lemma RangeBounds()
    ensures ParseInt(Item(Split(Range, ','), 0)) == Some(0)
    ensures ParseInt(Item(Split(Range, ','), 1)) == Some(255)
  {
    RangeParts();
    ParseBounds();
  }

  lemma RangeParts()
    ensures Split(Range, ',') == ["0", "255"]
  {
    assert Join(["0", "255"], ',') == Range by {
      assert ["0", "255"][1..] == ["255"];
    }
    SplitJoin(["0", "255"], ',');
  }

  lemma ParseBounds()
    ensures ParseInt("0") == Some(0) && ParseInt("255") == Some(255)
  {
    assert Decimal(0) == "0" && Decimal(255) == "255" by {
      assert Decimal(2) == "2" && Decimal(25) == "25";
    }
    ParseDecimal(0);
    ParseDecimal(255);
  }

  /** `checkColour`: the channel lies within the bounds read from `Range`. */
  function CheckColour(colour: Option<int>): (ok: bool)
    ensures ok <==> colour.Some? && 0 <= colour.value <= 255
  {
    RangeBounds();
    var bounds := Split(Range, ',');
    var min := ParseInt(Item(bounds, 0));
    var max := ParseInt(Item(bounds, 1));
    AtLeast(colour, min) && AtMost(colour, max)
  }

  /**
   * The colour an update string stands for, when all three channels parse
   * and pass `checkColour`.
   */
  function ParseRgb(input: string): (c: Option<Colour>)
    ensures c.Some? <==> InRange(Channel(input, 0)) && InRange(Channel(input, 1)) && InRange(Channel(input, 2))
    ensures c.Some? ==>
      c.value == Colour(Channel(input, 0).value as bv8, Channel(input, 1).value as bv8, Channel(input, 2).value as bv8)
  {
    var r, g, b := Channel(input, 0), Channel(input, 1), Channel(input, 2);
    if CheckColour(r) && CheckColour(g) && CheckColour(b) then
      Some(Colour(r.value as bv8, g.value as bv8, b.value as bv8))
    else None
  }

  /**
   * An update with fewer than three comma-separated parts is rejected: the
   * missing channel is `parseInt(undefined)`, which is `NaN`.
   */
  lemma MissingChannelRejected(input: string)
    requires |Split(input, ',')| < 3
    ensures ParseRgb(input) == None
  {
    assert Item(Split(input, ','), 2) == "undefined";
    ParseUndefined();
  }

  /** A number, not `NaN`, from 0 to 255. */
  predicate InRange(v: Option<int>) {
    v.Some? && 0 <= v.value <= 255
  }

  /** The string "r,g,b" of three decimal channels. */
  function Triple(r: nat, g: nat, b: nat): string {
    Join([Decimal(r), Decimal(g), Decimal(b)], ',')
  }

  /** A decimal triple parses channel by channel. */
  lemma TripleChannels(r: nat, g: nat, b: nat)
    ensures Channel(Triple(r, g, b), 0) == Some(r)
    ensures Channel(Triple(r, g, b), 1) == Some(g)
    ensures Channel(Triple(r, g, b), 2) == Some(b)
  {
    TripleParts(r, g, b);
    var parts := Split(Triple(r, g, b), ',');
    assert Item(parts, 0) == Decimal(r) && Item(parts, 1) == Decimal(g) && Item(parts, 2) == Decimal(b);
    ParseDecimal(r);
    ParseDecimal(g);
    ParseDecimal(b);
  }

  /** The three numerals of a triple split apart again. */
  lemma TripleParts(r: nat, g: nat, b: nat)
    ensures Split(Triple(r, g, b), ',') == [Decimal(r), Decimal(g), Decimal(b)]
  {
    var parts := [Decimal(r), Decimal(g), Decimal(b)];
    forall i | 0 <= i < 3 ensures ',' !in parts[i] {
      assert forall k :: 0 <= k < |parts[i]| ==> '0' <= parts[i][k] <= '9';
    }
    SplitJoin(parts, ',');
  }

  /** A decimal triple is accepted exactly when every channel is at most 255, and then as that colour. */
  lemma ParseTriple(r: nat, g: nat, b: nat)
    ensures ParseRgb(Triple(r, g, b)).Some? <==> r <= 255 && g <= 255 && b <= 255
    ensures r <= 255 && g <= 255 && b <= 255 ==>
      ParseRgb(Triple(r, g, b)) == Some(Colour(r as bv8, g as bv8, b as bv8))
  {
    TripleChannels(r, g, b);
  }

  // ---------------------------------------------------------------------
  // The serial frame

  /** One GPIO write: the level put on the data pin or on the clock pin. */
  datatype PinWrite = Data(high: bool) | Clock(high: bool)

  /** The bits of `b`, most significant first: the order `sendByte` sends them in. */
  function Bits(b: bv8): (bits: seq<bool>)
    ensures |bits| == 8
  {
    [b & 0x80 != 0, b & 0x40 != 0, b & 0x20 != 0, b & 0x10 != 0,
     b & 0x08 != 0, b & 0x04 != 0, b & 0x02 != 0, b & 0x01 != 0]
  }

  /** The byte whose bits, most significant first, are `bits`. */
  function FromBits(bits: seq<bool>): bv8
    requires |bits| == 8
  {
    (if bits[0] then 0x80 else 0) | (if bits[1] then 0x40 else 0)
    | (if bits[2] then 0x20 else 0) | (if bits[3] then 0x10 else 0)
    | (if bits[4] then 0x08 else 0) | (if bits[5] then 0x04 else 0)
    | (if bits[6] then 0x02 else 0) | (if bits[7] then 0x01 else 0)
  }

  lemma BitsRoundTrip(b: bv8)
    ensures FromBits(Bits(b)) == b
  {
  }

  /** Shifting left by one moves every bit up and brings in a zero. */
  lemma BitsShift(g: bv8)
    ensures Bits(g << 1) == Bits(g)[1..] + [false]
  {
  }

  /** The writes that send `bits`: each bit on the data pin, then a clock pulse. */
  function BitWrites(bits: seq<bool>): seq<PinWrite>
  {
    if bits == [] then []
    else [Data(bits[0]), Clock(false), Clock(true)] + BitWrites(bits[1..])
  }

  lemma {:induction false} BitWritesAppend(a: seq<bool>, b: seq<bool>)
    ensures BitWrites(a + b) == BitWrites(a) + BitWrites(b)
  {
    if a == [] {
      assert a + b == b;
    } else {
      assert (a + b)[0] == a[0] && (a + b)[1..] == a[1..] + b;
      BitWritesAppend(a[1..], b);
      AppendAssoc([Data(a[0]), Clock(false), Clock(true)], BitWrites(a[1..]), BitWrites(b));
    }
  }

  /**
   * The writes `sendByte` makes for the `n` bits it has still to send when
   * the register holds `reg`: the top bit on the data pin, a clock pulse,
   * and the rest from the register shifted left.
   */
  function ShiftWrites(reg: bv8, n: nat): seq<PinWrite>
    requires n <= 8
    // naming `reg` keeps the verifier from expanding all eight bits whenever `n` is a literal
    decreases n, reg as int
  {
    if n == 0 then []
    else [Data(reg & 0x80 != 0), Clock(false), Clock(true)] + ShiftWrites(reg << 1, n - 1)
  }

  /** The writes `sendByte(b)` makes. */
  function ByteWrites(b: bv8): seq<PinWrite> {
    ShiftWrites(b, 8)
  }

  /** Shifting the register out sends the first `n` bits of its byte, most significant first. */
  lemma {:induction false} ShiftWritesBits(reg: bv8, n: nat)
    requires n <= 8
    ensures ShiftWrites(reg, n) == BitWrites(Bits(reg)[..n])
    decreases n
  {
    if n > 0 {
      var all, rest := Bits(reg), Bits(reg << 1);
      ShiftWritesBits(reg << 1, n - 1);
      BitsShift(reg);
      var bits := all[..n];
      assert bits[0] == (reg & 0x80 != 0);
      assert bits[1..] == all[1..n];
      assert rest[..n - 1] == all[1..n] by {
        assert rest == all[1..] + [false];
        assert (all[1..] + [false])[..n - 1] == all[1..][..n - 1];
      }
      assert BitWrites(bits) == [Data(bits[0]), Clock(false), Clock(true)] + BitWrites(bits[1..]);
    }
  }

  /** The writes of a run of `sendByte` calls. */
  function BytesWrites(bytes: seq<bv8>): seq<PinWrite>
  {
    if bytes == [] then [] else ByteWrites(bytes[0]) + BytesWrites(bytes[1..])
  }

  lemma {:induction false} BytesWritesAppend(a: seq<bv8>, b: seq<bv8>)
    ensures BytesWrites(a + b) == BytesWrites(a) + BytesWrites(b)
  {
    if a != [] {
      assert (a + b)[0] == a[0] && (a + b)[1..] == a[1..] + b;
      BytesWritesAppend(a[1..], b);
      AppendAssoc(ByteWrites(a[0]), BytesWrites(a[1..]), BytesWrites(b));
    } else {
      assert a + b == b;
    }
  }

  /**
   * The byte in front of the colour, "1 1 /B7 /B6 /G7 /G6 /R7 /R6": the top
   * two bits set, then the complements of the two top bits of blue, green
   * and red.
   */
  function Prefix(c: Colour): (p: bv8)
    ensures p & 0xC0 == 0xC0
    ensures (p & 0x20 != 0) == (c.blue & 0x80 == 0)
    ensures (p & 0x10 != 0) == (c.blue & 0x40 == 0)
    ensures (p & 0x08 != 0) == (c.green & 0x80 == 0)
    ensures (p & 0x04 != 0) == (c.green & 0x40 == 0)
    ensures (p & 0x02 != 0) == (c.red & 0x80 == 0)
    ensures (p & 0x01 != 0) == (c.red & 0x40 == 0)
  {
    var p0: bv8 := 0xC0;
    var p1 := if c.blue & 0x80 == 0 then p0 | 0x20 else p0;
    var p2 := if c.blue & 0x40 == 0 then p1 | 0x10 else p1;
    var p3 := if c.green & 0x80 == 0 then p2 | 0x08 else p2;
    var p4 := if c.green & 0x40 == 0 then p3 | 0x04 else p3;
    var p5 := if c.red & 0x80 == 0 then p4 | 0x02 else p4;
    if c.red & 0x40 == 0 then p5 | 0x01 else p5
  }

  /** The bytes `setColourRGB` sends: 32 zero bits, prefix, blue, green, red, 32 zero bits. */
  function FrameBytes(c: Colour): seq<bv8> {
    [0, 0, 0, 0] + [Prefix(c), c.blue, c.green, c.red] + [0, 0, 0, 0]
  }

  /** The writes `setColourRGB` makes. */
  function FrameWrites(c: Colour): seq<PinWrite> {
    BytesWrites(FrameBytes(c))
  }

  /** A colour frame is 12 bytes, 96 clocked bits, 288 writes. */
  lemma FrameSize(c: Colour)
    ensures |FrameBytes(c)| == 12 && |FrameWrites(c)| == 3 * 96
  {
    BytesWritesLength(FrameBytes(c));
  }

  lemma AppendAssoc<T>(x: seq<T>, y: seq<T>, z: seq<T>)
    ensures (x + y) + z == x + (y + z)
  {
  }

  /** Every byte costs three writes per bit. */
  lemma {:induction false} BytesWritesLength(bytes: seq<bv8>)
    ensures |BytesWrites(bytes)| == 24 * |bytes|
  {
    if bytes != [] {
      ShiftWritesLength(bytes[0], 8);
      BytesWritesLength(bytes[1..]);
    }
  }

  lemma {:induction false} ShiftWritesLength(reg: bv8, n: nat)
    requires n <= 8
    ensures |ShiftWrites(reg, n)| == 3 * n
    decreases n
  {
    if n > 0 {
      ShiftWritesLength(reg << 1, n - 1);
    }
  }

  // ---------------------------------------------------------------------
  // The receiving end

  /**
   * The driver chip's view of the two pins: it shifts the data level in on
   * every rising clock edge and completes a byte every eight edges.
   */
  datatype Receiver = Receiver(clock: bool, data: bool, shifted: seq<bool>, bytes: seq<bv8>)

  const Idle := Receiver(false, false, [], [])

  function Latch(r: Receiver, w: PinWrite): Receiver {
    match w
    case Data(h) => r.(data := h)
    case Clock(h) =>
      if h && !r.clock then
        var shifted := r.shifted + [r.data];
        if |shifted| == 8 then r.(clock := h, shifted := [], bytes := r.bytes + [FromBits(shifted)])
        else r.(clock := h, shifted := shifted)
      else r.(clock := h)
  }

  function Feed(r: Receiver, ws: seq<PinWrite>): Receiver
    decreases |ws|
  {
    if ws == [] then r else Feed(Latch(r, ws[0]), ws[1..])
  }

  lemma {:induction false} FeedAppend(r: Receiver, a: seq<PinWrite>, b: seq<PinWrite>)
    ensures Feed(r, a + b) == Feed(Feed(r, a), b)
    decreases |a|
  {
    if a == [] {
      assert a + b == b;
    } else {
      assert (a + b)[0] == a[0] && (a + b)[1..] == a[1..] + b;
      FeedAppend(Latch(r, a[0]), a[1..], b);
    }
  }

  lemma FeedThree(r: Receiver, a: PinWrite, b: PinWrite, c: PinWrite)
    ensures Feed(r, [a, b, c]) == Latch(Latch(Latch(r, a), b), c)
  {
    assert [a, b, c][1..] == [b, c] && [b, c][1..] == [c] && [c][1..] == [];
    calc {
      Feed(r, [a, b, c]);
      Feed(Latch(r, a), [b, c]);
      Feed(Latch(Latch(r, a), b), [c]);
      Feed(Latch(Latch(Latch(r, a), b), c), []);
    }
  }

  /** A bit that is not the last of its byte is shifted in. */
  lemma NextBit(r: Receiver, bit: bool)
    requires |r.shifted| < 7
    ensures Feed(r, BitWrites([bit])) == r.(clock := true, data := bit, shifted := r.shifted + [bit])
  {
    assert BitWrites([bit]) == [Data(bit), Clock(false), Clock(true)] by {
      assert [bit][1..] == [];
    }
    FeedThree(r, Data(bit), Clock(false), Clock(true));
  }

  /** The eighth bit completes the byte. */
  lemma LastBit(r: Receiver, bit: bool)
    requires |r.shifted| == 7
    ensures Feed(r, BitWrites([bit])) == Receiver(true, bit, [], r.bytes + [FromBits(r.shifted + [bit])])
  {
    assert BitWrites([bit]) == [Data(bit), Clock(false), Clock(true)] by {
      assert [bit][1..] == [];
    }
    FeedThree(r, Data(bit), Clock(false), Clock(true));
  }

  /** The last bits of a byte, sent after its first bits were latched, complete it. */
  lemma {:induction false} BitsLatched(r: Receiver, bits: seq<bool>)
    requires 1 <= |bits| && |r.shifted| + |bits| == 8
    ensures Feed(r, BitWrites(bits)) ==
      Receiver(true, bits[|bits| - 1], [], r.bytes + [FromBits(r.shifted + bits)])
    decreases |bits|
  {
    if |bits| == 1 {
      assert bits == [bits[0]];
      LastBit(r, bits[0]);
    } else {
      assert bits == [bits[0]] + bits[1..];
      BitWritesAppend([bits[0]], bits[1..]);
      FeedAppend(r, BitWrites([bits[0]]), BitWrites(bits[1..]));
      NextBit(r, bits[0]);
      var r1 := r.(clock := true, data := bits[0], shifted := r.shifted + [bits[0]]);
      BitsLatched(r1, bits[1..]);
      AppendAssoc(r.shifted, [bits[0]], bits[1..]);
    }
  }

  /** A whole byte sent from a byte boundary is read back whole. */
  lemma ByteLatched(r: Receiver, b: bv8)
    requires r.shifted == []
    ensures Feed(r, ByteWrites(b)).bytes == r.bytes + [b]
    ensures Feed(r, ByteWrites(b)).shifted == []
  {
    ShiftWritesBits(b, 8);
    assert Bits(b)[..8] == Bits(b);
    BitsLatched(r, Bits(b));
    assert r.shifted + Bits(b) == Bits(b);
    BitsRoundTrip(b);
  }

  /** The receiver reads back, in order, every byte `sendByte` sends. */
  lemma {:induction false} BytesLatched(r: Receiver, bytes: seq<bv8>)
    requires r.shifted == []
    ensures Feed(r, BytesWrites(bytes)).bytes == r.bytes + bytes
    ensures Feed(r, BytesWrites(bytes)).shifted == []
    decreases |bytes|
  {
    if bytes == [] {
      assert r.bytes + bytes == r.bytes;
    } else {
      FeedAppend(r, ByteWrites(bytes[0]), BytesWrites(bytes[1..]));
      ByteLatched(r, bytes[0]);
      var r1 := Feed(r, ByteWrites(bytes[0]));
      BytesLatched(r1, bytes[1..]);
      AppendAssoc(r.bytes, [bytes[0]], bytes[1..]);
      assert [bytes[0]] + bytes[1..] == bytes;
    }
  }

  /**
   * The chip's check of the flag byte in front of a colour: bits 7 and 6
   * set, bits 5 to 0 the complements of B7, B6, G7, G6, R7 and R6.
   */
  predicate FlagMatches(f: bv8, c: Colour) {
    f & 0x80 != 0 && f & 0x40 != 0
    && (f & 0x20 != 0) == (c.blue & 0x80 == 0) && (f & 0x10 != 0) == (c.blue & 0x40 == 0)
    && (f & 0x08 != 0) == (c.green & 0x80 == 0) && (f & 0x04 != 0) == (c.green & 0x40 == 0)
    && (f & 0x02 != 0) == (c.red & 0x80 == 0) && (f & 0x01 != 0) == (c.red & 0x40 == 0)
  }

  /** What the chip accepts as a colour frame: zero bytes around a flag byte that matches the colour. */
  function DecodeFrame(bytes: seq<bv8>): Option<Colour> {
    if |bytes| == 12 && bytes[..4] == [0, 0, 0, 0] && bytes[8..] == [0, 0, 0, 0]
       && FlagMatches(bytes[4], Colour(bytes[7], bytes[6], bytes[5]))
    then Some(Colour(bytes[7], bytes[6], bytes[5]))
    else None
  }

  /** Clocking out a frame delivers exactly its colour to the chip. */
  lemma FrameRoundTrip(c: Colour)
    ensures Feed(Idle, FrameWrites(c)).bytes == FrameBytes(c)
    ensures DecodeFrame(Feed(Idle, FrameWrites(c)).bytes) == Some(c)
  {
    BytesLatched(Idle, FrameBytes(c));
    assert Idle.bytes + FrameBytes(c) == FrameBytes(c);
    DecodeFrameBytes(c);
  }

  /** The chip accepts the bytes of a colour frame as that colour. */
  lemma DecodeFrameBytes(c: Colour)
    ensures DecodeFrame(FrameBytes(c)) == Some(c)
  {
    var f := FrameBytes(c);
    assert f[..4] == [0, 0, 0, 0] && f[8..] == [0, 0, 0, 0];
    assert f[4] == Prefix(c) && f[5] == c.blue && f[6] == c.green && f[7] == c.red;
  }

  /** One bit and its clock pulse, appended to what was sent, leave the rest of the byte to send. */
  lemma SendStep(before: seq<PinWrite>, g: bv8, k: nat, target: seq<PinWrite>)
    requires 1 <= k <= 8 && before + ShiftWrites(g, k) == target
    ensures before + [Data(g & 0x80 != 0)] + [Clock(false), Clock(true)] + ShiftWrites(g << 1, k - 1) == target
  {
    var head := [Data(g & 0x80 != 0), Clock(false), Clock(true)];
    assert ShiftWrites(g, k) == head + ShiftWrites(g << 1, k - 1);
    AppendAssoc(before, [Data(g & 0x80 != 0)], [Clock(false), Clock(true)]);
    assert [Data(g & 0x80 != 0)] + [Clock(false), Clock(true)] == head;
    AppendAssoc(before, head, ShiftWrites(g << 1, k - 1));
  }

  /** Four bytes sent one after the other make the writes of the four. */
  lemma SentFour(w: seq<PinWrite>, a: bv8, b: bv8, c: bv8, d: bv8)
    ensures w + ByteWrites(a) + ByteWrites(b) + ByteWrites(c) + ByteWrites(d) == w + BytesWrites([a, b, c, d])
  {
    var wa, wb, wc, wd := ByteWrites(a), ByteWrites(b), ByteWrites(c), ByteWrites(d);
    assert [a, b, c, d][1..] == [b, c, d] && [b, c, d][1..] == [c, d] && [c, d][1..] == [d] && [d][1..] == [];
    assert BytesWrites([d]) == wd by {
      assert wd + [] == wd;
    }
    assert BytesWrites([c, d]) == wc + wd;
    assert BytesWrites([b, c, d]) == wb + (wc + wd);
    assert BytesWrites([a, b, c, d]) == wa + (wb + (wc + wd));
    AppendAssoc(w, wa, wb + (wc + wd));
    AppendAssoc(w + wa, wb, wc + wd);
    AppendAssoc(w + wa + wb, wc, wd);
  }

  /** Zeros, colour, zeros: the frame. */
  lemma FrameSent(w: seq<PinWrite>, c: Colour)
    ensures w + BytesWrites([0, 0, 0, 0]) + BytesWrites([Prefix(c), c.blue, c.green, c.red]) + BytesWrites([0, 0, 0, 0])
      == w + FrameWrites(c)
  {
    var z: seq<bv8> := [0, 0, 0, 0];
    var col := [Prefix(c), c.blue, c.green, c.red];
    BytesWritesAppend(z, col);
    BytesWritesAppend(z + col, z);
    AppendAssoc(w, BytesWrites(z), BytesWrites(col));
    AppendAssoc(w, BytesWrites(z + col), BytesWrites(z));
  }

  /** `sendByte`'s 32-bit register tests and shifts its low byte as that byte would be. */
  lemma RegisterBit(reg: bv32, g: bv8)
    requires reg & 0xFF == g as bv32
    ensures (reg & 0x80 != 0) == (g & 0x80 != 0)
    ensures (reg << 1) & 0xFF == (g << 1) as bv32
  {
  }

  /** The pin trace `writes` ends with the frame of `c`: the LED shows `c`. */
  ghost predicate Shows(writes: seq<PinWrite>, c: Colour) {
    |FrameWrites(c)| <= |writes| && writes[|writes| - |FrameWrites(c)|..] == FrameWrites(c)
  }

  /** Sending a frame makes the LED show its colour, whatever was sent before. */
  lemma ShowsSent(w: seq<PinWrite>, c: Colour)
    ensures Shows(w + FrameWrites(c), c)
  {
    var f := FrameWrites(c);
    assert (w + f)[|w + f| - |f|..] == f;
  }

  /**
   * Every update keeps the LED showing the colour `rgbValue` names: an
   * accepted one sends the frame of the colour it stores, a rejected one
   * changes neither.
   */
  lemma UpdateShows(hardware: bool, v: string, w: seq<PinWrite>, input: Option<string>)
    requires ParseRgb(v).Some? && Shows(w, ParseRgb(v).value)
    ensures var c := Accepted(hardware, input);
      var v' := if c.Some? then input.value else v;
      var w' := if c.Some? then w + FrameWrites(c.value) else w;
      ParseRgb(v') == (if c.Some? then c else ParseRgb(v)) && Shows(w', ParseRgb(v').value)
  {
    var c := Accepted(hardware, input);
    if c.Some? {
      ShowsSent(w, c.value);
    }
  }

  /** The value published at load, "0,0,0", is the colour the LED is switched to at start-up. */
  lemma InitialColour()
    ensures ParseRgb("0,0,0") == Some(Off)
  {
    assert Triple(0, 0, 0) == "0,0,0" by {
      assert Decimal(0) == "0";
    }
    ParseTriple(0, 0, 0);
  }

  // ---------------------------------------------------------------------
  // The server

  /** The `type` of a request; the handler tells only these two apart. */
  datatype Kind = Update | Retrieve | Other

  /** An inbound request: its `type` and, for an update, `res.rgbValue`. */
  datatype Request = Request(kind: Kind, rgbValue: Option<string>)

  /** The colour an update applies: none without a non-empty value, without hardware, or when parsing rejects it. */
  function Accepted(hardware: bool, input: Option<string>): (c: Option<Colour>)
    ensures c.Some? <==> (hardware && input.Some? && input.value != []
      && InRange(Channel(input.value, 0)) && InRange(Channel(input.value, 1)) && InRange(Channel(input.value, 2)))
    ensures c.Some? ==> c == ParseRgb(input.value)
  {
    if input.Some? && input.value != [] && hardware then ParseRgb(input.value) else None
  }

  class RgbLedServer {
    /** Whether the `mraa` GPIO module loaded. */
    const hardware: bool
    var rgbValue: string
    /** Every write to the clock and data pins, in order. */
    var writes: seq<PinWrite>
    /** `rgbLEDResource.properties`. */
    var properties: Properties
    /** The payloads sent back by `request.sendResponse`, in order. */
    var responses: seq<Properties>
    /** The payloads handed to `device.notify`, in order. */
    var pushes: seq<Properties>
    /** The notifications scheduled by requests. */
    var timers: TimerQueue

    /**
     * Every pending timer is a 200 ms notification. That the LED shows the
     * colour `rgbValue` names is kept outside this predicate: `Start`
     * establishes it and `UpdateShows` preserves it.
     */
    ghost predicate Valid()
      reads this
    {
      timers.Valid() && (forall id :: id in timers.pending ==> timers.pending[id] == NotifyDelay)
    }

    /**
     * Module load: the globals at their initial values, and the resource's
     * properties as registration will publish them, `getProperties()`.
     * The pins are untouched until `setupHardware` runs (see `Start`).
     */
    constructor (hardware: bool)
      ensures Valid() && this.hardware == hardware
      ensures rgbValue == "0,0,0" && properties == Payload("0,0,0")
      ensures writes == [] && responses == [] && pushes == [] && timers == NoTimers
    {
      this.hardware := hardware;
      rgbValue := "0,0,0";
      writes := [];
      properties := Payload("0,0,0");
      responses, pushes := [], [];
      timers := NoTimers;
    }

    /** `setupHardware`: with the GPIO module present, the LED is switched off. */
    method SetupHardware()
      modifies this`writes
      ensures hardware ==> writes == old(writes) + FrameWrites(Off)
      ensures !hardware ==> writes == old(writes)
    {
      if hardware {
        SetColourRGB(Off);
      }
    }

    /** `clk`: one clock pulse, low then high. */
    method Clk()
      modifies this`writes
      ensures hardware ==> writes == old(writes) + [Clock(false), Clock(true)]
      ensures !hardware ==> writes == old(writes)
    {
      if !hardware {
        return;
      }
      writes := writes + [Clock(false)];
      writes := writes + [Clock(true)];
    }

    /** `sendByte`: eight data bits, most significant first, each followed by a clock pulse. */
    method SendByte(b: bv8)
      modifies this`writes
      ensures hardware ==> writes == old(writes) + ByteWrites(b)
      ensures !hardware ==> writes == old(writes)
    {
      if !hardware {
        return;
      }
      // the JavaScript shift works on 32 bits; only the low byte is ever tested
      var reg: bv32 := b as bv32;
      ghost var g := b;
      ghost var target := old(writes) + ByteWrites(b);
      for i := 0 to 8
        invariant reg & 0xFF == g as bv32
        invariant writes + ShiftWrites(g, 8 - i) == target
      {
        RegisterBit(reg, g);
        SendStep(writes, g, 8 - i, target);
        SendBit(reg);
        reg := reg << 1;
        g := g << 1;
      }
      assert ShiftWrites(g, 0) == [];
    }

    /** One pass of the `sendByte` loop: the top bit of the low byte on the data pin, then a clock pulse. */
    method SendBit(reg: bv32)
      requires hardware
      modifies this`writes
      ensures writes == old(writes) + [Data(reg & 0x80 != 0)] + [Clock(false), Clock(true)]
    {
      if reg & 0x80 != 0 {
        writes := writes + [Data(true)];
      } else {
        writes := writes + [Data(false)];
      }
      Clk();
    }

    /** `sendColour`: the prefix byte, then blue, green and red. */
    method SendColour(c: Colour)
      modifies this`writes
      ensures hardware ==> writes == old(writes) + BytesWrites([Prefix(c), c.blue, c.green, c.red])
      ensures !hardware ==> writes == old(writes)
    {
      var prefix := Prefix(c);
      SendByte(prefix);
      SendByte(c.blue);
      SendByte(c.green);
      SendByte(c.red);
      if hardware {
        SentFour(old(writes), prefix, c.blue, c.green, c.red);
      }
    }

    /** Four zero bytes, as `setColourRGB` sends before and after the colour. */
    method SendZeros()
      modifies this`writes
      ensures hardware ==> writes == old(writes) + BytesWrites([0, 0, 0, 0])
      ensures !hardware ==> writes == old(writes)
    {
      var zero: bv8 := 0;
      SendByte(zero);
      SendByte(zero);
      SendByte(zero);
      SendByte(zero);
      if hardware {
        SentFour(old(writes), zero, zero, zero, zero);
      }
    }

    /** `setColourRGB`: one whole frame. */
    method SetColourRGB(c: Colour)
      modifies this`writes
      ensures hardware ==> writes == old(writes) + FrameWrites(c)
      ensures !hardware ==> writes == old(writes)
    {
      SendZeros();
      SendColour(c);
      SendZeros();
      if hardware {
        FrameSent(old(writes), c);
      }
    }

    /**
     * `updateProperties`: an accepted colour is sent to the LED and becomes
     * `rgbValue`; anything else changes nothing.
     */
    method UpdateProperties(input: Option<string>)
      modifies this`rgbValue, this`writes
      ensures var c := Accepted(hardware, input);
        if c.Some? then rgbValue == input.value && writes == old(writes) + FrameWrites(c.value)
        else rgbValue == old(rgbValue) && writes == old(writes)
    {
      if input.None? || input.value == [] || !hardware {
        return;
      }
      var rgb := Split(input.value, ',');
      var r := ParseInt(Item(rgb, 0));
      var g := ParseInt(Item(rgb, 1));
      var b := ParseInt(Item(rgb, 2));
      if !CheckColour(r) || !CheckColour(g) || !CheckColour(b) {
        return;
      }
      SetColourRGB(Colour(r.value as bv8, g.value as bv8, b.value as bv8));
      rgbValue := input.value;
    }

    /**
     * `entityHandler`: apply an update or refresh the properties for a
     * retrieve, respond with the resource's properties, and schedule a
     * notification.
     */
    method EntityHandler(req: Request)
      requires Valid()
      modifies this
      ensures Valid()
      ensures var c := if req.kind == Update then Accepted(hardware, req.rgbValue) else None;
        rgbValue == (if c.Some? then req.rgbValue.value else old(rgbValue))
        && writes == old(writes) + (if c.Some? then FrameWrites(c.value) else [])
      ensures properties == if req.kind == Retrieve then Payload(rgbValue) else old(properties)
      ensures responses == old(responses) + [properties] && pushes == old(pushes)
      ensures timers == old(timers).SetTimeout(NotifyDelay).0
    {
      if req.kind == Update {
        UpdateProperties(req.rgbValue);
      } else if req.kind == Retrieve {
        properties := Payload(rgbValue);
      }
      responses := responses + [properties];
      var (q, _) := timers.SetTimeout(NotifyDelay);
      timers := q;
    }

    /**
     * `notifyObservers`, run when the pending timer `fired` goes off: the
     * properties are refreshed from `rgbValue` and pushed. Nothing re-arms
     * the timer; a failed push is only logged.
     */
    method NotifyObservers(fired: nat)
      requires Valid() && fired in timers.pending
      modifies this`properties, this`pushes, this`timers
      ensures Valid()
      ensures properties == Payload(rgbValue) && pushes == old(pushes) + [properties]
      ensures timers == old(timers).Cancel(fired)
    {
      timers := timers.Cancel(fired);
      properties := Payload(rgbValue);
      pushes := pushes + [properties];
    }
  }

  /**
   * Start-up once the device is configured: `setupHardware` switches the
   * LED off, then the resource is registered with `getProperties()`. By
   * the time requests arrive, a GPIO-equipped LED shows the colour
   * `rgbValue` names.
   */
  method Start(hardware: bool) returns (s: RgbLedServer)
    ensures fresh(s) && s.Valid() && s.hardware == hardware
    ensures s.rgbValue == "0,0,0" && s.properties == Payload("0,0,0")
    ensures s.writes == (if hardware then FrameWrites(Off) else [])
    ensures s.responses == [] && s.pushes == [] && s.timers == NoTimers
    ensures hardware ==> Shows(s.writes, Off)
  {
    s := new RgbLedServer(hardware);
    s.SetupHardware();
    if hardware {
      assert s.writes == [] + FrameWrites(Off);
      ShowsSent([], Off);
    }
  }

  /** A triple whose red channel is above 255 is no colour to apply. */
  lemma OutOfRangeRejected(r: nat, g: nat, b: nat)
    ensures Accepted(true, Some(Triple(256 + r, g, b))) == None
  {
    ParseTriple(256 + r, g, b);
  }

  /** An update with a channel above 255 is dropped: the value stays the one set at load. */
  method OutOfRangeScenario(r: nat, g: nat, b: nat) returns (after: string, added: int)
    ensures after == "0,0,0" && added == 0
  {
    var s := Start(true);
    var before := |s.writes|;
    var input := Triple(256 + r, g, b);
    OutOfRangeRejected(r, g, b);
    s.EntityHandler(Request(Update, Some(input)));
    after := s.rgbValue;
    added := |s.writes| - before;
  }

  /**
   * An update the parser accepts is applied, but the response to it still
   * carries the properties set at registration: only a retrieve publishes
   * the new value.
   */
  method StaleResponseScenario(input: string) returns (after: string, response: string, refreshed: string)
    requires input != [] && ParseRgb(input).Some?
    ensures after == input && response == "0,0,0" && refreshed == input
  {
    var s := Start(true);
    s.EntityHandler(Request(Update, Some(input)));
    after := s.rgbValue;
    response := s.responses[0].rgbValue;
    s.EntityHandler(Request(Retrieve, None));
    refreshed := s.responses[1].rgbValue;
  }
}
