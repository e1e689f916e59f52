/**
 * HD44780 character LCD behind a PCF8574-style I2C backpack, driven in 4-bit mode.
 * Every expander byte is one bus write (`I2c.I2cBus.Write`); the bit layout of a byte is
 * D7..D4 = data nibble, bit 3 = backlight, bit 2 = EN, bit 1 = RW, bit 0 = RS.
 *
 * Each driver operation is specified by the exact sequence of bus frames it sends
 * (`lcd_expander_write` sends one frame per byte, to the display's address, with the
 * backlight bit OR'd in). The busy-wait delays of the driver are not modelled.
 */
module Lcd {
  import opened CStr
  import opened I2c

  // commands
  const LCD_CLEARDISPLAY: bv8 := 0x01
  const LCD_RETURNHOME: bv8 := 0x02
  const LCD_ENTRYMODESET: bv8 := 0x04
  const LCD_DISPLAYCONTROL: bv8 := 0x08
  const LCD_FUNCTIONSET: bv8 := 0x20
  const LCD_SETDDRAMADDR: bv8 := 0x80

  // flags for entry mode, display control and function set
  const LCD_ENTRYLEFT: bv8 := 0x02
  const LCD_ENTRYSHIFTDECREMENT: bv8 := 0x00
  const LCD_DISPLAYON: bv8 := 0x04
  const LCD_CURSOROFF: bv8 := 0x00
  const LCD_BLINKOFF: bv8 := 0x00
  const LCD_4BITMODE: bv8 := 0x00
  const LCD_2LINE: bv8 := 0x08
  const LCD_1LINE: bv8 := 0x00
  const LCD_5x8DOTS: bv8 := 0x00

  // expander bits
  const LCD_BACKLIGHT: bv8 := 0x08
  const LCD_NOBACKLIGHT: bv8 := 0x00
  const LCD_EN: bv8 := 0x04
  const LCD_RW: bv8 := 0x02
  const LCD_RS: bv8 := 0x01

  /** DDRAM start address of each of the (at most four) display lines. */
  const ROW_OFFSETS: seq<bv8> := [0x00, 0x40, 0x14, 0x54]

  /** The two values the driver ever stores as the backlight bit. */
  predicate IsBacklight(bl: bv8) {
    bl == LCD_BACKLIGHT || bl == LCD_NOBACKLIGHT
  }

  /** The two register-select modes of `lcd_send`: command (0) or character data (RS). */
  predicate IsMode(mode: bv8) {
    mode == 0 || mode == LCD_RS
  }

  /** The frame `lcd_expander_write` sends for `data`: to `addr`, with the backlight bit `bl` OR'd in. */
  function Expander(addr: bv8, bl: bv8, data: bv8): Frame {
    Frame(addr, data | bl)
  }

  /** The expander byte has every bit of `bl` set and every other bit from `data`. */
  lemma ExpanderBits(addr: bv8, bl: bv8, data: bv8)
    ensures Expander(addr, bl, data).data & bl == bl
    ensures Expander(addr, bl, data).data & !bl == data & !bl
  {
  }

  /** `lcd_pulse_enable`: the byte with EN raised, then with EN cleared. */
  function PulseFrames(addr: bv8, bl: bv8, data: bv8): (fs: seq<Frame>)
    ensures |fs| == 2
  {
    [Expander(addr, bl, data | LCD_EN), Expander(addr, bl, data & !LCD_EN)]
  }

  /**
   * The enable pulse raises EN in its first frame and, with a backlight value the driver
   * stores (EN low), clears it in the second; both go to `addr` and agree on every other bit.
   */
  lemma PulseBits(addr: bv8, bl: bv8, data: bv8)
    ensures var fs := PulseFrames(addr, bl, data);
      fs[0].data & LCD_EN == LCD_EN &&
      (IsBacklight(bl) ==> fs[1].data & LCD_EN == 0) &&
      fs[0].data & !LCD_EN == fs[1].data & !LCD_EN &&
      fs[0].addr == addr && fs[1].addr == addr
  {
  }

  /** `lcd_write4bits`: the nibble byte, then its enable pulse. */
  function NibbleFrames(addr: bv8, bl: bv8, v: bv8): (fs: seq<Frame>)
    ensures |fs| == 3
  {
    [Expander(addr, bl, v)] + PulseFrames(addr, bl, v)
  }

  /** `lcd_send`: the high nibble of `v`, then its low nibble, each tagged with `mode`. */
  function SendFrames(addr: bv8, bl: bv8, v: bv8, mode: bv8): (fs: seq<Frame>)
    ensures |fs| == 6
  {
    NibbleFrames(addr, bl, (v & 0xF0) | mode) + NibbleFrames(addr, bl, ((v << 4) & 0xF0) | mode)
  }

  /** `lcd_command`: a byte sent in command mode (RS low). */
  function CommandFrames(addr: bv8, bl: bv8, cmd: bv8): (fs: seq<Frame>)
    ensures |fs| == 6
  {
    SendFrames(addr, bl, cmd, 0)
  }

  /**
   * What the controller latches from one `lcd_send`: the high nibble from the first
   * strobe, the low nibble from the second (D7..D4 of frames 0 and 3).
   */
  function LatchedByte(fs: seq<Frame>): bv8
    requires |fs| >= 4
  {
    (fs[0].data & 0xF0) | (fs[3].data >> 4)
  }

  /** Facts about the two nibble bytes of `lcd_send`, on the bit level. */
  lemma SendBits(v: bv8, mode: bv8, bl: bv8)
    requires IsBacklight(bl) && IsMode(mode)
    ensures var hi, lo := (v & 0xF0) | mode, ((v << 4) & 0xF0) | mode;
      ((hi | bl) & 0xF0) | (((lo | bl) >> 4)) == v &&
      (hi | bl) & LCD_EN == 0 && (lo | bl) & LCD_EN == 0 &&
      (hi | bl) & LCD_RS == mode && (lo | bl) & LCD_RS == mode &&
      (hi | bl) & LCD_BACKLIGHT == bl && (lo | bl) & LCD_BACKLIGHT == bl &&
      (hi | bl | LCD_EN) & LCD_RS == mode && (lo | bl | LCD_EN) & LCD_RS == mode &&
      (hi | bl | LCD_EN) & LCD_BACKLIGHT == bl && (lo | bl | LCD_EN) & LCD_BACKLIGHT == bl
  {
  }

  /** With EN low in `v | bl`, a nibble write is that byte, the byte with EN, and the byte again. */
  lemma NibbleShape(addr: bv8, bl: bv8, v: bv8)
    requires (v | bl) & LCD_EN == 0
    ensures NibbleFrames(addr, bl, v) == [Frame(addr, v | bl), Frame(addr, v | bl | LCD_EN), Frame(addr, v | bl)]
  {
    assert (v & !LCD_EN) | bl == v | bl;
    assert (v | LCD_EN) | bl == v | bl | LCD_EN;
  }

  /** One `lcd_send` is the two nibble writes, spelled out frame by frame. */
  lemma SendShape(addr: bv8, bl: bv8, v: bv8, mode: bv8)
    requires IsBacklight(bl) && IsMode(mode)
    ensures var hi, lo := (v & 0xF0) | mode, ((v << 4) & 0xF0) | mode;
      var fs := SendFrames(addr, bl, v, mode);
      |fs| == 6 &&
      fs[0] == Frame(addr, hi | bl) && fs[1] == Frame(addr, hi | bl | LCD_EN) && fs[2] == Frame(addr, hi | bl) &&
      fs[3] == Frame(addr, lo | bl) && fs[4] == Frame(addr, lo | bl | LCD_EN) && fs[5] == Frame(addr, lo | bl)
  {
    var hi, lo := (v & 0xF0) | mode, ((v << 4) & 0xF0) | mode;
    SendBits(v, mode, bl);
    NibbleShape(addr, bl, hi);
    NibbleShape(addr, bl, lo);
  }

  /**
   * One `lcd_send` is six writes to `addr`. With a backlight value the driver stores and
   * either register-select mode, the controller reassembles exactly `v`; EN is high in
   * frames 1 and 4 only; RS equals the mode and the backlight bit equals `bl` in all six.
   */
  lemma SendRoundTrip(addr: bv8, bl: bv8, v: bv8, mode: bv8)
    requires IsBacklight(bl) && IsMode(mode)
    ensures var fs := SendFrames(addr, bl, v, mode);
      |fs| == 6 && LatchedByte(fs) == v &&
      (forall i | 0 <= i < 6 :: fs[i].addr == addr) &&
      (forall i | 0 <= i < 6 :: (fs[i].data & LCD_EN != 0 <==> i == 1 || i == 4)) &&
      (forall i | 0 <= i < 6 :: fs[i].data & LCD_RS == mode && fs[i].data & LCD_BACKLIGHT == bl)
  {
    SendBits(v, mode, bl);
    SendShape(addr, bl, v, mode);
  }

  /** `lcd_print`: the six frames of each character, in order, in data mode (RS high). */
  function PrintFrames(addr: bv8, bl: bv8, text: seq<bv8>): (fs: seq<Frame>)
    ensures |fs| == 6 * |text|
  {
    if text == [] then []
    else PrintFrames(addr, bl, text[..|text| - 1]) + SendFrames(addr, bl, text[|text| - 1], LCD_RS)
  }

  /** One more character of a NUL-free prefix: its six frames follow those sent so far. */
  lemma PrintStep(addr: bv8, bl: bv8, p: seq<Frame>, s: seq<bv8>, i: nat)
    requires i < |s| && s[i] != 0 && 0 !in s[..i]
    ensures 0 !in s[..i + 1]
    ensures p + PrintFrames(addr, bl, s[..i]) + SendFrames(addr, bl, s[i], LCD_RS)
         == p + PrintFrames(addr, bl, s[..i + 1])
  {
    assert s[..i + 1][..i] == s[..i];
    assert s[..i + 1] == s[..i] + [s[i]];
    AppendAssoc(p, PrintFrames(addr, bl, s[..i]), SendFrames(addr, bl, s[i], LCD_RS));
  }

  /** A NUL-free prefix ending at the NUL (or the end) is what `lcd_print` sends. */
  lemma PrintDone(s: seq<bv8>, i: nat)
    requires i <= |s| && 0 !in s[..i] && (i == |s| || s[i] == 0)
    ensures UntilNul(s, 0) == s[..i]
  {
    forall j | 0 <= j < i ensures s[j] != 0 {
      assert s[j] == s[..i][j];
    }
    UntilNulAt(s, 0, i);
  }

  /** The k-th group of six frames of `lcd_print` is the `lcd_send` of the k-th character. */
  lemma {:induction false} PrintFramesAt(addr: bv8, bl: bv8, text: seq<bv8>, k: nat)
    requires k < |text|
    ensures PrintFrames(addr, bl, text)[6 * k .. 6 * k + 6] == SendFrames(addr, bl, text[k], LCD_RS)
  {
    var init := text[..|text| - 1];
    if k < |text| - 1 {
      PrintFramesAt(addr, bl, init, k);
      assert PrintFrames(addr, bl, text)[6 * k .. 6 * k + 6] == PrintFrames(addr, bl, init)[6 * k .. 6 * k + 6];
    }
  }

  /** The function-set flags `lcd_init` chooses: two-line mode exactly when rows > 1. */
  function FunctionFlags(rows: bv8): (df: bv8)
    ensures df == LCD_2LINE <==> rows > 1
    ensures df == 0 <==> rows <= 1
  {
    if rows > 1 then LCD_4BITMODE | LCD_1LINE | LCD_5x8DOTS | LCD_2LINE
    else LCD_4BITMODE | LCD_1LINE | LCD_5x8DOTS
  }

  /** The first phase of `lcd_init`: the backlight byte, then the HD44780 4-bit wake-up
   * nibbles 0x3, 0x3, 0x3, 0x2 (datasheet page 46), all with the backlight on. */
  function WakeFrames(addr: bv8): (fs: seq<Frame>)
    ensures |fs| == 13
  {
    [Expander(addr, LCD_BACKLIGHT, LCD_BACKLIGHT)]
    + NibbleFrames(addr, LCD_BACKLIGHT, 0x03 << 4) + NibbleFrames(addr, LCD_BACKLIGHT, 0x03 << 4)
    + NibbleFrames(addr, LCD_BACKLIGHT, 0x03 << 4) + NibbleFrames(addr, LCD_BACKLIGHT, 0x02 << 4)
  }

  /** The second phase of `lcd_init`: function set, display on, clear, entry mode, home. */
  function ConfigFrames(addr: bv8, rows: bv8): (fs: seq<Frame>)
    ensures |fs| == 30
  {
    CommandFrames(addr, LCD_BACKLIGHT, LCD_FUNCTIONSET | FunctionFlags(rows))
    + CommandFrames(addr, LCD_BACKLIGHT, LCD_DISPLAYCONTROL | LCD_DISPLAYON | LCD_CURSOROFF | LCD_BLINKOFF)
    + CommandFrames(addr, LCD_BACKLIGHT, LCD_CLEARDISPLAY)
    + CommandFrames(addr, LCD_BACKLIGHT, LCD_ENTRYMODESET | LCD_ENTRYLEFT | LCD_ENTRYSHIFTDECREMENT)
    + CommandFrames(addr, LCD_BACKLIGHT, LCD_RETURNHOME)
  }

  /** All frames of `lcd_init`. */
  function InitFrames(addr: bv8, rows: bv8): (fs: seq<Frame>)
    ensures |fs| == 43
  {
    WakeFrames(addr) + ConfigFrames(addr, rows)
  }

  /**
   * The wake-up phase, frame by frame: the backlight byte 0x08, then the nibbles 0x3, 0x3,
   * 0x3 and 0x2 on D7..D4, each followed by its EN pulse (EN is bit 2, 0x04), all with
   * the backlight bit 0x08 set.
   */
  lemma WakeFramesValues(addr: bv8)
    ensures WakeFrames(addr) ==
      [Frame(addr, 0x08),
       Frame(addr, 0x38), Frame(addr, 0x3C), Frame(addr, 0x38),
       Frame(addr, 0x38), Frame(addr, 0x3C), Frame(addr, 0x38),
       Frame(addr, 0x38), Frame(addr, 0x3C), Frame(addr, 0x38),
       Frame(addr, 0x28), Frame(addr, 0x2C), Frame(addr, 0x28)]
  {
    NibbleShape(addr, LCD_BACKLIGHT, 0x03 << 4);
    NibbleShape(addr, LCD_BACKLIGHT, 0x02 << 4);
  }

  /**
   * The configuration phase, command by command: the k-th group of six frames latches
   * function set (0x28 for two lines, 0x20 for one), display on (0x0C), clear (0x01),
   * entry mode left (0x06) and return home (0x02), each with RS low, the backlight bit
   * set and EN strobed in frames 1 and 4 of the group.
   */
  lemma ConfigCommandAt(addr: bv8, rows: bv8, k: nat)
    requires k < 5
    ensures |ConfigFrames(addr, rows)| == 30
    ensures var cmds: seq<bv8> := [if rows > 1 then 0x28 else 0x20, 0x0C, 0x01, 0x06, 0x02];
      var fs := ConfigFrames(addr, rows)[6 * k .. 6 * k + 6];
      LatchedByte(fs) == cmds[k] &&
      (forall i | 0 <= i < 6 :: fs[i].addr == addr) &&
      (forall i | 0 <= i < 6 :: (fs[i].data & LCD_EN != 0 <==> i == 1 || i == 4)) &&
      (forall i | 0 <= i < 6 :: fs[i].data & LCD_RS == 0 && fs[i].data & LCD_BACKLIGHT == LCD_BACKLIGHT)
  {
    var bl := LCD_BACKLIGHT;
    var a := CommandFrames(addr, bl, LCD_FUNCTIONSET | FunctionFlags(rows));
    var b := CommandFrames(addr, bl, LCD_DISPLAYCONTROL | LCD_DISPLAYON | LCD_CURSOROFF | LCD_BLINKOFF);
    var c := CommandFrames(addr, bl, LCD_CLEARDISPLAY);
    var d := CommandFrames(addr, bl, LCD_ENTRYMODESET | LCD_ENTRYLEFT | LCD_ENTRYSHIFTDECREMENT);
    var e := CommandFrames(addr, bl, LCD_RETURNHOME);
    var cmd: bv8 := [if rows > 1 then 0x28 else 0x20, 0x0C, 0x01, 0x06, 0x02][k];
    var all := ConfigFrames(addr, rows);
    assert all == a + b + c + d + e;
    assert all[6 * k .. 6 * k + 6] == CommandFrames(addr, bl, cmd) by {
      if k == 0 {
        assert all[0..6] == a;
      } else if k == 1 {
        assert all[6..12] == b;
      } else if k == 2 {
        assert all[12..18] == c;
      } else if k == 3 {
        assert all[18..24] == d;
      } else {
        assert all[24..30] == e;
      }
    }
    SendRoundTrip(addr, bl, cmd, 0);
  }

  /** Every one of the 30 configuration frames goes to `addr` with RS low and the backlight on. */
  lemma ConfigFramesBits(addr: bv8, rows: bv8, i: nat)
    requires i < 30
    ensures |ConfigFrames(addr, rows)| == 30
    ensures var f := ConfigFrames(addr, rows)[i];
      f.addr == addr && f.data & LCD_RS == 0 && f.data & LCD_BACKLIGHT == LCD_BACKLIGHT &&
      (f.data & LCD_EN != 0 <==> i % 6 == 1 || i % 6 == 4)
  {
    var k := i / 6;
    ConfigCommandAt(addr, rows, k);
    assert ConfigFrames(addr, rows)[i] == ConfigFrames(addr, rows)[6 * k .. 6 * k + 6][i % 6];
  }

  /** `lcd_init` sends 43 frames: 13 for the wake-up, 30 for five commands. */
  lemma InitFramesLength(addr: bv8, rows: bv8)
    ensures |InitFrames(addr, rows)| == 43
    ensures InitFrames(addr, rows)[..13] == WakeFrames(addr) && InitFrames(addr, rows)[13..] == ConfigFrames(addr, rows)
  {
  }

  /** Five pieces appended one by one to a trace `p` are `p` followed by all five. */
  lemma Regroup<T>(p: seq<T>, a: seq<T>, b: seq<T>, c: seq<T>, d: seq<T>, e: seq<T>)
    ensures p + a + b + c + d + e == p + (a + b + c + d + e)
  {
    AppendAssoc(p, a, b);
    AppendAssoc(p, a + b, c);
    AppendAssoc(p, a + b + c, d);
    AppendAssoc(p, a + b + c + d, e);
  }

  /** Two single frames appended one by one are the pair. */
  lemma AppendPair<T>(p: seq<T>, x: T, y: T)
    ensures p + [x] + [y] == p + [x, y]
  {
    AppendAssoc(p, [x], [y]);
    assert [x] + [y] == [x, y];
  }

  /** `lcd_set_cursor`'s row clamp, in the driver's 8-bit arithmetic (rows = 0 gives 255). */
  function ClampRow(row: bv8, rows: bv8): (r: bv8)
    ensures rows >= 1 ==> r < rows
    ensures row < rows ==> r == row
    ensures row >= rows ==> r == rows - 1
  {
    if row >= rows then rows - 1 else row
  }

  /**
   * The set-DDRAM-address command of `lcd_set_cursor`. The offset table has four entries,
   * so the clamped row must be one of them (guaranteed when 1 <= rows <= 4).
   */
  function CursorCommand(col: bv8, row: bv8, rows: bv8): (cmd: bv8)
    requires ClampRow(row, rows) < 4
    ensures cmd & LCD_SETDDRAMADDR == LCD_SETDDRAMADDR
    ensures cmd & 0x7F == (col + ROW_OFFSETS[ClampRow(row, rows)]) & 0x7F
  {
    LCD_SETDDRAMADDR | (col + ROW_OFFSETS[ClampRow(row, rows) as int])
  }

  /** Displays with one to four lines never index past the offset table. */
  lemma CursorRowInTable(row: bv8, rows: bv8)
    requires 1 <= rows <= 4
    ensures ClampRow(row, rows) < 4
  {
  }

  /**
   * The driver state of one display. Every method writes through `bus`, and what it
   * appends to the bus trace (and so, rendered, to the serial line) is stated exactly.
   */
  class LcdI2c {
    var addr: bv8
    var cols: bv8
    var rows: bv8
    var backlight_val: bv8
    var display_function: bv8
    var display_control: bv8
    var display_mode: bv8

    /** The backlight bit holds one of the two values the driver stores. */
    predicate BacklightStored()
      reads this
    {
      IsBacklight(backlight_val)
    }

    /** `lcd_expander_write`: one bus write with the current backlight bit OR'd in. */
    method ExpanderWrite(bus: I2cBus, data: bv8)
      requires bus.Valid()
      modifies bus, bus.serial
      ensures bus.Valid() && bus.before == old(bus.before)
      ensures bus.sent == old(bus.sent) + [Expander(addr, backlight_val, data)]
    {
      bus.Write(addr, data | backlight_val);
    }

    /** `lcd_pulse_enable`: strobes EN high then low around `data`. */
    method PulseEnable(bus: I2cBus, data: bv8)
      requires bus.Valid()
      modifies bus, bus.serial
      ensures bus.Valid() && bus.before == old(bus.before)
      ensures bus.sent == old(bus.sent) + PulseFrames(addr, backlight_val, data)
    {
      ghost var start := bus.sent;
      ExpanderWrite(bus, data | LCD_EN);
      ExpanderWrite(bus, data & !LCD_EN);
      AppendPair(start, Expander(addr, backlight_val, data | LCD_EN), Expander(addr, backlight_val, data & !LCD_EN));
    }

    /** `lcd_write4bits`: puts a nibble on the bus and latches it. */
    method Write4Bits(bus: I2cBus, v: bv8)
      requires bus.Valid()
      modifies bus, bus.serial
      ensures bus.Valid() && bus.before == old(bus.before)
      ensures bus.sent == old(bus.sent) + NibbleFrames(addr, backlight_val, v)
    {
      ghost var start := bus.sent;
      ExpanderWrite(bus, v);
      PulseEnable(bus, v);
      AppendAssoc(start, [Expander(addr, backlight_val, v)], PulseFrames(addr, backlight_val, v));
    }

    /** `lcd_send`: one byte as two nibbles, tagged with the register-select `mode`. */
    method Send(bus: I2cBus, v: bv8, mode: bv8)
      requires bus.Valid()
      modifies bus, bus.serial
      ensures bus.Valid() && bus.before == old(bus.before)
      ensures bus.sent == old(bus.sent) + SendFrames(addr, backlight_val, v, mode)
    {
      ghost var start := bus.sent;
      var highnib := v & 0xF0;
      var lownib := (v << 4) & 0xF0;
      Write4Bits(bus, highnib | mode);
      Write4Bits(bus, lownib | mode);
      AppendAssoc(start, NibbleFrames(addr, backlight_val, highnib | mode), NibbleFrames(addr, backlight_val, lownib | mode));
    }

    /** `lcd_command`: a byte for the instruction register. */
    method Command(bus: I2cBus, v: bv8)
      requires bus.Valid()
      modifies bus, bus.serial
      ensures bus.Valid() && bus.before == old(bus.before)
      ensures bus.sent == old(bus.sent) + CommandFrames(addr, backlight_val, v)
    {
      Send(bus, v, 0);
    }

    /** `lcd_putc`: a character for the data register. */
    method Putc(bus: I2cBus, c: bv8)
      requires bus.Valid()
      modifies bus, bus.serial
      ensures bus.Valid() && bus.before == old(bus.before)
      ensures bus.sent == old(bus.sent) + SendFrames(addr, backlight_val, c, LCD_RS)
    {
      Send(bus, c, LCD_RS);
    }

    /** `lcd_print`: one character write per character before the NUL. */
    method Print(bus: I2cBus, s: seq<bv8>)
      requires bus.Valid()
      modifies bus, bus.serial
      ensures bus.Valid() && bus.before == old(bus.before)
      ensures bus.sent == old(bus.sent) + PrintFrames(addr, backlight_val, UntilNul(s, 0))
    {
      ghost var start := bus.sent;
      var i := 0;
      while i < |s| && s[i] != 0
        invariant 0 <= i <= |s|
        invariant 0 !in s[..i]
        invariant bus.Valid() && bus.before == old(bus.before)
        invariant bus.sent == start + PrintFrames(addr, backlight_val, s[..i])
      {
        PrintNext(bus, s, i, start);
        i := i + 1;
      }
      PrintDone(s, i);
    }

    /** One iteration of `lcd_print`: `s[i]`, the next character before the NUL, in data mode. */
    method PrintNext(bus: I2cBus, s: seq<bv8>, i: nat, ghost start: seq<Frame>)
      requires i < |s| && s[i] != 0 && 0 !in s[..i]
      requires bus.Valid() && bus.sent == start + PrintFrames(addr, backlight_val, s[..i])
      modifies bus, bus.serial
      ensures 0 !in s[..i + 1]
      ensures bus.Valid() && bus.before == old(bus.before)
      ensures bus.sent == start + PrintFrames(addr, backlight_val, s[..i + 1])
    {
      Putc(bus, s[i]);
      PrintStep(addr, backlight_val, start, s, i);
    }

    /** `lcd_clear`: the clear-display command. */
    method Clear(bus: I2cBus)
      requires bus.Valid()
      modifies bus, bus.serial
      ensures bus.Valid() && bus.before == old(bus.before)
      ensures bus.sent == old(bus.sent) + CommandFrames(addr, backlight_val, LCD_CLEARDISPLAY)
    {
      Command(bus, LCD_CLEARDISPLAY);
    }

    /** `lcd_home`: the return-home command. */
    method Home(bus: I2cBus)
      requires bus.Valid()
      modifies bus, bus.serial
      ensures bus.Valid() && bus.before == old(bus.before)
      ensures bus.sent == old(bus.sent) + CommandFrames(addr, backlight_val, LCD_RETURNHOME)
    {
      Command(bus, LCD_RETURNHOME);
    }

    /** `lcd_set_cursor`: moves the cursor to `col` on the (clamped) line `row`. */
    method SetCursor(bus: I2cBus, col: bv8, row: bv8)
      requires ClampRow(row, rows) < 4
      requires bus.Valid()
      modifies bus, bus.serial
      ensures bus.Valid() && bus.before == old(bus.before)
      ensures bus.sent == old(bus.sent) + CommandFrames(addr, backlight_val, CursorCommand(col, row, rows))
    {
      var r := row;
      if r >= rows {
        r := rows - 1;
      }
      Command(bus, LCD_SETDDRAMADDR | (col + ROW_OFFSETS[r]));
    }

    /** `lcd_backlight`: switches the backlight bit and writes it out as one byte. */
    method Backlight(bus: I2cBus, on: bv8)
      requires bus.Valid()
      modifies this, bus, bus.serial
      ensures backlight_val == (if on != 0 then LCD_BACKLIGHT else LCD_NOBACKLIGHT)
      ensures BacklightStored()
      ensures addr == old(addr) && cols == old(cols) && rows == old(rows)
      ensures display_function == old(display_function) && display_control == old(display_control)
      ensures display_mode == old(display_mode)
      ensures bus.Valid() && bus.before == old(bus.before)
      ensures bus.sent == old(bus.sent) + [Frame(addr, backlight_val)]
    {
      backlight_val := if on != 0 then LCD_BACKLIGHT else LCD_NOBACKLIGHT;
      ExpanderWrite(bus, 0);
    }

    /**
     * `lcd_init`: records the geometry and the backlight and function-set flags, wakes
     * the controller in 4-bit mode and configures it, setting the display-control and
     * entry-mode fields just before the commands that send them.
     */
    method Init(bus: I2cBus, a: bv8, c: bv8, r: bv8)
      requires bus.Valid()
      modifies this, bus, bus.serial
      ensures addr == a && cols == c && rows == r
      ensures backlight_val == LCD_BACKLIGHT && BacklightStored()
      ensures display_function == FunctionFlags(r)
      ensures display_control == LCD_DISPLAYON
      ensures display_mode == LCD_ENTRYLEFT
      ensures bus.Valid() && bus.before == old(bus.before)
      ensures bus.sent == old(bus.sent) + InitFrames(addr, rows)
    {
      addr := a;
      cols := c;
      rows := r;
      backlight_val := LCD_BACKLIGHT;
      display_function := LCD_4BITMODE | LCD_1LINE | LCD_5x8DOTS;
      if r > 1 {
        display_function := display_function | LCD_2LINE;
      }
      Startup(bus);
    }

    /** The bus traffic of `lcd_init` after it has stored the geometry and the flags. */
    method Startup(bus: I2cBus)
      requires backlight_val == LCD_BACKLIGHT && display_function == FunctionFlags(rows)
      requires bus.Valid()
      modifies this, bus, bus.serial
      ensures addr == old(addr) && cols == old(cols) && rows == old(rows)
      ensures backlight_val == old(backlight_val) && display_function == old(display_function)
      ensures display_control == LCD_DISPLAYON && display_mode == LCD_ENTRYLEFT
      ensures bus.Valid() && bus.before == old(bus.before)
      ensures bus.sent == old(bus.sent) + InitFrames(addr, rows)
    {
      ghost var start := bus.sent;
      WakeUp(bus);
      Configure(bus);
      AppendAssoc(start, WakeFrames(addr), ConfigFrames(addr, rows));
    }

    /** The wake-up of `lcd_init`: all bits low but the backlight, then the nibbles that select 4-bit mode. */
    method WakeUp(bus: I2cBus)
      requires backlight_val == LCD_BACKLIGHT
      requires bus.Valid()
      modifies bus, bus.serial
      ensures bus.Valid() && bus.before == old(bus.before)
      ensures bus.sent == old(bus.sent) + WakeFrames(addr)
    {
      ghost var start := bus.sent;
      ExpanderWrite(bus, backlight_val);
      Write4Bits(bus, 0x03 << 4);
      Write4Bits(bus, 0x03 << 4);
      Write4Bits(bus, 0x03 << 4);
      Write4Bits(bus, 0x02 << 4);
      Regroup(start, [Expander(addr, LCD_BACKLIGHT, LCD_BACKLIGHT)],
                NibbleFrames(addr, LCD_BACKLIGHT, 0x03 << 4), NibbleFrames(addr, LCD_BACKLIGHT, 0x03 << 4),
                NibbleFrames(addr, LCD_BACKLIGHT, 0x03 << 4), NibbleFrames(addr, LCD_BACKLIGHT, 0x02 << 4));
    }

    /**
     * The configuration of `lcd_init`, from the function-set command to the return-home
     * command: the five configuration commands, with the display-control
     * and entry-mode fields set as the driver sets them.
     */
    method Configure(bus: I2cBus)
      requires backlight_val == LCD_BACKLIGHT && display_function == FunctionFlags(rows)
      requires bus.Valid()
      modifies this, bus, bus.serial
      ensures addr == old(addr) && cols == old(cols) && rows == old(rows)
      ensures backlight_val == old(backlight_val) && display_function == old(display_function)
      ensures display_control == LCD_DISPLAYON && display_mode == LCD_ENTRYLEFT
      ensures bus.Valid() && bus.before == old(bus.before)
      ensures bus.sent == old(bus.sent) + ConfigFrames(addr, rows)
    {
      ghost var start := bus.sent;
      Command(bus, LCD_FUNCTIONSET | display_function);
      display_control := LCD_DISPLAYON | LCD_CURSOROFF | LCD_BLINKOFF;
      Command(bus, LCD_DISPLAYCONTROL | display_control);
      Clear(bus);
      display_mode := LCD_ENTRYLEFT | LCD_ENTRYSHIFTDECREMENT;
      Command(bus, LCD_ENTRYMODESET | display_mode);
      Home(bus);
      Regroup(start,
                CommandFrames(addr, LCD_BACKLIGHT, LCD_FUNCTIONSET | display_function),
                CommandFrames(addr, LCD_BACKLIGHT, LCD_DISPLAYCONTROL | LCD_DISPLAYON | LCD_CURSOROFF | LCD_BLINKOFF),
                CommandFrames(addr, LCD_BACKLIGHT, LCD_CLEARDISPLAY),
                CommandFrames(addr, LCD_BACKLIGHT, LCD_ENTRYMODESET | LCD_ENTRYLEFT | LCD_ENTRYSHIFTDECREMENT),
                CommandFrames(addr, LCD_BACKLIGHT, LCD_RETURNHOME));
    }
  }
}
