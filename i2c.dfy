/**
 * `i2c_write_byte`: the simulated I2C bus. Each write of `val` to device `addr`
 * becomes one line "[I2C] AA -> VV\n" on the serial line, in upper-case hex.
 */
module I2c {
  import opened Serial
  import opened CStr

  datatype Option<T> = None | Some(value: T)

  /** One bus transaction: a byte sent to a device address (all eight bits as passed). */
  datatype Frame = Frame(addr: bv8, data: bv8)

  /** The lookup table the formatter indexes by nibble. */
  const HEX: string := "0123456789ABCDEF"

  /** Parses one upper-case hex digit back to its nibble. */
  function HexValue(c: char): (r: Option<bv8>)
    ensures r.Some? ==> r.value < 16
    ensures r.Some? <==> c in HEX
  {
    if '0' <= c <= '9' then Some((c as int - '0' as int) as bv8)
    else if 'A' <= c <= 'F' then Some((c as int - 'A' as int + 10) as bv8)
    else None
  }

  /** The table entry for nibble `n`. */
  function HexDigit(n: bv8): (c: char)
    requires n < 16
    ensures c in HEX
  {
    HEX[n as int]
  }

  /** Parsing a table entry gives its nibble back. */
  lemma HexDigitRoundTrip(n: bv8)
    requires n < 16
    ensures HexValue(HexDigit(n)) == Some(n)
  {
    var k := n as int;
    assert 0 <= k < 16;
    if k < 10 {
      assert HEX[k] as int == '0' as int + k;
    } else {
      assert HEX[k] as int == 'A' as int + (k - 10);
    }
  }

  /** Reads two hex digits, high nibble first. */
  function ParseByte(hi: char, lo: char): (r: Option<bv8>)
    ensures r.Some? <==> hi in HEX && lo in HEX
  {
    match (HexValue(hi), HexValue(lo))
    case (Some(h), Some(l)) => Some((h << 4) | l)
    case _ => None
  }

  /** The two digits printed for `b` (high nibble first) read back as `b`. */
  lemma HexByteRoundTrip(b: bv8)
    ensures ParseByte(HexDigit((b >> 4) & 0xF), HexDigit(b & 0xF)) == Some(b)
  {
    HexDigitRoundTrip((b >> 4) & 0xF);
    HexDigitRoundTrip(b & 0xF);
    assert (((b >> 4) & 0xF) << 4) | (b & 0xF) == b;
  }

  const PREFIX: string := "[I2C] "
  const ARROW: string := " -> "
  const LINE_LENGTH: nat := 15

  /** The serial text of one bus write: "[I2C] AA -> VV" and a newline. */
  function Line(addr: bv8, val: bv8): (line: string)
    ensures |line| == LINE_LENGTH
  {
    ['[', 'I', '2', 'C', ']', ' ', HexDigit((addr >> 4) & 0xF), HexDigit(addr & 0xF),
     ' ', '-', '>', ' ', HexDigit((val >> 4) & 0xF), HexDigit(val & 0xF), '\n']
  }

  /** The fixed text of a line: the prefix at 0-5, the arrow at 8-11, the newline at 14. */
  lemma LineText(addr: bv8, val: bv8)
    ensures var line := Line(addr, val);
      line[..6] == PREFIX && line[8..12] == ARROW && line[14] == '\n'
  {
  }

  /**
   * The shape of a line: the fixed text, the address digits at 6-7, the value digits
   * at 12-13, each pair reading back to the byte it came from.
   */
  lemma LineFields(addr: bv8, val: bv8)
    ensures var line := Line(addr, val);
      line[..6] == PREFIX && line[8..12] == ARROW && line[14] == '\n' &&
      line[6] in HEX && line[7] in HEX && line[12] in HEX && line[13] in HEX &&
      ParseByte(line[6], line[7]) == Some(addr) &&
      ParseByte(line[12], line[13]) == Some(val)
  {
    LineText(addr, val);
    HexByteRoundTrip(addr);
    HexByteRoundTrip(val);
  }

  /** Reads one line back, or fails when `line` is not of the shape `Line` prints. */
  function ParseLine(line: string): (r: Option<Frame>)
    ensures r.Some? ==> |line| == LINE_LENGTH
  {
    if |line| == LINE_LENGTH && line[..6] == PREFIX && line[8..12] == ARROW && line[14] == '\n' then
      match (ParseByte(line[6], line[7]), ParseByte(line[12], line[13]))
      case (Some(a), Some(v)) => Some(Frame(a, v))
      case _ => None
    else None
  }

  /** Different writes print different lines, so the line determines the write. */
  lemma LineInjective(a: bv8, v: bv8, b: bv8, w: bv8)
    ensures Line(a, v) == Line(b, w) <==> a == b && v == w
  {
    LineFields(a, v);
    LineFields(b, w);
    if Line(a, v) == Line(b, w) {
      assert ParseByte(Line(a, v)[6], Line(a, v)[7]) == Some(a);
      assert ParseByte(Line(b, w)[12], Line(b, w)[13]) == Some(w);
    }
  }

  lemma ParseLineOfLine(a: bv8, v: bv8)
    ensures ParseLine(Line(a, v)) == Some(Frame(a, v))
  {
    LineFields(a, v);
  }

  /**
   * The serial text of a sequence of bus writes, in order: character k of the text is
   * character k % 15 of the line of write k / 15.
   */
  function Render(fs: seq<Frame>): (s: string)
    ensures |s| == LINE_LENGTH * |fs|
  {
    seq(LINE_LENGTH * |fs|, k requires 0 <= k < LINE_LENGTH * |fs| =>
      Line(fs[k / LINE_LENGTH].addr, fs[k / LINE_LENGTH].data)[k % LINE_LENGTH])
  }

  /** Cuts serial text into 15-character lines and reads each one back. */
  function ParseLines(s: string): (r: Option<seq<Frame>>)
    decreases |s|
  {
    if s == [] then Some([])
    else if |s| < LINE_LENGTH then None
    else
      match (ParseLine(s[..LINE_LENGTH]), ParseLines(s[LINE_LENGTH..]))
      case (Some(f), Some(rest)) => Some([f] + rest)
      case _ => None
  }

  /** The text of one write is its line. */
  lemma RenderOne(f: Frame)
    ensures Render([f]) == Line(f.addr, f.data)
  {
    var s := Render([f]);
    forall k | 0 <= k < LINE_LENGTH ensures s[k] == Line(f.addr, f.data)[k] {
      assert k / LINE_LENGTH == 0 && k % LINE_LENGTH == k;
    }
  }

  /** Character positions past `n` whole lines fall in the same place of a later line. */
  lemma LineShift(k: int, n: nat)
    requires k >= LINE_LENGTH * n
    ensures (k - LINE_LENGTH * n) / LINE_LENGTH == k / LINE_LENGTH - n
    ensures (k - LINE_LENGTH * n) % LINE_LENGTH == k % LINE_LENGTH
  {
  }

  /** The text of `a + b` starts with the text of `a`. */
  lemma RenderPrefix(a: seq<Frame>, b: seq<Frame>)
    ensures forall k | 0 <= k < LINE_LENGTH * |a| :: Render(a + b)[k] == Render(a)[k]
  {
    forall k | 0 <= k < LINE_LENGTH * |a| ensures Render(a + b)[k] == Render(a)[k] {
      assert (a + b)[k / LINE_LENGTH] == a[k / LINE_LENGTH];
    }
  }

  /** After the text of `a`, the text of `a + b` continues with the text of `b`. */
  lemma RenderSuffix(a: seq<Frame>, b: seq<Frame>)
    ensures forall k | 0 <= k < LINE_LENGTH * |b| ::
      Render(a + b)[LINE_LENGTH * |a| + k] == Render(b)[k]
  {
    forall k | 0 <= k < LINE_LENGTH * |b|
      ensures Render(a + b)[LINE_LENGTH * |a| + k] == Render(b)[k]
    {
      LineShift(LINE_LENGTH * |a| + k, |a|);
      assert (a + b)[(LINE_LENGTH * |a| + k) / LINE_LENGTH] == b[k / LINE_LENGTH];
    }
  }

  /** The text of two runs of writes, one after the other, is their two texts. */
  lemma RenderAppend(a: seq<Frame>, b: seq<Frame>)
    ensures Render(a + b) == Render(a) + Render(b)
  {
    var s, t := Render(a + b), Render(a) + Render(b);
    RenderPrefix(a, b);
    RenderSuffix(a, b);
    forall k | 0 <= k < |s| ensures s[k] == t[k] {
      if k >= LINE_LENGTH * |a| {
        assert s[LINE_LENGTH * |a| + (k - LINE_LENGTH * |a|)] == Render(b)[k - LINE_LENGTH * |a|];
      }
    }
  }

  lemma RenderSnoc(fs: seq<Frame>, f: Frame)
    ensures Render(fs + [f]) == Render(fs) + Line(f.addr, f.data)
  {
    RenderAppend(fs, [f]);
    RenderOne(f);
  }

  /** The bus trace is recoverable exactly from the serial text. */
  lemma {:induction false} ParseRender(fs: seq<Frame>)
    ensures ParseLines(Render(fs)) == Some(fs)
  {
    if fs != [] {
      var s := Render(fs);
      assert fs == [fs[0]] + fs[1..];
      RenderAppend([fs[0]], fs[1..]);
      RenderOne(fs[0]);
      assert s[..LINE_LENGTH] == Line(fs[0].addr, fs[0].data);
      assert s[LINE_LENGTH..] == Render(fs[1..]);
      ParseLineOfLine(fs[0].addr, fs[0].data);
      ParseRender(fs[1..]);
    }
  }

  lemma AppendAssoc<T>(a: seq<T>, b: seq<T>, c: seq<T>)
    ensures a + b + c == a + (b + c)
  {
  }

  /** The two `serial_putc` calls that print `b` through the table, high nibble first. */
  method PutHexByte(serial: SerialLine, b: bv8)
    modifies serial
    ensures serial.out == old(serial.out) + [HexDigit((b >> 4) & 0xF), HexDigit(b & 0xF)]
  {
    serial.Putc(HEX[((b >> 4) & 0xF) as int]);
    serial.Putc(HEX[(b & 0xF) as int]);
  }

  /** The line spelled the way `i2c_write_byte` prints it: two strings and four digits. */
  lemma LineSpelledOut(addr: bv8, val: bv8)
    ensures Line(addr, val) == PREFIX + [HexDigit((addr >> 4) & 0xF), HexDigit(addr & 0xF)]
      + ARROW + [HexDigit((val >> 4) & 0xF), HexDigit(val & 0xF)] + "\n"
  {
  }

  /** `i2c_write_byte`: appends the line of one write, and changes nothing already sent. */
  method WriteByte(serial: SerialLine, addr: bv8, val: bv8)
    modifies serial
    ensures serial.out == old(serial.out) + Line(addr, val)
  {
    ghost var o := serial.out;
    ghost var ha := [HexDigit((addr >> 4) & 0xF), HexDigit(addr & 0xF)];
    ghost var hv := [HexDigit((val >> 4) & 0xF), HexDigit(val & 0xF)];
    UntilNulWhole(PREFIX, '\0');
    serial.Print(PREFIX);
    PutHexByte(serial, addr);
    AppendAssoc(o, PREFIX, ha);
    ghost var head := PREFIX + ha;
    UntilNulWhole(ARROW, '\0');
    serial.Print(ARROW);
    PutHexByte(serial, val);
    AppendAssoc(o + head, ARROW, hv);
    AppendAssoc(o, head, ARROW + hv);
    ghost var tail := ARROW + hv;
    UntilNulWhole("\n", '\0');
    serial.Print("\n");
    AppendAssoc(o, head + tail, "\n");
    AppendAssoc(head, ARROW, hv);
    LineSpelledOut(addr, val);
  }

  /**
   * The bus as its users see it: the serial line that `WriteByte` prints on, with the
   * sequence of writes issued so far. `Valid` says the line holds, after whatever was
   * printed before the bus was first used, exactly the rendering of those writes.
   */
  class I2cBus {
    const serial: SerialLine
    ghost var before: string
    ghost var sent: seq<Frame>

    ghost predicate Valid()
      reads this, serial
    {
      serial.out == before + Render(sent)
    }

    constructor (line: SerialLine)
      ensures serial == line && sent == [] && before == line.out && Valid()
    {
      serial := line;
      before := line.out;
      sent := [];
    }

    /** One `i2c_write_byte` call through this bus. */
    method Write(addr: bv8, val: bv8)
      requires Valid()
      modifies this, serial
      ensures Valid() && before == old(before)
      ensures sent == old(sent) + [Frame(addr, val)]
    {
      var line := serial;
      ghost var rendered := Render(sent);
      ghost var next := sent + [Frame(addr, val)];
      WriteByte(line, addr, val);
      RenderSnoc(sent, Frame(addr, val));
      AppendAssoc(before, rendered, Line(addr, val));
      assert line.out == before + Render(next);
      sent := next;
    }
  }
}
