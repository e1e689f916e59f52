/**
 * The 80 x 25 text-mode buffer: 2000 16-bit cells, low byte the character, high byte
 * the attribute (foreground colour in bits 8-11, background in bits 12-15).
 *
 * A C `char` is the raw byte `bv8`; on this target it is signed, so the cast
 * `(uint16_t)c` copies bit 7 into the whole high byte. Coordinates are C `int`s,
 * modelled as unbounded integers.
 */
module Vga {
  import opened CStr

  const COLS: int := 80
  const ROWS: int := 25
  const CELLS: int := COLS * ROWS

  /** `(uint16_t)c` for a signed `char`: sign-extended to 16 bits. */
  function CharBits(c: bv8): (b: bv16)
    ensures b & 0xFF == c as bv16
    ensures b >> 8 == if c < 0x80 then 0 else 0xFF
  {
    if c < 0x80 then c as bv16 else (c as bv16) | 0xFF00
  }

  /** `(uint16_t)((fg | (bg << 4)) << 8)`: the attribute, shifted into the high byte. */
  function Attribute(fg: bv8, bg: bv8): (b: bv16)
    ensures b & 0xFF == 0
    ensures b >> 8 == (fg | (bg << 4)) as bv16
  {
    ((fg as bv16) | ((bg as bv16) << 4)) << 8
  }

  /** The cell `k_putc` stores. */
  function Cell(c: bv8, fg: bv8, bg: bv8): bv16 {
    CharBits(c) | Attribute(fg, bg)
  }

  /** The cell `k_clear` stores: a space with background `bg` (16-bit truncation included). */
  function BlankCell(bg: bv8): bv16 {
    0x20 | (((bg as bv16) << 4) << 8)
  }

  /**
   * A stored cell holds `c` in its low byte. For `c` below 0x80 its high byte is
   * `fg | bg << 4` taken modulo 256; for any other `c` the sign extension sets the
   * whole high byte.
   */
  lemma CellBytes(c: bv8, fg: bv8, bg: bv8)
    ensures Cell(c, fg, bg) & 0xFF == c as bv16
    ensures c < 0x80 ==> Cell(c, fg, bg) >> 8 == (fg | (bg << 4)) as bv16
    ensures c >= 0x80 ==> Cell(c, fg, bg) >> 8 == 0xFF
  {
  }

  /** A blank cell is a space, foreground 0, background the low nibble of `bg`. */
  lemma BlankCellBytes(bg: bv8)
    ensures BlankCell(bg) & 0xFF == 0x20
    ensures BlankCell(bg) >> 8 == (bg << 4) as bv16
    ensures BlankCell(bg) == Cell(0x20, 0, bg)
  {
  }

  /** The bounds check of `k_putc`. */
  predicate InBounds(x: int, y: int) {
    0 <= x < COLS && 0 <= y < ROWS
  }

  /** The buffer index of an on-screen position, row-major. */
  function CellIndex(x: int, y: int): (k: int)
    requires InBounds(x, y)
    ensures 0 <= k < CELLS
  {
    y * COLS + x
  }

  /** The row and column of an on-screen position can be read back from its index. */
  lemma CellIndexCoords(x: int, y: int)
    requires InBounds(x, y)
    ensures CellIndex(x, y) / COLS == y && CellIndex(x, y) % COLS == x
  {
  }

  /** Distinct positions are distinct cells. */
  lemma CellIndexInjective(x: int, y: int, x': int, y': int)
    requires InBounds(x, y) && InBounds(x', y')
    ensures CellIndex(x, y) == CellIndex(x', y') <==> x == x' && y == y'
  {
    var k, k' := CellIndex(x, y), CellIndex(x', y');
    CellIndexCoords(x, y);
    CellIndexCoords(x', y');
    if k == k' {
      assert y == k / COLS == y';
      assert x == k % COLS == x';
    }
  }

  /** The buffer after `k_putc`: one cell replaced when the position is on screen. */
  function PutcCells(cells: seq<bv16>, x: int, y: int, c: bv8, fg: bv8, bg: bv8): (r: seq<bv16>)
    requires |cells| == CELLS
    ensures |r| == CELLS
  {
    if InBounds(x, y) then cells[CellIndex(x, y) := Cell(c, fg, bg)] else cells
  }

  /**
   * `k_putc` off screen changes nothing; on screen it changes exactly the cell at
   * `y * COLS + x`, to the character and attribute given.
   */
  lemma PutcEffect(cells: seq<bv16>, x: int, y: int, c: bv8, fg: bv8, bg: bv8)
    requires |cells| == CELLS
    ensures !InBounds(x, y) ==> PutcCells(cells, x, y, c, fg, bg) == cells
    ensures InBounds(x, y) ==> PutcCells(cells, x, y, c, fg, bg)[y * COLS + x] == Cell(c, fg, bg)
    ensures forall k | 0 <= k < CELLS && k != y * COLS + x :: PutcCells(cells, x, y, c, fg, bg)[k] == cells[k]
  {
  }

  /** The buffer after `k_print_at` of the characters `t`, from column `x` of row `y`. */
  function PrintCells(cells: seq<bv16>, x: int, y: int, t: seq<bv8>, fg: bv8, bg: bv8): (r: seq<bv16>)
    requires |cells| == CELLS
    ensures |r| == CELLS
  {
    if t == [] then cells
    else PutcCells(PrintCells(cells, x, y, t[..|t| - 1], fg, bg), x + |t| - 1, y, t[|t| - 1], fg, bg)
  }

  /** Whether cell `k` lies on row `y` between columns `x` and `x + n - 1`. */
  predicate InSpan(k: int, x: int, y: int, n: int) {
    k / COLS == y && x <= k % COLS < x + n
  }

  /**
   * What `k_print_at` writes: character i lands at (x + i, y) whenever that position is on
   * screen, and every cell outside row `y`, columns x .. x + |t| - 1, keeps its value. So
   * text running past column 79 is clipped, not wrapped onto the next row.
   */
  lemma {:induction false} PrintCellsEffect(cells: seq<bv16>, x: int, y: int, t: seq<bv8>, fg: bv8, bg: bv8)
    requires |cells| == CELLS
    ensures forall i | 0 <= i < |t| && InBounds(x + i, y) ::
      PrintCells(cells, x, y, t, fg, bg)[CellIndex(x + i, y)] == Cell(t[i], fg, bg)
    ensures forall k | 0 <= k < CELLS && !InSpan(k, x, y, |t|) :: PrintCells(cells, x, y, t, fg, bg)[k] == cells[k]
  {
    if t != [] {
      var n := |t| - 1;
      var init := t[..n];
      var prev := PrintCells(cells, x, y, init, fg, bg);
      var r := PrintCells(cells, x, y, t, fg, bg);
      PrintCellsEffect(cells, x, y, init, fg, bg);
      PutcEffect(prev, x + n, y, t[n], fg, bg);
      forall i | 0 <= i < |t| && InBounds(x + i, y)
        ensures r[CellIndex(x + i, y)] == Cell(t[i], fg, bg)
      {
        if i < n && InBounds(x + n, y) {
          CellIndexInjective(x + i, y, x + n, y);
          assert init[i] == t[i];
        }
      }
      forall k | 0 <= k < CELLS && !InSpan(k, x, y, |t|) ensures r[k] == cells[k] {
        assert !InSpan(k, x, y, n);
        if InBounds(x + n, y) {
          CellIndexCoords(x + n, y);
        }
      }
    }
  }

  /** `k_clear`: every cell becomes a blank with background `bg`. */
  method Clear(mem: array<bv16>, bg: bv8)
    requires mem.Length == CELLS
    modifies mem
    ensures forall i | 0 <= i < CELLS :: mem[i] == BlankCell(bg)
  {
    for i := 0 to CELLS
      invariant forall j | 0 <= j < i :: mem[j] == BlankCell(bg)
    {
      mem[i] := 0x20 | (((bg as bv16) << 4) << 8);
    }
  }

  /** `k_putc`: the bounds-checked store of one cell. */
  method Putc(mem: array<bv16>, x: int, y: int, c: bv8, fg: bv8, bg: bv8)
    requires mem.Length == CELLS
    modifies mem
    ensures mem[..] == PutcCells(old(mem[..]), x, y, c, fg, bg)
  {
    if x >= 0 && x < COLS && y >= 0 && y < ROWS {
      mem[y * COLS + x] := Cell(c, fg, bg);
      assert mem[..] == old(mem[..])[CellIndex(x, y) := Cell(c, fg, bg)];
    }
  }

  /** `k_print_at`: one `k_putc` per character before the NUL, at columns x, x + 1, ... */
  method PrintAt(mem: array<bv16>, x: int, y: int, s: seq<bv8>, fg: bv8, bg: bv8)
    requires mem.Length == CELLS
    modifies mem
    ensures mem[..] == PrintCells(old(mem[..]), x, y, UntilNul(s, 0), fg, bg)
  {
    var i := 0;
    while i < |s| && s[i] != 0
      invariant 0 <= i <= |s|
      invariant forall j | 0 <= j < i :: s[j] != 0
      invariant mem[..] == PrintCells(old(mem[..]), x, y, s[..i], fg, bg)
    {
      Putc(mem, x + i, y, s[i], fg, bg);
      assert s[..i + 1][..i] == s[..i];
      i := i + 1;
    }
    UntilNulAt(s, 0, i);
  }
}
