# QuoreMind kernel core in Dafny

A model of the deterministic logic of the QuoreMind freestanding kernel, with proofs of
what that logic guarantees. It covers five parts, one Dafny module each (plus two small
shared modules):

- `Lcd` (`i2c_lcd.dfy`): the HD44780 character-LCD driver behind a PCF8574-style I2C
  backpack. `LcdI2c` is a class with the seven fields of the C struct. Every driver
  operation is a method, and its contract gives the exact sequence of bus frames it
  appends, written as a function (`SendFrames`, `PrintFrames`, `InitFrames`, ...). The
  lemmas show that:
  - the two nibbles of `lcd_send` reassemble to the byte;
  - EN is raised only on the strobe frames;
  - RS carries the mode and the backlight bit is OR'd into every frame;
  - `lcd_init` sends 43 frames: the backlight-only byte 0x08, then the datasheet
    wake-up nibbles 0x3, 0x3, 0x3, 0x2 (three frames each), then five commands (six
    frames each).
- `I2c` (`i2c.dfy`): `i2c_write_byte`, the simulated bus that prints "[I2C] AA -> VV\n"
  on the serial line.
  - `I2cBus` pairs the serial line with the trace of frames written so far. Its `Valid`
    invariant says the serial text is what was there before, followed by the rendering
    of the trace.
  - `ParseRender` proves the trace can be read back exactly from the text.
- `Vga` (`vga_driver.dfy`): `k_clear`, `k_putc` and `k_print_at` over the 2000-cell
  text buffer, modelled as an `array<bv16>`. The lemmas say which cells change, which
  keep their value, and how text past column 79 is clipped.
- `Launder` (`hal_golden_launder.dfy`): the GoldenLaunder pulse controller. It has a
  value-level step function with the invariants every reachable state keeps, and a
  class whose methods update the fields in place.
- `QCore` (`qcore_metriplectic.dfy`): the math stubs as exact real polynomials, and
  `init_system` / `solve_step` over the ten-field `SystemState`. `SolveStep` is
  decomposed into the driver's assignment groups, and guard-structure lemmas are proved
  about the value-level `Step`.
- `CStr` (`cstring.dfy`) reads a C string up to its NUL. `Serial` (`serial.dfy`) is the
  serial line reduced to the text it has sent (`serial_putc`, `serial_print`).

Bytes are `bv8` and VGA cells `bv16`, so the C code's 8- and 16-bit truncations are
modelled exactly. C `float` is modelled as `real`. The 64-bit step counter of the
controller wraps explicitly modulo 2^64.

In `kernel/qcore_metriplectic.c`:

- `solve_step` relaxes stability with factor 0.08 plus the vacuum term `golden_operator(0.1 t) / 2`;
- the golden filter is reset to PHI only when it exceeds 10;
- the density update is `node_density += (pump - decoherence * node_density) * dt`, with
  `decoherence = (105 - stability) * 0.005` read from the relaxed stability.

The contracts of `QCore.SystemState.InitSystem` and `QCore.SystemState.SolveStep` show
that from `init_system` the reset of the golden filter is never reached: the relaxation alone keeps the filter in [PHI, 10].

## Model

| member | source | states |
|---|---|---|
| CStr.UntilNul | kernel/kernel_main.c:21-23 | the characters read before the first NUL: a prefix of the buffer without NUL, ended by a NUL or by the end |
| CStr.UntilNulAt | kernel/kernel_main.c:22 | a scan that stopped at a NUL or the end, with no NUL before, read exactly `UntilNul` |
| Serial.SerialLine.Putc | kernel/kernel_main.c:17-20 | `serial_putc` appends exactly its character to the line |
| Serial.SerialLine.Print | kernel/kernel_main.c:21-23 | `serial_print` appends exactly the characters before the NUL, one by one |
| I2c.HexDigit | kernel/i2c.c:10 | a nibble prints as an entry of the upper-case table "0123456789ABCDEF" |
| I2c.HexValue | kernel/i2c.c:10 | parsing a character succeeds exactly on the table's characters, giving a nibble |
| I2c.HexDigitRoundTrip | kernel/i2c.c:10-14 | the table entry of nibble n parses back to n |
| I2c.ParseByte | kernel/i2c.c:13-14 | two characters parse as a byte exactly when both are table digits |
| I2c.HexByteRoundTrip | kernel/i2c.c:13-17 | the two digits printed for a byte, high nibble first, read back as that byte |
| I2c.Line | kernel/i2c.c:12-18 | the text of one write is 15 characters long |
| I2c.LineText | kernel/i2c.c:12-18 | a line is "[I2C] " at 0-5, " -> " at 8-11 and a newline at 14 |
| I2c.LineFields | kernel/i2c.c:12-18 | the digits at 6-7 and 12-13 are table digits and read back as the address and the value |
| I2c.LineInjective | kernel/i2c.c:12-18 | two writes print the same line if and only if they have the same address and value |
| I2c.ParseLine | kernel/i2c.c:12-18 | a line that parses is 15 characters long |
| I2c.ParseLineOfLine | kernel/i2c.c:12-18 | parsing a printed line gives back its write |
| I2c.Render | kernel/i2c.c:6-19 | the text of n writes is 15 n characters, character k taken from line k / 15 |
| I2c.RenderOne | kernel/i2c.c:6-19 | the text of a single write is its line |
| I2c.RenderPrefix | kernel/i2c.c:6-19 | the text of a + b begins with the text of a |
| I2c.RenderSuffix | kernel/i2c.c:6-19 | after the text of a, the text of a + b continues with the text of b |
| I2c.RenderAppend | kernel/i2c.c:6-19 | the text of two runs of writes is the two texts concatenated |
| I2c.RenderSnoc | kernel/i2c.c:6-19 | one more write appends exactly its line to the text |
| I2c.ParseRender | kernel/i2c.c:6-19 | reading the text back line by line recovers the whole write sequence exactly |
| I2c.PutHexByte | kernel/i2c.c:13-14 | the two `serial_putc` calls append the high-nibble digit, then the low-nibble digit |
| I2c.LineSpelledOut | kernel/i2c.c:12-18 | the line is the prefix, two address digits, the arrow, two value digits and "\n", in that order |
| I2c.WriteByte | kernel/i2c.c:6-19 | `i2c_write_byte` appends exactly the line of (addr, val) and leaves earlier output unchanged |
| I2c.I2cBus.constructor | kernel/i2c.c:6-19 | a fresh bus has an empty trace over the line as it is |
| I2c.I2cBus.Write | kernel/i2c.c:6-19 | a write keeps the invariant that the line holds the earlier text followed by the rendering of the trace, and appends one frame to the trace |
| Lcd.Expander | kernel/i2c_lcd.c:108-110 | the frame of `lcd_expander_write`: to the display's address, with the backlight bit OR'd into the data |
| Lcd.ExpanderBits | kernel/i2c_lcd.c:108-110 | the expander byte has every backlight bit set and every other bit from the data |
| Lcd.PulseFrames | kernel/i2c_lcd.c:112-117 | the enable pulse is two frames |
| Lcd.PulseBits | kernel/i2c_lcd.c:112-117 | EN is raised in the first frame of the pulse and, for a stored backlight value, cleared in the second; both go to addr and agree on every other bit |
| Lcd.NibbleFrames | kernel/i2c_lcd.c:103-106 | a nibble write is three frames |
| Lcd.SendFrames | kernel/i2c_lcd.c:96-101 | a send is six frames |
| Lcd.CommandFrames | kernel/i2c_lcd.c:92-94 | a command is six frames |
| Lcd.NibbleShape | kernel/i2c_lcd.c:103-117 | a nibble write is three frames: v \| bl, then v \| bl \| EN, then v \| bl again (when v \| bl has EN low) |
| Lcd.SendBits | kernel/i2c_lcd.c:96-101 | the high and low nibble bytes of a send carry the byte, with EN low, RS equal to the mode and the backlight bit equal to bl |
| Lcd.SendShape | kernel/i2c_lcd.c:96-117 | `lcd_send` is six frames: high nibble with mode, its strobe, the nibble again; then the same for the low nibble |
| Lcd.SendRoundTrip | kernel/i2c_lcd.c:96-117 | six frames to addr; (b0 & 0xF0) \| (b3 >> 4) is the byte; EN is high in frames 1 and 4 only; RS equals the mode and the backlight bit equals bl in all six |
| Lcd.PrintFrames | kernel/i2c_lcd.c:82-90 | printing n characters sends 6 n frames |
| Lcd.PrintFramesAt | kernel/i2c_lcd.c:82-90 | frames 6k to 6k+5 of a print are the data-mode send of character k |
| Lcd.FunctionFlags | kernel/i2c_lcd.c:20-23 | the function-set flags are 0x08 (two lines) if and only if rows > 1, and 0x00 if and only if rows <= 1 |
| Lcd.WakeFrames | kernel/i2c_lcd.c:28-42 | the wake-up phase is 13 frames |
| Lcd.ConfigFrames | kernel/i2c_lcd.c:44-58 | the configuration phase is 30 frames |
| Lcd.InitFrames | kernel/i2c_lcd.c:28-58 | `lcd_init` sends 43 frames |
| Lcd.WakeFramesValues | kernel/i2c_lcd.c:28-42 | the wake-up phase is the byte 0x08, then 0x38 0x3C 0x38 three times, then 0x28 0x2C 0x28, all to addr |
| Lcd.ConfigCommandAt | kernel/i2c_lcd.c:44-58 | the k-th group of six configuration frames latches, in order, 0x28 (two lines) or 0x20 (one line), 0x0C, 0x01, 0x06, 0x02; each group goes to addr with RS low, the backlight on and EN high in frames 1 and 4 only |
| Lcd.ConfigFramesBits | kernel/i2c_lcd.c:44-58 | all 30 configuration frames go to addr with RS low and the backlight bit set; EN is high exactly in the strobe frames |
| Lcd.InitFramesLength | kernel/i2c_lcd.c:14-59 | `lcd_init` sends 43 frames, the 13 wake-up frames followed by the 30 command frames |
| Lcd.ClampRow | kernel/i2c_lcd.c:73 | a row past the last becomes rows - 1 in 8-bit arithmetic; other rows are kept |
| Lcd.CursorCommand | kernel/i2c_lcd.c:71-75 | the cursor command has the set-DDRAM bit and carries col plus the row's offset in its low seven bits |
| Lcd.CursorRowInTable | kernel/i2c_lcd.c:72-73 | with 1 to 4 rows the clamped row always indexes the four-entry offset table |
| Lcd.LcdI2c.BacklightStored | kernel/i2c_lcd.c:18 | the backlight field holds 0x08 or 0x00 |
| Lcd.LcdI2c.ExpanderWrite | kernel/i2c_lcd.c:108-110 | one frame to the display's address, with the current backlight bit OR'd in |
| Lcd.LcdI2c.PulseEnable | kernel/i2c_lcd.c:112-117 | the byte with EN raised, then with EN cleared |
| Lcd.LcdI2c.Write4Bits | kernel/i2c_lcd.c:103-106 | the nibble byte, then its enable pulse |
| Lcd.LcdI2c.Send | kernel/i2c_lcd.c:96-101 | appends the high nibble's frames, then the low nibble's, each tagged with the mode |
| Lcd.LcdI2c.Command | kernel/i2c_lcd.c:92-94 | a send in command mode (RS low) |
| Lcd.LcdI2c.Putc | kernel/i2c_lcd.c:88-90 | a send in data mode (RS high) |
| Lcd.LcdI2c.Print | kernel/i2c_lcd.c:82-86 | appends one data-mode send per character before the NUL, in order |
| Lcd.LcdI2c.PrintNext | kernel/i2c_lcd.c:83-85 | one loop iteration extends the frames of the printed prefix by one character |
| Lcd.LcdI2c.Clear | kernel/i2c_lcd.c:61-64 | the clear-display command 0x01 |
| Lcd.LcdI2c.Home | kernel/i2c_lcd.c:66-69 | the return-home command 0x02 |
| Lcd.LcdI2c.SetCursor | kernel/i2c_lcd.c:71-75 | the set-DDRAM-address command for col on the clamped row |
| Lcd.LcdI2c.Backlight | kernel/i2c_lcd.c:77-80 | the backlight field becomes 0x08 or 0x00, the other fields stay, and exactly one frame is sent, equal to the new backlight value |
| Lcd.LcdI2c.Init | kernel/i2c_lcd.c:14-59 | the fields become addr, cols, rows, backlight 0x08, the function flags, display on, entry left; the bus receives the 43 frames of `InitFrames` |
| Lcd.LcdI2c.Startup | kernel/i2c_lcd.c:25-58 | the wake-up frames followed by the configuration frames; the geometry, backlight and function fields stay |
| Lcd.LcdI2c.WakeUp | kernel/i2c_lcd.c:28-42 | the backlight byte and the four wake-up nibbles |
| Lcd.LcdI2c.Configure | kernel/i2c_lcd.c:44-58 | the five commands, with the display-control and entry-mode fields set before the commands that send them |
| Vga.CharBits | kernel/vga_driver.c:11 | `(uint16_t)c` of a signed char: low byte c, high byte 0 for c < 0x80 and 0xFF otherwise |
| Vga.Attribute | kernel/vga_driver.c:11 | the attribute has low byte 0 and high byte fg \| bg << 4 (mod 256) |
| Vga.Cell | kernel/vga_driver.c:11 | the cell `k_putc` stores: the widened character OR the attribute |
| Vga.BlankCell | kernel/vga_driver.c:5 | the cell `k_clear` stores: a space OR the background shifted into the high byte, truncated to 16 bits |
| Vga.CellBytes | kernel/vga_driver.c:11 | a stored cell has c in its low byte; its high byte is fg \| bg << 4 (mod 256) for c < 0x80 and 0xFF for a negative char |
| Vga.BlankCellBytes | kernel/vga_driver.c:5 | a cleared cell is a space with foreground 0 and background the low nibble of bg |
| Vga.CellIndex | kernel/vga_driver.c:10-11 | an on-screen position indexes inside the 2000 cells |
| Vga.CellIndexCoords | kernel/vga_driver.c:11 | the row and the column can be read back from a cell index |
| Vga.CellIndexInjective | kernel/vga_driver.c:10-11 | two positions share a cell if and only if they are the same position |
| Vga.PutcCells | kernel/vga_driver.c:9-13 | a put keeps the buffer size |
| Vga.PutcEffect | kernel/vga_driver.c:9-13 | off screen the buffer is unchanged; on screen only cell y * 80 + x changes, to the stored cell |
| Vga.PrintCells | kernel/vga_driver.c:15-21 | a print keeps the buffer size |
| Vga.PrintCellsEffect | kernel/vga_driver.c:15-21 | character i lands at (x + i, y) when on screen; every cell outside row y, columns x to x + n - 1, keeps its value (no wrap to the next row) |
| Vga.Clear | kernel/vga_driver.c:3-7 | every one of the 2000 cells becomes the blank cell of bg |
| Vga.Putc | kernel/vga_driver.c:9-13 | the buffer becomes the bounds-checked single-cell update |
| Vga.PrintAt | kernel/vga_driver.c:15-21 | the buffer becomes one put per character before the NUL, at columns x, x + 1, ... |
| QCore.KSin | kernel/qcore_metriplectic.c:20-23 | `k_sin`: the degree-7 Taylor polynomial, nested as the source evaluates it |
| QCore.KCos | kernel/qcore_metriplectic.c:25-28 | `k_cos`: the degree-8 Taylor polynomial, nested as the source evaluates it |
| QCore.KSinOdd | kernel/qcore_metriplectic.c:20-23 | `k_sin` is odd and is 0 at 0 |
| QCore.KCosEven | kernel/qcore_metriplectic.c:25-28 | `k_cos` is even and is 1 at 0 |
| QCore.KLog | kernel/qcore_metriplectic.c:30-34 | -10 for x <= 0; never above 1/2 |
| QCore.KLogAtOne | kernel/qcore_metriplectic.c:33 | `k_log(1) == 0` |
| QCore.GoldenOperator | kernel/qcore_metriplectic.c:36-38 | `golden_operator`: the product of `k_cos` at PI n and at PI PHI n |
| QCore.GoldenOperatorAtZero | kernel/qcore_metriplectic.c:36-38 | the golden operator is 1 at 0 |
| QCore.InitState | kernel/qcore_metriplectic.c:6-17 | the ten field values `init_system` assigns |
| QCore.Advance | kernel/qcore_metriplectic.c:41 | time advances by dt |
| QCore.KinkAmplitude | kernel/qcore_metriplectic.c:43-44 | the kink amplitude 50 k_sin(time / 2) (10 - shear) / 10 |
| QCore.KinkAtFullShear | kernel/qcore_metriplectic.c:43-44 | at shear flow 10 the kink amplitude is 0 for every time |
| QCore.Kink | kernel/qcore_metriplectic.c:43-44 | only the kink amplitude changes, to the amplitude of the state's time and shear flow |
| QCore.Relax | kernel/qcore_metriplectic.c:46-50 | stability moves by (0.08 (target - stability) + vacuum) 10 dt, with target 100 for shear >= 9.9 and 8 shear otherwise |
| QCore.Pump | kernel/qcore_metriplectic.c:53 | the pump phase advances by dt PI PHI |
| QCore.Lindblad | kernel/qcore_metriplectic.c:56-64 | the density moves by pump gain minus decoherence loss, reading the relaxed stability |
| QCore.Throughput | kernel/qcore_metriplectic.c:67-71 | the bit stream grows by density times dt above stability 90 and becomes 0.95 times its value otherwise |
| QCore.Bits | kernel/qcore_metriplectic.c:67-71 | only the bit stream changes, by the throughput rule on the state's own stability and density |
| QCore.Filter | kernel/qcore_metriplectic.c:76-77 | the golden filter takes its relaxed value, with the reset |
| QCore.Flux | kernel/qcore_metriplectic.c:80-81 | the flux is recomputed from the updated density and filter |
| QCore.Clamp | kernel/qcore_metriplectic.c:83-84 | stability is clamped into [0, 100] |
| QCore.Unclamped | kernel/qcore_metriplectic.c:41-81 | the state `solve_step` has built before its final clamp: the phases above in the driver's order |
| QCore.Step | kernel/qcore_metriplectic.c:40-85 | `solve_step` on values: the unclamped state, then the clamp |
| QCore.ClampStability | kernel/qcore_metriplectic.c:83-84 | the clamp lands in [0, 100], keeps values in range, and sends values below to 0 and above to 100 |
| QCore.FilterUpdate | kernel/qcore_metriplectic.c:76-77 | the new filter is at most 10: the relaxation when that is at most 10, else exactly PHI |
| QCore.CausalFlux | kernel/qcore_metriplectic.c:80-81 | the flux is 0 when the density is at most 0.5, else 2.5 times the filter |
| QCore.StepFrame | kernel/qcore_metriplectic.c:41-53 | a step advances time by dt and the pump phase by dt PI PHI, and keeps shear flow and phi_res |
| QCore.StepStability | kernel/qcore_metriplectic.c:50-84 | after a step stability is in [0, 100], and equals the relaxed value whenever that was in range |
| QCore.StepFilterFlux | kernel/qcore_metriplectic.c:76-81 | after a step the filter is at most 10, and the flux is 0 or 2.5 times the new filter according to the new density |
| QCore.StepBitStream | kernel/qcore_metriplectic.c:50-71 | a step updates the bit stream from the unclamped stability and the density this step has already updated |
| QCore.StepKink | kernel/qcore_metriplectic.c:40-44 | a step advances time by dt, keeps the shear flow and sets the kink from the advanced time |
| QCore.FilterNoReset | kernel/qcore_metriplectic.c:76-77 | on [PHI, 10] the relaxation stays in [PHI, 10] and never takes the reset branch |
| QCore.StepReachable | kernel/qcore_metriplectic.c:40-85 | a step keeps the reachable-state invariant (stability and filter ranges, resonance at PHI, flux range) |
| QCore.SystemState.InitSystem | kernel/qcore_metriplectic.c:6-17 | the ten fields get the initial values of `init_system`, a state satisfying the reachable-state invariant |
| QCore.SystemState.SolveStep | kernel/qcore_metriplectic.c:40-85 | the fields become `Step` of the old state; from a reachable state the new state is reachable and the filter takes the relaxation branch, never the reset |
| QCore.SystemState.AdvanceTime | kernel/qcore_metriplectic.c:41 | time advances by dt, nothing else changes |
| QCore.SystemState.UpdateKink | kernel/qcore_metriplectic.c:43-44 | the kink amplitude is recomputed from the advanced time |
| QCore.SystemState.RelaxStability | kernel/qcore_metriplectic.c:46-50 | stability moves towards its target, plus the vacuum term |
| QCore.SystemState.AdvancePump | kernel/qcore_metriplectic.c:53 | the pump phase advances by dt PI PHI |
| QCore.SystemState.UpdateDensity | kernel/qcore_metriplectic.c:56-64 | the density moves by pump gain minus decoherence loss |
| QCore.SystemState.UpdateBitStream | kernel/qcore_metriplectic.c:67-71 | the bit stream grows or decays according to the stability |
| QCore.SystemState.UpdateFilter | kernel/qcore_metriplectic.c:76-77 | the filter relaxes, with its reset |
| QCore.SystemState.UpdateFlux | kernel/qcore_metriplectic.c:80-81 | the flux is recomputed from the density and the filter |
| QCore.SystemState.ClampFinal | kernel/qcore_metriplectic.c:83-84 | stability is clamped into [0, 100] |
| Launder.InitController | kernel/hal_golden_launder.c:4-12 | the seven field values `hal_launder_init` assigns |
| Launder.RawDuty | kernel/hal_golden_launder.c:15-18 | the duty cycle plus the gain times the error between target and measured RMS |
| Launder.CorrectedDuty | kernel/hal_golden_launder.c:14-25 | the corrected duty is in [0.01, 0.50]; it is the raw correction when that is in range, else the bound it crossed |
| Launder.Correct | kernel/hal_golden_launder.c:14-25 | `apply_voltage_correction` changes only the duty cycle, into [0.01, 0.50] |
| Launder.Pulse | kernel/hal_golden_launder.c:32-36 | the pulse voltage is 0 V or 5 V |
| Launder.RmsUpdate | kernel/hal_golden_launder.c:39-40 | for a pulse voltage the accumulator stays within [0, 25]; a 0 V pulse scales it by 0.9995, so a positive accumulator strictly decreases |
| Launder.Emit | kernel/hal_golden_launder.c:31-41 | only the voltage, the accumulator and the RMS change; the voltage is 0 V or 5 V, the accumulator takes one moving-average step and the RMS is its square root |
| Launder.StepController | kernel/hal_golden_launder.c:27-44 | `hal_launder_step` on values: count the step modulo 2^64, correct the duty, emit the pulse |
| Launder.InitValid | kernel/hal_golden_launder.c:4-12 | the initial controller is valid, with target PHI, RMS 0 and duty cycle in [0.1047, 0.1048] |
| Launder.StepValid | kernel/hal_golden_launder.c:27-44 | a step keeps validity, counts itself modulo 2^64, and stores the square root of the new accumulator as the RMS |
| Launder.GoldenLaunder.Init | kernel/hal_golden_launder.c:4-12 | the fields get the values of `hal_launder_init`, which satisfy the controller invariant with counter 0 |
| Launder.GoldenLaunder.ApplyVoltageCorrection | kernel/hal_golden_launder.c:14-25 | only the duty cycle changes, to the corrected duty, which is also returned |
| Launder.GoldenLaunder.Step | kernel/hal_golden_launder.c:27-44 | the fields become one controller step, the returned voltage is `last_v`, and a valid controller stays valid with its counter incremented modulo 2^64 |
| Launder.GoldenLaunder.EmitPulse | kernel/hal_golden_launder.c:32-41 | the pulse, the accumulator and the RMS are updated from the corrected duty |

## Left out

- Busy-wait delays (`k_delay_ms`, `k_delay_us`, kernel/i2c_lcd.c:6-12) and the busy wait of `serial_putc` on the line-status port are not modelled, because they have no effect on the data sent.
- Port I/O (`inb`/`outb`) and the memory-mapped address 0xB8000 are not modelled: the serial line is the text it has sent, and the VGA buffer is an array given to the methods.
- `k_sqrt` is called at kernel/hal_golden_launder.c:41, but neither that file nor the headers it includes (`hal_golden_launder.h`, `qcore_metriplectic.h`) declare or define it. It is a function parameter `sqrt` of the controller step, and nothing is assumed about it.
- `compute_lagrangian` and `k_pow` are declared in `kernel/qcore_metriplectic.h` (lines 31 and 38) and not defined in any of the modelled C files. They are not part of this model.
- `PHI` and `PI` are defined only in `kernel/qcore_metriplectic.c`. The controller uses the same constants from `QCore`.
- C `float` arithmetic is modelled as exact `real` arithmetic, so rounding, overflow and NaN are not captured. `k_sin` and `k_cos` also have no range reduction, so for large arguments the polynomials and the float program diverge anyway. Convergence claims, such as the RMS settling near PHI, are not modelled.
- A buffer with no NUL makes `serial_print`, `lcd_print` and `k_print_at` read past its end, which is undefined behaviour in C. The model reads a sequence, and stops at its end.
- Vga.PrintAt: the C index `x + i` is an `int` and could overflow for x near INT_MAX. Coordinates are unbounded integers here.
- Lcd.LcdI2c.SetCursor: requires the clamped row to index the four-entry offset table. With rows == 0 (where rows - 1 wraps to 255) or with rows > 4 and row >= 4, the C code reads past the table, which is undefined behaviour with no modelled result. `Lcd.CursorRowInTable` shows that 1 <= rows <= 4 is enough.
- Lcd.LcdI2c.Startup, Lcd.LcdI2c.WakeUp, Lcd.LcdI2c.Configure and Lcd.LcdI2c.PrintNext are parts of `lcd_init` and `lcd_print` split out as methods. QCore.SystemState.SolveStep is split the same way into one method per assignment group. The order of the writes is the source's.
- I2c.I2cBus: the C driver calls the global `i2c_write_byte`; here the LCD methods take the bus as a parameter. The bus keeps the trace of frames as a ghost field, so the LCD contracts are stated on frames, and the serial text follows from the bus invariant and `I2c.ParseRender`.
- `tests/test_rms.c` reads a `launder` field that `SystemState` does not declare, so its assertions are checked through `Launder.InitValid` on the controller alone.
- The UI, the X11 simulator, the banner effect and the ALSA audio host are not part of this model.
- `tests/test_lasalle.c`, `tests/test_thermal.c`, `tests/test_toroidal.c` and `tests/test_protocol_alpha.c` assert on fields that `SystemState` does not declare (`lyapunov_v`, `temperature`, `sync_clock_c`, `thermal_eff` and others), so they are not modelled.
- Serial.SerialLine: the text of the serial line is a `seq<char>`, while `Lcd` and `Vga` model C `char` as `bv8`. The serial text only ever holds the ASCII that `i2c_write_byte` and the kernel strings print, so the two representations agree on it; bytes above 0x7F sent through `serial_putc` are not distinguished from Unicode characters.
