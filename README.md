# Aargh! — continuous PC-speaker tone, modelled in Dafny

`scream.c` is a Linux kernel module. Writing a decimal frequency to
`/proc/scream` makes the PC speaker sound a continuous tone. The module
programs channel 2 of the programmable interval timer (PIT) as a square-wave
generator and opens the speaker gate in the system-control port 0x61.
Unloading the module closes the gate again.

The model has six modules:

- `Wrappers` (wrappers.dfy): the Option type for results that may be absent.

- `Bytes` (bytes.dfy): the octet type used for port values and for text.
- `Pit` (pit.dfy): the PIT constants and `PIT_TICK_RATE / freq` with C's
  int-to-unsigned-long conversion and unsigned-int truncation. It also holds
  the low/high byte split of the divisor and the two read-modify-write
  operations on port 0x61 (`| 3` and `& 0xfc`).
- `ToneDriver` (tone_driver.dfy): the hardware is a class. It keeps an ordered
  log of every port write and the current contents of port 0x61.
  `do_start_scream` and `do_stop_scream` are methods on it. The speaker state
  (silent, or sounding with a given divisor) is a function of the log and
  port 0x61. The state machine's properties are lemmas about that function.
- `CText` (ctext.dfy): `strlen`, and a model of the kernel's
  `kstrtoint(s, 10, &res)`. A decimal round-trip lemma supports it.
- `Scream` (scream.dfy): the write handler `scream_start`, as the
  specification function `WriteResult` and as the method
  `ScreamModule.Write`. The method fills the 8-byte zeroed buffer in place
  with `CopyFromUser` and writes the new offset through a `FilePos` object
  (`*ppos`). The same module has `scream_init` and `scream_exit`.

Where a reader might expect otherwise, the model follows the code:

- A nonzero position and an oversized write both return `-EFAULT`, not two
  different errors (scream.c:64-65).
- The position check is `*ppos > 0`, so a negative position is accepted.
- Text that does not parse fails with `-EINVAL`. Only a value that parses but
  lies outside [20, 32767] becomes the default 1760 Hz. Negative values are
  included.
- The value returned and stored in `*ppos` is `strlen` of the buffer. That
  includes a trailing newline, and it stops at an embedded NUL, so it can be
  less than `count`.
- `PIT_TICK_RATE` is 1193182, an `unsigned long` (64 bits, as on x86-64).
  `do_start_scream` divides it by `freq` converted to `unsigned long`, so a
  negative `freq` would give divisor 0. The handler never passes one.

Inputs that come from outside the module are parameters:
- the user memory is the sequence of bytes readable at the buffer address;
- whether `proc_create` succeeds is a boolean;
- the initial contents of port 0x61 are a constructor argument.

## Model

| member | source | states |
|---|---|---|
| Pit.ToUnsignedLong | scream.c:32 | C's int-to-unsigned-long conversion: the value modulo 2^64, unchanged for nonnegative ints |
| Pit.Divisor | scream.c:32 | the divisor fits in unsigned int; for positive freq it is PIT_TICK_RATE / freq rounded down; for negative freq it is 0 |
| Pit.DivisorInRange | scream.c:32 | for every freq in [20, 32767] the divisor is PIT_TICK_RATE / freq and lies in [36, 59659], so it is nonzero and below 2^16 |
| Pit.Channel2SquareWaveFields | scream.c:36 | control word 0xb6 selects counter 2, low-then-high byte access, mode 3 (square wave), binary counting |
| Pit.LowByte | scream.c:37 | `count & 0xff` is count mod 256 |
| Pit.HighByte | scream.c:38 | `(count >> 8) & 0xff` is (count / 256) mod 256 |
| Pit.LowByteIsBitwiseAnd | scream.c:37 | LowByte agrees with the bitwise `count & 0xff` on every 16-bit count |
| Pit.HighByteIsShiftAnd | scream.c:38 | HighByte agrees with `(count >> 8) & 0xff` on every 16-bit count |
| Pit.ByteSplit | scream.c:37-38 | high * 256 + low is the count modulo 2^16, for every count |
| Pit.ByteRoundTrip | scream.c:37-38 | a divisor below 2^16 is reconstructed exactly from the two bytes written, hi * 256 + lo == count |
| Pit.SpeakerOn | scream.c:40 | the new port-0x61 value has bits 0 and 1 set and bits 2..7 unchanged |
| Pit.SpeakerOnIsBitwiseOr | scream.c:40 | SpeakerOn agrees with the bitwise OR with 3 on every byte |
| Pit.SpeakerOff | scream.c:51 | the new port-0x61 value has bits 0 and 1 clear and bits 2..7 unchanged |
| Pit.SpeakerOffIsBitwiseAnd | scream.c:51 | SpeakerOff agrees with the bitwise `v & 0xfc` on every byte |
| Pit.SpeakerOffIdempotent | scream.c:51 | stopping twice gives the same port-0x61 value as stopping once |
| Pit.SpeakerOnThenOff | scream.c:40-51 | start then stop leaves port 0x61 equal to its original value with bits 0 and 1 cleared, whatever the frequency |
| ToneDriver.LastWrite | scream.c:40-51 | the last value written to a port, found in the log; None means the port was never written |
| ToneDriver.ProgrammedCount | scream.c:36-38 | the divisor loaded by the latest complete 0xb6 / low / high sequence; always below 2^16 |
| ToneDriver.SpeakerOf | scream.c:36-51 | silent exactly when bits 0 and 1 of port 0x61 are clear; sounding exactly when both are set and channel 2 has been programmed, at the programmed divisor |
| ToneDriver.StartSequence | scream.c:36-40 | the start writes, in order: 0xb6 to 0x43, the low byte to 0x42, the high byte to 0x42 (together the divisor mod 2^16), then the gated value to 0x61 |
| ToneDriver.StopWrite | scream.c:51 | stop writes port 0x61 once, with bits 0 and 1 clear and bits 2..7 as read |
| ToneDriver.ProgrammedCountAfterStart | scream.c:36-40 | after the start sequence, channel 2 holds the divisor mod 2^16, whatever was written before |
| ToneDriver.ProgrammedCountAfterStop | scream.c:51 | a write to port 0x61 leaves the divisor held by channel 2 unchanged |
| ToneDriver.StartSounds | scream.c:29-43 | from any prior state, start with freq in [20, 32767] leaves the speaker sounding with divisor PIT_TICK_RATE / freq |
| ToneDriver.ReArm | scream.c:29-43 | start(f1) then start(f2) with no stop between leaves the speaker sounding at f2's divisor |
| ToneDriver.Hardware.Outb | scream.c:36-40 | a port write appends to the log; port 0x61 then holds the value written to it |
| ToneDriver.Hardware.InbSystemControl | scream.c:40 | reading port 0x61 returns its current contents, which are the last value written to it when it was written at all |
| ToneDriver.Hardware.StartScream | scream.c:29-43 | `do_start_scream`: appends exactly the four start writes, sets bits 0 and 1 of port 0x61, and leaves the speaker sounding at the divisor |
| ToneDriver.Hardware.StopScream | scream.c:45-54 | `do_stop_scream`: appends exactly one write to port 0x61, clears bits 0 and 1, and leaves the speaker silent |
| CText.CStrLen | scream.c:80 | `strlen`: every byte before the result is non-NUL and the byte at the result is NUL (or the end) |
| CText.CString | scream.c:71 | the text a NUL-terminated buffer denotes: the prefix of length strlen, with no NUL in it |
| CText.DigitRun | scream.c:71 | the length of the leading run of decimal digits: all bytes before it are digits and the next one is not |
| CText.ParseDigits | scream.c:71 | unsigned part of the parse; success needs a leading digit |
| CText.KStrToInt | scream.c:71 | `kstrtoint(buf, 10, &freq)` as modelled: a successful parse is nonempty text with an int-range value |
| CText.DecimalText | scream.c:71 | the decimal rendering of a number: nonempty digits, no NUL |
| CText.DecimalValueOfText | scream.c:71 | reading back the decimal rendering of n gives n |
| CText.ParseDecimal | scream.c:71 | the parser maps decimal text of n, with or without one trailing newline, back to n |
| CText.ParseNegative | scream.c:71 | a minus sign before decimal text of n parses to -n |
| CText.ParseNeedsDigit | scream.c:71-73 | text that starts with neither a sign nor a digit fails to parse |
| Scream.Clamp | scream.c:74-76 | the result is always in [20, 32767]; values in range pass through unchanged; every other value, negative ones included, becomes 1760 |
| Scream.FreqBuffer | scream.c:62-67 | the 8-byte buffer holds the count user bytes followed by NUL bytes |
| Scream.WrittenText | scream.c:62-71 | the parsed text is a prefix of the user bytes and no longer than count |
| Scream.WriteResult | scream.c:58-82 | -EFAULT exactly when the position is positive, count exceeds 7 or the user copy faults; on success the frequency is in [20, 32767] and 1 <= consumed <= count <= 7 |
| Scream.ReturnValue | scream.c:64-81 | -EFAULT, -EINVAL, or the nonnegative new position, one for each outcome |
| Scream.ParsedValueClamped | scream.c:71-81 | once the checks and the copy pass and the text parses to v, the write starts Clamp(v) and consumes the text's length |
| Scream.InvalidExactlyOnParseFailure | scream.c:71-73 | once the checks and the copy pass, the result is -EINVAL if and only if the text does not parse |
| Scream.StopsAtNul | scream.c:62-80 | a NUL among the user bytes ends the text: bytes after it are neither parsed nor counted |
| Scream.EchoedFrequency | scream.c:58-82 | writing "<f>\n" at position 0 starts Clamp(f) and consumes every byte written |
| Scream.ExampleInRange | scream.c:58-82 | "440" starts 440 Hz and returns 3 |
| Scream.ExampleNegativePosition | scream.c:64 | a negative position passes the position check |
| Scream.ExampleAboveRange | scream.c:74-78 | "99999" starts the default 1760 Hz |
| Scream.ExampleBelowRange | scream.c:74-78 | "5" starts the default 1760 Hz |
| Scream.ExampleNegative | scream.c:71-78 | "-5\n" parses to -5 and starts 1760 Hz, returning 3 |
| Scream.ExampleUnparseable | scream.c:71-73 | "abc" and the empty write return -EINVAL |
| Scream.CopyFromUser | scream.c:67 | copies the readable bytes, zero-fills the rest, and returns how many of the n bytes were not copied (0 exactly when all are readable) |
| Scream.ScreamModule.Write | scream.c:58-82 | returns ReturnValue(WriteResult); on success *ppos is the returned length and the hardware got exactly the start sequence for Clamp(v); on every error the hardware and *ppos are unchanged |
| Scream.ScreamModule.Init | scream.c:91-102 | registered exactly when proc_create succeeds; returns 0, or -ENOMEM on failure; no hardware touched |
| Scream.ScreamModule.Exit | scream.c:104-112 | whatever the prior state, the speaker is silent afterwards, port 0x61 has bits 0 and 1 cleared, and the entry is removed |

## Left out

- Locking: `raw_spin_lock_irqsave` on `i8253_lock` and the interrupt masking (scream.c:34,42,49,53) protect against concurrent callers. Start and stop are modelled as atomic sequential methods. Concurrent writers, and an unload racing a write, are not modelled.
- Port behaviour: `outb_p` and `outb` differ only in an I/O delay, so both are `Outb`. Port 0x61 is modelled as a latch that reads back what was last written. Its hardware status bits 4 and 5 are not modelled, and neither is the PIT's actual counting.
- `copy_from_user` (scream.c:67) is foreign. The model takes the user memory as the bytes readable at the address, and treats the copy as a fault exactly when `count` of them are not readable. Partial copies and page-fault timing are not modelled.
- `kstrtoint` (scream.c:71) is foreign and its body is not part of this model. `CText.KStrToInt` is an assumed parser: one optional sign, at least one decimal digit, at most one trailing newline, then the end of the C string, and a value within C's int range. All of the kernel routine's failures (-EINVAL, -ERANGE) become None, since the handler treats every nonzero return alike.
- Registration plumbing: `proc_create` (its success is a parameter of `Init`), `proc_remove`, `file_operations`, the 0200 mode, `printk`, and `MODULE_*` / `module_init` / `module_exit` (scream.c:25-27,84-115).
- ToneDriver.Hardware.StartScream: requires `freq != 0` and an int-range `freq`, because C leaves division by zero undefined; the handler only passes values in [20, 32767].
