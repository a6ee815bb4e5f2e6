/**
 * The control endpoint: the write handler of /proc/scream (`scream_start`)
 * and the module's load and unload hooks (`scream_init`, `scream_exit`).
 */
module Scream {
  import opened Wrappers
  import opened Bytes
  import opened Pit
  import opened CText
  import opened ToneDriver

  /** FREQ_BUFSIZE: the largest write accepted; the buffer holds one byte more for the NUL. */
  const FreqBufSize: nat := 7

  /** Error numbers (asm-generic/errno-base.h); the handler returns them negated. */
  const ENOMEM: int := 12
  const EFAULT: int := 14
  const EINVAL: int := 22

  const MinFreq: int := 20
  const MaxFreq: int := 32767
  const DefaultFreq: int := 1760

  /** The range check of the write handler: out-of-range values become the default tone. */
  function Clamp(freq: int): (f: int)
    ensures MinFreq <= f <= MaxFreq
    ensures MinFreq <= freq <= MaxFreq ==> f == freq
    ensures freq < MinFreq || MaxFreq < freq ==> f == DefaultFreq
  {
    if freq < MinFreq || freq > MaxFreq then DefaultFreq else freq
  }

  /** `freq_buf` after copying `count` user bytes into the zero-initialised buffer. */
  function FreqBuffer(user: seq<byte>, count: nat): (buf: seq<byte>)
    requires count <= FreqBufSize && count <= |user|
    ensures |buf| == FreqBufSize + 1
    ensures buf[..count] == user[..count]
    ensures forall i :: count <= i < |buf| ==> buf[i] == Nul
  {
    user[..count] + seq(FreqBufSize + 1 - count, _ => Nul)
  }

  /** What one write does: an error, or the tone it starts and the new file position. */
  datatype WriteOutcome =
    | Fault                                  // -EFAULT
    | Invalid                                // -EINVAL
    | Started(freq: int, consumed: nat)      // do_start_scream(freq); *ppos = consumed

  /**
   * The write handler as a function of the file position, the user memory
   * readable at the buffer address and the byte count. The copy faults
   * exactly when `count` bytes are not all readable.
   */
  function WriteResult(pos: int, user: seq<byte>, count: nat): (o: WriteOutcome)
    ensures o.Fault? <==> pos > 0 || count > FreqBufSize || count > |user|
    ensures o.Started? ==> MinFreq <= o.freq <= MaxFreq
    ensures o.Started? ==> 1 <= o.consumed <= count <= FreqBufSize
  {
    if pos > 0 || count > FreqBufSize then Fault
    else if count > |user| then Fault
    else
      var buf := FreqBuffer(user, count);
      var text := CString(buf);
      match KStrToInt(text)
      case None => Invalid
      case Some(v) => Started(Clamp(v), |text|)
  }

  /** The ssize_t the handler returns for an outcome. */
  function ReturnValue(o: WriteOutcome): (r: int)
    ensures o.Fault? <==> r == -EFAULT
    ensures o.Invalid? <==> r == -EINVAL
    ensures o.Started? <==> r >= 0
    ensures o.Started? ==> r == o.consumed
  {
    match o
    case Fault => -EFAULT
    case Invalid => -EINVAL
    case Started(_, n) => n
  }

  /** The text the handler parses, when the position and size checks and the copy pass. */
  function WrittenText(user: seq<byte>, count: nat): (t: seq<byte>)
    requires count <= FreqBufSize && count <= |user|
    ensures |t| <= count
    ensures t == user[..|t|]
  {
    assert FreqBuffer(user, count)[count] == Nul;
    CString(FreqBuffer(user, count))
  }

  /** A parsed value in range is started as it is; any other, negative ones included, as 1760 Hz. */
  lemma ParsedValueClamped(pos: int, user: seq<byte>, count: nat, v: int)
    requires pos <= 0 && count <= FreqBufSize && count <= |user|
    requires KStrToInt(WrittenText(user, count)) == Some(v)
    ensures WriteResult(pos, user, count) == Started(Clamp(v), |WrittenText(user, count)|)
    ensures MinFreq <= v <= MaxFreq ==> WriteResult(pos, user, count).freq == v
    ensures v < MinFreq || MaxFreq < v ==> WriteResult(pos, user, count).freq == DefaultFreq
  {
  }

  /** Unparseable text, and only that, gives -EINVAL once the checks and the copy pass. */
  lemma InvalidExactlyOnParseFailure(pos: int, user: seq<byte>, count: nat)
    requires pos <= 0 && count <= FreqBufSize && count <= |user|
    ensures WriteResult(pos, user, count).Invalid? <==> KStrToInt(WrittenText(user, count)).None?
  {
  }

  /** A NUL in the user data ends the text: the bytes after it are neither parsed nor counted. */
  lemma StopsAtNul(user: seq<byte>, count: nat, k: nat)
    requires count <= FreqBufSize && count <= |user|
    requires k < count && user[k] == Nul
    ensures |WrittenText(user, count)| <= k
  {
    assert FreqBuffer(user, count)[k] == Nul;
  }

  /** `echo <f> > /proc/scream` writes the decimal digits and a newline; all of it is consumed. */
  lemma EchoedFrequency(f: nat)
    requires f <= 999999
    ensures var text := DecimalText(f) + [Newline];
            WriteResult(0, text, |text|) == Started(Clamp(f), |text|)
  {
    var text := DecimalText(f) + [Newline];
    DecimalTextLength(f, 6);
    assert FreqBuffer(text, |text|)[..|text|] == text;
    assert CString(FreqBuffer(text, |text|)) == text by {
      assert FreqBuffer(text, |text|)[|text|] == Nul;
      assert forall i :: 0 <= i < |text| ==> FreqBuffer(text, |text|)[i] != Nul;
    }
    ParseDecimal(f, true);
  }

  /** "440": the tone starts at 440 Hz and all three bytes are consumed. */
  lemma ExampleInRange()
    ensures WriteResult(0, [52, 52, 48], 3) == Started(440, 3)
  {
    assert DecimalText(440) == [52, 52, 48];
    ParseDecimal(440, false);
    assert WrittenText([52, 52, 48], 3) == [52, 52, 48] by {
      assert FreqBuffer([52, 52, 48], 3)[3] == Nul;
    }
  }

  /** A negative position passes the position check. */
  lemma ExampleNegativePosition()
    ensures WriteResult(-1, [52, 52, 48], 3) == Started(440, 3)
  {
    ExampleInRange();
  }

  /** "99999": above the range, so the default tone. */
  lemma ExampleAboveRange()
    ensures WriteResult(0, [57, 57, 57, 57, 57], 5) == Started(1760, 5)
  {
    assert DecimalText(99) == [57, 57];
    assert DecimalText(9999) == [57, 57, 57, 57];
    assert DecimalText(99999) == [57, 57, 57, 57, 57];
    ParseDecimal(99999, false);
    assert WrittenText([57, 57, 57, 57, 57], 5) == [57, 57, 57, 57, 57] by {
      assert FreqBuffer([57, 57, 57, 57, 57], 5)[5] == Nul;
    }
  }

  /** "5": below the range, so the default tone. */
  lemma ExampleBelowRange()
    ensures WriteResult(0, [53], 1) == Started(1760, 1)
  {
    assert DecimalText(5) == [53];
    ParseDecimal(5, false);
    assert WrittenText([53], 1) == [53] by {
      assert FreqBuffer([53], 1)[1] == Nul;
    }
  }

  /** "-5\n": negative values are clamped too, and the newline counts as consumed. */
  lemma ExampleNegative()
    ensures WriteResult(0, [45, 53, 10], 3) == Started(1760, 3)
  {
    assert WrittenText([45, 53, 10], 3) == [45, 53, 10] by {
      assert FreqBuffer([45, 53, 10], 3)[3] == Nul;
    }
    assert [45, 53, 10][1..] == [53, 10];
    assert DigitRun([53, 10]) == 1;
    assert [53, 10][..1] == [53];
    assert DecimalValue([53]) == 5;
  }

  /** "abc" and the empty write do not parse. */
  lemma ExampleUnparseable()
    ensures WriteResult(0, [97, 98, 99], 3) == Invalid
    ensures WriteResult(0, [], 0) == Invalid
  {
    assert WrittenText([97, 98, 99], 3) == [97, 98, 99] by {
      assert FreqBuffer([97, 98, 99], 3)[3] == Nul;
    }
    assert WrittenText([], 0) == [] by {
      assert FreqBuffer([], 0)[0] == Nul;
    }
  }

  /**
   * `copy_from_user(dst, src, n)`: `src` is the user memory readable at the
   * source address. Copies what is readable, zero-fills the rest of the `n`
   * bytes and returns the number of bytes not copied.
   */
  method CopyFromUser(dst: array<byte>, src: seq<byte>, n: nat) returns (notCopied: nat)
    requires n <= dst.Length
    modifies dst
    ensures notCopied == if n <= |src| then 0 else n - |src|
    ensures forall i :: 0 <= i < n ==> dst[i] == if i < |src| then src[i] else Nul
    ensures forall i :: n <= i < dst.Length ==> dst[i] == old(dst[i])
  {
    var i := 0;
    while i < n
      invariant 0 <= i <= n
      invariant forall j :: 0 <= j < i ==> dst[j] == if j < |src| then src[j] else Nul
      invariant forall j :: n <= j < dst.Length ==> dst[j] == old(dst[j])
    {
      dst[i] := if i < |src| then src[i] else Nul;
      i := i + 1;
    }
    notCopied := if n <= |src| then 0 else n - |src|;
  }

  /** The file position `*ppos` (a loff_t). */
  class FilePos {
    var offset: int

    constructor (offset: int)
      ensures this.offset == offset
    {
      this.offset := offset;
    }
  }

  /** The loaded module: the hardware it drives and whether /proc/scream exists. */
  class ScreamModule {
    const hw: Hardware
    /** `proc_ent != NULL` */
    var registered: bool

    constructor (hw: Hardware)
      ensures this.hw == hw && !registered
    {
      this.hw := hw;
      registered := false;
    }

    /** `scream_init`: `procCreated` is whether `proc_create` returned an entry. */
    method Init(procCreated: bool) returns (ret: int)
      modifies this
      ensures registered == procCreated
      ensures ret == if procCreated then 0 else -ENOMEM
      ensures unchanged(hw)
    {
      registered := procCreated;
      if !registered {
        return -ENOMEM;
      }
      return 0;
    }

    /** `scream_exit`: silence the speaker, whatever it was doing, then remove /proc/scream. */
    method Exit()
      requires hw.Valid()
      modifies this, hw
      ensures hw.Valid() && !registered
      ensures hw.State() == Silent
      ensures hw.systemControl == SpeakerOff(old(hw.systemControl))
      ensures hw.writes == old(hw.writes) + [StopWrite(old(hw.systemControl))]
    {
      hw.StopScream();
      registered := false;
    }

    /** `scream_start`, the write handler of /proc/scream. */
    method Write(user: seq<byte>, count: nat, ppos: FilePos) returns (ret: int)
      requires hw.Valid()
      modifies hw, ppos
      ensures hw.Valid()
      ensures ret == ReturnValue(WriteResult(old(ppos.offset), user, count))
      ensures match WriteResult(old(ppos.offset), user, count)
              case Started(freq, consumed) =>
                && ppos.offset == consumed
                && hw.writes == old(hw.writes) + StartSequence(Divisor(freq), old(hw.systemControl))
                && hw.systemControl == SpeakerOn(old(hw.systemControl))
                && hw.State() == Sounding(PitTickRate / freq)
              case _ =>
                && ppos.offset == old(ppos.offset)
                && hw.writes == old(hw.writes)
                && hw.systemControl == old(hw.systemControl)
    {
      if ppos.offset > 0 || count > FreqBufSize {
        return -EFAULT;
      }
      var freqBuf := new byte[FreqBufSize + 1](_ => Nul);
      var notCopied := CopyFromUser(freqBuf, user, count);
      if notCopied != 0 {
        return -EFAULT;
      }
      var copied := freqBuf[..];
      assert copied == FreqBuffer(user, count);
      var parsed := KStrToInt(CString(copied));
      if parsed.None? {
        InvalidExactlyOnParseFailure(old(ppos.offset), user, count);
        return -EINVAL;
      }
      ParsedValueClamped(old(ppos.offset), user, count, parsed.value);
      var freq := Clamp(parsed.value);
      DivisorInRange(freq);
      hw.StartScream(freq);
      ppos.offset := CStrLen(copied);
      ret := ppos.offset;
    }
  }
}
