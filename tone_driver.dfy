/**
 * The tone driver: `do_start_scream` and `do_stop_scream` as methods on the
 * PC's timer/speaker hardware. The hardware is an ordered log of every port
 * write together with the current contents of the system-control port 0x61.
 */
module ToneDriver {
  import opened Wrappers
  import opened Bytes
  import opened Pit

  /** One `outb`/`outb_p`: a byte written to an I/O port. */
  datatype PortWrite = PortWrite(port: int, value: byte)

  /** What the speaker does, as far as the writes made so far determine it. */
  datatype Speaker =
    | Silent                  // bits 0 and 1 of port 0x61 both clear
    | Sounding(count: nat)    // both set, with channel 2 programmed to this divisor
    | Indeterminate           // only one of them set, or channel 2 never programmed here

  /** The value most recently written to `port`, if any. */
  function LastWrite(log: seq<PortWrite>, port: int): (r: Option<byte>)
    ensures r.Some? ==> PortWrite(port, r.value) in log
    ensures r.None? ==> forall i :: 0 <= i < |log| ==> log[i].port != port
  {
    if log == [] then None
    else if log[|log| - 1].port == port then Some(log[|log| - 1].value)
    else LastWrite(log[..|log| - 1], port)
  }

  /**
   * The divisor held by channel 2: the one loaded by the latest complete
   * programming sequence, control word 0xb6 to port 0x43 followed by the
   * low and then the high byte to port 0x42.
   */
  function ProgrammedCount(log: seq<PortWrite>): (r: Option<nat>)
    ensures r.Some? ==> r.value < 0x1_0000
  {
    if |log| < 3 then None
    else
      var n := |log|;
      if log[n - 3] == PortWrite(PitControlPort, Channel2SquareWave)
         && log[n - 2].port == PitChannel2Port && log[n - 1].port == PitChannel2Port
      then Some(log[n - 1].value as int * 0x100 + log[n - 2].value as int)
      else ProgrammedCount(log[..n - 1])
  }

  /** The speaker as determined by the write log and port 0x61. */
  function SpeakerOf(log: seq<PortWrite>, systemControl: byte): (s: Speaker)
    ensures s.Silent? <==> SpeakerBitsClear(systemControl)
    ensures s.Sounding? <==> SpeakerBitsSet(systemControl) && ProgrammedCount(log).Some?
    ensures s.Sounding? ==> ProgrammedCount(log) == Some(s.count)
  {
    if SpeakerBitsClear(systemControl) then Silent
    else if SpeakerBitsSet(systemControl) && ProgrammedCount(log).Some? then Sounding(ProgrammedCount(log).value)
    else Indeterminate
  }

  /** The four writes of `do_start_scream`, in their order, given the value read from port 0x61. */
  function StartSequence(count: nat, systemControl: byte): (w: seq<PortWrite>)
    ensures |w| == 4
    ensures w[0] == PortWrite(PitControlPort, Channel2SquareWave)
    ensures w[1].port == PitChannel2Port && w[2].port == PitChannel2Port
    ensures w[2].value as int * 0x100 + w[1].value as int == count % 0x1_0000
    ensures w[3].port == SystemControlPort
    ensures SpeakerBitsSet(w[3].value) && SameUpperBits(w[3].value, systemControl)
  {
    ByteSplit(count);
    [ PortWrite(PitControlPort, Channel2SquareWave),
      PortWrite(PitChannel2Port, LowByte(count)),
      PortWrite(PitChannel2Port, HighByte(count)),
      PortWrite(SystemControlPort, SpeakerOn(systemControl)) ]
  }

  /** The single write of `do_stop_scream`, given the value read from port 0x61. */
  function StopWrite(systemControl: byte): (w: PortWrite)
    ensures w.port == SystemControlPort
    ensures SpeakerBitsClear(w.value) && SameUpperBits(w.value, systemControl)
  {
    PortWrite(SystemControlPort, SpeakerOff(systemControl))
  }

  lemma {:induction false} LastWriteAppend(log: seq<PortWrite>, w: PortWrite, port: int)
    ensures LastWrite(log + [w], port) == if w.port == port then Some(w.value) else LastWrite(log, port)
  {
    assert (log + [w])[..|log|] == log;
  }

  /** A write to port 0x61 does not disturb what channel 2 holds. */
  lemma {:induction false} ProgrammedCountAfterStop(log: seq<PortWrite>, w: PortWrite)
    requires w.port == SystemControlPort
    ensures ProgrammedCount(log + [w]) == ProgrammedCount(log)
  {
    assert (log + [w])[..|log|] == log;
  }

  /** A complete programming sequence at the end of the log determines the divisor. */
  lemma ProgrammedCountAtSequence(log: seq<PortWrite>, lo: byte, hi: byte)
    ensures ProgrammedCount(log + [PortWrite(PitControlPort, Channel2SquareWave),
                                   PortWrite(PitChannel2Port, lo),
                                   PortWrite(PitChannel2Port, hi)])
            == Some(hi as int * 0x100 + lo as int)
  {
  }

  /** After the start sequence channel 2 holds the low 16 bits of the divisor, whatever came before. */
  lemma {:induction false} ProgrammedCountAfterStart(log: seq<PortWrite>, count: nat, systemControl: byte)
    ensures ProgrammedCount(log + StartSequence(count, systemControl)) == Some(count % 0x1_0000)
  {
    var s := StartSequence(count, systemControl);
    var lo, hi := s[1].value, s[2].value;
    var programmed := log + [PortWrite(PitControlPort, Channel2SquareWave),
                             PortWrite(PitChannel2Port, lo),
                             PortWrite(PitChannel2Port, hi)];
    assert log + s == programmed + [s[3]];
    ProgrammedCountAfterStop(programmed, s[3]);
    ProgrammedCountAtSequence(log, lo, hi);
  }

  /** Start at any frequency the handler allows: the speaker sounds at PIT_TICK_RATE / freq. */
  lemma StartSounds(log: seq<PortWrite>, systemControl: byte, freq: int)
    requires 20 <= freq <= 32767
    ensures SpeakerOf(log + StartSequence(Divisor(freq), systemControl), SpeakerOn(systemControl))
            == Sounding(PitTickRate / freq)
  {
    DivisorInRange(freq);
    ProgrammedCountAfterStart(log, Divisor(freq), systemControl);
  }

  /** Re-arming: a second start without a stop sounds at the second frequency. */
  lemma ReArm(log: seq<PortWrite>, systemControl: byte, f1: int, f2: int)
    requires 20 <= f1 <= 32767 && 20 <= f2 <= 32767
    ensures var once := log + StartSequence(Divisor(f1), systemControl);
            var on := SpeakerOn(systemControl);
            SpeakerOf(once + StartSequence(Divisor(f2), on), SpeakerOn(on)) == Sounding(PitTickRate / f2)
  {
    StartSounds(log + StartSequence(Divisor(f1), systemControl), SpeakerOn(systemControl), f2);
  }

  /** The PC's timer/speaker hardware as the driver sees it. */
  class Hardware {
    /** Every port write so far, oldest first. */
    var writes: seq<PortWrite>
    /** Current contents of the system-control port 0x61. */
    var systemControl: byte

    /** Port 0x61 holds the last value written to it, if any was. */
    ghost predicate Valid()
      reads this
    {
      LastWrite(writes, SystemControlPort) in {None, Some(systemControl)}
    }

    function State(): Speaker
      reads this
    {
      SpeakerOf(writes, systemControl)
    }

    constructor (initialSystemControl: byte)
      ensures Valid()
      ensures writes == [] && systemControl == initialSystemControl
    {
      writes := [];
      systemControl := initialSystemControl;
    }

    /** `outb(value, port)` and `outb_p(value, port)`. */
    method Outb(value: byte, port: int)
      requires Valid()
      modifies this
      ensures Valid()
      ensures writes == old(writes) + [PortWrite(port, value)]
      ensures systemControl == if port == SystemControlPort then value else old(systemControl)
    {
      LastWriteAppend(writes, PortWrite(port, value), SystemControlPort);
      writes := writes + [PortWrite(port, value)];
      if port == SystemControlPort {
        systemControl := value;
      }
    }

    /** `inb_p(0x61)`. */
    method InbSystemControl() returns (value: byte)
      requires Valid()
      ensures value == systemControl
      ensures LastWrite(writes, SystemControlPort) in {None, Some(value)}
    {
      value := systemControl;
    }

    /** `do_start_scream(freq)`. */
    method StartScream(freq: int)
      requires Valid()
      requires freq != 0 && IntMin <= freq <= IntMax
      modifies this
      ensures Valid()
      ensures writes == old(writes) + StartSequence(Divisor(freq), old(systemControl))
      ensures systemControl == SpeakerOn(old(systemControl))
      ensures State() == Sounding(Divisor(freq) % 0x1_0000)
    {
      var count := Divisor(freq);
      Outb(Channel2SquareWave, PitControlPort);
      Outb(LowByte(count), PitChannel2Port);
      Outb(HighByte(count), PitChannel2Port);
      var gate := InbSystemControl();
      Outb(SpeakerOn(gate), SystemControlPort);
      ProgrammedCountAfterStart(old(writes), count, old(systemControl));
    }

    /** `do_stop_scream()`. */
    method StopScream()
      requires Valid()
      modifies this
      ensures Valid()
      ensures writes == old(writes) + [StopWrite(old(systemControl))]
      ensures systemControl == SpeakerOff(old(systemControl))
      ensures State() == Silent
    {
      var gate := InbSystemControl();
      Outb(SpeakerOff(gate), SystemControlPort);
    }
  }
}
