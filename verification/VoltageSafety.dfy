// What the high and low voltage DACs have been sent, over any history of commands.
module VoltageSafety {
  import opened Wrappers
  import opened Wire
  import opened Codec
  import opened Calibration
  import opened Devices
  import opened Execution

  // One command arriving at the server, with what the hardware did meanwhile.
  datatype Event = Event(command: Command, hardware: Hardware)

  /** The devices after a history of commands. */
  function After(fpu: Fpu, s: State, history: seq<Event>): State
    decreases |history|
  {
    if history == [] then s
    else
      var s1 := Execute(fpu, s, history[0].command, history[0].hardware).0;
      After(fpu, s1, history[1..])
  }

  // The two guarded DACs, by the action that sets them.
  datatype Rail = High | Low

  function ChipOf(s: State, rail: Rail): Option<Chip> {
    if rail == High then s.hv else s.lv
  }

  /** The event asks for a voltage on this rail, and the device can be used. */
  predicate Requests(e: Event, rail: Rail) {
    && e.command.code == 2 && |e.command.data| >= 2
    && e.command.data[0] == (if rail == High then 1 else 2)
    && e.hardware.good
  }

  function Requested(fpu: Fpu, e: Event): Float
    requires |e.command.data| >= 2
  {
    fpu.decode(e.command.data[1])
  }

  function FramesOf(fpu: Fpu, cal: Calibration, rail: Rail, e: Event): seq<Message> {
    if Requests(e, rail) && Accepts(cal, Requested(fpu, e)) then [McpFrame(fpu, cal, Requested(fpu, e))] else []
  }

  /** The frames of the requests in range, in order. */
  function AcceptedFrames(fpu: Fpu, cal: Calibration, rail: Rail, history: seq<Event>): seq<Message> {
    if history == [] then []
    else FramesOf(fpu, cal, rail, history[0]) + AcceptedFrames(fpu, cal, rail, history[1..])
  }

  /** A DAC frame: the write command and a safe 12-bit code in the upper bits. */
  predicate SafeFrame(cal: Calibration, f: Message) {
    |f| == 3 && f[0] == MCP_WRITE && f[2] % 0x10 == 0 && SafeCode(cal, Unpacked(f[1], f[2]))
  }

  lemma StepFrames(fpu: Fpu, s: State, e: Event, rail: Rail)
    requires ChipOf(s, rail).Some?
    ensures var chip := ChipOf(s, rail).value;
      ChipOf(Execute(fpu, s, e.command, e.hardware).0, rail) ==
      Some(chip.(wire := chip.wire + FramesOf(fpu, chip.cal, rail, e)))
  {
    var chip := ChipOf(s, rail).value;
    assert chip.wire + [] == chip.wire;
  }

  lemma NoChip(fpu: Fpu, s: State, e: Event, rail: Rail)
    requires ChipOf(s, rail).None?
    ensures ChipOf(Execute(fpu, s, e.command, e.hardware).0, rail).None?
  {
  }

  /** The frames on a rail are exactly those of the accepted requests, in order: no other command
      reaches the DAC, and a request out of range sends nothing. */
  lemma {:induction false} WireIsAcceptedFrames(fpu: Fpu, s: State, history: seq<Event>, rail: Rail)
    requires ChipOf(s, rail).Some?
    ensures var chip := ChipOf(s, rail).value;
      ChipOf(After(fpu, s, history), rail) ==
      Some(chip.(wire := chip.wire + AcceptedFrames(fpu, chip.cal, rail, history)))
    decreases |history|
  {
    var chip := ChipOf(s, rail).value;
    if history == [] {
      assert chip.wire + [] == chip.wire;
    } else {
      var e, rest := history[0], history[1..];
      StepFrames(fpu, s, e, rail);
      WireIsAcceptedFrames(fpu, Execute(fpu, s, e.command, e.hardware).0, rest, rail);
      assert chip.wire + FramesOf(fpu, chip.cal, rail, e) + AcceptedFrames(fpu, chip.cal, rail, rest)
          == chip.wire + AcceptedFrames(fpu, chip.cal, rail, history);
    }
  }

  lemma SafeBytes(cal: Calibration, bytes: Message, code: int)
    requires |bytes| == 2 && Unpacked(bytes[0], bytes[1]) == code && bytes[1] % 0x10 == 0 && SafeCode(cal, code)
    ensures SafeFrame(cal, [MCP_WRITE] + bytes)
  {
  }

  /** A 12-bit code comes back from its two bytes. */
  lemma PackedCode(code: Half)
    requires code < 0x1000
    ensures |Packed(code)| == 2 && Unpacked(Packed(code)[0], Packed(code)[1]) == code && Packed(code)[1] % 0x10 == 0
  {
    UnpackedPacked(code);
    assert code % 0x1000 == code;
  }

  lemma AcceptedFrameSafe(fpu: Fpu, cal: Calibration, v: Float)
    requires Sound(fpu) && Fits(cal) && Accepts(cal, v)
    ensures SafeFrame(cal, McpFrame(fpu, cal, v))
  {
    AcceptedCode(fpu, cal, v);
    var code := CodeOf(fpu, cal, v);
    PackedCode(code);
    SafeBytes(cal, Packed(code), code);
  }

  // ---- which code a frame carries

  /** A frame of the MCP4725: the command to write, and the converted voltage in the upper 12 bits. */
  predicate Carries(fpu: Fpu, cal: Calibration, f: Message, v: real) {
    && |f| == 3 && f[0] == 0x40 && f[2] % 0x10 == 0
    && fpu.round(cal.vMax - cal.vMin) != 0.0 && Unpacked(f[1], f[2]) == VoltageToDac(fpu.round, cal, v)
  }

  lemma CarriedBytes(fpu: Fpu, cal: Calibration, bytes: Message, v: real)
    requires |bytes| == 2 && bytes[1] % 0x10 == 0 && fpu.round(cal.vMax - cal.vMin) != 0.0
    requires Unpacked(bytes[0], bytes[1]) == VoltageToDac(fpu.round, cal, v)
    ensures Carries(fpu, cal, [MCP_WRITE] + bytes, v)
  {
  }

  lemma FrameCarries(fpu: Fpu, cal: Calibration, v: Float)
    requires Sound(fpu) && Fits(cal) && Accepts(cal, v)
    ensures Carries(fpu, cal, McpFrame(fpu, cal, v), v.value)
  {
    AcceptedCode(fpu, cal, v);
    var code := CodeOf(fpu, cal, v);
    PackedCode(code);
    CarriedBytes(fpu, cal, Packed(code), v.value);
  }

  /** The voltages asked for on a rail and in range, in order. */
  function AcceptedVoltages(fpu: Fpu, cal: Calibration, rail: Rail, history: seq<Event>): seq<real> {
    if history == [] then []
    else
      var e, rest := history[0], AcceptedVoltages(fpu, cal, rail, history[1..]);
      if Requests(e, rail) && Requested(fpu, e).Finite? && VoltageInRange(cal, Requested(fpu, e).value)
      then [Requested(fpu, e).value] + rest
      else rest
  }

  predicate CarryAll(fpu: Fpu, cal: Calibration, fs: seq<Message>, vs: seq<real>) {
    |fs| == |vs| && forall k :: 0 <= k < |fs| ==> Carries(fpu, cal, fs[k], vs[k])
  }

  lemma CarryOne(fpu: Fpu, cal: Calibration, f: Message, v: real, fs: seq<Message>, vs: seq<real>)
    requires Carries(fpu, cal, f, v) && CarryAll(fpu, cal, fs, vs)
    ensures CarryAll(fpu, cal, [f] + fs, [v] + vs)
  {
  }

  lemma {:induction false} AcceptedFramesCarry(fpu: Fpu, cal: Calibration, rail: Rail, history: seq<Event>)
    requires Sound(fpu) && Fits(cal)
    ensures CarryAll(fpu, cal, AcceptedFrames(fpu, cal, rail, history), AcceptedVoltages(fpu, cal, rail, history))
  {
    if history != [] {
      AcceptedFramesCarry(fpu, cal, rail, history[1..]);
      var e, rest := history[0], history[1..];
      if Requests(e, rail) && Accepts(cal, Requested(fpu, e)) {
        var v := Requested(fpu, e);
        FrameCarries(fpu, cal, v);
        CarryOne(fpu, cal, McpFrame(fpu, cal, v), v.value,
                 AcceptedFrames(fpu, cal, rail, rest), AcceptedVoltages(fpu, cal, rail, rest));
      }
    }
  }

  /** The frames a history adds to a rail: frame k carries the code of accepted voltage k. */
  ghost predicate Carried(fpu: Fpu, before: Chip, after: Chip, vs: seq<real>) {
    && after.cal == before.cal && |after.wire| == |before.wire| + |vs| && before.wire <= after.wire
    && forall k :: 0 <= k < |vs| ==> Carries(fpu, before.cal, after.wire[|before.wire| + k], vs[k])
  }

  lemma WireCarriesRequests(fpu: Fpu, s: State, history: seq<Event>, rail: Rail)
    requires Sound(fpu) && ChipOf(s, rail).Some? && Fits(ChipOf(s, rail).value.cal)
    ensures ChipOf(After(fpu, s, history), rail).Some?
    ensures var chip := ChipOf(s, rail).value;
      Carried(fpu, chip, ChipOf(After(fpu, s, history), rail).value, AcceptedVoltages(fpu, chip.cal, rail, history))
  {
    var chip := ChipOf(s, rail).value;
    WireIsAcceptedFrames(fpu, s, history, rail);
    AcceptedFramesCarry(fpu, chip.cal, rail, history);
  }

  lemma {:induction false} AcceptedFramesSafe(fpu: Fpu, cal: Calibration, rail: Rail, history: seq<Event>)
    requires Sound(fpu) && Fits(cal)
    ensures forall f :: f in AcceptedFrames(fpu, cal, rail, history) ==> SafeFrame(cal, f)
  {
    if history != [] {
      AcceptedFramesSafe(fpu, cal, rail, history[1..]);
      var e := history[0];
      if Requests(e, rail) && Accepts(cal, Requested(fpu, e)) {
        AcceptedFrameSafe(fpu, cal, Requested(fpu, e));
      }
    }
  }

  /** Over any history of commands, well formed or not, every frame sent to a voltage DAC carries
      a code inside its calibrated range (or, for a calibration that is not strict, at worst the
      code just below its lower end). */
  lemma VoltageAlwaysSafe(fpu: Fpu, s: State, history: seq<Event>, rail: Rail)
    requires Sound(fpu) && ChipOf(s, rail).Some? && ChipOf(s, rail).value.wire == []
    requires Fits(ChipOf(s, rail).value.cal)
    ensures var before, after := ChipOf(s, rail).value, ChipOf(After(fpu, s, history), rail);
      after.Some? && after.value.cal == before.cal &&
      forall f :: f in after.value.wire ==> SafeFrame(before.cal, f)
  {
    var cal := ChipOf(s, rail).value.cal;
    WireIsAcceptedFrames(fpu, s, history, rail);
    assert [] + AcceptedFrames(fpu, cal, rail, history) == AcceptedFrames(fpu, cal, rail, history);
    AcceptedFramesSafe(fpu, cal, rail, history);
  }
}
