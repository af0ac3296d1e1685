/**
 * One pass of `engine_loop` (main.py): foreground suppression with its
 * one-time `zero_all`, controller re-acquisition, the failsafe on a failed
 * poll, and the six or eight OSC sends of a good poll. An OSC send is
 * modelled as appending to a log; the clock, the foreground process name,
 * the controller and the float power are inputs of the tick.
 */
module Engine {
  import opened Wrappers
  import opened Normalize
  import opened Settings
  import opened Mapper
  import opened Device
  import opened Voice

  /** The argument of an OSC message: `osc_f` sends a float, `osc_i` an int. */
  datatype Value = FloatArg(x: real) | IntArg(n: int)

  /** `client.send_message(address, value)`. */
  datatype OscSend = OscSend(address: string, arg: Value)

  /** The neutral value of an address: 0.0 or 0. */
  predicate IsNeutral(v: Value) {
    match v
    case FloatArg(x) => x == 0.0
    case IntArg(n) => n == 0
  }

  predicate AllNeutral(sends: seq<OscSend>) {
    forall k :: 0 <= k < |sends| ==> IsNeutral(sends[k].arg)
  }

  function Addresses(sends: seq<OscSend>): (r: seq<string>)
    ensures |r| == |sends|
    ensures forall k :: 0 <= k < |r| ==> r[k] == sends[k].address
  {
    seq(|sends|, k requires 0 <= k < |sends| => sends[k].address)
  }

  lemma AllNeutralAppend(a: seq<OscSend>, b: seq<OscSend>)
    requires AllNeutral(a) && AllNeutral(b)
    ensures AllNeutral(a + b)
  {
    assert forall k :: 0 <= k < |a + b| ==> (a + b)[k] == if k < |a| then a[k] else b[k - |a|];
  }

  /** The addresses one tick writes, in order: six, and the grab pair when grab triggers are on. */
  function TickAddresses(cfg: Config): seq<string> {
    [cfg.addrMoveX, cfg.addrMoveY, cfg.addrLookX, cfg.addrLookY, cfg.addrJump, cfg.addrVoice]
    + if cfg.enableGrabTriggers then [cfg.grabLeftAddr, cfg.grabRightAddr] else []
  }

  /** The sends of a good poll with mapped input `m` and voice value `voice`. */
  function MappedSends(cfg: Config, m: Mapped, voice: int): (r: seq<OscSend>)
    ensures Addresses(r) == TickAddresses(cfg)
    ensures r[0].arg == FloatArg(m.moveX) && r[1].arg == FloatArg(m.moveY)
    ensures r[2].arg == FloatArg(m.lookX) && r[3].arg == FloatArg(m.lookY)
    ensures r[4].arg == IntArg(m.jump) && r[5].arg == IntArg(voice)
    ensures cfg.enableGrabTriggers ==> r[6].arg == FloatArg(m.grabL) && r[7].arg == FloatArg(m.grabR)
  {
    [OscSend(cfg.addrMoveX, FloatArg(m.moveX)),
     OscSend(cfg.addrMoveY, FloatArg(m.moveY)),
     OscSend(cfg.addrLookX, FloatArg(m.lookX)),
     OscSend(cfg.addrLookY, FloatArg(m.lookY)),
     OscSend(cfg.addrJump, IntArg(m.jump)),
     OscSend(cfg.addrVoice, IntArg(voice))]
    + if cfg.enableGrabTriggers
      then [OscSend(cfg.grabLeftAddr, FloatArg(m.grabL)), OscSend(cfg.grabRightAddr, FloatArg(m.grabR))]
      else []
  }

  /** `zero_all`: the neutral value to every address a tick writes, in the same order. */
  function ZeroAll(cfg: Config): (r: seq<OscSend>)
    ensures AllNeutral(r)
    ensures Addresses(r) == TickAddresses(cfg)
    ensures |r| == if cfg.enableGrabTriggers then 8 else 6
  {
    [OscSend(cfg.addrMoveX, FloatArg(0.0)),
     OscSend(cfg.addrMoveY, FloatArg(0.0)),
     OscSend(cfg.addrLookX, FloatArg(0.0)),
     OscSend(cfg.addrLookY, FloatArg(0.0)),
     OscSend(cfg.addrJump, IntArg(0)),
     OscSend(cfg.addrVoice, IntArg(0))]
    + if cfg.enableGrabTriggers
      then [OscSend(cfg.grabLeftAddr, FloatArg(0.0)), OscSend(cfg.grabRightAddr, FloatArg(0.0))]
      else []
  }

  /** A controller at rest: sticks centred, no button, triggers released. */
  const AtRest: Mapped := Mapped(0.0, 0.0, 0.0, 0.0, 0, 0, 0.0, 0.0)

  /** `zero_all` sends exactly what a good poll of a controller at rest sends with voice 0. */
  lemma ZeroAllIsTickAtRest(cfg: Config)
    ensures ZeroAll(cfg) == MappedSends(cfg, AtRest, 0)
  {
  }

  /** The state `engine_loop` keeps across ticks. */
  datatype EngineState = EngineState(
    prevVoice: int,
    voicePulseUntil: real,
    suppressedPrev: bool,
    lastOk: real,
    idx: Option<nat>)

  /** The state after a tick and the sends it made, in order. */
  datatype TickResult = TickResult(next: EngineState, sends: seq<OscSend>)

  /** Suppression is on and the foreground process is the configured one, ignoring case. */
  function SuppressActive(cfg: Config, fg: string): (b: bool)
    ensures b ==> cfg.suppressWhenForeground
    ensures cfg.suppressWhenForeground && fg == cfg.processName ==> b
    ensures b <==> cfg.suppressWhenForeground && Lower(fg) == Lower(cfg.processName)
  {
    cfg.suppressWhenForeground && SameIgnoringCase(fg, cfg.processName)
  }

  /** The tick does not raise: if it maps a snapshot, no stick normalisation divides by zero. */
  predicate TickDefined(s: EngineState, cfg: Config, fg: string, poll: Poll) {
    (!SuppressActive(cfg, fg) && s.idx.Some? && poll(s.idx.value).Some?)
    ==> MapDefined(poll(s.idx.value).value, cfg)
  }

  /** Everything after the suppression check: re-acquisition, failsafe, or the sends of a good poll. */
  function PollStep(s: EngineState, cfg: Config, poll: Poll, now: real, pow: Power): (r: TickResult)
    requires s.idx.Some? && poll(s.idx.value).Some? ==> MapDefined(poll(s.idx.value).value, cfg)
    ensures Addresses(r.sends) == [] || Addresses(r.sends) == TickAddresses(cfg)
    ensures r.next.idx.Some? ==> poll(r.next.idx.value).Some?
    ensures r.next.lastOk == s.lastOk || r.next.lastOk == now
    ensures r.next.suppressedPrev == s.suppressedPrev
  {
    if s.idx.None? then
      TickResult(s.(idx := FirstController(poll)), [])
    else match poll(s.idx.value)
      case None =>
        TickResult(s.(idx := FirstController(poll)),
                   if now - s.lastOk > cfg.failsafeTimeoutSec then ZeroAll(cfg) else [])
      case Some(g) =>
        var m := MapState(g, cfg, pow);
        var v := VoiceStep(cfg, m.voiceDown, s.prevVoice, s.voicePulseUntil, now);
        TickResult(s.(lastOk := now, prevVoice := v.prevVoice, voicePulseUntil := v.pulseUntil),
                   MappedSends(cfg, m, v.sent))
  }

  /** One pass of the `while` loop of `engine_loop`, from the configuration reload check on. */
  function Step(s: EngineState, cfg: Config, fg: string, poll: Poll, now: real, pow: Power): (r: TickResult)
    requires TickDefined(s, cfg, fg, poll)
    ensures Addresses(r.sends) == [] || Addresses(r.sends) == TickAddresses(cfg)
    ensures r.next.lastOk == s.lastOk || r.next.lastOk == now
    ensures r.next.suppressedPrev == (SuppressActive(cfg, fg) || (s.suppressedPrev && !cfg.suppressWhenForeground))
  {
    if SuppressActive(cfg, fg) then
      if !s.suppressedPrev
      then TickResult(s.(prevVoice := 0, voicePulseUntil := 0.0, suppressedPrev := true), ZeroAll(cfg))
      else TickResult(s, [])
    else
      var s' := if cfg.suppressWhenForeground then s.(suppressedPrev := false) else s;
      PollStep(s', cfg, poll, now, pow)
  }

  /** The first suppressed tick sends `zero_all` once and resets the voice state. */
  lemma SuppressionBegins(s: EngineState, cfg: Config, fg: string, poll: Poll, now: real, pow: Power)
    requires SuppressActive(cfg, fg) && !s.suppressedPrev
    ensures Step(s, cfg, fg, poll, now, pow)
         == TickResult(EngineState(0, 0.0, true, s.lastOk, s.idx), ZeroAll(cfg))
  {
  }

  /** Later suppressed ticks send nothing and change nothing. */
  lemma SuppressionHeld(s: EngineState, cfg: Config, fg: string, poll: Poll, now: real, pow: Power)
    requires SuppressActive(cfg, fg) && s.suppressedPrev
    ensures Step(s, cfg, fg, poll, now, pow) == TickResult(s, [])
  {
  }

  /** While suppressed, nothing but neutral values is sent. */
  lemma SuppressedSendsOnlyNeutral(s: EngineState, cfg: Config, fg: string, poll: Poll, now: real, pow: Power)
    requires SuppressActive(cfg, fg)
    ensures AllNeutral(Step(s, cfg, fg, poll, now, pow).sends)
    ensures Step(s, cfg, fg, poll, now, pow).next.suppressedPrev
  {
  }

  /**
   * With suppression on and another process in front, the flag is cleared,
   * and the sends do not depend on whether the tick before was suppressed:
   * ending suppression forces no extra neutral burst.
   */
  lemma SuppressionEnds(s: EngineState, cfg: Config, fg: string, poll: Poll, now: real, pow: Power)
    requires cfg.suppressWhenForeground && !SameIgnoringCase(fg, cfg.processName)
    requires TickDefined(s, cfg, fg, poll)
    ensures !Step(s, cfg, fg, poll, now, pow).next.suppressedPrev
    ensures Step(s, cfg, fg, poll, now, pow).sends
         == Step(s.(suppressedPrev := !s.suppressedPrev), cfg, fg, poll, now, pow).sends
  {
  }

  /** With suppression off the foreground is not consulted and the flag is left as it was. */
  lemma SuppressionOff(s: EngineState, cfg: Config, fg: string, fg': string, poll: Poll, now: real, pow: Power)
    requires !cfg.suppressWhenForeground
    requires TickDefined(s, cfg, fg, poll)
    ensures TickDefined(s, cfg, fg', poll)
    ensures Step(s, cfg, fg, poll, now, pow) == Step(s, cfg, fg', poll, now, pow)
    ensures Step(s, cfg, fg, poll, now, pow).next.suppressedPrev == s.suppressedPrev
  {
  }

  /** No controller tracked: look for one, send nothing, and touch nothing else. */
  lemma NoControllerTracked(s: EngineState, cfg: Config, fg: string, poll: Poll, now: real, pow: Power)
    requires !SuppressActive(cfg, fg) && s.idx.None?
    ensures var r := Step(s, cfg, fg, poll, now, pow);
            && r.sends == []
            && r.next.idx == FirstController(poll)
            && r.next.lastOk == s.lastOk
            && r.next.prevVoice == s.prevVoice && r.next.voicePulseUntil == s.voicePulseUntil
            && r.next.suppressedPrev == (s.suppressedPrev && !cfg.suppressWhenForeground)
  {
  }

  /**
   * A failed poll sends `zero_all` exactly when more than `failsafe_timeout_sec`
   * has passed since the last good poll, and nothing otherwise; it keeps the
   * time of the last good poll and searches for a controller again.
   */
  lemma Failsafe(s: EngineState, cfg: Config, fg: string, poll: Poll, now: real, pow: Power)
    requires !SuppressActive(cfg, fg) && s.idx.Some? && poll(s.idx.value).None?
    ensures var r := Step(s, cfg, fg, poll, now, pow);
            && r.sends == (if now - s.lastOk > cfg.failsafeTimeoutSec then ZeroAll(cfg) else [])
            && r.next.lastOk == s.lastOk
            && r.next.idx == FirstController(poll)
            && r.next.prevVoice == s.prevVoice && r.next.voicePulseUntil == s.voicePulseUntil
            && r.next.suppressedPrev == (s.suppressedPrev && !cfg.suppressWhenForeground)
  {
  }

  /**
   * A good poll records the time, keeps the controller, and sends the mapped
   * values to the six addresses, and to the grab pair when grab triggers are on.
   */
  lemma GoodPollSends(s: EngineState, cfg: Config, fg: string, poll: Poll, now: real, pow: Power)
    requires !SuppressActive(cfg, fg) && s.idx.Some? && poll(s.idx.value).Some?
    requires MapDefined(poll(s.idx.value).value, cfg)
    ensures var r := Step(s, cfg, fg, poll, now, pow);
            var m := MapState(poll(s.idx.value).value, cfg, pow);
            && r.next.lastOk == now
            && r.next.idx == s.idx
            && r.next.suppressedPrev == (s.suppressedPrev && !cfg.suppressWhenForeground)
            && Addresses(r.sends) == TickAddresses(cfg)
            && |r.sends| == (if cfg.enableGrabTriggers then 8 else 6)
            && r.sends[0].arg == FloatArg(m.moveX) && r.sends[1].arg == FloatArg(m.moveY)
            && r.sends[2].arg == FloatArg(m.lookX) && r.sends[3].arg == FloatArg(m.lookY)
            && r.sends[4].arg == IntArg(m.jump)
            && (cfg.enableGrabTriggers ==> r.sends[6].arg == FloatArg(m.grabL) && r.sends[7].arg == FloatArg(m.grabR))
  {
  }

  /** Hold mode: the voice address gets the button state, and the voice state is left as it was. */
  lemma HoldModeVoice(s: EngineState, cfg: Config, fg: string, poll: Poll, now: real, pow: Power)
    requires !SuppressActive(cfg, fg) && s.idx.Some? && poll(s.idx.value).Some?
    requires MapDefined(poll(s.idx.value).value, cfg)
    requires IsHoldMode(cfg)
    ensures var r := Step(s, cfg, fg, poll, now, pow);
            var m := MapState(poll(s.idx.value).value, cfg, pow);
            && r.sends[5] == OscSend(cfg.addrVoice, IntArg(m.voiceDown))
            && r.next.prevVoice == s.prevVoice
            && r.next.voicePulseUntil == s.voicePulseUntil
  {
  }

  /**
   * Pulse mode: a 0 to 1 change of the button sets the expiry to now + 0.06,
   * otherwise the expiry stays; 1 is sent exactly while now is before the
   * expiry; the previous button state becomes the current one.
   */
  lemma PulseModeVoice(s: EngineState, cfg: Config, fg: string, poll: Poll, now: real, pow: Power)
    requires !SuppressActive(cfg, fg) && s.idx.Some? && poll(s.idx.value).Some?
    requires MapDefined(poll(s.idx.value).value, cfg)
    requires !IsHoldMode(cfg)
    ensures var r := Step(s, cfg, fg, poll, now, pow);
            var m := MapState(poll(s.idx.value).value, cfg, pow);
            && r.next.voicePulseUntil
               == (if m.voiceDown == 1 && s.prevVoice == 0 then now + PulseWidth else s.voicePulseUntil)
            && r.sends[5] == OscSend(cfg.addrVoice, IntArg(if now < r.next.voicePulseUntil then 1 else 0))
            && r.next.prevVoice == m.voiceDown
  {
  }

  /** The snapshot of a controller at rest: no button, triggers released, sticks centred. */
  const RestingPad: Gamepad := Gamepad(0, 0, 0, 0, 0, 0, 0)

  /**
   * A good poll of a resting controller sends exactly `zero_all`, provided the
   * deadzones and the trigger threshold are not negative, the curve maps 0 to
   * 0, and no voice pulse is pending. A pending pulse still sends voice 1.
   */
  lemma RestingPollIsZeroAll(s: EngineState, cfg: Config, fg: string, poll: Poll, now: real, pow: Power)
    requires !SuppressActive(cfg, fg) && s.idx.Some? && poll(s.idx.value) == Some(RestingPad)
    requires cfg.deadzoneLeft >= 0 && cfg.deadzoneRight >= 0 && cfg.triggerThreshold >= 0
    requires cfg.curveGamma >= 0.0 && pow(0.0, cfg.curveGamma) == 0.0
    requires now >= s.voicePulseUntil
    ensures TickDefined(s, cfg, fg, poll)
    ensures Step(s, cfg, fg, poll, now, pow).sends == ZeroAll(cfg)
  {
    assert NormThumb(0, cfg.deadzoneRight) == 0.0;
    assert MapDefined(RestingPad, cfg);
    var m := MapState(RestingPad, cfg, pow);
    assert m == AtRest;
    var s' := if cfg.suppressWhenForeground then s.(suppressedPrev := false) else s;
    assert VoiceStep(cfg, 0, s'.prevVoice, s'.voicePulseUntil, now).sent == 0;
    ZeroAllIsTickAtRest(cfg);
  }

  /** The controller and clock of one tick. */
  datatype TickInput = TickInput(fg: string, poll: Poll, now: real)

  /**
   * No snapshot the controller can give makes `map_state` divide by zero.
   * This asks it of every slot, not only the tracked one; the two differ only
   * for a deadzone of 32767 or a negative gamma.
   */
  ghost predicate PollSafe(cfg: Config, poll: Poll) {
    forall i: nat :: poll(i).Some? ==> MapDefined(poll(i).value, cfg)
  }

  lemma PollSafeTickDefined(s: EngineState, cfg: Config, fg: string, poll: Poll)
    requires PollSafe(cfg, poll)
    ensures TickDefined(s, cfg, fg, poll)
  {
    if s.idx.Some? {
      var i := s.idx.value;
      assert poll(i).Some? ==> MapDefined(poll(i).value, cfg);
    }
  }

  /** Consecutive ticks under one configuration: the final state and every send, in order. */
  function Run(s: EngineState, cfg: Config, ticks: seq<TickInput>, pow: Power): (r: TickResult)
    requires forall k :: 0 <= k < |ticks| ==> PollSafe(cfg, ticks[k].poll)
    ensures |r.sends| <= 8 * |ticks|
    decreases |ticks|
  {
    if ticks == [] then TickResult(s, [])
    else
      var t := ticks[0];
      PollSafeTickDefined(s, cfg, t.fg, t.poll);
      var r := Step(s, cfg, t.fg, t.poll, t.now, pow);
      var rest := Run(r.next, cfg, ticks[1..], pow);
      TickResult(rest.next, r.sends + rest.sends)
  }

  /** A stretch of suppressed ticks sends one neutral burst in all, and only if it was not suppressed before. */
  lemma {:induction false} SuppressedRunOneBurst(s: EngineState, cfg: Config, ticks: seq<TickInput>, pow: Power)
    requires forall k :: 0 <= k < |ticks| ==> PollSafe(cfg, ticks[k].poll)
    requires forall k :: 0 <= k < |ticks| ==> SuppressActive(cfg, ticks[k].fg)
    requires ticks != []
    ensures Run(s, cfg, ticks, pow).sends == if s.suppressedPrev then [] else ZeroAll(cfg)
    ensures Run(s, cfg, ticks, pow).next.suppressedPrev
    decreases |ticks|
  {
    var r := Step(s, cfg, ticks[0].fg, ticks[0].poll, ticks[0].now, pow);
    assert r.next.suppressedPrev;
    if |ticks| > 1 {
      SuppressedRunOneBurst(r.next, cfg, ticks[1..], pow);
    }
  }

  /**
   * While no controller answers, whatever is sent is neutral and the time of
   * the last good poll does not move. This does not say that anything is sent:
   * see `DisconnectWithinTimeoutSilent`.
   */
  lemma {:induction false} DisconnectedRunNeutral(s: EngineState, cfg: Config, ticks: seq<TickInput>, pow: Power)
    requires forall k :: 0 <= k < |ticks| ==> PollSafe(cfg, ticks[k].poll)
    requires forall k, i: nat :: 0 <= k < |ticks| ==> ticks[k].poll(i).None?
    ensures AllNeutral(Run(s, cfg, ticks, pow).sends)
    ensures Run(s, cfg, ticks, pow).next.lastOk == s.lastOk
    decreases |ticks|
  {
    if ticks != [] {
      var r := Step(s, cfg, ticks[0].fg, ticks[0].poll, ticks[0].now, pow);
      assert AllNeutral(r.sends);
      assert r.next.lastOk == s.lastOk;
      DisconnectedRunNeutral(r.next, cfg, ticks[1..], pow);
      var rest := Run(r.next, cfg, ticks[1..], pow);
      assert Run(s, cfg, ticks, pow).sends == r.sends + rest.sends;
      AllNeutralAppend(r.sends, rest.sends);
    }
  }

  /** With no controller tracked and none answering, nothing is sent and none is tracked afterwards. */
  lemma {:induction false} UntrackedRunSilent(s: EngineState, cfg: Config, ticks: seq<TickInput>, pow: Power)
    requires forall k :: 0 <= k < |ticks| ==> PollSafe(cfg, ticks[k].poll)
    requires forall k, i: nat :: 0 <= k < |ticks| ==> ticks[k].poll(i).None?
    requires forall k :: 0 <= k < |ticks| ==> !SuppressActive(cfg, ticks[k].fg)
    requires s.idx.None?
    ensures Run(s, cfg, ticks, pow).sends == []
    ensures Run(s, cfg, ticks, pow).next.idx.None?
    decreases |ticks|
  {
    if ticks != [] {
      var r := Step(s, cfg, ticks[0].fg, ticks[0].poll, ticks[0].now, pow);
      assert r.sends == [] && r.next.idx.None?;
      UntrackedRunSilent(r.next, cfg, ticks[1..], pow);
    }
  }

  /**
   * As written, the failsafe is checked only on a failed poll of a tracked
   * controller, and that tick drops the controller when none answers. A
   * controller lost within `failsafe_timeout_sec` of the last good poll is
   * therefore never followed by `zero_all`, however long it stays away.
   */
  lemma DisconnectWithinTimeoutSilent(s: EngineState, cfg: Config, ticks: seq<TickInput>, pow: Power)
    requires forall k :: 0 <= k < |ticks| ==> PollSafe(cfg, ticks[k].poll)
    requires forall k, i: nat :: 0 <= k < |ticks| ==> ticks[k].poll(i).None?
    requires forall k :: 0 <= k < |ticks| ==> !SuppressActive(cfg, ticks[k].fg)
    requires s.idx.Some? && ticks != []
    requires ticks[0].now - s.lastOk <= cfg.failsafeTimeoutSec
    ensures Run(s, cfg, ticks, pow).sends == []
  {
    var r := Step(s, cfg, ticks[0].fg, ticks[0].poll, ticks[0].now, pow);
    assert r.sends == [] && r.next.idx.None?;
    UntrackedRunSilent(r.next, cfg, ticks[1..], pow);
  }

  /** Slot `i` answers at every tick of the stretch with a snapshot `map_state` can map. */
  ghost predicate SlotMapped(i: nat, cfg: Config, ticks: seq<TickInput>) {
    forall k :: 0 <= k < |ticks| ==> ticks[k].poll(i).Some? && MapDefined(ticks[k].poll(i).value, cfg)
  }

  /** Every tick of the stretch is unsuppressed and slot `i` answers it. */
  ghost predicate GoodPolls(i: nat, cfg: Config, ticks: seq<TickInput>) {
    SlotMapped(i, cfg, ticks) && forall k :: 0 <= k < |ticks| ==> !SuppressActive(cfg, ticks[k].fg)
  }

  /** What `map_state` makes of slot `i`'s snapshot at each tick. */
  function MappedStates(i: nat, cfg: Config, ticks: seq<TickInput>, pow: Power): (r: seq<Mapped>)
    requires SlotMapped(i, cfg, ticks)
    ensures |r| == |ticks|
    ensures forall k :: 0 <= k < |ticks| ==> r[k] == MapState(ticks[k].poll(i).value, cfg, pow)
    decreases |ticks|
  {
    if ticks == [] then []
    else [MapState(ticks[0].poll(i).value, cfg, pow)] + MappedStates(i, cfg, ticks[1..], pow)
  }

  /** The voice button reading and the clock at each tick. */
  function VoiceSamples(ms: seq<Mapped>, ticks: seq<TickInput>): (r: seq<Sample>)
    requires |ms| == |ticks|
    ensures |r| == |ticks|
    ensures forall k :: 0 <= k < |ticks| ==> r[k] == Sample(ms[k].voiceDown, ticks[k].now)
    decreases |ticks|
  {
    if ticks == [] then []
    else [Sample(ms[0].voiceDown, ticks[0].now)] + VoiceSamples(ms[1..], ticks[1..])
  }

  /** The sends of consecutive good polls: each tick's mapped sends, carrying that tick's voice value. */
  function GoodSends(cfg: Config, ms: seq<Mapped>, voices: seq<int>): seq<OscSend>
    requires |ms| == |voices|
    decreases |ms|
  {
    if ms == [] then []
    else MappedSends(cfg, ms[0], voices[0]) + GoodSends(cfg, ms[1..], voices[1..])
  }

  /** A stretch of good polls writes every address once per tick and keeps the controller. */
  lemma {:induction false} GoodRunLength(s: EngineState, cfg: Config, ticks: seq<TickInput>, pow: Power)
    requires forall k :: 0 <= k < |ticks| ==> PollSafe(cfg, ticks[k].poll)
    requires s.idx.Some? && GoodPolls(s.idx.value, cfg, ticks)
    ensures |Run(s, cfg, ticks, pow).sends| == |TickAddresses(cfg)| * |ticks|
    ensures Run(s, cfg, ticks, pow).next.idx == s.idx
    decreases |ticks|
  {
    if ticks != [] {
      var t := ticks[0];
      PollSafeTickDefined(s, cfg, t.fg, t.poll);
      GoodPollSends(s, cfg, t.fg, t.poll, t.now, pow);
      var r := Step(s, cfg, t.fg, t.poll, t.now, pow);
      assert |r.sends| == |TickAddresses(cfg)|;
      GoodRunLength(r.next, cfg, ticks[1..], pow);
    }
  }

  /** A good poll as one value: the mapped sends with the voice block's value, and its voice state. */
  lemma GoodStep(s: EngineState, cfg: Config, fg: string, poll: Poll, now: real, pow: Power)
    requires !SuppressActive(cfg, fg) && s.idx.Some? && poll(s.idx.value).Some?
    requires MapDefined(poll(s.idx.value).value, cfg)
    ensures var r := Step(s, cfg, fg, poll, now, pow);
            var m := MapState(poll(s.idx.value).value, cfg, pow);
            var v := VoiceStep(cfg, m.voiceDown, s.prevVoice, s.voicePulseUntil, now);
            && r.sends == MappedSends(cfg, m, v.sent)
            && r.next.idx == s.idx
            && r.next.prevVoice == v.prevVoice && r.next.voicePulseUntil == v.pulseUntil
  {
  }


  /**
   * Over a stretch of good polls the engine sends, tick by tick, the mapped
   * snapshot with the voice value `VoiceTrace` gives for the voice button
   * readings: the lemmas about `VoiceTrace` describe what reaches the voice address.
   */
  lemma {:induction false} GoodRunSends(s: EngineState, cfg: Config, ticks: seq<TickInput>, pow: Power)
    requires forall k :: 0 <= k < |ticks| ==> PollSafe(cfg, ticks[k].poll)
    requires s.idx.Some? && GoodPolls(s.idx.value, cfg, ticks)
    ensures var ms := MappedStates(s.idx.value, cfg, ticks, pow);
            Run(s, cfg, ticks, pow).sends
            == GoodSends(cfg, ms, VoiceTrace(cfg, s.prevVoice, s.voicePulseUntil, VoiceSamples(ms, ticks)))
    decreases |ticks|
  {
    if ticks != [] {
      var i := s.idx.value;
      var t := ticks[0];
      GoodStep(s, cfg, t.fg, t.poll, t.now, pow);
      var r := Step(s, cfg, t.fg, t.poll, t.now, pow);
      GoodRunSends(r.next, cfg, ticks[1..], pow);
      var ms := MappedStates(i, cfg, ticks, pow);
      assert ms[1..] == MappedStates(i, cfg, ticks[1..], pow);
      var samples := VoiceSamples(ms, ticks);
      assert samples[1..] == VoiceSamples(ms[1..], ticks[1..]);
      var v := VoiceStep(cfg, ms[0].voiceDown, s.prevVoice, s.voicePulseUntil, t.now);
      var vs := VoiceTrace(cfg, s.prevVoice, s.voicePulseUntil, samples);
      assert vs[1..] == VoiceTrace(cfg, v.prevVoice, v.pulseUntil, samples[1..]);
    }
  }

  /**
   * The tick with the failsafe evidently intended: it is also checked while
   * no controller is tracked. It differs from `Step` only in the sends of an
   * unsuppressed tick with no tracked controller past the timeout.
   */
  function FixedStep(s: EngineState, cfg: Config, fg: string, poll: Poll, now: real, pow: Power): (r: TickResult)
    requires TickDefined(s, cfg, fg, poll)
    ensures r.next == Step(s, cfg, fg, poll, now, pow).next
    ensures !SuppressActive(cfg, fg) && (s.idx.None? || poll(s.idx.value).None?) ==>
              r.sends == if now - s.lastOk > cfg.failsafeTimeoutSec then ZeroAll(cfg) else []
    ensures SuppressActive(cfg, fg) ==> r == Step(s, cfg, fg, poll, now, pow)
    ensures s.idx.Some? ==> r == Step(s, cfg, fg, poll, now, pow)
    ensures now - s.lastOk <= cfg.failsafeTimeoutSec ==> r == Step(s, cfg, fg, poll, now, pow)
  {
    var written := Step(s, cfg, fg, poll, now, pow);
    if !SuppressActive(cfg, fg) && s.idx.None? && now - s.lastOk > cfg.failsafeTimeoutSec
    then TickResult(written.next, ZeroAll(cfg))
    else written
  }

  /** Consecutive ticks of `FixedStep`. */
  function FixedRun(s: EngineState, cfg: Config, ticks: seq<TickInput>, pow: Power): (r: TickResult)
    requires forall k :: 0 <= k < |ticks| ==> PollSafe(cfg, ticks[k].poll)
    ensures |r.sends| <= 8 * |ticks|
    decreases |ticks|
  {
    if ticks == [] then TickResult(s, [])
    else
      var t := ticks[0];
      PollSafeTickDefined(s, cfg, t.fg, t.poll);
      var r := FixedStep(s, cfg, t.fg, t.poll, t.now, pow);
      var rest := FixedRun(r.next, cfg, ticks[1..], pow);
      TickResult(rest.next, r.sends + rest.sends)
  }

  /** `sends` finishes with the messages `z`. */
  predicate EndsWith(sends: seq<OscSend>, z: seq<OscSend>) {
    |z| <= |sends| && sends[|sends| - |z|..] == z
  }

  /** A sequence that ends with `z` still ends with `z` after something is put in front of it. */
  lemma EndsWithAppend(a: seq<OscSend>, b: seq<OscSend>, z: seq<OscSend>)
    requires EndsWith(b, z)
    ensures EndsWith(a + b, z)
  {
    assert (a + b)[|a + b| - |z|..] == b[|b| - |z|..];
  }

  /** One corrected tick with no controller answering: the failsafe decides the sends, and last_ok stays. */
  lemma FixedDisconnectedTick(s: EngineState, cfg: Config, t: TickInput, pow: Power)
    requires PollSafe(cfg, t.poll)
    requires forall i: nat :: t.poll(i).None?
    requires !SuppressActive(cfg, t.fg)
    ensures TickDefined(s, cfg, t.fg, t.poll)
    ensures FixedStep(s, cfg, t.fg, t.poll, t.now, pow).next.lastOk == s.lastOk
    ensures FixedStep(s, cfg, t.fg, t.poll, t.now, pow).sends
         == if t.now - s.lastOk > cfg.failsafeTimeoutSec then ZeroAll(cfg) else []
  {
    PollSafeTickDefined(s, cfg, t.fg, t.poll);
    if s.idx.Some? {
      assert t.poll(s.idx.value).None?;
    }
  }

  /**
   * With the correction, a stretch of ticks in which no controller answers
   * ends with `zero_all` whenever its last tick is past the failsafe timeout.
   */
  lemma {:induction false} FixedDisconnectReachesNeutral(s: EngineState, cfg: Config, ticks: seq<TickInput>, pow: Power)
    requires forall k :: 0 <= k < |ticks| ==> PollSafe(cfg, ticks[k].poll)
    requires forall k, i: nat :: 0 <= k < |ticks| ==> ticks[k].poll(i).None?
    requires forall k :: 0 <= k < |ticks| ==> !SuppressActive(cfg, ticks[k].fg)
    requires ticks != []
    requires ticks[|ticks| - 1].now - s.lastOk > cfg.failsafeTimeoutSec
    ensures EndsWith(FixedRun(s, cfg, ticks, pow).sends, ZeroAll(cfg))
    decreases |ticks|
  {
    var t := ticks[0];
    PollSafeTickDefined(s, cfg, t.fg, t.poll);
    FixedDisconnectedTick(s, cfg, t, pow);
    var r := FixedStep(s, cfg, t.fg, t.poll, t.now, pow);
    var rest := FixedRun(r.next, cfg, ticks[1..], pow);
    assert FixedRun(s, cfg, ticks, pow).sends == r.sends + rest.sends;
    if |ticks| == 1 {
      assert rest.sends == [];
      assert r.sends == ZeroAll(cfg);
      assert r.sends + rest.sends == ZeroAll(cfg);
    } else {
      var later := ticks[1..];
      assert forall k :: 0 <= k < |later| ==> later[k] == ticks[k + 1];
      assert later[|later| - 1] == ticks[|ticks| - 1];
      FixedDisconnectReachesNeutral(r.next, cfg, later, pow);
      EndsWithAppend(r.sends, rest.sends, ZeroAll(cfg));
    }
  }

  /** The engine of `engine_loop`: its cross-tick state and the log of what it has sent. */
  class Engine {
    var prevVoice: int
    var voicePulseUntil: real
    var suppressedPrev: bool
    var lastOk: real
    var idx: Option<nat>
    var log: seq<OscSend>

    /** The fields above, except the log, as the value the tick specification works on. */
    function State(): EngineState
      reads this
    {
      EngineState(prevVoice, voicePulseUntil, suppressedPrev, lastOk, idx)
    }

    /** The set-up before the loop: find a controller, clear the voice and suppression state, start the clock. */
    constructor (poll: Poll, start: real)
      ensures State() == EngineState(0, 0.0, false, start, FirstController(poll))
      ensures log == []
    {
      var first := FindFirstController(poll);
      FirstControllerUnique(poll, first);
      prevVoice, voicePulseUntil, suppressedPrev, lastOk, idx := 0, 0.0, false, start, first;
      log := [];
    }

    /** `osc_f(address, x)`. */
    method SendFloat(address: string, x: real)
      modifies this`log
      ensures log == old(log) + [OscSend(address, FloatArg(x))]
    {
      log := log + [OscSend(address, FloatArg(x))];
    }

    /** `osc_i(address, n)`. */
    method SendInt(address: string, n: int)
      modifies this`log
      ensures log == old(log) + [OscSend(address, IntArg(n))]
    {
      log := log + [OscSend(address, IntArg(n))];
    }

    /** `zero_all`. */
    method ZeroAllSends(cfg: Config)
      modifies this`log
      ensures log == old(log) + ZeroAll(cfg)
    {
      SendFloat(cfg.addrMoveX, 0.0);
      SendFloat(cfg.addrMoveY, 0.0);
      SendFloat(cfg.addrLookX, 0.0);
      SendFloat(cfg.addrLookY, 0.0);
      SendInt(cfg.addrJump, 0);
      SendInt(cfg.addrVoice, 0);
      if cfg.enableGrabTriggers {
        SendFloat(cfg.grabLeftAddr, 0.0);
        SendFloat(cfg.grabRightAddr, 0.0);
      }
    }

    /** Re-acquire a controller, `idx = find_first_controller()`. */
    method Reacquire(poll: Poll)
      modifies this`idx
      ensures idx == FirstController(poll)
    {
      var found := FindFirstController(poll);
      FirstControllerUnique(poll, found);
      idx := found;
    }

    /** One pass of the loop body of `engine_loop`. */
    method Tick(cfg: Config, fg: string, poll: Poll, now: real, pow: Power)
      requires TickDefined(State(), cfg, fg, poll)
      modifies this
      ensures State() == Step(old(State()), cfg, fg, poll, now, pow).next
      ensures log == old(log) + Step(old(State()), cfg, fg, poll, now, pow).sends
    {
      if cfg.suppressWhenForeground {
        if Lower(fg) == Lower(cfg.processName) {
          if !suppressedPrev {
            ZeroAllSends(cfg);
            prevVoice := 0;
            voicePulseUntil := 0.0;
          }
          suppressedPrev := true;
          return;
        }
        suppressedPrev := false;
      }

      PollTick(cfg, poll, now, pow);
    }

    /** The loop body after the suppression check. */
    method PollTick(cfg: Config, poll: Poll, now: real, pow: Power)
      requires idx.Some? && poll(idx.value).Some? ==> MapDefined(poll(idx.value).value, cfg)
      modifies this
      ensures State() == PollStep(old(State()), cfg, poll, now, pow).next
      ensures log == old(log) + PollStep(old(State()), cfg, poll, now, pow).sends
    {
      if idx.None? {
        Reacquire(poll);
        return;
      }

      var st := poll(idx.value);
      if st.None? {
        if now - lastOk > cfg.failsafeTimeoutSec {
          ZeroAllSends(cfg);
        }
        Reacquire(poll);
        return;
      }

      GoodPoll(cfg, st.value, now, pow);
    }

    /** A good poll: record the time, map the snapshot, and send. */
    method GoodPoll(cfg: Config, g: Gamepad, now: real, pow: Power)
      requires MapDefined(g, cfg)
      modifies this
      ensures var m := MapState(g, cfg, pow);
              var v := VoiceStep(cfg, m.voiceDown, old(prevVoice), old(voicePulseUntil), now);
              && State() == old(State()).(lastOk := now, prevVoice := v.prevVoice, voicePulseUntil := v.pulseUntil)
              && log == old(log) + MappedSends(cfg, m, v.sent)
    {
      lastOk := now;
      var m := MapState(g, cfg, pow);
      SendMapped(cfg, m, now);
    }

    /** The sends of mapped input `m`, with the voice pulse/hold block. */
    method SendMapped(cfg: Config, m: Mapped, now: real)
      modifies this`log, this`prevVoice, this`voicePulseUntil
      ensures var v := VoiceStep(cfg, m.voiceDown, old(prevVoice), old(voicePulseUntil), now);
              && prevVoice == v.prevVoice && voicePulseUntil == v.pulseUntil
              && log == old(log) + MappedSends(cfg, m, v.sent)
    {
      ghost var v := VoiceStep(cfg, m.voiceDown, prevVoice, voicePulseUntil, now);
      ghost var sends := MappedSends(cfg, m, v.sent);
      SendFloat(cfg.addrMoveX, m.moveX);
      SendFloat(cfg.addrMoveY, m.moveY);
      SendFloat(cfg.addrLookX, m.lookX);
      SendFloat(cfg.addrLookY, m.lookY);
      SendInt(cfg.addrJump, m.jump);
      SendVoice(cfg, m.voiceDown, now);
      assert log == old(log) + sends[..6];
      if cfg.enableGrabTriggers {
        SendFloat(cfg.grabLeftAddr, m.grabL);
        SendFloat(cfg.grabRightAddr, m.grabR);
        assert sends == sends[..6] + sends[6..];
      } else {
        assert sends == sends[..6];
      }
    }

    /** The voice pulse/hold block: one send on the voice address. */
    method SendVoice(cfg: Config, down: int, now: real)
      modifies this`log, this`prevVoice, this`voicePulseUntil
      ensures var v := VoiceStep(cfg, down, old(prevVoice), old(voicePulseUntil), now);
              && prevVoice == v.prevVoice && voicePulseUntil == v.pulseUntil
              && log == old(log) + [OscSend(cfg.addrVoice, IntArg(v.sent))]
    {
      if IsHoldMode(cfg) {
        SendInt(cfg.addrVoice, down);
      } else {
        if down == 1 && prevVoice == 0 {
          voicePulseUntil := now + PulseWidth;
        }
        SendInt(cfg.addrVoice, if now < voicePulseUntil then 1 else 0);
        prevVoice := down;
      }
    }
  }
}
