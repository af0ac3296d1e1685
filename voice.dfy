/**
 * The voice output of one tick (main.py `engine_loop`, the pulse/hold block):
 * in hold mode the button state is sent as is; in pulse mode a press (a 0 to 1
 * change of the button) opens a window of 60 ms during which 1 is sent.
 */
module Voice {
  import opened Settings

  /** The pulse width `0.06` seconds. */
  const PulseWidth: real := 0.06

  /** What one tick sends on the voice address, and the voice state after it. */
  datatype VoiceResult = VoiceResult(sent: int, prevVoice: int, pulseUntil: real)

  /** `m.voice_down == 1 and prev_voice == 0`. */
  predicate RisingEdge(down: int, prev: int) {
    down == 1 && prev == 0
  }

  /** The pulse-mode branch. */
  function PulseStep(down: int, prev: int, until: real, now: real): (r: VoiceResult)
    ensures r.prevVoice == down
    ensures RisingEdge(down, prev) ==> r.pulseUntil == now + PulseWidth && r.sent == 1
    ensures !RisingEdge(down, prev) ==> r.pulseUntil == until
    ensures 0 <= r.sent <= 1 && (r.sent == 1 <==> now < r.pulseUntil)
  {
    var until' := if RisingEdge(down, prev) then now + PulseWidth else until;
    VoiceResult(if now < until' then 1 else 0, down, until')
  }

  /**
   * The voice block of one tick: hold mode sends the button state and leaves
   * both `prev_voice` and the pulse expiry alone; every other mode is pulse mode.
   */
  function VoiceStep(cfg: Config, down: int, prev: int, until: real, now: real): (r: VoiceResult)
    ensures IsHoldMode(cfg) ==> r == VoiceResult(down, prev, until)
    ensures !IsHoldMode(cfg) ==> r == PulseStep(down, prev, until, now)
  {
    if IsHoldMode(cfg) then VoiceResult(down, prev, until)
    else PulseStep(down, prev, until, now)
  }

  /** The voice button state and the clock at one tick. */
  datatype Sample = Sample(down: int, now: real)

  /** The voice values sent over consecutive ticks from a given voice state. */
  function VoiceTrace(cfg: Config, prev: int, until: real, samples: seq<Sample>): (r: seq<int>)
    ensures |r| == |samples|
    ensures !IsHoldMode(cfg) ==> forall k :: 0 <= k < |r| ==> 0 <= r[k] <= 1
    ensures (forall k :: 0 <= k < |samples| ==> 0 <= samples[k].down <= 1) ==> forall k :: 0 <= k < |r| ==> 0 <= r[k] <= 1
    decreases |samples|
  {
    if samples == [] then []
    else
      var v := VoiceStep(cfg, samples[0].down, prev, until, samples[0].now);
      [v.sent] + VoiceTrace(cfg, v.prevVoice, v.pulseUntil, samples[1..])
  }

  /** In hold mode the sent values are the button states, tick by tick. */
  lemma {:induction false} HoldTraceIsButton(cfg: Config, prev: int, until: real, samples: seq<Sample>, k: int)
    requires IsHoldMode(cfg)
    requires 0 <= k < |samples|
    ensures VoiceTrace(cfg, prev, until, samples)[k] == samples[k].down
  {
    if k > 0 {
      HoldTraceIsButton(cfg, prev, until, samples[1..], k - 1);
    }
  }

  /** A press that is held on never moves the expiry: 1 is sent exactly while the clock is before it. */
  lemma {:induction false} HeldPressNeverExtends(cfg: Config, until: real, samples: seq<Sample>, k: int)
    requires !IsHoldMode(cfg)
    requires forall j :: 0 <= j < |samples| ==> samples[j].down == 1
    requires 0 <= k < |samples|
    ensures VoiceTrace(cfg, 1, until, samples)[k] == if samples[k].now < until then 1 else 0
  {
    if k > 0 {
      HeldPressNeverExtends(cfg, until, samples[1..], k - 1);
    }
  }

  /** A press held from its first tick on gives 1 exactly during the 60 ms after that tick. */
  lemma PressThenHold(cfg: Config, prev: int, until: real, samples: seq<Sample>, k: int)
    requires !IsHoldMode(cfg)
    requires prev == 0
    requires forall j :: 0 <= j < |samples| ==> samples[j].down == 1
    requires 0 <= k < |samples|
    ensures VoiceTrace(cfg, prev, until, samples)[k] == if samples[k].now < samples[0].now + PulseWidth then 1 else 0
  {
    if k > 0 {
      HeldPressNeverExtends(cfg, samples[0].now + PulseWidth, samples[1..], k - 1);
    }
  }

  /** The button state the tick `j` of a trace compares against. */
  function PrevDown(prev: int, samples: seq<Sample>, j: int): int
    requires 0 <= j < |samples|
  {
    if j == 0 then prev else samples[j - 1].down
  }

  /**
   * In pulse mode every 1 that is sent either falls before the expiry pending
   * at the start, or lies within 60 ms after a press at the same or an earlier tick.
   */
  lemma {:induction false} PulseFollowsPress(cfg: Config, prev: int, until: real, samples: seq<Sample>, k: int)
    requires !IsHoldMode(cfg)
    requires 0 <= k < |samples|
    requires VoiceTrace(cfg, prev, until, samples)[k] == 1
    ensures samples[k].now < until
         || exists j :: 0 <= j <= k && RisingEdge(samples[j].down, PrevDown(prev, samples, j))
                                 && samples[k].now < samples[j].now + PulseWidth
    decreases |samples|
  {
    var v := VoiceStep(cfg, samples[0].down, prev, until, samples[0].now);
    if k == 0 {
      if RisingEdge(samples[0].down, prev) {
        assert RisingEdge(samples[0].down, PrevDown(prev, samples, 0));
      }
    } else {
      var rest := samples[1..];
      PulseFollowsPress(cfg, v.prevVoice, v.pulseUntil, rest, k - 1);
      if rest[k - 1].now < v.pulseUntil {
        if RisingEdge(samples[0].down, prev) {
          assert RisingEdge(samples[0].down, PrevDown(prev, samples, 0));
        }
      } else {
        var j :| 0 <= j <= k - 1 && RisingEdge(rest[j].down, PrevDown(v.prevVoice, rest, j))
                 && rest[k - 1].now < rest[j].now + PulseWidth;
        assert PrevDown(prev, samples, j + 1) == PrevDown(v.prevVoice, rest, j);
      }
    }
  }

  /** With no pulse pending at the start, every 1 sent lies within 60 ms after a press. */
  lemma PulseOnlyAfterPress(cfg: Config, prev: int, until: real, samples: seq<Sample>, k: int)
    requires !IsHoldMode(cfg)
    requires forall j :: 0 <= j < |samples| ==> until <= samples[j].now
    requires 0 <= k < |samples|
    requires VoiceTrace(cfg, prev, until, samples)[k] == 1
    ensures exists j :: 0 <= j <= k && RisingEdge(samples[j].down, PrevDown(prev, samples, j))
                     && samples[k].now < samples[j].now + PulseWidth
  {
    PulseFollowsPress(cfg, prev, until, samples, k);
  }

  /** A release followed by a press is a fresh edge: the expiry is armed again from the press. */
  lemma ReleaseThenPressRearms(cfg: Config, prev: int, until: real, t1: real, t2: real)
    requires !IsHoldMode(cfg)
    ensures var released := VoiceStep(cfg, 0, prev, until, t1);
            var pressed := VoiceStep(cfg, 1, released.prevVoice, released.pulseUntil, t2);
            pressed.pulseUntil == t2 + PulseWidth && pressed.sent == 1
  {
  }
}
