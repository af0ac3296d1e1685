/** One controller snapshot and its mapping to motion and action values (main.py `Mapped`, `map_state`). */
module Mapper {
  import opened Normalize
  import opened Buttons
  import opened Settings

  /** `XINPUT_GAMEPAD`; the packet number of `XINPUT_STATE` is never read and is left out. */
  datatype Gamepad = Gamepad(
    buttons: bv16,
    leftTrigger: UInt8,
    rightTrigger: UInt8,
    thumbLX: Int16,
    thumbLY: Int16,
    thumbRX: Int16,
    thumbRY: Int16)

  /** `Mapped`. */
  datatype Mapped = Mapped(
    moveX: real,
    moveY: real,
    lookX: real,
    lookY: real,
    jump: int,
    voiceDown: int,
    grabL: real,
    grabR: real)

  /** One right-stick axis can be curved: it normalises, and the curve does not raise. */
  predicate LookDefined(v: Int16, deadzone: int, gamma: real) {
    ThumbDefined(v, deadzone) && CurveDefined(NormThumb(v, deadzone), gamma)
  }

  /**
   * `map_state` runs to completion: none of its four stick normalisations
   * divides by zero, and neither look axis raises `0.0` to a negative power.
   */
  predicate MapDefined(g: Gamepad, cfg: Config) {
    && ThumbDefined(g.thumbLX, cfg.deadzoneLeft)
    && ThumbDefined(g.thumbLY, cfg.deadzoneLeft)
    && LookDefined(g.thumbRX, cfg.deadzoneRight, cfg.curveGamma)
    && LookDefined(g.thumbRY, cfg.deadzoneRight, cfg.curveGamma)
  }

  /**
   * One look axis before inversion: `apply_curve(norm_thumb(v, deadzone), gamma) * gain`.
   * Inside the deadzone it is 0 whenever the power of 0 is 0; with a linear
   * curve it is the normalised reading times the gain.
   */
  function LookAxis(v: Int16, deadzone: int, gamma: real, gain: real, pow: Power): (r: real)
    requires LookDefined(v, deadzone, gamma)
    ensures Abs(v) <= deadzone && pow(0.0, gamma) == 0.0 ==> r == 0.0
    ensures gamma == 1.0 && IdentityAtOne(pow) ==> r == NormThumb(v, deadzone) * gain
  {
    ApplyCurve(NormThumb(v, deadzone), gamma, pow) * gain
  }

  /**
   * `map_state(st, cfg)`: the left stick gives motion, the right stick the
   * curved and scaled look, two named buttons give jump and voice, and the
   * triggers give grab when grab triggers are enabled.
   */
  function MapState(g: Gamepad, cfg: Config, pow: Power): (m: Mapped)
    requires MapDefined(g, cfg)
    ensures -1.0 <= m.moveX <= 1.0 && -1.0 <= m.moveY <= 1.0
    ensures m.moveX == NormThumb(g.thumbLX, cfg.deadzoneLeft)
    ensures var ly := NormThumb(g.thumbLY, cfg.deadzoneLeft);
            m.moveY == if cfg.moveInvertY then -ly else ly
    ensures m.lookX == LookAxis(g.thumbRX, cfg.deadzoneRight, cfg.curveGamma, cfg.lookGain, pow)
    ensures var lookY := LookAxis(g.thumbRY, cfg.deadzoneRight, cfg.curveGamma, cfg.lookGain, pow);
            m.lookY == if cfg.lookInvertY then -lookY else lookY
    ensures 0 <= m.jump <= 1 && 0 <= m.voiceDown <= 1
    ensures m.jump == IsPressed(g.buttons, cfg.jumpButton) && m.voiceDown == IsPressed(g.buttons, cfg.voiceButton)
    ensures 0.0 <= m.grabL <= 1.0 && 0.0 <= m.grabR <= 1.0
    ensures !cfg.enableGrabTriggers ==> m.grabL == 0.0 && m.grabR == 0.0
    ensures cfg.enableGrabTriggers ==> m.grabL == NormTrigger(g.leftTrigger, cfg.triggerThreshold)
    ensures cfg.enableGrabTriggers ==> m.grabR == NormTrigger(g.rightTrigger, cfg.triggerThreshold)
  {
    var lx := NormThumb(g.thumbLX, cfg.deadzoneLeft);
    var ly := NormThumb(g.thumbLY, cfg.deadzoneLeft);
    var lookX := LookAxis(g.thumbRX, cfg.deadzoneRight, cfg.curveGamma, cfg.lookGain, pow);
    var lookY := LookAxis(g.thumbRY, cfg.deadzoneRight, cfg.curveGamma, cfg.lookGain, pow);
    Mapped(
      lx,
      if cfg.moveInvertY then -ly else ly,
      lookX,
      if cfg.lookInvertY then -lookY else lookY,
      IsPressed(g.buttons, cfg.jumpButton),
      IsPressed(g.buttons, cfg.voiceButton),
      if cfg.enableGrabTriggers then NormTrigger(g.leftTrigger, cfg.triggerThreshold) else 0.0,
      if cfg.enableGrabTriggers then NormTrigger(g.rightTrigger, cfg.triggerThreshold) else 0.0)
  }

  /** `move_invert_y` negates move Y and changes nothing else. */
  lemma MoveInvertOnlyNegatesMoveY(g: Gamepad, cfg: Config, pow: Power)
    requires MapDefined(g, cfg)
    ensures var m := MapState(g, cfg, pow);
            MapState(g, cfg.(moveInvertY := !cfg.moveInvertY), pow) == m.(moveY := -m.moveY)
  {
  }

  /** `look_invert_y` negates look Y and changes nothing else. */
  lemma LookInvertOnlyNegatesLookY(g: Gamepad, cfg: Config, pow: Power)
    requires MapDefined(g, cfg)
    ensures var m := MapState(g, cfg, pow);
            MapState(g, cfg.(lookInvertY := !cfg.lookInvertY), pow) == m.(lookY := -m.lookY)
  {
  }

  /** A centred right stick looks nowhere, whatever the curve and gain, when the power of 0 is 0. */
  lemma CentredLookIsZero(g: Gamepad, cfg: Config, pow: Power)
    requires MapDefined(g, cfg)
    requires Abs(g.thumbRX) <= cfg.deadzoneRight && Abs(g.thumbRY) <= cfg.deadzoneRight
    requires pow(0.0, cfg.curveGamma) == 0.0
    ensures MapState(g, cfg, pow).lookX == 0.0 && MapState(g, cfg, pow).lookY == 0.0
  {
  }

  /** With a linear curve the look values are the normalised right stick times the gain. */
  lemma LinearLook(g: Gamepad, cfg: Config, pow: Power)
    requires MapDefined(g, cfg)
    requires cfg.curveGamma == 1.0 && IdentityAtOne(pow)
    ensures MapState(g, cfg, pow).lookX == NormThumb(g.thumbRX, cfg.deadzoneRight) * cfg.lookGain
    ensures var lookY := NormThumb(g.thumbRY, cfg.deadzoneRight) * cfg.lookGain;
            MapState(g, cfg, pow).lookY == if cfg.lookInvertY then -lookY else lookY
  {
  }
}
