/**
 * The configuration snapshot (main.py `DEFAULT_CONFIG`) and the
 * normalisation the settings window applies before saving (`App.gather`).
 * Every field is already typed; Python's `int(float(x))`, `float(x)` and
 * `bool(x)` conversions of the form values are not modelled.
 */
module Settings {

  datatype Config = Config(
    vrcIp: string,
    vrcPort: int,
    hz: int,
    deadzoneLeft: int,
    deadzoneRight: int,
    triggerThreshold: int,
    moveInvertY: bool,
    lookGain: real,
    lookInvertY: bool,
    curveGamma: real,
    failsafeTimeoutSec: real,
    jumpButton: string,
    voiceButton: string,
    voiceMode: string,
    enableGrabTriggers: bool,
    grabLeftAddr: string,
    grabRightAddr: string,
    addrMoveX: string,
    addrMoveY: string,
    addrLookX: string,
    addrLookY: string,
    addrJump: string,
    addrVoice: string,
    suppressWhenForeground: bool,
    processName: string)

  /** `DEFAULT_CONFIG`. */
  const DefaultConfig: Config := Config(
    "127.0.0.1", 9000, 60,
    7849, 8689, 30,
    false, 1.0, false, 1.0,
    0.25,
    "A", "Y", "pulse",
    true, "/input/GrabLeft", "/input/GrabRight",
    "/input/Horizontal", "/input/Vertical", "/input/LookHorizontal", "/input/LookVertical",
    "/input/Jump", "/input/Voice",
    true, "VRChat.exe")

  const PulseMode: string := "pulse"
  const HoldMode: string := "hold"

  /** Python's `str.lower()` on one character, for the ASCII letters. */
  function LowerChar(c: char): (r: char)
    ensures !('A' <= r <= 'Z')
    ensures 'a' <= r <= 'z' <==> 'A' <= c <= 'Z' || 'a' <= c <= 'z'
    ensures 'A' <= c <= 'Z' ==> r as int == c as int + 32
    ensures !('A' <= c <= 'Z') ==> r == c
  {
    if 'A' <= c <= 'Z' then (c as int + 32) as char else c
  }

  /** Python's `str.lower()` (ASCII letters only). */
  function Lower(s: string): (r: string)
    ensures |r| == |s|
    ensures forall i :: 0 <= i < |r| ==> !('A' <= r[i] <= 'Z')
    ensures forall i :: 0 <= i < |r| ==> r[i] == s[i] || (('A' <= s[i] <= 'Z') && r[i] as int == s[i] as int + 32)
  {
    seq(|s|, i requires 0 <= i < |s| => LowerChar(s[i]))
  }

  /** A string with no upper-case ASCII letter is its own lower case. */
  lemma {:induction false} LowerOfLower(s: string)
    requires forall i :: 0 <= i < |s| ==> !('A' <= s[i] <= 'Z')
    ensures Lower(s) == s
  {
    assert forall i :: 0 <= i < |s| ==> Lower(s)[i] == s[i];
  }

  /** Lower-casing twice is lower-casing once. */
  lemma LowerIdempotent(s: string)
    ensures Lower(Lower(s)) == Lower(s)
  {
    LowerOfLower(Lower(s));
  }

  /** Python's case-insensitive comparison `a.lower() == b.lower()`. */
  predicate SameIgnoringCase(a: string, b: string) {
    Lower(a) == Lower(b)
  }

  /**
   * The engine's reading of the mode: `str(cfg.get("voice_mode")).lower() == "hold"`,
   * that is, the mode is "hold" up to the case of its letters.
   */
  function IsHoldMode(cfg: Config): (b: bool)
    ensures b <==> SameIgnoringCase(cfg.voiceMode, HoldMode)
    ensures cfg.voiceMode == HoldMode ==> b
    ensures cfg.voiceMode == PulseMode ==> !b
  {
    LowerOfLower(HoldMode);
    LowerOfLower(PulseMode);
    Lower(cfg.voiceMode) == HoldMode
  }

  /**
   * `App.gather`: the mode is lower-cased and anything but `"pulse"` or `"hold"`
   * becomes `"pulse"`; the two grab addresses are reset to their defaults,
   * which the settings window does not let one edit.
   */
  function Gather(form: Config): (r: Config)
    ensures r.voiceMode == PulseMode || r.voiceMode == HoldMode
    ensures r.voiceMode == HoldMode <==> Lower(form.voiceMode) == HoldMode
    ensures r.grabLeftAddr == DefaultConfig.grabLeftAddr
    ensures r.grabRightAddr == DefaultConfig.grabRightAddr
    ensures r.(voiceMode := form.voiceMode, grabLeftAddr := form.grabLeftAddr, grabRightAddr := form.grabRightAddr) == form
  {
    var mode := Lower(form.voiceMode);
    var mode := if mode == PulseMode || mode == HoldMode then mode else PulseMode;
    form.(voiceMode := mode,
          grabLeftAddr := DefaultConfig.grabLeftAddr,
          grabRightAddr := DefaultConfig.grabRightAddr)
  }

  /** Gathering an already gathered configuration changes nothing. */
  lemma GatherIdempotent(form: Config)
    ensures Gather(Gather(form)) == Gather(form)
  {
    var once := Gather(form);
    LowerOfLower(once.voiceMode);
  }

  /** The defaults are already in gathered form. */
  lemma GatherKeepsDefaults()
    ensures Gather(DefaultConfig) == DefaultConfig
  {
    LowerOfLower(DefaultConfig.voiceMode);
  }

  /** Gathering never changes how the engine reads the voice mode. */
  lemma GatherKeepsEngineMode(form: Config)
    ensures IsHoldMode(Gather(form)) == IsHoldMode(form)
  {
    LowerOfLower(HoldMode);
    LowerOfLower(PulseMode);
  }
}
