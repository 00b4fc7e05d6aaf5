/**
 * The BroadLink IR light entity of broadlink-ir-mapper/light.py.
 *
 * An infrared LED strip gives no feedback, so the entity keeps its own idea of
 * the strip's state (power, brightness, colour, effect) and turns every request
 * into a sequence of IR codes.  Sending a code is modelled as appending it to a
 * log of sent codes.
 *
 * The pure step functions (BrightnessStep, ColorStep, EffectStep, TurnOnStep,
 * TurnOffStep) say what one request does to the state and which codes it sends;
 * the class BroadLinkIrLight updates its fields step by step and is proved to
 * follow them.
 */
module IrLight {
  import opened Wrappers

  // Keys of the `ir_codes` configuration dictionary.
  const POWER_ON := "power_on"
  const POWER_OFF := "power_off"
  const BRIGHTNESS_UP := "brightness_up"
  const BRIGHTNESS_DOWN := "brightness_down"

  // Home Assistant's legacy light feature flags.
  const SUPPORT_BRIGHTNESS: bv32 := 1
  const SUPPORT_EFFECT: bv32 := 4
  const SUPPORT_COLOR: bv32 := 16

  /** One brightness-step code is sent per this much brightness difference. */
  const BRIGHTNESS_STEP := 25
  /** No request sends more brightness-step codes than this. */
  const MAX_BRIGHTNESS_STEPS := 10

  datatype Rgb = Rgb(r: int, g: int, b: int)

  const WHITE := Rgb(255, 255, 255)

  /** An entry of the `colors` list: a palette colour and the code that selects it. */
  datatype ColorEntry = ColorEntry(name: string, rgb: Rgb, irCode: string)

  /** An entry of the `effects` list. */
  datatype EffectEntry = EffectEntry(name: string, irCode: string)

  /** The configuration the entity keeps: `_ir_codes`, `_colors`, `_effects`. */
  datatype LightConfig = LightConfig(irCodes: map<string, string>, colors: seq<ColorEntry>, effects: seq<EffectEntry>)

  /** The four tracked fields `_state`, `_brightness`, `_rgb_color`, `_effect`. */
  datatype LightState = LightState(on: bool, brightness: int, rgb: Rgb, effect: Option<string>)

  /** The optional keyword arguments of `turn_on`. */
  datatype TurnOnArgs = TurnOnArgs(brightness: Option<int>, rgbColor: Option<Rgb>, effect: Option<string>)

  /** What one request does: the state afterwards and the codes sent, in order. */
  datatype Step = Step(state: LightState, codes: seq<string>)

  /** The state of a newly created entity. */
  const INITIAL_STATE := LightState(false, 255, WHITE, None)

  /** Running `first` and then `second` from the state `first` leaves. */
  function Then(first: Step, second: Step): Step
  {
    Step(second.state, first.codes + second.codes)
  }

  function Abs(x: int): nat { if x < 0 then -x else x }

  function Min(x: nat, y: nat): nat { if x < y then x else y }

  /** `dict.get`: an absent key reads as the empty string, and both are falsy. */
  function Lookup(m: map<string, string>, key: string): string
  {
    if key in m then m[key] else ""
  }

  // ---------------------------------------------------------------------------
  // Supported features and effect list

  /** The supported-features bitmask computed when the entity is created. */
  function FeatureMask(irCodes: map<string, string>, colors: seq<ColorEntry>, effects: seq<EffectEntry>): (mask: bv32)
    ensures ((mask & SUPPORT_BRIGHTNESS) != 0) <==> (BRIGHTNESS_UP in irCodes || BRIGHTNESS_DOWN in irCodes)
    ensures ((mask & SUPPORT_COLOR) != 0) <==> |colors| > 0
    ensures ((mask & SUPPORT_EFFECT) != 0) <==> |effects| > 0
    ensures (mask & !(SUPPORT_BRIGHTNESS | SUPPORT_COLOR | SUPPORT_EFFECT)) == 0
  {
    (if BRIGHTNESS_UP in irCodes || BRIGHTNESS_DOWN in irCodes then SUPPORT_BRIGHTNESS else 0)
    | (if |colors| > 0 then SUPPORT_COLOR else 0)
    | (if |effects| > 0 then SUPPORT_EFFECT else 0)
  }

  /** The names of the configured effects, in order. */
  function EffectList(effects: seq<EffectEntry>): (names: seq<string>)
    ensures |names| == |effects|
    ensures forall i :: 0 <= i < |effects| ==> names[i] == effects[i].name
  {
    seq(|effects|, i requires 0 <= i < |effects| => effects[i].name)
  }

  /** The first effect entry called `name`, if any. */
  function FindEffect(effects: seq<EffectEntry>, name: string): (found: Option<nat>)
    ensures found.Some? ==> found.value < |effects| && effects[found.value].name == name
    ensures found.Some? ==> forall j :: 0 <= j < found.value ==> effects[j].name != name
    ensures found.None? ==> forall j :: 0 <= j < |effects| ==> effects[j].name != name
  {
    if |effects| == 0 then None
    else if effects[0].name == name then Some(0)
    else match FindEffect(effects[1..], name) {
      case None => None
      case Some(i) => Some(i + 1)
    }
  }

  /** An effect request is honoured exactly for the names the entity advertises. */
  lemma FindEffectMatchesEffectList(effects: seq<EffectEntry>, name: string)
    ensures FindEffect(effects, name).Some? <==> name in EffectList(effects)
  {
  }

  // ---------------------------------------------------------------------------
  // Nearest palette colour

  /** The integer squared Euclidean distance between two colours. */
  function SqDist(a: Rgb, b: Rgb): int
  {
    (a.r - b.r) * (a.r - b.r) + (a.g - b.g) * (a.g - b.g) + (a.b - b.b) * (a.b - b.b)
  }

  lemma SqDistZero(a: Rgb, b: Rgb)
    ensures SqDist(a, b) >= 0
    ensures SqDist(a, b) == 0 <==> a == b
  {
  }

  /**
   * The index of the entry nearest to `rgb` among the first `n` entries;
   * Python's `min` keeps the first of several equally near entries.
   */
  function ClosestAmong(colors: seq<ColorEntry>, rgb: Rgb, n: nat): (best: nat)
    requires 0 < n <= |colors|
    ensures best < n
    ensures forall j :: 0 <= j < n ==> SqDist(rgb, colors[best].rgb) <= SqDist(rgb, colors[j].rgb)
    ensures forall j :: 0 <= j < best ==> SqDist(rgb, colors[best].rgb) < SqDist(rgb, colors[j].rgb)
  {
    if n == 1 then 0
    else
      var best := ClosestAmong(colors, rgb, n - 1);
      if SqDist(rgb, colors[n - 1].rgb) < SqDist(rgb, colors[best].rgb) then n - 1 else best
  }

  /** The index of the palette entry `_set_rgb_color` selects for `rgb`. */
  function ClosestColor(colors: seq<ColorEntry>, rgb: Rgb): (best: nat)
    requires |colors| > 0
    ensures best < |colors|
    ensures forall j :: 0 <= j < |colors| ==> SqDist(rgb, colors[best].rgb) <= SqDist(rgb, colors[j].rgb)
    ensures forall j :: 0 <= j < best ==> SqDist(rgb, colors[best].rgb) < SqDist(rgb, colors[j].rgb)
  {
    ClosestAmong(colors, rgb, |colors|)
  }

  /** A requested colour that is in the palette selects its first occurrence. */
  lemma ExactColorSelected(colors: seq<ColorEntry>, rgb: Rgb, k: nat)
    requires k < |colors| && colors[k].rgb == rgb
    requires forall j :: 0 <= j < k ==> colors[j].rgb != rgb
    ensures ClosestColor(colors, rgb) == k
  {
    var best := ClosestColor(colors, rgb);
    SqDistZero(rgb, colors[k].rgb);
    SqDistZero(rgb, colors[best].rgb);
    assert SqDist(rgb, colors[best].rgb) == 0;
  }

  // ---------------------------------------------------------------------------
  // The requests as steps

  /** `n` copies of `code`. */
  function Repeat(code: string, n: nat): seq<string>
  {
    if n == 0 then [] else Repeat(code, n - 1) + [code]
  }

  lemma {:induction false} RepeatShape(code: string, n: nat)
    ensures |Repeat(code, n)| == n
    ensures forall i :: 0 <= i < n ==> Repeat(code, n)[i] == code
  {
    if n > 0 {
      RepeatShape(code, n - 1);
    }
  }

  /** How many brightness-step codes a change from `current` to `target` sends. */
  function StepCount(current: int, target: int): nat
  {
    Min(Abs(target - current) / BRIGHTNESS_STEP, MAX_BRIGHTNESS_STEPS)
  }

  /** `_set_brightness`: only the brightness may change, and at most ten codes are sent. */
  function BrightnessStep(cfg: LightConfig, s: LightState, target: int): (r: Step)
    ensures r.state == s || r.state == s.(brightness := target)
    ensures |r.codes| <= MAX_BRIGHTNESS_STEPS
  {
    if BRIGHTNESS_UP !in cfg.irCodes then Step(s, [])
    else
      var code := if target > s.brightness then Lookup(cfg.irCodes, BRIGHTNESS_UP)
                  else Lookup(cfg.irCodes, BRIGHTNESS_DOWN);
      RepeatShape(code, StepCount(s.brightness, target));
      Step(s.(brightness := target), if code != "" then Repeat(code, StepCount(s.brightness, target)) else [])
  }

  /** `_set_rgb_color`: power and brightness stay, and one code is sent exactly when there is a palette. */
  function ColorStep(cfg: LightConfig, s: LightState, rgb: Rgb): (r: Step)
    ensures r.state.on == s.on && r.state.brightness == s.brightness
    ensures |r.codes| <= 1
    ensures r.codes == [] <==> |cfg.colors| == 0
    ensures |cfg.colors| > 0 ==> r.state.effect == None
  {
    if |cfg.colors| == 0 then Step(s, [])
    else
      var entry := cfg.colors[ClosestColor(cfg.colors, rgb)];
      Step(s.(rgb := entry.rgb, effect := None), [entry.irCode])
  }

  /** `_set_effect`: power, brightness and colour stay, and one code is sent exactly for an advertised name. */
  function EffectStep(cfg: LightConfig, s: LightState, name: string): (r: Step)
    ensures r.state.on == s.on && r.state.brightness == s.brightness && r.state.rgb == s.rgb
    ensures |r.codes| <= 1
    ensures r.codes == [] <==> name !in EffectList(cfg.effects)
    ensures name in EffectList(cfg.effects) ==> r.state.effect == Some(name)
  {
    FindEffectMatchesEffectList(cfg.effects, name);
    match FindEffect(cfg.effects, name) {
      case None => Step(s, [])
      case Some(i) => Step(s.(effect := Some(name)), [cfg.effects[i].irCode])
    }
  }

  /** The power part of `async_turn_on`: the power-on code only when off. */
  function PowerOnStep(cfg: LightConfig, s: LightState): (r: Step)
    requires POWER_ON in cfg.irCodes
    ensures r.state.on && r.state.(on := s.on) == s
    ensures r.codes != [] <==> !s.on
    ensures r.codes != [] ==> r.codes == [cfg.irCodes[POWER_ON]]
  {
    if s.on then Step(s, []) else Step(s.(on := true), [cfg.irCodes[POWER_ON]])
  }

  /** The brightness step when a brightness is requested. */
  function MaybeBrightness(cfg: LightConfig, s: LightState, target: Option<int>): Step
  {
    if target.Some? then BrightnessStep(cfg, s, target.value) else Step(s, [])
  }

  /** The colour step when a colour is requested. */
  function MaybeColor(cfg: LightConfig, s: LightState, rgb: Option<Rgb>): Step
  {
    if rgb.Some? then ColorStep(cfg, s, rgb.value) else Step(s, [])
  }

  /** The effect step when an effect is requested. */
  function MaybeEffect(cfg: LightConfig, s: LightState, name: Option<string>): Step
  {
    if name.Some? then EffectStep(cfg, s, name.value) else Step(s, [])
  }

  /** The argument part of `async_turn_on`: brightness, then colour, then effect. */
  function ApplyArgs(cfg: LightConfig, s: LightState, args: TurnOnArgs): (r: Step)
    ensures r.state.on == s.on
    ensures args.brightness.None? ==> r.state.brightness == s.brightness
    ensures args.rgbColor.None? && args.effect.None? ==> r.state.rgb == s.rgb && r.state.effect == s.effect
    ensures args == TurnOnArgs(None, None, None) ==> r == Step(s, [])
  {
    var b := MaybeBrightness(cfg, s, args.brightness);
    var c := MaybeColor(cfg, b.state, args.rgbColor);
    Then(Then(b, c), MaybeEffect(cfg, c.state, args.effect))
  }

  /** `async_turn_on`. */
  function TurnOnStep(cfg: LightConfig, s: LightState, args: TurnOnArgs): (r: Step)
    requires POWER_ON in cfg.irCodes
    ensures r.state.on
    ensures !s.on ==> |r.codes| > 0 && r.codes[0] == cfg.irCodes[POWER_ON]
  {
    var p := PowerOnStep(cfg, s);
    Then(p, ApplyArgs(cfg, p.state, args))
  }

  /** `async_turn_off`. */
  function TurnOffStep(cfg: LightConfig, s: LightState): (r: Step)
    requires POWER_OFF in cfg.irCodes
    ensures r.codes == [cfg.irCodes[POWER_OFF]]
    ensures !r.state.on && r.state.effect == None
    ensures r.state.brightness == s.brightness && r.state.rgb == s.rgb
  {
    Step(s.(on := false, effect := None), [cfg.irCodes[POWER_OFF]])
  }

  // ---------------------------------------------------------------------------
  // Properties of the steps

  /**
   * Without a brightness-up code nothing happens; otherwise the brightness
   * becomes the target and min(|target - current| / 25, 10) copies of the
   * up code (target above current) or of the down code (otherwise, and none
   * when the chosen code is missing or empty) are sent.
   */
  lemma BrightnessStepSends(cfg: LightConfig, s: LightState, target: int)
    ensures BRIGHTNESS_UP !in cfg.irCodes ==> BrightnessStep(cfg, s, target) == Step(s, [])
    ensures BRIGHTNESS_UP in cfg.irCodes ==> BrightnessStep(cfg, s, target).state == s.(brightness := target)
    ensures BRIGHTNESS_UP in cfg.irCodes && target > s.brightness && cfg.irCodes[BRIGHTNESS_UP] != "" ==>
      var codes := BrightnessStep(cfg, s, target).codes;
      |codes| == Min(Abs(target - s.brightness) / 25, 10) &&
      forall i :: 0 <= i < |codes| ==> codes[i] == cfg.irCodes[BRIGHTNESS_UP]
    ensures BRIGHTNESS_UP in cfg.irCodes && target <= s.brightness &&
            BRIGHTNESS_DOWN in cfg.irCodes && cfg.irCodes[BRIGHTNESS_DOWN] != "" ==>
      var codes := BrightnessStep(cfg, s, target).codes;
      |codes| == Min(Abs(target - s.brightness) / 25, 10) &&
      forall i :: 0 <= i < |codes| ==> codes[i] == cfg.irCodes[BRIGHTNESS_DOWN]
    ensures BRIGHTNESS_UP in cfg.irCodes &&
            Lookup(cfg.irCodes, if target > s.brightness then BRIGHTNESS_UP else BRIGHTNESS_DOWN) == "" ==>
      BrightnessStep(cfg, s, target).codes == []
  {
    RepeatShape(Lookup(cfg.irCodes, BRIGHTNESS_UP), StepCount(s.brightness, target));
    RepeatShape(Lookup(cfg.irCodes, BRIGHTNESS_DOWN), StepCount(s.brightness, target));
  }

  /**
   * With an empty palette nothing happens; otherwise exactly the code of the
   * first nearest entry is sent, the colour becomes that entry's colour and
   * the effect is cleared.
   */
  lemma ColorStepSelects(cfg: LightConfig, s: LightState, rgb: Rgb)
    ensures |cfg.colors| == 0 ==> ColorStep(cfg, s, rgb) == Step(s, [])
    ensures |cfg.colors| > 0 ==>
      exists k :: 0 <= k < |cfg.colors| &&
        (forall j :: 0 <= j < |cfg.colors| ==> SqDist(rgb, cfg.colors[k].rgb) <= SqDist(rgb, cfg.colors[j].rgb)) &&
        (forall j :: 0 <= j < k ==> SqDist(rgb, cfg.colors[k].rgb) < SqDist(rgb, cfg.colors[j].rgb)) &&
        ColorStep(cfg, s, rgb) == Step(s.(rgb := cfg.colors[k].rgb, effect := None), [cfg.colors[k].irCode])
  {
    if |cfg.colors| > 0 {
      var k := ClosestColor(cfg.colors, rgb);
      assert ColorStep(cfg, s, rgb) == Step(s.(rgb := cfg.colors[k].rgb, effect := None), [cfg.colors[k].irCode]);
    }
  }

  /**
   * An unknown effect name changes nothing; a known one sends the code of the
   * first entry with that name and makes it the current effect.
   */
  lemma EffectStepSelects(cfg: LightConfig, s: LightState, name: string)
    ensures name !in EffectList(cfg.effects) ==> EffectStep(cfg, s, name) == Step(s, [])
    ensures name in EffectList(cfg.effects) ==>
      exists k :: 0 <= k < |cfg.effects| && cfg.effects[k].name == name &&
        (forall j :: 0 <= j < k ==> cfg.effects[j].name != name) &&
        EffectStep(cfg, s, name) == Step(s.(effect := Some(name)), [cfg.effects[k].irCode])
  {
    FindEffectMatchesEffectList(cfg.effects, name);
    if name in EffectList(cfg.effects) {
      var k := FindEffect(cfg.effects, name).value;
      assert EffectStep(cfg, s, name) == Step(s.(effect := Some(name)), [cfg.effects[k].irCode]);
    }
  }

  /**
   * `turn_on` leaves the light on. From off it sends the power-on code first;
   * from on it sends only the codes of its arguments.
   */
  lemma TurnOnPowers(cfg: LightConfig, s: LightState, args: TurnOnArgs)
    requires POWER_ON in cfg.irCodes
    ensures TurnOnStep(cfg, s, args).state.on
    ensures !s.on ==> TurnOnStep(cfg, s, args).codes == [cfg.irCodes[POWER_ON]] + ApplyArgs(cfg, s.(on := true), args).codes
    ensures s.on ==> TurnOnStep(cfg, s, args) == ApplyArgs(cfg, s, args)
  {
  }

  /** `turn_on` without arguments on a light that is on sends nothing and changes nothing. */
  lemma TurnOnWhenOnIsIdle(cfg: LightConfig, s: LightState)
    requires POWER_ON in cfg.irCodes && s.on
    ensures TurnOnStep(cfg, s, TurnOnArgs(None, None, None)) == Step(s, [])
  {
  }

  /**
   * When both a colour and an existing effect are requested, the effect wins:
   * the colour step clears the effect and the effect step, which runs after it,
   * sets it again.
   */
  lemma TurnOnEffectAfterColor(cfg: LightConfig, s: LightState, args: TurnOnArgs)
    requires POWER_ON in cfg.irCodes
    requires args.rgbColor.Some? && args.effect.Some?
    requires args.effect.value in EffectList(cfg.effects)
    ensures TurnOnStep(cfg, s, args).state.effect == Some(args.effect.value)
  {
  }

  /** A colour request without an effect, on a non-empty palette, clears the effect. */
  lemma TurnOnColorClearsEffect(cfg: LightConfig, s: LightState, args: TurnOnArgs)
    requires POWER_ON in cfg.irCodes
    requires args.rgbColor.Some? && args.effect.None? && |cfg.colors| > 0
    ensures TurnOnStep(cfg, s, args).state.effect == None
    ensures TurnOnStep(cfg, s, args).state.rgb in PaletteColors(cfg.colors)
  {
  }

  /** A second `turn_off` sends the power-off code again but leaves the state as the first one left it. */
  lemma TurnOffIdempotent(cfg: LightConfig, s: LightState)
    requires POWER_OFF in cfg.irCodes
    ensures TurnOffStep(cfg, TurnOffStep(cfg, s).state).state == TurnOffStep(cfg, s).state
    ensures TurnOffStep(cfg, TurnOffStep(cfg, s).state).codes == TurnOffStep(cfg, s).codes
  {
  }

  // ---------------------------------------------------------------------------
  // The state invariant

  /** The colours of the palette, in order. */
  function PaletteColors(colors: seq<ColorEntry>): (rgbs: seq<Rgb>)
    ensures |rgbs| == |colors|
    ensures forall i :: 0 <= i < |colors| ==> rgbs[i] == colors[i].rgb
  {
    seq(|colors|, i requires 0 <= i < |colors| => colors[i].rgb)
  }

  /**
   * What every reachable state satisfies: the colour is the initial white or a
   * palette colour, the effect is absent or an advertised effect name, and the
   * brightness is within 0..255.
   */
  predicate Consistent(cfg: LightConfig, s: LightState)
  {
    (s.rgb == WHITE || s.rgb in PaletteColors(cfg.colors)) &&
    (s.effect.Some? ==> s.effect.value in EffectList(cfg.effects)) &&
    0 <= s.brightness <= 255
  }

  /** Home Assistant passes brightness values within 0..255. */
  predicate ArgsInRange(args: TurnOnArgs)
  {
    args.brightness.Some? ==> 0 <= args.brightness.value <= 255
  }

  lemma InitialConsistent(cfg: LightConfig)
    ensures Consistent(cfg, INITIAL_STATE)
  {
  }

  lemma ColorStepConsistent(cfg: LightConfig, s: LightState, rgb: Rgb)
    requires Consistent(cfg, s)
    ensures Consistent(cfg, ColorStep(cfg, s, rgb).state)
  {
  }

  lemma EffectStepConsistent(cfg: LightConfig, s: LightState, name: string)
    requires Consistent(cfg, s)
    ensures Consistent(cfg, EffectStep(cfg, s, name).state)
  {
  }

  /** `turn_on` with in-range arguments keeps the state consistent. */
  lemma TurnOnConsistent(cfg: LightConfig, s: LightState, args: TurnOnArgs)
    requires POWER_ON in cfg.irCodes && ArgsInRange(args) && Consistent(cfg, s)
    ensures Consistent(cfg, TurnOnStep(cfg, s, args).state)
  {
  }

  lemma TurnOffConsistent(cfg: LightConfig, s: LightState)
    requires POWER_OFF in cfg.irCodes && Consistent(cfg, s)
    ensures Consistent(cfg, TurnOffStep(cfg, s).state)
  {
  }

  // ---------------------------------------------------------------------------
  // The entity

  /** `BroadLinkIRLight`: configuration set at creation, four tracked fields, a log of sent codes. */
  class BroadLinkIrLight {
    const name: string
    const remote: string
    const irCodes: map<string, string>
    const colors: seq<ColorEntry>
    const effects: seq<EffectEntry>
    const uniqueId: Option<string>
    const supportedFeatures: bv32

    var isOn: bool
    var brightness: int
    var rgbColor: Rgb
    var effect: Option<string>
    /** The codes handed to the BroadLink remote, oldest first. */
    var sent: seq<string>

    function Config(): LightConfig
    {
      LightConfig(irCodes, colors, effects)
    }

    function State(): LightState
      reads this
    {
      LightState(isOn, brightness, rgbColor, effect)
    }

    constructor (name: string, remote: string, irCodes: map<string, string>,
                 colors: seq<ColorEntry>, effects: seq<EffectEntry>, uniqueId: Option<string>)
      ensures this.name == name && this.remote == remote && this.uniqueId == uniqueId
      ensures Config() == LightConfig(irCodes, colors, effects)
      ensures !isOn && brightness == 255 && rgbColor == WHITE && effect == None
      ensures State() == INITIAL_STATE
      ensures supportedFeatures == FeatureMask(irCodes, colors, effects)
      ensures sent == []
    {
      this.name := name;
      this.remote := remote;
      this.irCodes := irCodes;
      this.colors := colors;
      this.effects := effects;
      this.uniqueId := uniqueId;
      isOn := false;
      brightness := 255;
      rgbColor := WHITE;
      effect := None;
      sent := [];
      var features: bv32 := 0;
      if BRIGHTNESS_UP in irCodes || BRIGHTNESS_DOWN in irCodes {
        features := features | SUPPORT_BRIGHTNESS;
      }
      if |colors| > 0 {
        features := features | SUPPORT_COLOR;
      }
      if |effects| > 0 {
        features := features | SUPPORT_EFFECT;
      }
      supportedFeatures := features;
    }

    /** `effect_list`; what the list holds is the contract of `EffectList`. */
    function EffectNames(): (names: seq<string>)
      ensures names == EffectList(effects)
    {
      EffectList(effects)
    }

    /** `_send_ir_command`: the code goes to the remote; a failure is only logged. */
    method SendIrCommand(code: string)
      modifies this`sent
      ensures sent == old(sent) + [code]
    {
      sent := sent + [code];
    }

    /** `_set_brightness`. */
    method SetBrightness(target: int)
      modifies this`sent, this`brightness
      ensures State() == BrightnessStep(Config(), old(State()), target).state
      ensures sent == old(sent) + BrightnessStep(Config(), old(State()), target).codes
    {
      if BRIGHTNESS_UP !in irCodes {
        return;
      }
      var current := brightness;
      var steps := Abs(target - current) / BRIGHTNESS_STEP;
      var code := if target > current then Lookup(irCodes, BRIGHTNESS_UP) else Lookup(irCodes, BRIGHTNESS_DOWN);
      if code != "" {
        var n := Min(steps, MAX_BRIGHTNESS_STEPS);
        var i := 0;
        while i < n
          invariant 0 <= i <= n
          invariant brightness == current
          invariant sent == old(sent) + Repeat(code, i)
        {
          SendIrCommand(code);
          i := i + 1;
        }
      }
      brightness := target;
    }

    /** `_set_rgb_color`. */
    method SetRgbColor(rgb: Rgb)
      modifies this`sent, this`rgbColor, this`effect
      ensures State() == ColorStep(Config(), old(State()), rgb).state
      ensures sent == old(sent) + ColorStep(Config(), old(State()), rgb).codes
    {
      if |colors| == 0 {
        return;
      }
      var closest := colors[ClosestColor(colors, rgb)];
      SendIrCommand(closest.irCode);
      rgbColor := closest.rgb;
      effect := None;
    }

    /** `_set_effect`. */
    method SetEffect(effectName: string)
      modifies this`sent, this`effect
      ensures State() == EffectStep(Config(), old(State()), effectName).state
      ensures sent == old(sent) + EffectStep(Config(), old(State()), effectName).codes
    {
      var found := FindEffect(effects, effectName);
      if found.None? {
        return;
      }
      SendIrCommand(effects[found.value].irCode);
      effect := Some(effectName);
    }

    /** `async_turn_on`. */
    method TurnOn(args: TurnOnArgs)
      requires POWER_ON in irCodes
      modifies this`sent, this`isOn, this`brightness, this`rgbColor, this`effect
      ensures State() == TurnOnStep(Config(), old(State()), args).state
      ensures sent == old(sent) + TurnOnStep(Config(), old(State()), args).codes
    {
      if !isOn {
        SendIrCommand(irCodes[POWER_ON]);
        isOn := true;
      }
      ApplyTurnOnArgs(args);
    }

    /** The keyword-argument handling of `async_turn_on`. */
    method ApplyTurnOnArgs(args: TurnOnArgs)
      modifies this`sent, this`brightness, this`rgbColor, this`effect
      ensures State() == ApplyArgs(Config(), old(State()), args).state
      ensures sent == old(sent) + ApplyArgs(Config(), old(State()), args).codes
    {
      ghost var b := MaybeBrightness(Config(), State(), args.brightness);
      if args.brightness.Some? {
        SetBrightness(args.brightness.value);
      }
      ghost var afterBrightness := sent;
      assert State() == b.state && afterBrightness == old(sent) + b.codes;
      ghost var c := MaybeColor(Config(), State(), args.rgbColor);
      if args.rgbColor.Some? {
        SetRgbColor(args.rgbColor.value);
      }
      ghost var afterColor := sent;
      assert State() == c.state && afterColor == afterBrightness + c.codes;
      ghost var e := MaybeEffect(Config(), State(), args.effect);
      if args.effect.Some? {
        SetEffect(args.effect.value);
      }
      assert sent == old(sent) + (b.codes + c.codes + e.codes);
    }

    /** `async_turn_off`. */
    method TurnOff()
      requires POWER_OFF in irCodes
      modifies this`sent, this`isOn, this`effect
      ensures State() == TurnOffStep(Config(), old(State())).state
      ensures sent == old(sent) + TurnOffStep(Config(), old(State())).codes
    {
      SendIrCommand(irCodes[POWER_OFF]);
      isOn := false;
      effect := None;
    }
  }
}
