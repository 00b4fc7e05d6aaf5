/**
 * The dashboard card of rgb-light-button-card/rgb-light-button-card.js.
 *
 * The card keeps the configuration it was given and the last Home Assistant
 * state object it was handed, renders a panel (power button, brightness
 * slider, colour buttons, effect buttons) and turns each interaction into one
 * `light` service call.  The markup itself is not modelled: a render model
 * records what the markup shows (which sections, which buttons, which are
 * disabled, the brightness readout).
 */
module LightCard {
  import opened Wrappers

  /** An entry of the `colors` option: a label and an RGB triple. */
  datatype ColorButton = ColorButton(name: string, rgb: seq<int>)

  /** An entry of the `effects` option: a label and the effect id sent to the light. */
  datatype EffectButton = EffectButton(name: string, effect: string)

  /**
   * The options object handed to `setConfig`; `None` stands for an absent (or
   * otherwise falsy) value.  Options the card does not read are not modelled.
   */
  datatype RawConfig = RawConfig(
    entity: Option<string>,
    colors: Option<seq<ColorButton>>,
    effects: Option<seq<EffectButton>>,
    showBrightness: Option<bool>,
    showEffects: Option<bool>,
    columns: Option<int>,
    title: Option<string>)

  /** The configuration stored by `setConfig`, every default applied. */
  datatype CardConfig = CardConfig(
    entity: string,
    colors: seq<ColorButton>,
    effects: seq<EffectButton>,
    showBrightness: bool,
    showEffects: bool,
    columns: int,
    title: string)

  /** The parts of a Home Assistant state object the card reads. */
  datatype EntityState = EntityState(state: string, brightness: Option<int>, friendlyName: Option<string>)

  /** `hass.states`: state objects by entity id. */
  type States = map<string, EntityState>

  /** The payload of a `light` service call besides `entity_id`. */
  datatype Payload = NoPayload | BrightnessPayload(brightness: int) | RgbPayload(rgb: seq<int>) | EffectPayload(effect: string)

  /** One `hass.callService(domain, service, data)`. */
  datatype ServiceCall = ServiceCall(domain: string, service: string, entityId: string, payload: Payload)

  /** What the rendered panel shows. */
  datatype RenderModel = RenderModel(
    showTitle: bool,
    title: string,
    isOn: bool,
    powerLabel: string,
    displayName: string,
    showBrightness: bool,
    brightnessDisabled: bool,
    brightnessPercent: int,
    sliderValue: int,
    columns: int,
    colorButtons: seq<ColorButton>,
    colorsDisabled: bool,
    showEffects: bool,
    effectButtons: seq<EffectButton>,
    effectsDisabled: bool)

  /** The content of the card's shadow root. */
  datatype View = Empty | NotFound(entityId: string) | Panel(model: RenderModel)

  /** A pointer interaction (click or drag) with a control of the panel. */
  datatype Interaction = PowerClick | SliderInput(value: int) | ColorClick(index: int) | EffectClick(index: int)

  const CONFIG_ERROR := "You need to define an entity"
  const DEFAULT_COLUMNS := 4
  const CARD_SIZE := 5

  /** The palette of a typical cheap LED remote. */
  const DEFAULT_COLORS: seq<ColorButton> := [
    ColorButton("Red", [255, 0, 0]),
    ColorButton("Green", [0, 255, 0]),
    ColorButton("Blue", [0, 0, 255]),
    ColorButton("White", [255, 255, 255]),
    ColorButton("Orange", [255, 165, 0]),
    ColorButton("Cyan", [0, 255, 255]),
    ColorButton("Purple", [128, 0, 128]),
    ColorButton("Yellow", [255, 255, 0]),
    ColorButton("Pink", [255, 192, 203]),
    ColorButton("Lime", [0, 255, 0]),
    ColorButton("Magenta", [255, 0, 255]),
    ColorButton("Warm White", [255, 230, 180])
  ]

  const DEFAULT_EFFECTS: seq<EffectButton> := [
    EffectButton("Flash", "flash"),
    EffectButton("Strobe", "strobe"),
    EffectButton("Fade", "fade"),
    EffectButton("Smooth", "smooth")
  ]

  // ---------------------------------------------------------------------------
  // Configuration

  /**
   * `setConfig`: rejects a missing or empty entity, otherwise keeps every
   * given option and fills in the defaults.  JavaScript's `||` keeps an
   * explicitly given empty list (arrays are truthy) but replaces a zero
   * column count and an empty title; the two flags are true unless given
   * as `false`.
   */
  function Configure(raw: RawConfig): (r: Result<CardConfig, string>)
    ensures r.Err? <==> raw.entity == None || raw.entity == Some("")
    ensures r.Err? ==> r.error == CONFIG_ERROR
    ensures r.Ok? ==> r.value.entity == raw.entity.value && r.value.entity != ""
    ensures r.Ok? ==> r.value.colors == (if raw.colors.Some? then raw.colors.value else DEFAULT_COLORS)
    ensures r.Ok? ==> r.value.effects == (if raw.effects.Some? then raw.effects.value else DEFAULT_EFFECTS)
    ensures r.Ok? ==> (r.value.showBrightness <==> raw.showBrightness != Some(false))
    ensures r.Ok? ==> (r.value.showEffects <==> raw.showEffects != Some(false))
    ensures r.Ok? ==> r.value.columns != 0
    ensures r.Ok? && raw.columns.Some? && raw.columns.value != 0 ==> r.value.columns == raw.columns.value
    ensures r.Ok? && (raw.columns.None? || raw.columns == Some(0)) ==> r.value.columns == DEFAULT_COLUMNS
    ensures r.Ok? && raw.title.Some? ==> r.value.title == raw.title.value
    ensures r.Ok? && raw.title.None? ==> r.value.title == ""
  {
    match raw.entity
    case None => Err(CONFIG_ERROR)
    case Some(entity) =>
      if entity == "" then Err(CONFIG_ERROR)
      else Ok(CardConfig(
        entity,
        match raw.colors { case Some(c) => c case None => DEFAULT_COLORS },
        match raw.effects { case Some(e) => e case None => DEFAULT_EFFECTS },
        raw.showBrightness != Some(false),
        raw.showEffects != Some(false),
        match raw.columns { case Some(n) => if n != 0 then n else DEFAULT_COLUMNS case None => DEFAULT_COLUMNS },
        match raw.title { case Some(t) => t case None => "" }))
  }

  /** A stored configuration written back as options, every key present. */
  function AsRaw(cfg: CardConfig): RawConfig
  {
    RawConfig(Some(cfg.entity), Some(cfg.colors), Some(cfg.effects), Some(cfg.showBrightness),
              Some(cfg.showEffects), Some(cfg.columns), Some(cfg.title))
  }

  /** Configuring with an already configured result changes nothing: the defaults are a fixed point. */
  lemma ConfigureIdempotent(raw: RawConfig)
    requires Configure(raw).Ok?
    ensures Configure(AsRaw(Configure(raw).value)) == Configure(raw)
  {
  }

  // ---------------------------------------------------------------------------
  // Rendering

  /**
   * `Math.round(brightness / 255 * 100)`.  For an integer brightness the
   * quotient is never exactly halfway between two integers, so the rounding
   * is the integer division below.
   */
  function BrightnessPercent(brightness: int): (percent: int)
    ensures 255 * percent - 127 <= 100 * brightness <= 255 * percent + 127
  {
    (100 * brightness + 127) / 255
  }

  /** The percentage is the one integer nearest to brightness * 100 / 255, and stays within 0..100. */
  lemma BrightnessPercentFacts(brightness: int, q: int)
    ensures 255 * q - 127 <= 100 * brightness <= 255 * q + 127 ==> q == BrightnessPercent(brightness)
    ensures 0 <= brightness <= 255 ==> 0 <= BrightnessPercent(brightness) <= 100
    ensures BrightnessPercent(0) == 0 && BrightnessPercent(255) == 100
  {
  }

  /** A larger brightness never shows a smaller percentage. */
  lemma BrightnessPercentMonotonic(b1: int, b2: int)
    requires b1 <= b2
    ensures BrightnessPercent(b1) <= BrightnessPercent(b2)
  {
  }

  /** `state.attributes.brightness || 0`. */
  function RawBrightness(st: EntityState): int
  {
    match st.brightness { case Some(b) => b case None => 0 }
  }

  /** The values `render` derives from the configuration and the entity's state. */
  function Render(cfg: CardConfig, st: EntityState): (m: RenderModel)
    ensures m.isOn <==> st.state == "on"
    ensures m.brightnessDisabled == m.colorsDisabled == m.effectsDisabled == !m.isOn
    ensures m.showBrightness == cfg.showBrightness && m.showEffects == cfg.showEffects
    ensures m.brightnessPercent == BrightnessPercent(m.sliderValue)
    ensures st.brightness.Some? ==> m.sliderValue == st.brightness.value
    ensures st.brightness.None? ==> m.sliderValue == 0 && m.brightnessPercent == 0
    ensures m.powerLabel == (if m.isOn then "ON" else "OFF")
    ensures st.friendlyName.Some? && st.friendlyName.value != "" ==> m.displayName == st.friendlyName.value
    ensures st.friendlyName.None? || st.friendlyName == Some("") ==> m.displayName == cfg.entity
    ensures |m.colorButtons| == |cfg.colors|
    ensures forall i :: 0 <= i < |cfg.colors| ==> m.colorButtons[i] == cfg.colors[i]
    ensures |m.effectButtons| == (if cfg.showEffects then |cfg.effects| else 0)
    ensures forall i :: 0 <= i < |m.effectButtons| ==> m.effectButtons[i] == cfg.effects[i]
    ensures m.columns == cfg.columns
    ensures m.showTitle <==> cfg.title != ""
    ensures m.title == cfg.title
  {
    var isOn := st.state == "on";
    var brightness := RawBrightness(st);
    RenderModel(
      cfg.title != "",
      cfg.title,
      isOn,
      if isOn then "ON" else "OFF",
      match st.friendlyName { case Some(n) => if n != "" then n else cfg.entity case None => cfg.entity },
      cfg.showBrightness,
      !isOn,
      BrightnessPercent(brightness),
      brightness,
      cfg.columns,
      cfg.colors,
      !isOn,
      cfg.showEffects,
      if cfg.showEffects then cfg.effects else [],
      !isOn)
  }

  /** The branches of the `hass` setter once a configuration is set. */
  function ViewFor(cfg: CardConfig, states: States): (v: View)
    ensures cfg.entity !in states ==> v == NotFound(cfg.entity)
    ensures cfg.entity in states ==> v.Panel? && v.model == Render(cfg, states[cfg.entity])
  {
    if cfg.entity !in states then NotFound(cfg.entity) else Panel(Render(cfg, states[cfg.entity]))
  }

  // ---------------------------------------------------------------------------
  // Commands

  /** `togglePower`. */
  function TogglePower(entity: string, current: EntityState): (call: ServiceCall)
    ensures call.domain == "light" && call.entityId == entity && call.payload == NoPayload
    ensures call.service == "turn_off" <==> current.state == "on"
    ensures call.service == "turn_on" <==> current.state != "on"
  {
    ServiceCall("light", if current.state == "on" then "turn_off" else "turn_on", entity, NoPayload)
  }

  /** `setBrightness`: the slider's integer value. */
  function SetBrightness(entity: string, value: int): (call: ServiceCall)
    ensures call.domain == "light" && call.service == "turn_on" && call.entityId == entity
    ensures call.payload.BrightnessPayload? && call.payload.brightness == value
  {
    ServiceCall("light", "turn_on", entity, BrightnessPayload(value))
  }

  /** `setColor`: the button's RGB triple. */
  function SetColor(entity: string, rgb: seq<int>): (call: ServiceCall)
    ensures call.domain == "light" && call.service == "turn_on" && call.entityId == entity
    ensures call.payload.RgbPayload? && call.payload.rgb == rgb
  {
    ServiceCall("light", "turn_on", entity, RgbPayload(rgb))
  }

  /** `setEffect`: the button's effect id. */
  function SetEffect(entity: string, effect: string): (call: ServiceCall)
    ensures call.domain == "light" && call.service == "turn_on" && call.entityId == entity
    ensures call.payload.EffectPayload? && call.payload.effect == effect
  {
    ServiceCall("light", "turn_on", entity, EffectPayload(effect))
  }

  /**
   * The service call a pointer interaction (click, drag) with the shown view
   * causes, if any.  A control that is not rendered cannot be used, and a
   * disabled section (`pointer-events: none`) lets no pointer input through.  The handlers read the
   * card's current configuration and states when they run, as the listeners
   * bound by `attachEventListeners` do; a handler that would fail on a
   * missing entry issues nothing.
   */
  function Respond(cfg: CardConfig, states: States, view: View, i: Interaction): (r: Option<ServiceCall>)
    ensures !view.Panel? ==> r == None
    ensures r.Some? ==> r.value.domain == "light" && r.value.entityId == cfg.entity
    ensures r.Some? && i.PowerClick? ==> cfg.entity in states
    ensures r.Some? && i.SliderInput? ==> view.model.showBrightness && !view.model.brightnessDisabled
    ensures r.Some? && i.ColorClick? ==>
      !view.model.colorsDisabled && 0 <= i.index < |view.model.colorButtons| && i.index < |cfg.colors|
    ensures r.Some? && i.EffectClick? ==>
      view.model.showEffects && !view.model.effectsDisabled &&
      0 <= i.index < |view.model.effectButtons| && i.index < |cfg.effects|
  {
    match view
    case Empty => None
    case NotFound(_) => None
    case Panel(m) =>
      match i
      case PowerClick =>
        if cfg.entity in states then Some(TogglePower(cfg.entity, states[cfg.entity])) else None
      case SliderInput(v) =>
        if m.showBrightness && !m.brightnessDisabled then Some(SetBrightness(cfg.entity, v)) else None
      case ColorClick(k) =>
        if 0 <= k < |m.colorButtons| && k < |cfg.colors| && !m.colorsDisabled
        then Some(SetColor(cfg.entity, cfg.colors[k].rgb)) else None
      case EffectClick(k) =>
        if m.showEffects && 0 <= k < |m.effectButtons| && k < |cfg.effects| && !m.effectsDisabled
        then Some(SetEffect(cfg.entity, cfg.effects[k].effect)) else None
  }

  /** Every call the card makes is a `light.turn_on` or `light.turn_off` for the configured entity. */
  lemma CallsTargetEntity(cfg: CardConfig, states: States, view: View, i: Interaction)
    ensures Respond(cfg, states, view, i).Some? ==>
      var call := Respond(cfg, states, view, i).value;
      call.domain == "light" && call.entityId == cfg.entity &&
      (call.service == "turn_on" || call.service == "turn_off")
  {
  }

  /** A placeholder for a missing entity offers no control at all. */
  lemma MissingEntityIsInert(cfg: CardConfig, states: States, i: Interaction)
    requires cfg.entity !in states
    ensures ViewFor(cfg, states) == NotFound(cfg.entity)
    ensures Respond(cfg, states, ViewFor(cfg, states), i) == None
  {
  }

  /** While the light is not on, only the power button reacts to pointer input, and it turns the light on. */
  lemma OffPanelOnlyPowers(cfg: CardConfig, states: States, i: Interaction)
    requires cfg.entity in states && states[cfg.entity].state != "on"
    ensures i.PowerClick? ==>
      Respond(cfg, states, ViewFor(cfg, states), i) == Some(ServiceCall("light", "turn_on", cfg.entity, NoPayload))
    ensures !i.PowerClick? ==> Respond(cfg, states, ViewFor(cfg, states), i) == None
  {
  }

  /**
   * While the light is on, the power button turns it off and each shown
   * slider, colour button and effect button issues exactly its own
   * `light.turn_on`.
   */
  lemma OnPanelCommands(cfg: CardConfig, states: States, i: Interaction)
    requires cfg.entity in states && states[cfg.entity].state == "on"
    ensures var r := Respond(cfg, states, ViewFor(cfg, states), i);
      match i
      case PowerClick => r == Some(ServiceCall("light", "turn_off", cfg.entity, NoPayload))
      case SliderInput(v) =>
        r == (if cfg.showBrightness then Some(ServiceCall("light", "turn_on", cfg.entity, BrightnessPayload(v))) else None)
      case ColorClick(k) =>
        r == (if 0 <= k < |cfg.colors| then Some(ServiceCall("light", "turn_on", cfg.entity, RgbPayload(cfg.colors[k].rgb))) else None)
      case EffectClick(k) =>
        r == (if cfg.showEffects && 0 <= k < |cfg.effects|
              then Some(ServiceCall("light", "turn_on", cfg.entity, EffectPayload(cfg.effects[k].effect))) else None)
  {
  }

  // ---------------------------------------------------------------------------
  // The card element

  /** `RgbLightButtonCard`: the stored configuration, the last `hass` and the shown view. */
  class RgbLightButtonCard {
    var config: Option<CardConfig>
    var hass: Option<States>
    var view: View

    constructor ()
      ensures config == None && hass == None && view == Empty
    {
      config := None;
      hass := None;
      view := Empty;
    }

    /** `setConfig`: a rejected configuration is reported and leaves the stored one as it was. */
    method SetConfig(raw: RawConfig) returns (error: Option<string>)
      modifies this`config
      ensures Configure(raw).Ok? ==> error == None && config == Some(Configure(raw).value)
      ensures Configure(raw).Err? ==> error == Some(CONFIG_ERROR) && config == old(config)
    {
      var r := Configure(raw);
      if r.Err? {
        return Some(r.error);
      }
      config := Some(r.value);
      error := None;
    }

    /** The `hass` setter: stores the states, then renders unless no configuration is set yet. */
    method SetHass(states: States)
      modifies this`hass, this`view
      ensures hass == Some(states)
      ensures config.None? ==> view == old(view)
      ensures config.Some? ==> view == ViewFor(config.value, states)
    {
      hass := Some(states);
      if config.None? {
        return;
      }
      var entity := config.value.entity;
      if entity !in states {
        view := NotFound(entity);
        return;
      }
      view := Panel(Render(config.value, states[entity]));
    }

    /** `getCardSize`. */
    function GetCardSize(): (size: int)
      ensures size == CARD_SIZE
    {
      CARD_SIZE
    }
  }
}
