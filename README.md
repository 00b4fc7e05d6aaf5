# IR light mapper and RGB light button card, modelled in Dafny

This project models the two pieces of logic in the `ha-plus-addons` repository.

**The BroadLink IR light** (`broadlink-ir-mapper/light.py`, class `BroadLinkIRLight`).
An infrared LED strip gives no feedback, so the entity tracks its own power flag,
brightness, RGB colour and effect, and turns each `turn_on` / `turn_off` request
into a sequence of IR codes for a BroadLink remote. Module `IrLight` (`broadlink_light.dfy`) has two layers:

- pure step functions (`BrightnessStep`, `ColorStep`, `EffectStep`, `TurnOnStep`,
  `TurnOffStep`). Each gives the state after a request and the codes the request sends.
  The lemmas about the behaviour are stated over these functions;
- the class `BroadLinkIrLight`. Its fields are the configuration, the four tracked values and a log of sent codes.
  Its methods update those fields step by step, as the source does.
  `SetBrightness` has the loop that sends up to ten step codes.
  Each method is proved to leave exactly the state and the log that its step function gives.

The feature bitmask uses Home Assistant's legacy flag values:
brightness 1, effect 4, colour 16.
The nearest palette colour is chosen by integer squared distance, and the first entry wins a tie, as with Python's `min`.
A `Consistent` invariant holds in every reachable state:
- the colour is the initial white or a palette colour;
- the effect is absent or an advertised name;
- the brightness is within 0..255.
The initial state satisfies it, and `turn_on` and `turn_off` preserve it.

**The dashboard card** (`rgb-light-button-card/rgb-light-button-card.js`, class
`RgbLightButtonCard`). Module `LightCard` (`light_card.dfy`) models:
- `setConfig` as `Configure`, which returns a configuration or the error the source throws;
- the values `render` derives as a `RenderModel` record;
- the branches of the `hass` setter as `ViewFor`;
- the four handlers as functions that build a `light` service call.

`Respond` says which call an interaction with the shown view produces.
A control that is not rendered produces none.
A section marked disabled produces none either, because its `pointer-events: none` lets no pointer input through.
Interactions are pointer input only (clicks and slider drags).
The class `RgbLightButtonCard` holds the stored configuration, the last states and the shown view.

`wrappers.dfy` holds the shared `Option` and `Result` types.

Two behaviours of the code are easy to miss:
- the effects section is rendered whenever `show_effects` is not `false`, even for an empty effect list, and then has no buttons;
- an explicitly given empty `colors` or `effects` list is kept, because an empty array is truthy in JavaScript.

## Model

| member | source | states |
|---|---|---|
| IrLight.FeatureMask | broadlink-ir-mapper/light.py:123-130 | the brightness bit is set iff `brightness_up` or `brightness_down` is configured, the colour bit iff the palette is non-empty, the effect bit iff the effect list is non-empty, and no other bit is set |
| IrLight.EffectList | broadlink-ir-mapper/light.py:162-165 | one effect name per configured effect, in order |
| IrLight.FindEffect | broadlink-ir-mapper/light.py:241-244 | the result is the first entry with the requested name, or none when no entry has that name |
| IrLight.FindEffectMatchesEffectList | broadlink-ir-mapper/light.py:241-247 | an effect request is honoured exactly when the name is in the advertised effect list |
| IrLight.ClosestAmong | broadlink-ir-mapper/light.py:229-233 | the chosen index among the first n entries has minimal squared distance, and every earlier entry is strictly farther (first minimum wins) |
| IrLight.ClosestColor | broadlink-ir-mapper/light.py:229-233 | the chosen palette entry has minimal squared distance to the request, and every earlier entry is strictly farther |
| IrLight.ExactColorSelected | broadlink-ir-mapper/light.py:229-233 | a requested colour that occurs in the palette selects its first occurrence |
| IrLight.BrightnessStep | broadlink-ir-mapper/light.py:203-221 | a brightness request changes at most the brightness, to the target, and sends at most 10 codes |
| IrLight.ColorStep | broadlink-ir-mapper/light.py:223-237 | a colour request keeps power and brightness, sends one code exactly when the palette is non-empty, and then clears the effect |
| IrLight.EffectStep | broadlink-ir-mapper/light.py:239-247 | an effect request keeps power, brightness and colour, sends one code exactly when the name is advertised, and then makes that name the effect |
| IrLight.PowerOnStep | broadlink-ir-mapper/light.py:174-177 | afterwards the light is on and nothing else changed; the power-on code is sent exactly when the light was off |
| IrLight.TurnOnStep | broadlink-ir-mapper/light.py:172-192 | after `turn_on` the light is on, and from off the first code sent is the power-on code |
| IrLight.TurnOffStep | broadlink-ir-mapper/light.py:196-201 | `turn_off` sends exactly the power-off code, switches off and clears the effect; brightness and colour are unchanged |
| IrLight.RepeatShape | broadlink-ir-mapper/light.py:217-219 | the repeated-send sequence has exactly n elements, all equal to the code |
| IrLight.BrightnessStepSends | broadlink-ir-mapper/light.py:203-221 | without a `brightness_up` code nothing is sent and the brightness is kept; otherwise the brightness becomes the target and min(abs(target - current) div 25, 10) copies are sent of the chosen code: the up code when the target is higher, else the down code; nothing is sent when the chosen code is missing or empty |
| IrLight.ColorStepSelects | broadlink-ir-mapper/light.py:223-237 | an empty palette changes nothing; otherwise exactly the code of the first nearest entry is sent, the colour becomes that entry's colour and the effect is cleared |
| IrLight.EffectStepSelects | broadlink-ir-mapper/light.py:239-247 | an unknown effect name changes nothing; a known one sends the code of the first entry with that name and makes that name the current effect |
| IrLight.ApplyArgs | broadlink-ir-mapper/light.py:179-192 | the keyword arguments are applied as brightness, then colour, then effect; the power flag never changes, a missing brightness keeps the brightness, no colour and no effect keep colour and effect, and no arguments at all change nothing and send nothing |
| IrLight.TurnOnPowers | broadlink-ir-mapper/light.py:172-192 | after `turn_on` the light is on; from off the power-on code is sent first, then the argument codes; from on only the argument codes are sent |
| IrLight.TurnOnWhenOnIsIdle | broadlink-ir-mapper/light.py:174-177 | `turn_on` without arguments on a light that is on sends nothing and changes nothing |
| IrLight.TurnOnEffectAfterColor | broadlink-ir-mapper/light.py:184-192 | when a colour and an existing effect are both requested, the final effect is the requested one, although the colour step cleared it |
| IrLight.TurnOnColorClearsEffect | broadlink-ir-mapper/light.py:184-187 | a colour request without an effect, on a non-empty palette, leaves no effect and a palette colour |
| IrLight.TurnOffIdempotent | broadlink-ir-mapper/light.py:196-201 | a second `turn_off` sends the power-off code again and leaves the state as the first left it |
| IrLight.InitialConsistent | broadlink-ir-mapper/light.py:118-121 | the initial state (off, brightness 255, white, no effect) satisfies the state invariant |
| IrLight.ColorStepConsistent | broadlink-ir-mapper/light.py:223-237 | the colour step preserves the state invariant: the colour stays white or a palette colour |
| IrLight.EffectStepConsistent | broadlink-ir-mapper/light.py:239-247 | the effect step preserves the state invariant: the effect stays absent or an advertised name |
| IrLight.TurnOnConsistent | broadlink-ir-mapper/light.py:172-194 | `turn_on` with brightness arguments in 0..255 preserves the state invariant |
| IrLight.TurnOffConsistent | broadlink-ir-mapper/light.py:196-201 | `turn_off` preserves the state invariant |
| IrLight.BroadLinkIrLight.constructor | broadlink-ir-mapper/light.py:101-130 | a new light is off, with brightness 255, colour (255,255,255), no effect and no codes sent, and its feature mask is `FeatureMask` of its configuration |
| IrLight.BroadLinkIrLight.EffectNames | broadlink-ir-mapper/light.py:162-165 | the `effect_list` property is the list of configured effect names |
| IrLight.BroadLinkIrLight.SendIrCommand | broadlink-ir-mapper/light.py:249-263 | sending a code appends it to the log of sent codes and changes nothing else |
| IrLight.BroadLinkIrLight.SetBrightness | broadlink-ir-mapper/light.py:203-221 | the loop leaves the state and the sent codes that `BrightnessStep` gives |
| IrLight.BroadLinkIrLight.SetRgbColor | broadlink-ir-mapper/light.py:223-237 | leaves the state and the sent codes that `ColorStep` gives |
| IrLight.BroadLinkIrLight.SetEffect | broadlink-ir-mapper/light.py:239-247 | leaves the state and the sent codes that `EffectStep` gives |
| IrLight.BroadLinkIrLight.TurnOn | broadlink-ir-mapper/light.py:172-194 | leaves the state and the sent codes that `TurnOnStep` gives: power, then brightness, colour and effect in that order |
| IrLight.BroadLinkIrLight.ApplyTurnOnArgs | broadlink-ir-mapper/light.py:179-192 | the keyword arguments are applied as brightness, then colour, then effect, leaving the state and sent codes that `ApplyArgs` gives |
| IrLight.BroadLinkIrLight.TurnOff | broadlink-ir-mapper/light.py:196-201 | leaves the state and the sent codes that `TurnOffStep` gives |
| LightCard.Configure | rgb-light-button-card/rgb-light-button-card.js:62-76 | rejects exactly a missing or empty entity with the error message; otherwise keeps the entity and every given option and fills the defaults: the 12-colour palette, the 4 effects, both flags true unless given as `false`, 4 columns for a missing or zero count, an empty title |
| LightCard.ConfigureIdempotent | rgb-light-button-card/rgb-light-button-card.js:67-75 | configuring again with a stored configuration gives the same configuration |
| LightCard.BrightnessPercent | rgb-light-button-card/rgb-light-button-card.js:80-81 | the percentage is within 127/255 of brightness * 100 / 255, so it is the nearest integer |
| LightCard.BrightnessPercentFacts | rgb-light-button-card/rgb-light-button-card.js:80-81 | the nearest integer is unique; the percentage is within 0..100 for brightness 0..255, 0 for 0 and 100 for 255 |
| LightCard.BrightnessPercentMonotonic | rgb-light-button-card/rgb-light-button-card.js:80-81 | a larger brightness never shows a smaller percentage |
| LightCard.Render | rgb-light-button-card/rgb-light-button-card.js:78-291 | the panel is on iff the state is `on`; the brightness, colour and effect sections are disabled exactly when it is not; one colour button per configured colour in order; the effect buttons are the configured effects when `show_effects`, none otherwise; the slider mirrors the raw brightness, 0 when absent, and the readout is its percentage; the title is shown iff non-empty; the name shown is the friendly name, or the entity id when that is missing or empty |
| LightCard.ViewFor | rgb-light-button-card/rgb-light-button-card.js:45-59 | a missing entity gives the placeholder naming the entity, otherwise the rendered panel of its state |
| LightCard.TogglePower | rgb-light-button-card/rgb-light-button-card.js:318-326 | a `light` call for the configured entity with no payload: `turn_off` iff the state is `on`, `turn_on` otherwise |
| LightCard.SetBrightness | rgb-light-button-card/rgb-light-button-card.js:328-335 | one `light.turn_on` for the entity with the slider's integer brightness |
| LightCard.SetColor | rgb-light-button-card/rgb-light-button-card.js:337-344 | one `light.turn_on` for the entity with the button's RGB triple |
| LightCard.SetEffect | rgb-light-button-card/rgb-light-button-card.js:346-353 | one `light.turn_on` for the entity with the button's effect id |
| LightCard.Respond | rgb-light-button-card/rgb-light-button-card.js:296-316 | no view but the panel issues a call; every call is a `light` call for the configured entity; a slider, colour or effect input issues a call only from a shown, non-disabled control whose index is in range |
| LightCard.CallsTargetEntity | rgb-light-button-card/rgb-light-button-card.js:296-353 | every call the card makes is a `light.turn_on` or `light.turn_off` for the configured entity |
| LightCard.MissingEntityIsInert | rgb-light-button-card/rgb-light-button-card.js:48-57 | for a missing entity the view is the placeholder with the entity id, and no interaction issues a call |
| LightCard.OffPanelOnlyPowers | rgb-light-button-card/rgb-light-button-card.js:241-288 | while the light is not on, pointer input on the slider, colour and effect buttons issues nothing and the power button issues `light.turn_on` |
| LightCard.OnPanelCommands | rgb-light-button-card/rgb-light-button-card.js:296-353 | while the light is on, the power button issues `light.turn_off`, and each shown slider, colour button and effect button issues exactly its own `light.turn_on` payload |
| LightCard.RgbLightButtonCard.constructor | rgb-light-button-card/rgb-light-button-card.js:10-37 | a new card has no configuration, no states and an empty view |
| LightCard.RgbLightButtonCard.SetConfig | rgb-light-button-card/rgb-light-button-card.js:62-76 | a valid configuration is stored with its defaults; an invalid one is reported with the error and leaves the stored configuration unchanged |
| LightCard.RgbLightButtonCard.SetHass | rgb-light-button-card/rgb-light-button-card.js:39-60 | the states are always stored; before a configuration is set the view is unchanged; otherwise the view becomes the placeholder or the rendered panel |
| LightCard.RgbLightButtonCard.GetCardSize | rgb-light-button-card/rgb-light-button-card.js:355-357 | the card size is always 5 |

## Left out

- Home Assistant's service call inside `_send_ir_command` is not modelled, nor its exception handling and logging. Sending is an append to the log of sent codes. A failed send still updates the state, so the model has no error path for it.
- `async`/`await` and `blocking=True` are not modelled; the requests run one after the other.
- `async_write_ha_state`, the read-only entity properties (`name`, `unique_id`, `is_on`, ...) and the warnings logged on ignored requests are host plumbing, not modelled.
- The voluptuous configuration schemas are library validation. The model only requires the power codes that `turn_on` and `turn_off` index. Palette colours are modelled as integer triples.
- `async_setup_platform` and `broadlink-ir-mapper/__init__.py` only forward the configuration; broadlink-ir-mapper/__init__.py is not part of this model.
- In the card, the style sheet and markup text, the shadow-root DOM, event-listener binding, `customElements.define`, the `window.customCards` registration and the console banner are not modelled. The markup is replaced by the render model.
- `Math.round(b / 255 * 100)` is computed in floating point; the model uses integer arithmetic, which agrees for integer brightness because the quotient never lies exactly halfway between two integers.
- Non-boolean values of `show_brightness` and `show_effects`, and falsy values other than an absent key (`null`, `0`, `false`), are not distinguished: the model has an absent value or a value of the expected type.
- Keyboard activation is not modelled. `pointer-events: none` does not stop keyboard focus, so Enter or Space on a colour or effect button, or an arrow key on the slider, in a disabled section still calls its handler and issues `light.turn_on`. The model's `Interaction` has pointer input only, and `OffPanelOnlyPowers` states the behaviour for pointer input.
- The browser keeps a range input's value within 0..255. `Respond` passes the slider value through without modelling that clamp.
- Options the card does not read are not modelled; `setConfig` copies them into the stored configuration unused.
