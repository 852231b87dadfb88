# light_pairing — a Dafny model of the paired light entity

The `light_pairing` Home Assistant integration builds one virtual light out of two devices:
a *physical* light or switch that powers a *smart* colour light. This model covers the
entity that coordinates them, `LightPairEntity`, in both of its versions:

- `custom_components/light_pairing/light.py` (module `PairedLight`). turn_on switches the physical
  light on if it reads "off". It then waits, polling once per second, while the smart light reads
  "unavailable", and gives up early if the physical light is seen "off". After the wait it sends
  exactly one activation to the smart light: `brightness_pct = brightness_on_switch` when that is
  nonzero and no `brightness` keyword argument was passed, otherwise a plain turn_on. turn_off
  turns the smart light off, and the physical light too when `turn_off_physical` is set. Both
  tunables are re-resolved from the config entry at the start of every turn_on and turn_off:
  options first, then data, then the defaults 100 and `False`.
- `light.py` (module `LegacyPairedLight`). The older version has no tunables and no wait.
  turn_on forwards one colour keyword argument (XY colour before colour temperature) and, as a
  separate command, `brightness`. turn_off touches only the smart light.
- `Host` holds what both versions share: state objects as `hass.states.get` returns them, the
  `light.turn_on` / `light.turn_off` service call, the published attributes, and `async_update`'s
  mirroring of the smart light's attributes (`MirrorSmartState`).

Each version is a `class LightPairEntity` with the source's fields (`state`, `brightness`, …,
`waitingForSmartLight`). The host's side effects are two more fields:

- `log: seq<Command>`: every `hass.services.async_call` the entity issued, in order;
- `writes`: the number of `async_write_ha_state` calls.

Reads of the state machine are parameters of the methods. A missing state object is `None`.
Reading `.state` from it raises AttributeError, and the model returns `Raised` at that point,
keeping the effects already made.

The wait loop runs over a caller-supplied finite sequence of `Poll`s. Each poll says what else
ran on the event loop during that iteration's `asyncio.sleep(1)`: nothing, a full `async_turn_off`
(the one that clears the flag at custom_components/light_pairing/light.py:194), or an
`async_update`. It then gives what `hass.states.get` returned for the smart and the physical
light. If the polls run out while the loop would go on, the wait reports `StillWaiting` and
turn_on reports `Suspended`.

In `PairedLight`, each state-changing method ensures that the entity's new `View()` equals a specification function of
the old one: `UpdateParameters`, `TurnOffSpec`, `UpdateSpec`, `Wait`/`WaitLoop` and `TurnOnSpec`.
The lemmas are proved about those functions. `UndisturbedWaitStatus` is an independent reference
for how the wait ends when no turn_off interrupts it. It is defined only by what the polls
observe, and `WaitLoopWithoutTurnOff` connects it to the loop.

What the code does, and the model with it:

- the custom turn_on never forwards explicit colour or brightness arguments;
- it still activates the smart light and sets `_state` ON after the wait was aborted because
  the physical light went off;
- a poll that sees the physical light "off" aborts the wait even when the same poll saw the smart
  light become available;
- after a successful wait `_waiting_for_smart_light` stays `True`.

A turn_off that runs during any sleep of the wait clears `_waiting_for_smart_light`
(custom_components/light_pairing/light.py:193-194), and the wait ends on the poll that follows that
sleep, whatever later polls would see (`PairedLight.WaitEndsAfterTurnOff`). If that poll reads the
physical light "off" (as it will once a turn_off with `turn_off_physical` set has reached it), the
wait takes the abort path at :173-180 and sends the physical turn_off a second time. Otherwise it
returns at the loop test. Either way, unless a read raised, turn_on goes on to send the activation
and set `_state` to ON (custom_components/light_pairing/light.py:147-159)
(`PairedLight.TurnOffDuringWaitStillActivates`). The activation uses the brightness that the
interleaved turn_off re-resolved.

## Model

| member | source | states |
|---|---|---|
| `PairedLight.ResolvedBrightnessOnSwitch` | custom_components/light_pairing/light.py:67-69 | `brightness_on_switch` is the options value if present, else the data value if present, else 100 |
| `PairedLight.ResolvedTurnOffPhysical` | custom_components/light_pairing/light.py:67-70 | `turn_off_physical` is the options value if present, else the data value if present, else `False` |
| `PairedLight.LightPairEntity.constructor` | custom_components/light_pairing/light.py:46-63 | initial fields: `_state` None (so `is_on` is false), mirrored attributes None, empty colour modes, default feature mask, flag false, no commands, no writes |
| `PairedLight.LightPairEntity.IsOn` | custom_components/light_pairing/light.py:86-89 | true exactly when `_state` is ON |
| `PairedLight.LightPairEntity.SupportedColorModes` | custom_components/light_pairing/light.py:111-114 | never empty; the stored modes when non-empty, else `['color_temp', 'xy']` |
| `PairedLight.LightPairEntity.StateChangedListener` | custom_components/light_pairing/light.py:72-79 | an update is scheduled exactly when the event's entity_id is the physical or the smart light |
| `PairedLight.LightPairEntity.UpdateParametersFromConfig` | custom_components/light_pairing/light.py:67-70 | both tunables re-resolved from the entry; nothing else changes |
| `PairedLight.TurnOffSpec` | custom_components/light_pairing/light.py:182-197 | re-resolves the tunables; a smart turn_off first, then a physical turn_off exactly when `turn_off_physical` resolves true; flag false, `_state` OFF, attributes unchanged, one write |
| `PairedLight.LightPairEntity.TurnOff` | custom_components/light_pairing/light.py:182-197 | the new entity state is `TurnOffSpec` of the old |
| `Host.MirrorSmartState` | custom_components/light_pairing/light.py:199-213 | smart light "on": `_state` ON, brightness/xy/colour temperature/colour mode copied; colour modes fall back to `['color_temp','xy']` when missing or empty; features fall back to brightness, colour temperature and colour when missing. Otherwise `_state` OFF and every attribute unchanged |
| `Host.MirrorSmartStateIdempotent` | custom_components/light_pairing/light.py:199-215 | mirroring an unchanged snapshot a second time publishes the same fields |
| `PairedLight.LightPairEntity.Update` | custom_components/light_pairing/light.py:199-215 | the new entity state is the mirrored one, plus exactly one write; log and tunables unchanged |
| `PairedLight.LightPairEntity.WaitForSmartLightAvailable` | custom_components/light_pairing/light.py:161-180 | the loop, with interleaved turn_off/update calls, ends in the state and status `Wait` gives |
| `PairedLight.WaitReachableAtOnce` | custom_components/light_pairing/light.py:163-167 | smart light not "unavailable" at the first read: no commands, flag left true, status Reachable |
| `PairedLight.WaitLoopWithoutTurnOff` | custom_components/light_pairing/light.py:164-180 | with no interleaved turn_off: the status is the reference `UndisturbedWaitStatus`; the only command the wait may add is one physical turn_off, on an abort with `turn_off_physical` set; the flag is true afterwards unless the wait aborted |
| `PairedLight.UndisturbedWaitAbortsIff` | custom_components/light_pairing/light.py:167-180 | when the first smart reading is "unavailable": the wait aborts if and only if some poll sees the physical light off and every earlier poll kept the loop going |
| `PairedLight.PhysicalOffWinsOverAvailability` | custom_components/light_pairing/light.py:169-180 | a poll that sees the physical light off aborts even when it saw the smart light "on" |
| `PairedLight.WaitLoopIssuesOnlyTurnOffs` | custom_components/light_pairing/light.py:167-180 | whatever runs during the sleeps, the wait only appends turn_off commands and never lowers the write count |
| `PairedLight.Activation` | custom_components/light_pairing/light.py:150-156 | one smart turn_on; it carries `brightness_pct = brightness_on_switch` exactly when that is nonzero and `brightness` is not a keyword argument, otherwise only the entity_id; no other key is ever sent |
| `PairedLight.LightPairEntity.TurnOn` | custom_components/light_pairing/light.py:133-159 | the new entity state and status are those of `TurnOnSpec` |
| `PairedLight.TurnOnWithoutConcurrentTurnOff` | custom_components/light_pairing/light.py:133-159 | with no interleaved turn_off: tunables re-resolved; log = physical turn_on iff it read "off", then the abort's physical turn_off iff aborted with `turn_off_physical`, then exactly one activation once the wait ended; `_state` ON after an abort too; exactly one write when nothing else ran |
| `PairedLight.TurnOnCompletedEndsOn` | custom_components/light_pairing/light.py:147-159 | any completed turn_on ends with `_state` ON and with the activation as its last command; for distinct physical and smart lights that activation is the call's only smart turn_on |
| `PairedLight.TurnOnPhysicalCommandFirst` | custom_components/light_pairing/light.py:138-147 | for distinct physical and smart lights: the physical turn_on, issued iff the physical light read "off", is the call's first command; no other physical turn_on is issued |
| `PairedLight.WaitEndsAfterTurnOff` | custom_components/light_pairing/light.py:167-194 | when the first turn_off runs during the sleep before poll k, the wait ends at poll k and later polls are ignored: raised if a read of that poll finds no state object, aborted if it reads the physical light "off", cancelled otherwise; the flag ends false; the log gains the turn_off's commands, plus a second physical turn_off on an abort with `turn_off_physical`; one write when nothing else ran |
| `PairedLight.TurnOffDuringWaitStillActivates` | custom_components/light_pairing/light.py:136-194 | with a turn_off during the sleep before poll k, turn_on ignores the polls after k and completes unless a read of poll k raised; log = physical turn_on iff it read "off", the turn_off's commands, a second physical turn_off on an abort with `turn_off_physical`, then the activation at the brightness the turn_off re-resolved; ends ON with the flag false; two writes when nothing else ran |
| `PairedLight.TurnOnIgnoresExplicitArguments` | custom_components/light_pairing/light.py:150-156 | keyword arguments affect turn_on only through whether `brightness` is among them |
| `Host.PhysicalTurnOn` | light.py:108-112 | the command sent to the physical light before anything else: a turn_on exactly when it read "off", otherwise none |
| `LegacyPairedLight.SmartLightCommands` | light.py:114-131 | no keyword arguments: one plain smart turn_on. Otherwise at most two commands, all smart turn_on. One colour command, XY before colour temperature, a colour temperature never sent when XY was given. One brightness command, last, iff `brightness` was passed. None for keyword arguments without these keys. Values copied unchanged |
| `LegacyPairedLight.LightPairEntity.constructor` | light.py:26-39 | initial fields as in the newer version, without tunables or flag; `is_on` false |
| `LegacyPairedLight.LightPairEntity.IsOn` | light.py:59-62 | true exactly when `_state` is ON |
| `LegacyPairedLight.LightPairEntity.SupportedColorModes` | light.py:84-87 | never empty, defaulting to `['color_temp', 'xy']` |
| `LegacyPairedLight.LightPairEntity.StateChangedListener` | light.py:44-52 | an update is scheduled exactly when the entity_id is the physical or the smart light |
| `LegacyPairedLight.LightPairEntity.TurnOn` | light.py:106-135 | physical reading missing: raises, nothing changes. Otherwise log grows by `PhysicalTurnOn` then `SmartLightCommands`; `_state` ON, attributes unchanged, one write |
| `LegacyPairedLight.LightPairEntity.TurnOff` | light.py:137-141 | only a smart turn_off is issued (never a physical command); `_state` OFF, one write |
| `LegacyPairedLight.LightPairEntity.Update` | light.py:143-162 | published fields mirrored as in `MirrorSmartState`; log unchanged; one write |

## Left out

- Real I/O is not modelled. `hass.states.get` results are method parameters. `hass.services.async_call`
  appends to `log`. `async_write_ha_state` increments `writes`. `async_schedule_update_ha_state` is the
  listener's boolean result. The subscription through `hass.bus.async_listen` in the constructors is not
  modelled.
- The service domain is always `"light"` in the source, even for a physical `switch` entity. `Command`
  does not record it.
- Timing and coroutine interleaving: `asyncio.sleep(1)` is not modelled, and the unbounded wait
  becomes a finite sequence of polls. Other coroutines may run only during the wait's sleep, as an
  atomic `async_turn_off` or `async_update`. The model leaves out interleavings at the `await` of
  each service call, including a turn_off that would clear the flag only after its own awaits.
  It also leaves out a reconfiguration that takes effect partway through an operation.
- Python's truthiness is modelled for the values the configuration form produces. `_brightness_on_switch`
  is an `int` tested against 0, and `_turn_off_physical` is a `bool`.
- Attributes: a key present with value `None` is treated like a missing key. For `supported_features`
  the source then stores `None` rather than the default. Attribute values of other types are not modelled.
- `async_update` also reads the physical light's state and never uses it, so that read is not modelled.
- `async_added_to_hass` (it only calls `async_update`), `name`, `device_info`, `async_setup_entry` and the
  trivial getters `brightness`, `xy_color`, `color_temp`, `color_mode`, `supported_features` are not
  modelled. The getters return the fields, which are public in the model.
- `config_flow.py`, `custom_components/light_pairing/config_flow.py` and `custom_components/light_pairing/__init__.py`
  are not part of this model. They hold form schemas and platform forwarding. The model relies on no range
  for `brightness_on_switch`, because the entity code does not depend on one.
