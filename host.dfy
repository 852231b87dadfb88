/** The parts of the Home Assistant host that both versions of the paired light
    entity read from and write to: state objects of the state machine, the
    `light.turn_on` / `light.turn_off` service calls, and the attributes the
    entity publishes. */
module Host {

  datatype Option<+T> = None | Some(value: T) {
    /** The value, or `default` when there is none (Python's `dict.get(key, default)`). */
    function GetOr(default: T): T {
      match this
      case Some(v) => v
      case None => default
    }
  }

  // State strings of the host's state machine.
  const STATE_ON: string := "on"
  const STATE_OFF: string := "off"
  const STATE_UNAVAILABLE: string := "unavailable"

  // Keys of service data and keyword arguments.
  const ATTR_BRIGHTNESS: string := "brightness"
  const ATTR_BRIGHTNESS_PCT: string := "brightness_pct"
  const ATTR_COLOR_TEMP: string := "color_temp"
  const ATTR_XY_COLOR: string := "xy_color"

  // Feature bits of Home Assistant's light component.
  const SUPPORT_BRIGHTNESS: bv32 := 1
  const SUPPORT_COLOR_TEMP: bv32 := 2
  const SUPPORT_COLOR: bv32 := 16
  const DEFAULT_SUPPORTED_FEATURES: int := (SUPPORT_BRIGHTNESS | SUPPORT_COLOR_TEMP | SUPPORT_COLOR) as int

  /** The colour modes reported when the smart light reports none. */
  const DEFAULT_COLOR_MODES: seq<string> := ["color_temp", "xy"]

  datatype Xy = Xy(x: real, y: real)

  /** A value passed through a keyword argument or a service call. */
  datatype Value = IntValue(i: int) | XyValue(xy: Xy) | OtherValue(text: string)

  /** The attributes of a state object that the entity mirrors; `None` means the key is absent. */
  datatype Attributes = Attributes(
    brightness: Option<int>,
    xyColor: Option<Xy>,
    colorTemp: Option<int>,
    colorMode: Option<string>,
    supportedColorModes: Option<seq<string>>,
    supportedFeatures: Option<int>)

  /** A state object as returned by `hass.states.get`: its state string and its attributes. */
  datatype LightState = LightState(state: string, attributes: Attributes)

  datatype Service = LightTurnOn | LightTurnOff

  /** One `hass.services.async_call("light", service, {"entity_id": entityId, **data})`. */
  datatype Command = Command(service: Service, entityId: string, data: map<string, Value>)

  function TurnOnCommand(entityId: string): Command {
    Command(LightTurnOn, entityId, map[])
  }

  function TurnOffCommand(entityId: string): Command {
    Command(LightTurnOff, entityId, map[])
  }

  /** The entity's `_state`: `None` until the first turn_on, turn_off or update. */
  datatype Power = On | Off

  /** The fields behind the entity's published properties. */
  datatype Published = Published(
    state: Option<Power>,
    brightness: Option<int>,
    xyColor: Option<Xy>,
    colorTemp: Option<int>,
    colorMode: Option<string>,
    supportedColorModes: seq<string>,
    supportedFeatures: int)

  /** The published fields as the constructor leaves them. */
  const INITIAL_PUBLISHED: Published :=
    Published(None, None, None, None, None, [], DEFAULT_SUPPORTED_FEATURES)

  /** Python's `modes or ['color_temp', 'xy']`: an empty list falls back to the default. */
  function ColorModesOrDefault(modes: seq<string>): (r: seq<string>)
    ensures r != []
    ensures modes != [] ==> r == modes
    ensures modes == [] ==> r == DEFAULT_COLOR_MODES
  {
    if modes != [] then modes else DEFAULT_COLOR_MODES
  }

  /** The physical-light command `async_turn_on` issues first: a turn_on exactly when
      the physical light reads "off". */
  function PhysicalTurnOn(physical: string, reading: LightState): (r: seq<Command>)
    ensures r == [TurnOnCommand(physical)] || r == []
    ensures r != [] <==> reading.state == STATE_OFF
  {
    if reading.state == STATE_OFF then [TurnOnCommand(physical)] else []
  }

  /** `async_update`'s effect on the published fields, given what `hass.states.get`
      returned for the smart light. */
  function MirrorSmartState(p: Published, smart: Option<LightState>): (r: Published)
    ensures smart.Some? && smart.value.state == STATE_ON ==>
              var a := smart.value.attributes;
              && r.state == Some(On)
              && r.brightness == a.brightness
              && r.xyColor == a.xyColor
              && r.colorTemp == a.colorTemp
              && r.colorMode == a.colorMode
              && r.supportedColorModes != []
              && (a.supportedColorModes.Some? && a.supportedColorModes.value != [] ==>
                    r.supportedColorModes == a.supportedColorModes.value)
              && (a.supportedColorModes.None? || a.supportedColorModes.value == [] ==>
                    r.supportedColorModes == DEFAULT_COLOR_MODES)
              && (a.supportedFeatures.Some? ==> r.supportedFeatures == a.supportedFeatures.value)
              && (a.supportedFeatures.None? ==> r.supportedFeatures == DEFAULT_SUPPORTED_FEATURES)
    ensures !(smart.Some? && smart.value.state == STATE_ON) ==> r == p.(state := Some(Off))
  {
    if smart.Some? && smart.value.state == STATE_ON then
      var a := smart.value.attributes;
      Published(Some(On), a.brightness, a.xyColor, a.colorTemp, a.colorMode,
                ColorModesOrDefault(a.supportedColorModes.GetOr([])),
                a.supportedFeatures.GetOr(DEFAULT_SUPPORTED_FEATURES))
    else
      p.(state := Some(Off))
  }

  /** Mirroring the same snapshot twice publishes the same fields as mirroring it once. */
  lemma MirrorSmartStateIdempotent(p: Published, smart: Option<LightState>)
    ensures MirrorSmartState(MirrorSmartState(p, smart), smart) == MirrorSmartState(p, smart)
  {
  }

  /** A `state_changed` event bus message: `event.data["entity_id"]` and `event.data["new_state"]`. */
  datatype StateChangedEvent = StateChangedEvent(entityId: Option<string>, newState: Option<LightState>)
}
