/** The earlier paired light entity (root light.py): no tunables and no wait; turn_on
    switches the physical light on when it is off and forwards colour and brightness
    keyword arguments to the smart light, turn_off touches only the smart light. */
module LegacyPairedLight {
  import opened Host

  /** The commands `async_turn_on` sends the smart light for the caller's keyword
      arguments: a plain turn_on when there are none; otherwise at most one colour
      command (XY colour before colour temperature) followed by at most one brightness
      command, each carrying the caller's value unchanged. */
  function SmartLightCommands(smart: string, kwargs: map<string, Value>): (r: seq<Command>)
    ensures |r| <= 2
    ensures forall k :: 0 <= k < |r| ==> r[k].service == LightTurnOn && r[k].entityId == smart
    ensures kwargs == map[] ==> r == [TurnOnCommand(smart)]
    ensures kwargs != map[] ==>
              |r| == (if ATTR_XY_COLOR in kwargs || ATTR_COLOR_TEMP in kwargs then 1 else 0)
                   + (if ATTR_BRIGHTNESS in kwargs then 1 else 0)
    ensures kwargs != map[] && ATTR_XY_COLOR in kwargs ==>
              r[0] == Command(LightTurnOn, smart, map[ATTR_XY_COLOR := kwargs[ATTR_XY_COLOR]])
    ensures kwargs != map[] && ATTR_XY_COLOR !in kwargs && ATTR_COLOR_TEMP in kwargs ==>
              r[0] == Command(LightTurnOn, smart, map[ATTR_COLOR_TEMP := kwargs[ATTR_COLOR_TEMP]])
    ensures kwargs != map[] && ATTR_BRIGHTNESS in kwargs ==>
              r[|r| - 1] == Command(LightTurnOn, smart, map[ATTR_BRIGHTNESS := kwargs[ATTR_BRIGHTNESS]])
    ensures forall k :: 0 <= k < |r| && ATTR_COLOR_TEMP in r[k].data ==> ATTR_XY_COLOR !in kwargs
  {
    if kwargs == map[] then
      [TurnOnCommand(smart)]
    else
      var color :=
        if ATTR_XY_COLOR in kwargs then [Command(LightTurnOn, smart, map[ATTR_XY_COLOR := kwargs[ATTR_XY_COLOR]])]
        else if ATTR_COLOR_TEMP in kwargs then [Command(LightTurnOn, smart, map[ATTR_COLOR_TEMP := kwargs[ATTR_COLOR_TEMP]])]
        else [];
      var brightness :=
        if ATTR_BRIGHTNESS in kwargs then [Command(LightTurnOn, smart, map[ATTR_BRIGHTNESS := kwargs[ATTR_BRIGHTNESS]])]
        else [];
      color + brightness
  }

  /** How a call of `async_turn_on` ended: it returned, or it raised reading a missing state object. */
  datatype CallStatus = Completed | Raised

  class LightPairEntity {
    const physicalLight: string
    const smartLight: string

    var state: Option<Power>
    var brightness: Option<int>
    var xyColor: Option<Xy>
    var colorTemp: Option<int>
    var colorMode: Option<string>
    var supportedColorModes: seq<string>
    var supportedFeatures: int

    /** Host-side effects: the service calls issued and the number of state writes. */
    var log: seq<Command>
    var writes: nat

    function PublishedFields(): Published
      reads this
    {
      Published(state, brightness, xyColor, colorTemp, colorMode, supportedColorModes, supportedFeatures)
    }

    constructor (physicalLight: string, smartLight: string)
      ensures this.physicalLight == physicalLight && this.smartLight == smartLight
      ensures PublishedFields() == INITIAL_PUBLISHED
      ensures log == [] && writes == 0
      ensures !IsOn()
    {
      this.physicalLight := physicalLight;
      this.smartLight := smartLight;
      state := None;
      brightness := None;
      xyColor := None;
      colorTemp := None;
      colorMode := None;
      supportedColorModes := [];
      supportedFeatures := DEFAULT_SUPPORTED_FEATURES;
      log := [];
      writes := 0;
    }

    /** `is_on`. */
    function IsOn(): (r: bool)
      reads this
      ensures r <==> state == Some(On)
    {
      state == Some(On)
    }

    /** `supported_color_modes`: never empty. */
    function SupportedColorModes(): (r: seq<string>)
      reads this
      ensures r != []
      ensures supportedColorModes != [] ==> r == supportedColorModes
      ensures supportedColorModes == [] ==> r == DEFAULT_COLOR_MODES
    {
      ColorModesOrDefault(supportedColorModes)
    }

    /** `_state_changed_listener`: whether the event schedules an update. */
    method StateChangedListener(event: StateChangedEvent) returns (scheduled: bool)
      ensures scheduled <==> event.entityId == Some(physicalLight) || event.entityId == Some(smartLight)
    {
      var entityId := event.entityId;
      scheduled := entityId == Some(physicalLight) || entityId == Some(smartLight);
    }

    method TurnOn(physicalReading: Option<LightState>, kwargs: map<string, Value>) returns (status: CallStatus)
      modifies this
      ensures physicalReading.None? ==> status == Raised && unchanged(this)
      ensures physicalReading.Some? ==>
                && status == Completed
                && log == old(log) + PhysicalTurnOn(physicalLight, physicalReading.value)
                                   + SmartLightCommands(smartLight, kwargs)
                && PublishedFields() == old(PublishedFields()).(state := Some(On))
                && IsOn()
                && writes == old(writes) + 1
    {
      if physicalReading.None? {
        status := Raised;
        return;
      }
      if physicalReading.value.state == STATE_OFF {
        log := log + [TurnOnCommand(physicalLight)];
      }
      ghost var afterPhysical := log;
      if kwargs == map[] {
        log := log + [TurnOnCommand(smartLight)];
      } else {
        if ATTR_XY_COLOR in kwargs {
          log := log + [Command(LightTurnOn, smartLight, map[ATTR_XY_COLOR := kwargs[ATTR_XY_COLOR]])];
        } else if ATTR_COLOR_TEMP in kwargs {
          log := log + [Command(LightTurnOn, smartLight, map[ATTR_COLOR_TEMP := kwargs[ATTR_COLOR_TEMP]])];
        }
        if ATTR_BRIGHTNESS in kwargs {
          log := log + [Command(LightTurnOn, smartLight, map[ATTR_BRIGHTNESS := kwargs[ATTR_BRIGHTNESS]])];
        }
      }
      assert log == afterPhysical + SmartLightCommands(smartLight, kwargs);
      state := Some(On);
      writes := writes + 1;
      status := Completed;
    }

    method TurnOff()
      modifies this
      ensures log == old(log) + [TurnOffCommand(smartLight)]
      ensures PublishedFields() == old(PublishedFields()).(state := Some(Off))
      ensures !IsOn()
      ensures writes == old(writes) + 1
    {
      log := log + [TurnOffCommand(smartLight)];
      state := Some(Off);
      writes := writes + 1;
    }

    method Update(smart: Option<LightState>)
      modifies this
      ensures PublishedFields() == MirrorSmartState(old(PublishedFields()), smart)
      ensures log == old(log)
      ensures writes == old(writes) + 1
    {
      if smart.Some? && smart.value.state == STATE_ON {
        var a := smart.value.attributes;
        state := Some(On);
        brightness := a.brightness;
        xyColor := a.xyColor;
        colorTemp := a.colorTemp;
        colorMode := a.colorMode;
        supportedColorModes := ColorModesOrDefault(a.supportedColorModes.GetOr([]));
        supportedFeatures := a.supportedFeatures.GetOr(DEFAULT_SUPPORTED_FEATURES);
      } else {
        state := Some(Off);
      }
      writes := writes + 1;
    }
  }
}
