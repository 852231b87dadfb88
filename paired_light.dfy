/** The paired light entity of the `light_pairing` integration
    (custom_components/light_pairing/light.py): a virtual light that switches
    the physical light on, waits for the smart light to become reachable,
    activates it at a configured brightness, and mirrors the smart light's
    attributes. */
module PairedLight {
  import opened Host

  const DEFAULT_BRIGHTNESS_ON_SWITCH: int := 100
  const DEFAULT_TURN_OFF_PHYSICAL: bool := false

  /** The two tunables as stored in one dictionary of a config entry; `None` means the key is absent. */
  datatype Tunables = Tunables(brightnessOnSwitch: Option<int>, turnOffPhysical: Option<bool>)

  /** The config entry's `data` and `options` dictionaries, as they are when an operation starts. */
  datatype ConfigEntry = ConfigEntry(data: Tunables, options: Tunables)

  /** `brightness_on_switch`: options win over data, data over the default 100. */
  function ResolvedBrightnessOnSwitch(entry: ConfigEntry): (r: int)
    ensures entry.options.brightnessOnSwitch.Some? ==> r == entry.options.brightnessOnSwitch.value
    ensures entry.options.brightnessOnSwitch.None? && entry.data.brightnessOnSwitch.Some? ==>
              r == entry.data.brightnessOnSwitch.value
    ensures entry.options.brightnessOnSwitch.None? && entry.data.brightnessOnSwitch.None? ==>
              r == DEFAULT_BRIGHTNESS_ON_SWITCH
  {
    entry.options.brightnessOnSwitch.GetOr(entry.data.brightnessOnSwitch.GetOr(DEFAULT_BRIGHTNESS_ON_SWITCH))
  }

  /** `turn_off_physical`: options win over data, data over the default `False`. */
  function ResolvedTurnOffPhysical(entry: ConfigEntry): (r: bool)
    ensures entry.options.turnOffPhysical.Some? ==> r == entry.options.turnOffPhysical.value
    ensures entry.options.turnOffPhysical.None? && entry.data.turnOffPhysical.Some? ==>
              r == entry.data.turnOffPhysical.value
    ensures entry.options.turnOffPhysical.None? && entry.data.turnOffPhysical.None? ==>
              r == DEFAULT_TURN_OFF_PHYSICAL
  {
    entry.options.turnOffPhysical.GetOr(entry.data.turnOffPhysical.GetOr(DEFAULT_TURN_OFF_PHYSICAL))
  }

  /** The entity's mutable fields, together with the host-side effects it has caused so far:
      the service calls it issued (`log`) and the number of `async_write_ha_state` calls (`writes`). */
  datatype EntityView = EntityView(
    pub: Published,
    brightnessOnSwitch: int,
    turnOffPhysical: bool,
    waitingForSmartLight: bool,
    log: seq<Command>,
    writes: nat)

  /** What else ran on the event loop while the wait slept before one poll. */
  datatype Interleaved = Nothing | TurnOffRan(entry: ConfigEntry) | UpdateRan(smart: Option<LightState>)

  /** One iteration of the wait: what ran during `asyncio.sleep(1)`, then what
      `hass.states.get` returned for the smart and for the physical light. */
  datatype Poll = Poll(during: Interleaved, smart: Option<LightState>, physical: Option<LightState>)

  /** How `_wait_for_smart_light_available` ended:
      Reachable    — the loop test failed with the flag still set (the smart light is not "unavailable");
      Cancelled    — the loop test failed because a turn_off cleared the flag;
      PhysicalOff  — a poll saw the physical light "off" and the wait returned early;
      WaitRaised   — `.state` was read from a missing state object (AttributeError);
      StillWaiting — the polls ran out while the loop would go on. */
  datatype WaitStatus = Reachable | Cancelled | PhysicalOff | WaitRaised | StillWaiting

  /** How a call of `async_turn_on` ended: it returned, it raised, or it is still suspended in the wait. */
  datatype CallStatus = Completed | Raised | Suspended

  /** `_update_parameters_from_config`. */
  function UpdateParameters(v: EntityView, entry: ConfigEntry): EntityView {
    v.(brightnessOnSwitch := ResolvedBrightnessOnSwitch(entry),
       turnOffPhysical := ResolvedTurnOffPhysical(entry))
  }

  /** `async_turn_off`. */
  function TurnOffSpec(v: EntityView, entry: ConfigEntry, physical: string, smart: string): (r: EntityView)
    ensures r.log == v.log + [TurnOffCommand(smart)] +
                     (if ResolvedTurnOffPhysical(entry) then [TurnOffCommand(physical)] else [])
    ensures r.brightnessOnSwitch == ResolvedBrightnessOnSwitch(entry)
    ensures r.turnOffPhysical == ResolvedTurnOffPhysical(entry)
    ensures !r.waitingForSmartLight
    ensures r.pub == v.pub.(state := Some(Off))
    ensures r.writes == v.writes + 1
  {
    var p := UpdateParameters(v, entry);
    var smartOff := p.log + [TurnOffCommand(smart)];
    var log := if p.turnOffPhysical then smartOff + [TurnOffCommand(physical)] else smartOff;
    p.(log := log, waitingForSmartLight := false, pub := p.pub.(state := Some(Off)), writes := p.writes + 1)
  }

  /** `async_update`. */
  function UpdateSpec(v: EntityView, smart: Option<LightState>): EntityView {
    v.(pub := MirrorSmartState(v.pub, smart), writes := v.writes + 1)
  }

  /** The effect of what ran during one sleep of the wait. */
  function Interleave(v: EntityView, during: Interleaved, physical: string, smart: string): EntityView {
    match during
    case Nothing => v
    case TurnOffRan(entry) => TurnOffSpec(v, entry, physical, smart)
    case UpdateRan(s) => UpdateSpec(v, s)
  }

  /** The wait's `while` loop, from a loop test that sees the smart state `current`. */
  function WaitLoop(v: EntityView, physical: string, smart: string, current: LightState, polls: seq<Poll>)
    : (EntityView, WaitStatus)
    decreases |polls|
  {
    if !(current.state == STATE_UNAVAILABLE && v.waitingForSmartLight) then
      (v, if v.waitingForSmartLight then Reachable else Cancelled)
    else if polls == [] then
      (v, StillWaiting)
    else
      var p := polls[0];
      var u := Interleave(v, p.during, physical, smart);
      if p.physical.None? then
        (u, WaitRaised)
      else if p.physical.value.state == STATE_OFF then
        var log := if u.turnOffPhysical then u.log + [TurnOffCommand(physical)] else u.log;
        (u.(waitingForSmartLight := false, log := log), PhysicalOff)
      else if p.smart.None? then
        (u, WaitRaised)
      else
        WaitLoop(u, physical, smart, p.smart.value, polls[1..])
  }

  /** `_wait_for_smart_light_available`, given the first reading of the smart light. */
  function Wait(v: EntityView, physical: string, smart: string, first: Option<LightState>, polls: seq<Poll>)
    : (EntityView, WaitStatus)
  {
    var w := v.(waitingForSmartLight := true);
    if first.None? then (w, WaitRaised) else WaitLoop(w, physical, smart, first.value, polls)
  }

  /** The one command `async_turn_on` sends the smart light after the wait. The caller's
      keyword arguments matter only through whether `brightness` is among them. */
  function Activation(smart: string, brightnessOnSwitch: int, kwargs: map<string, Value>): (c: Command)
    ensures c.service == LightTurnOn && c.entityId == smart
    ensures c.data.Keys <= {ATTR_BRIGHTNESS_PCT}
    ensures ATTR_BRIGHTNESS_PCT in c.data <==> brightnessOnSwitch != 0 && ATTR_BRIGHTNESS !in kwargs
    ensures ATTR_BRIGHTNESS_PCT in c.data ==> c.data[ATTR_BRIGHTNESS_PCT] == IntValue(brightnessOnSwitch)
  {
    if brightnessOnSwitch != 0 && ATTR_BRIGHTNESS !in kwargs then
      Command(LightTurnOn, smart, map[ATTR_BRIGHTNESS_PCT := IntValue(brightnessOnSwitch)])
    else
      TurnOnCommand(smart)
  }

  /** `async_turn_on`. */
  function TurnOnSpec(v: EntityView, physical: string, smart: string, entry: ConfigEntry,
                      physicalReading: Option<LightState>, smartFirst: Option<LightState>,
                      polls: seq<Poll>, kwargs: map<string, Value>): (EntityView, CallStatus)
  {
    var p := UpdateParameters(v, entry);
    if physicalReading.None? then
      (p, Raised)
    else
      var q := p.(log := p.log + PhysicalTurnOn(physical, physicalReading.value));
      var (w, ws) := Wait(q, physical, smart, smartFirst, polls);
      if ws == WaitRaised then
        (w, Raised)
      else if ws == StillWaiting then
        (w, Suspended)
      else
        (w.(log := w.log + [Activation(smart, w.brightnessOnSwitch, kwargs)],
            pub := w.pub.(state := Some(On)),
            writes := w.writes + 1), Completed)
  }

  /** No turn_off ran during any sleep of the wait. */
  predicate NoTurnOff(polls: seq<Poll>) {
    forall k :: 0 <= k < |polls| ==> !polls[k].during.TurnOffRan?
  }

  /** Nothing at all ran during the sleeps of the wait. */
  predicate Undisturbed(polls: seq<Poll>) {
    forall k :: 0 <= k < |polls| ==> polls[k].during == Nothing
  }

  /** A reference for how the wait ends when no turn_off clears the flag: it depends only on
      what the polls observe. The smart light is read first; a missing state object raises
      at the next loop test. */
  function UndisturbedWaitStatus(first: Option<LightState>, polls: seq<Poll>): WaitStatus
    decreases |polls|
  {
    match first
    case None => WaitRaised
    case Some(s) =>
      if s.state != STATE_UNAVAILABLE then Reachable
      else if polls == [] then StillWaiting
      else if polls[0].physical.None? then WaitRaised
      else if polls[0].physical.value.state == STATE_OFF then PhysicalOff
      else UndisturbedWaitStatus(polls[0].smart, polls[1..])
  }

  /** A poll after which the undisturbed wait polls again. */
  predicate Continues(p: Poll) {
    p.physical.Some? && p.physical.value.state != STATE_OFF &&
    p.smart.Some? && p.smart.value.state == STATE_UNAVAILABLE
  }

  /** Poll `k` is the first to break the wait, and it does so by seeing the physical light off. */
  predicate AbortsAt(polls: seq<Poll>, k: nat)
    requires k < |polls|
  {
    (forall j :: 0 <= j < k ==> Continues(polls[j])) &&
    polls[k].physical.Some? && polls[k].physical.value.state == STATE_OFF
  }

  /** Without an interleaved turn_off the flag stays set, so the wait ends as the reference
      says, issues at most one command (the physical turn_off, and only on an abort with
      `turn_off_physical` set), and leaves the flag set unless it aborted. */
  lemma {:induction false} WaitLoopWithoutTurnOff(v: EntityView, physical: string, smart: string,
                                                   current: LightState, polls: seq<Poll>)
    requires NoTurnOff(polls)
    requires v.waitingForSmartLight
    ensures var (r, s) := WaitLoop(v, physical, smart, current, polls);
            && s == UndisturbedWaitStatus(Some(current), polls)
            && r.log == v.log + (if s == PhysicalOff && v.turnOffPhysical then [TurnOffCommand(physical)] else [])
            && r.brightnessOnSwitch == v.brightnessOnSwitch
            && r.turnOffPhysical == v.turnOffPhysical
            && (r.waitingForSmartLight <==> s != PhysicalOff)
            && (Undisturbed(polls) ==> r.pub == v.pub && r.writes == v.writes)
    decreases |polls|
  {
    if current.state == STATE_UNAVAILABLE && polls != [] {
      var p := polls[0];
      assert !p.during.TurnOffRan?;
      var u := Interleave(v, p.during, physical, smart);
      if p.physical.Some? && p.physical.value.state != STATE_OFF && p.smart.Some? {
        assert NoTurnOff(polls[1..]) by {
          forall k | 0 <= k < |polls[1..]| ensures !polls[1..][k].during.TurnOffRan? {
            assert polls[1..][k] == polls[k + 1];
          }
        }
        if Undisturbed(polls) {
          assert Undisturbed(polls[1..]) by {
            forall k | 0 <= k < |polls[1..]| ensures polls[1..][k].during == Nothing {
              assert polls[1..][k] == polls[k + 1];
            }
          }
        }
        WaitLoopWithoutTurnOff(u, physical, smart, p.smart.value, polls[1..]);
      }
    }
  }

  /** The undisturbed wait aborts exactly when some poll sees the physical light off and
      every poll before it kept the loop going, whatever that poll read for the smart light. */
  lemma {:induction false} UndisturbedWaitAbortsIff(first: Option<LightState>, polls: seq<Poll>)
    requires first.Some? && first.value.state == STATE_UNAVAILABLE
    ensures UndisturbedWaitStatus(first, polls) == PhysicalOff <==>
            exists k: nat :: k < |polls| && AbortsAt(polls, k)
    decreases |polls|
  {
    if polls != [] {
      var p := polls[0];
      if p.physical.Some? && p.physical.value.state == STATE_OFF {
        assert AbortsAt(polls, 0);
      } else if Continues(p) {
        var rest := polls[1..];
        UndisturbedWaitAbortsIff(p.smart, rest);
        if exists k: nat :: k < |polls| && AbortsAt(polls, k) {
          var k: nat :| k < |polls| && AbortsAt(polls, k);
          assert k > 0;
          forall j | 0 <= j < k - 1 ensures Continues(rest[j]) {
            assert rest[j] == polls[j + 1];
          }
          assert rest[k - 1] == polls[k];
          assert AbortsAt(rest, k - 1);
        }
        if exists k: nat :: k < |rest| && AbortsAt(rest, k) {
          var k: nat :| k < |rest| && AbortsAt(rest, k);
          forall j | 0 <= j < k + 1 ensures Continues(polls[j]) {
            if j > 0 { assert polls[j] == rest[j - 1]; }
          }
          assert polls[k + 1] == rest[k];
          assert AbortsAt(polls, k + 1);
        }
      } else {
        forall k: nat | k < |polls| ensures !AbortsAt(polls, k) {
          if k > 0 { assert !Continues(polls[0]); }
        }
      }
    }
  }

  /** Physical off wins: a poll that sees the physical light off aborts the wait even when the
      smart light has just become available in the same poll. */
  lemma PhysicalOffWinsOverAvailability(first: Option<LightState>, p: Poll, rest: seq<Poll>)
    requires first.Some? && first.value.state == STATE_UNAVAILABLE
    requires p.physical.Some? && p.physical.value.state == STATE_OFF
    requires p.smart.Some? && p.smart.value.state == STATE_ON
    ensures UndisturbedWaitStatus(first, [p] + rest) == PhysicalOff
  {
  }

  /** Whatever runs during its sleeps, the wait only adds turn_off commands to the log and
      never takes a state write back. */
  lemma {:induction false} WaitLoopIssuesOnlyTurnOffs(v: EntityView, physical: string, smart: string,
                                                       current: LightState, polls: seq<Poll>)
    ensures var r := WaitLoop(v, physical, smart, current, polls).0;
            && |v.log| <= |r.log| && r.log[..|v.log|] == v.log
            && (forall k :: |v.log| <= k < |r.log| ==> r.log[k].service == LightTurnOff)
            && v.writes <= r.writes
    decreases |polls|
  {
    if current.state == STATE_UNAVAILABLE && v.waitingForSmartLight && polls != [] {
      var p := polls[0];
      var u := Interleave(v, p.during, physical, smart);
      assert |v.log| <= |u.log| && u.log[..|v.log|] == v.log;
      assert forall k :: |v.log| <= k < |u.log| ==> u.log[k].service == LightTurnOff;
      if p.physical.Some? && p.physical.value.state != STATE_OFF && p.smart.Some? {
        WaitLoopIssuesOnlyTurnOffs(u, physical, smart, p.smart.value, polls[1..]);
        var r := WaitLoop(u, physical, smart, p.smart.value, polls[1..]).0;
        assert r.log[..|v.log|] == r.log[..|u.log|][..|v.log|];
      }
    }
  }

  /** The wait issues nothing and leaves the flag set when the smart light is not
      "unavailable" at its first reading. */
  lemma WaitReachableAtOnce(v: EntityView, physical: string, smart: string,
                            first: Option<LightState>, polls: seq<Poll>)
    requires first.Some? && first.value.state != STATE_UNAVAILABLE
    ensures Wait(v, physical, smart, first, polls) == (v.(waitingForSmartLight := true), Reachable)
  {
  }

  /** `async_turn_on` when no turn_off runs during the wait: the tunables are re-resolved; the
      physical turn_on (issued exactly when the physical light read "off") comes first; the wait
      adds at most the physical turn_off of an abort; once the wait ends, by reachability or by
      abort, exactly one activation follows and `_state` is ON. */
  lemma TurnOnWithoutConcurrentTurnOff(v: EntityView, physical: string, smart: string, entry: ConfigEntry,
                                       physicalReading: Option<LightState>, smartFirst: Option<LightState>,
                                       polls: seq<Poll>, kwargs: map<string, Value>)
    requires NoTurnOff(polls)
    ensures var (r, s) := TurnOnSpec(v, physical, smart, entry, physicalReading, smartFirst, polls, kwargs);
            var ws := UndisturbedWaitStatus(smartFirst, polls);
            var off := ResolvedTurnOffPhysical(entry);
            && r.brightnessOnSwitch == ResolvedBrightnessOnSwitch(entry)
            && r.turnOffPhysical == off
            && (physicalReading.None? ==> s == Raised && r == UpdateParameters(v, entry))
            && (physicalReading.Some? ==>
                  && s == (if ws == WaitRaised then Raised else if ws == StillWaiting then Suspended else Completed)
                  && r.log == v.log + PhysicalTurnOn(physical, physicalReading.value)
                              + (if ws == PhysicalOff && off then [TurnOffCommand(physical)] else [])
                              + (if s == Completed then [Activation(smart, ResolvedBrightnessOnSwitch(entry), kwargs)] else [])
                  && (r.waitingForSmartLight <==> ws != PhysicalOff))
            && (s == Completed ==> r.pub.state == Some(On))
            && (Undisturbed(polls) && s == Completed ==> r.pub == v.pub.(state := Some(On)) && r.writes == v.writes + 1)
  {
    if physicalReading.Some? && smartFirst.Some? {
      var p := UpdateParameters(v, entry);
      var q := p.(log := p.log + PhysicalTurnOn(physical, physicalReading.value));
      WaitLoopWithoutTurnOff(q.(waitingForSmartLight := true), physical, smart, smartFirst.value, polls);
    }
  }

  /** Whatever runs during the wait, a completed `async_turn_on` ends with `_state` ON, its
      last command is the activation of the smart light, and it has written state at least once.
      For distinct lights, the activation is the call's only turn_on of the smart light. */
  lemma TurnOnCompletedEndsOn(v: EntityView, physical: string, smart: string, entry: ConfigEntry,
                              physicalReading: Option<LightState>, smartFirst: Option<LightState>,
                              polls: seq<Poll>, kwargs: map<string, Value>)
    ensures var (r, s) := TurnOnSpec(v, physical, smart, entry, physicalReading, smartFirst, polls, kwargs);
            s == Completed ==>
              && r.pub.state == Some(On)
              && |r.log| > |v.log|
              && r.log[|r.log| - 1] == Activation(smart, r.brightnessOnSwitch, kwargs)
              && r.writes > v.writes
              && (physical != smart ==>
                    forall k :: |v.log| <= k < |r.log| - 1 ==>
                      !(r.log[k].service == LightTurnOn && r.log[k].entityId == smart))
  {
    if physicalReading.Some? && smartFirst.Some? {
      var p := UpdateParameters(v, entry);
      var q := p.(log := p.log + PhysicalTurnOn(physical, physicalReading.value));
      WaitLoopIssuesOnlyTurnOffs(q.(waitingForSmartLight := true), physical, smart, smartFirst.value, polls);
    }
  }

  /** Whatever runs during the wait, the only turn_on for the physical light is the first command
      of the call, and it is issued exactly when the physical light read "off". */
  lemma TurnOnPhysicalCommandFirst(v: EntityView, physical: string, smart: string, entry: ConfigEntry,
                                   physicalReading: Option<LightState>, smartFirst: Option<LightState>,
                                   polls: seq<Poll>, kwargs: map<string, Value>)
    requires physical != smart
    requires physicalReading.Some?
    ensures var r := TurnOnSpec(v, physical, smart, entry, physicalReading, smartFirst, polls, kwargs).0;
            && |v.log| <= |r.log| && r.log[..|v.log|] == v.log
            && (physicalReading.value.state == STATE_OFF ==>
                  |r.log| > |v.log| && r.log[|v.log|] == TurnOnCommand(physical))
            && (forall k :: |v.log| <= k < |r.log| && r.log[k].service == LightTurnOn && r.log[k].entityId == physical ==>
                  k == |v.log| && physicalReading.value.state == STATE_OFF)
  {
    var p := UpdateParameters(v, entry);
    var q := p.(log := p.log + PhysicalTurnOn(physical, physicalReading.value));
    assert q.log[..|v.log|] == v.log;
    if smartFirst.Some? {
      var w := q.(waitingForSmartLight := true);
      WaitLoopIssuesOnlyTurnOffs(w, physical, smart, smartFirst.value, polls);
      var r := WaitLoop(w, physical, smart, smartFirst.value, polls).0;
      assert r.log[..|v.log|] == r.log[..|q.log|][..|v.log|];
    }
  }

  /** The first turn_off that runs during a sleep of the wait clears the flag, so the wait ends on
      that very poll, whatever the later polls would see: raised when that poll's read of the
      physical light, or of the smart light, finds no state object; aborted when the physical light
      reads "off", which sends the physical turn_off a second time when `turn_off_physical` is set;
      cancelled otherwise. */
  lemma {:induction false} WaitEndsAfterTurnOff(v: EntityView, physical: string, smart: string,
                                                 current: LightState, polls: seq<Poll>, k: nat)
    requires v.waitingForSmartLight && current.state == STATE_UNAVAILABLE
    requires k < |polls| && polls[k].during.TurnOffRan?
    requires forall j :: 0 <= j < k ==> Continues(polls[j]) && !polls[j].during.TurnOffRan?
    ensures var (r, s) := WaitLoop(v, physical, smart, current, polls);
            var p := polls[k];
            var off := ResolvedTurnOffPhysical(p.during.entry);
            && WaitLoop(v, physical, smart, current, polls[..k + 1]) == (r, s)
            && s == (if p.physical.None? || (p.physical.value.state != STATE_OFF && p.smart.None?) then WaitRaised
                     else if p.physical.value.state == STATE_OFF then PhysicalOff
                     else Cancelled)
            && !r.waitingForSmartLight
            && r.brightnessOnSwitch == ResolvedBrightnessOnSwitch(p.during.entry)
            && r.turnOffPhysical == off
            && r.log == v.log + [TurnOffCommand(smart)] + (if off then [TurnOffCommand(physical)] else [])
                        + (if s == PhysicalOff && off then [TurnOffCommand(physical)] else [])
            && ((forall j :: 0 <= j < k ==> polls[j].during == Nothing) ==> r.writes == v.writes + 1)
    decreases k
  {
    var p := polls[0];
    var u := Interleave(v, p.during, physical, smart);
    assert polls[..k + 1][0] == p;
    if k > 0 {
      assert Continues(p);
      var rest := polls[1..];
      forall j | 0 <= j < k - 1 ensures Continues(rest[j]) && !rest[j].during.TurnOffRan? {
        assert rest[j] == polls[j + 1];
      }
      assert rest[k - 1] == polls[k];
      assert polls[..k + 1][1..] == rest[..k];
      if forall j :: 0 <= j < k ==> polls[j].during == Nothing {
        forall j | 0 <= j < k - 1 ensures rest[j].during == Nothing {
          assert rest[j] == polls[j + 1];
        }
      }
      WaitEndsAfterTurnOff(u, physical, smart, p.smart.value, rest, k - 1);
    } else if p.physical.Some? && p.physical.value.state != STATE_OFF && p.smart.Some? {
      assert WaitLoop(u, physical, smart, p.smart.value, polls[1..]) == (u, Cancelled);
      assert WaitLoop(u, physical, smart, p.smart.value, polls[..1][1..]) == (u, Cancelled);
    }
  }

  /** A turn_off that runs during the wait ends it at the next poll, yet `async_turn_on` does not
      stop there: unless a read raised, it completes, activating the smart light at the brightness
      that turn_off re-resolved and setting `_state` ON. Two writes when nothing else ran. */
  lemma TurnOffDuringWaitStillActivates(v: EntityView, physical: string, smart: string, entry: ConfigEntry,
                                        physicalReading: LightState, unavailable: LightState,
                                        polls: seq<Poll>, k: nat, kwargs: map<string, Value>)
    requires unavailable.state == STATE_UNAVAILABLE
    requires k < |polls| && polls[k].during.TurnOffRan?
    requires forall j :: 0 <= j < k ==> Continues(polls[j]) && !polls[j].during.TurnOffRan?
    ensures var (r, s) := TurnOnSpec(v, physical, smart, entry, Some(physicalReading), Some(unavailable), polls, kwargs);
            var p := polls[k];
            var off := ResolvedTurnOffPhysical(p.during.entry);
            var raised := p.physical.None? || (p.physical.value.state != STATE_OFF && p.smart.None?);
            var aborted := !raised && p.physical.value.state == STATE_OFF;
            && TurnOnSpec(v, physical, smart, entry, Some(physicalReading), Some(unavailable), polls[..k + 1], kwargs) == (r, s)
            && s == (if raised then Raised else Completed)
            && !r.waitingForSmartLight
            && r.log == v.log + PhysicalTurnOn(physical, physicalReading) + [TurnOffCommand(smart)]
                        + (if off then [TurnOffCommand(physical)] else [])
                        + (if aborted && off then [TurnOffCommand(physical)] else [])
                        + (if s == Completed then [Activation(smart, ResolvedBrightnessOnSwitch(p.during.entry), kwargs)] else [])
            && (s == Completed ==> r.pub.state == Some(On))
            && (s == Completed && (forall j :: 0 <= j < k ==> polls[j].during == Nothing) ==> r.writes == v.writes + 2)
  {
    var p := UpdateParameters(v, entry);
    var q := p.(log := p.log + PhysicalTurnOn(physical, physicalReading));
    WaitEndsAfterTurnOff(q.(waitingForSmartLight := true), physical, smart, unavailable, polls, k);
  }

  /** Explicit keyword arguments are never forwarded: two calls that agree on whether
      `brightness` was passed have the same effect. */
  lemma TurnOnIgnoresExplicitArguments(v: EntityView, physical: string, smart: string, entry: ConfigEntry,
                                       physicalReading: Option<LightState>, smartFirst: Option<LightState>,
                                       polls: seq<Poll>, kwargs1: map<string, Value>, kwargs2: map<string, Value>)
    requires ATTR_BRIGHTNESS in kwargs1 <==> ATTR_BRIGHTNESS in kwargs2
    ensures TurnOnSpec(v, physical, smart, entry, physicalReading, smartFirst, polls, kwargs1)
         == TurnOnSpec(v, physical, smart, entry, physicalReading, smartFirst, polls, kwargs2)
  {
  }

  class LightPairEntity {
    const physicalLight: string
    const smartLight: string

    var state: Option<Power>
    var brightness: Option<int>
    var xyColor: Option<Xy>
    var colorTemp: Option<int>
    var colorMode: Option<string>
    var supportedColorModes: seq<string>
    var supportedFeatures: int
    var brightnessOnSwitch: int
    var turnOffPhysical: bool
    var waitingForSmartLight: bool

    /** Host-side effects: the service calls issued and the number of state writes. */
    var log: seq<Command>
    var writes: nat

    function View(): EntityView
      reads this
    {
      EntityView(
        Published(state, brightness, xyColor, colorTemp, colorMode, supportedColorModes, supportedFeatures),
        brightnessOnSwitch, turnOffPhysical, waitingForSmartLight, log, writes)
    }

    constructor (physicalLight: string, smartLight: string, brightnessOnSwitch: int, turnOffPhysical: bool)
      ensures this.physicalLight == physicalLight && this.smartLight == smartLight
      ensures View() == EntityView(INITIAL_PUBLISHED, brightnessOnSwitch, turnOffPhysical, false, [], 0)
      ensures !IsOn()
    {
      this.physicalLight := physicalLight;
      this.smartLight := smartLight;
      this.brightnessOnSwitch := brightnessOnSwitch;
      this.turnOffPhysical := turnOffPhysical;
      state := None;
      brightness := None;
      xyColor := None;
      colorTemp := None;
      colorMode := None;
      supportedColorModes := [];
      supportedFeatures := DEFAULT_SUPPORTED_FEATURES;
      waitingForSmartLight := false;
      log := [];
      writes := 0;
    }

    /** `is_on`. */
    function IsOn(): (r: bool)
      reads this
      ensures r <==> state == Some(On)
    {
      state == Some(On)
    }

    /** `supported_color_modes`: never empty. */
    function SupportedColorModes(): (r: seq<string>)
      reads this
      ensures r != []
      ensures supportedColorModes != [] ==> r == supportedColorModes
      ensures supportedColorModes == [] ==> r == DEFAULT_COLOR_MODES
    {
      ColorModesOrDefault(supportedColorModes)
    }

    /** `_state_changed_listener`: whether the event schedules an update. */
    method StateChangedListener(event: StateChangedEvent) returns (scheduled: bool)
      ensures scheduled <==> event.entityId == Some(physicalLight) || event.entityId == Some(smartLight)
    {
      var entityId := event.entityId;
      scheduled := entityId == Some(physicalLight) || entityId == Some(smartLight);
    }

    method UpdateParametersFromConfig(entry: ConfigEntry)
      modifies this
      ensures View() == UpdateParameters(old(View()), entry)
    {
      brightnessOnSwitch := ResolvedBrightnessOnSwitch(entry);
      turnOffPhysical := ResolvedTurnOffPhysical(entry);
    }

    method TurnOff(entry: ConfigEntry)
      modifies this
      ensures View() == TurnOffSpec(old(View()), entry, physicalLight, smartLight)
    {
      UpdateParametersFromConfig(entry);
      log := log + [TurnOffCommand(smartLight)];
      if turnOffPhysical {
        log := log + [TurnOffCommand(physicalLight)];
      }
      waitingForSmartLight := false;
      state := Some(Off);
      writes := writes + 1;
    }

    method Update(smart: Option<LightState>)
      modifies this
      ensures View() == UpdateSpec(old(View()), smart)
    {
      if smart.Some? && smart.value.state == STATE_ON {
        var a := smart.value.attributes;
        state := Some(On);
        brightness := a.brightness;
        xyColor := a.xyColor;
        colorTemp := a.colorTemp;
        colorMode := a.colorMode;
        supportedColorModes := ColorModesOrDefault(a.supportedColorModes.GetOr([]));
        supportedFeatures := a.supportedFeatures.GetOr(DEFAULT_SUPPORTED_FEATURES);
      } else {
        state := Some(Off);
      }
      writes := writes + 1;
    }

    method WaitForSmartLightAvailable(first: Option<LightState>, polls: seq<Poll>) returns (status: WaitStatus)
      modifies this
      ensures (View(), status) == Wait(old(View()), physicalLight, smartLight, first, polls)
    {
      waitingForSmartLight := true;
      if first.None? {
        status := WaitRaised;
        return;
      }
      ghost var start := View();
      var current := first.value;
      var i := 0;
      while i < |polls| && current.state == STATE_UNAVAILABLE && waitingForSmartLight
        invariant 0 <= i <= |polls|
        invariant WaitLoop(View(), physicalLight, smartLight, current, polls[i..])
               == WaitLoop(start, physicalLight, smartLight, first.value, polls)
      {
        var p := polls[i];
        assert polls[i..][0] == p && polls[i..][1..] == polls[i + 1..];
        match p.during {
          case Nothing =>
          case TurnOffRan(entry) => TurnOff(entry);
          case UpdateRan(s) => Update(s);
        }
        if p.physical.None? {
          status := WaitRaised;
          return;
        }
        if p.physical.value.state == STATE_OFF {
          waitingForSmartLight := false;
          if turnOffPhysical {
            log := log + [TurnOffCommand(physicalLight)];
          }
          status := PhysicalOff;
          return;
        }
        if p.smart.None? {
          status := WaitRaised;
          return;
        }
        current := p.smart.value;
        i := i + 1;
      }
      if current.state == STATE_UNAVAILABLE && waitingForSmartLight {
        status := StillWaiting;
      } else if waitingForSmartLight {
        status := Reachable;
      } else {
        status := Cancelled;
      }
    }

    method TurnOn(entry: ConfigEntry, physicalReading: Option<LightState>, smartFirst: Option<LightState>,
                  polls: seq<Poll>, kwargs: map<string, Value>) returns (status: CallStatus)
      modifies this
      ensures (View(), status) == TurnOnSpec(old(View()), physicalLight, smartLight, entry,
                                             physicalReading, smartFirst, polls, kwargs)
    {
      UpdateParametersFromConfig(entry);
      if physicalReading.None? {
        status := Raised;
        return;
      }
      ghost var afterParameters := View();
      if physicalReading.value.state == STATE_OFF {
        log := log + [TurnOnCommand(physicalLight)];
      }
      assert View() == afterParameters.(log := afterParameters.log + PhysicalTurnOn(physicalLight, physicalReading.value));
      var ws := WaitForSmartLightAvailable(smartFirst, polls);
      if ws == WaitRaised {
        status := Raised;
        return;
      }
      if ws == StillWaiting {
        status := Suspended;
        return;
      }
      if brightnessOnSwitch != 0 && ATTR_BRIGHTNESS !in kwargs {
        log := log + [Command(LightTurnOn, smartLight, map[ATTR_BRIGHTNESS_PCT := IntValue(brightnessOnSwitch)])];
      } else {
        log := log + [TurnOnCommand(smartLight)];
      }
      state := Some(On);
      writes := writes + 1;
      status := Completed;
    }
  }
}
