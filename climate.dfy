/** The Home Assistant climate entity: one per cloud device, refreshed from telemetry and
    driven by setpoint and mode commands. */
module Climate {
  import opened Wrappers
  import opened JsonValues
  import opened Http
  import opened Models
  import opened Cloud

  const MIN_TEMPERATURE := 5
  const MAX_TEMPERATURE := 45
  /** Two seconds, in the microseconds that time is counted in. */
  const MIN_TIME_BETWEEN_UPDATES := 2_000_000

  datatype HvacMode = ModeHeat | ModeOff
  datatype HvacAction = ActionOff | ActionHeating | ActionIdle

  /** The entity's mutable fields; time counts microseconds since `datetime.min`. */
  datatype EntityState = EntityState(
    currentTemperature: Option<real>,
    targetTemperature: Option<int>,
    mode: HvacMode,
    action: HvacAction,
    lastCommandTime: nat)

  /** A newly constructed entity. */
  function Initial(): EntityState {
    EntityState(None, None, ModeOff, ActionOff, 0)
  }

  /** The truthiness of an optional telemetry flag. */
  predicate Flag(f: Option<bool>) {
    f == Some(true)
  }

  /** The entity is off in both mode and action or in neither, and a shown reading is
      never below MIN_TEMPERATURE. */
  predicate ValidState(s: EntityState) {
    && (s.mode == ModeOff <==> s.action == ActionOff)
    && (s.currentTemperature.Some? ==> s.currentTemperature.value >= MIN_TEMPERATURE as real)
  }

  /** The state `_async_update_telemetry` leaves after receiving `t`: comparing a missing
      reading with MIN_TEMPERATURE raises before any field is written. */
  function Observe(s: EntityState, t: TerneoTelemetry): (r: Result<EntityState>)
    ensures r.Err? <==> t.currentTemperature.None?
    ensures r.Err? ==> r.fault == TypeError
    ensures r.Ok? ==> ValidState(r.value) && r.value.lastCommandTime == s.lastCommandTime
    ensures r.Ok? ==>
      var c := t.currentTemperature.value;
      && (c < MIN_TEMPERATURE as real ==> r.value.currentTemperature.None?)
      && (c >= MIN_TEMPERATURE as real ==> r.value.currentTemperature == Some(c))
      && r.value.targetTemperature == t.targetTemperature
      && (r.value.mode == ModeOff <==> Flag(t.powerOff))
      && (r.value.action == ActionOff <==> Flag(t.powerOff))
      && (r.value.action == ActionHeating <==> !Flag(t.powerOff) && Flag(t.heating))
      && (r.value.action == ActionIdle <==> !Flag(t.powerOff) && !Flag(t.heating))
  {
    if t.currentTemperature.None? then Err(TypeError)
    else
      var c := t.currentTemperature.value;
      Ok(EntityState(
        if c < MIN_TEMPERATURE as real then None else Some(c),
        t.targetTemperature,
        if Flag(t.powerOff) then ModeOff else ModeHeat,
        if Flag(t.powerOff) then ActionOff else if Flag(t.heating) then ActionHeating else ActionIdle,
        s.lastCommandTime))
  }

  /** What a telemetry read does: an error propagates, None changes nothing. */
  function Refresh(s: EntityState, got: Result<Option<TerneoTelemetry>>): (r: Result<EntityState>)
    ensures got.Err? ==> r == Err(got.fault)
    ensures got == Ok(None) ==> r == Ok(s)
    ensures got.Ok? && got.value.Some? ==> r == Observe(s, got.value.value)
    ensures ValidState(s) && r.Ok? ==> ValidState(r.value)
    ensures r.Ok? ==> r.value.lastCommandTime == s.lastCommandTime
  {
    match got
    case Err(f) => Err(f)
    case Ok(None) => Ok(s)
    case Ok(Some(t)) => Observe(s, t)
  }

  /** Telemetry overwrites every field it carries: what the entity showed before does not
      matter. */
  lemma ObserveForgetsEarlierState(s1: EntityState, s2: EntityState, t: TerneoTelemetry)
    requires s1.lastCommandTime == s2.lastCommandTime
    ensures Observe(s1, t) == Observe(s2, t)
  {
  }

  /** The same telemetry a second time changes nothing more. */
  lemma ObserveIsIdempotent(s: EntityState, t: TerneoTelemetry)
    requires Observe(s, t).Ok?
    ensures Observe(Observe(s, t).value, t) == Observe(s, t)
  {
  }

  /** Whether `async_update` refreshes at time `now`: strictly more than two seconds
      after the last command. */
  predicate Refreshes(s: EntityState, now: nat): (b: bool)
    ensures b ==> now > s.lastCommandTime && now > MIN_TIME_BETWEEN_UPDATES
  {
    now - s.lastCommandTime > MIN_TIME_BETWEEN_UPDATES
  }

  /** A new entity refreshes at any time more than two seconds after `datetime.min`. */
  lemma InitialRefreshes(now: nat)
    ensures Refreshes(Initial(), now) <==> now > MIN_TIME_BETWEEN_UPDATES
  {
  }

  class TerneoClimateEntity {
    const cloudDevice: CloudDevice
    const cloudService: CloudService
    const name: Json     // `_attr_name`
    var currentTemperature: Option<real>
    var targetTemperature: Option<int>
    var mode: HvacMode
    var action: HvacAction
    var lastCommandTime: nat

    function State(): EntityState
      reads this
    {
      EntityState(currentTemperature, targetTemperature, mode, action, lastCommandTime)
    }

    predicate Valid()
      reads this
    {
      ValidState(State())
    }

    constructor (device: CloudDevice, service: CloudService)
      ensures cloudDevice == device && cloudService == service && name == device.name
      ensures State() == Initial() && Valid()
    {
      cloudDevice := device;
      cloudService := service;
      name := device.name;
      lastCommandTime := 0;
      targetTemperature := None;
      currentTemperature := None;
      mode := ModeOff;
      action := ActionOff;
    }

    /** `_async_update_telemetry`, given the reply to the telemetry request. */
    method UpdateTelemetry(reply: Reply) returns (request: Option<CloudRequest>, r: Result<()>)
      requires Valid()
      modifies this
      ensures Valid()
      ensures var call := cloudService.GetTelemetry(cloudDevice.serialNumber, reply);
        var next := Refresh(old(State()), call.result);
        && request == call.request
        && (next.Ok? ==> r == Ok(()) && State() == next.value)
        && (next.Err? ==> r == Err(next.fault) && State() == old(State()))
    {
      var call := cloudService.GetTelemetry(cloudDevice.serialNumber, reply);
      request := call.request;
      if call.result.Err? {
        r := Err(call.result.fault);    // `get_telemetry` raised; it propagates
        return;
      }
      if call.result.value.None? {
        r := Ok(());                    // `if telemetry:` fails on None
        return;
      }
      var telemetry := call.result.value.value;
      if telemetry.currentTemperature.None? {
        r := Err(TypeError);            // `None < MIN_TEMPERATURE`
        return;
      }
      var current := telemetry.currentTemperature.value;
      if current < MIN_TEMPERATURE as real {
        currentTemperature := None;
      } else {
        currentTemperature := Some(current);
      }
      targetTemperature := telemetry.targetTemperature;
      mode := if Flag(telemetry.powerOff) then ModeOff else ModeHeat;
      if Flag(telemetry.powerOff) {
        action := ActionOff;
      } else {
        action := if Flag(telemetry.heating) then ActionHeating else ActionIdle;
      }
      r := Ok(());
    }

    /** `async_set_temperature` at time `now`: a confirmed write records the target and
        the command time; a refusal or an exception is logged and changes nothing. */
    method SetTemperature(temperature: Option<int>, now: nat, reply: Reply) returns (request: Option<CloudRequest>)
      requires Valid()
      modifies this
      ensures Valid()
      ensures temperature.None? ==> request.None? && State() == old(State())
      ensures temperature.Some? ==>
        var call := cloudService.SetTemperature(cloudDevice.serialNumber, temperature.value, reply);
        && request == call.request
        && State() == if call.result == Ok(true)
                      then old(State()).(targetTemperature := temperature, lastCommandTime := now)
                      else old(State())
    {
      if temperature.None? {
        return None;
      }
      var call := cloudService.SetTemperature(cloudDevice.serialNumber, temperature.value, reply);
      request := call.request;
      if call.result == Ok(true) {
        lastCommandTime := now;
        targetTemperature := temperature;
      }
    }

    /** `async_set_hvac_mode` at time `now`: a confirmed switch sets mode and action
        together; a refusal or an exception is logged and changes nothing. */
    method SetHvacMode(hvacMode: HvacMode, now: nat, reply: Reply) returns (request: Option<CloudRequest>)
      requires Valid()
      modifies this
      ensures Valid()
      ensures var isOff := hvacMode == ModeOff;
        var call := cloudService.PowerOnOff(cloudDevice.serialNumber, isOff, reply);
        && request == call.request
        && State() == if call.result == Ok(true)
                      then old(State()).(mode := hvacMode, action := if isOff then ActionOff else ActionIdle,
                                         lastCommandTime := now)
                      else old(State())
    {
      var isOff := hvacMode == ModeOff;
      var call := cloudService.PowerOnOff(cloudDevice.serialNumber, isOff, reply);
      request := call.request;
      if call.result == Ok(true) {
        lastCommandTime := now;
        mode := if isOff then ModeOff else ModeHeat;
        action := if isOff then ActionOff else ActionIdle;
      }
    }

    /** `async_update` at time `now`: refresh only when the last command is more than
        two seconds old. */
    method Update(now: nat, reply: Reply) returns (request: Option<CloudRequest>, r: Result<()>)
      requires Valid()
      modifies this
      ensures Valid()
      ensures !Refreshes(old(State()), now) ==> request.None? && r == Ok(()) && State() == old(State())
      ensures Refreshes(old(State()), now) ==>
        var call := cloudService.GetTelemetry(cloudDevice.serialNumber, reply);
        var next := Refresh(old(State()), call.result);
        && request == call.request
        && (next.Ok? ==> r == Ok(()) && State() == next.value)
        && (next.Err? ==> r == Err(next.fault) && State() == old(State()))
    {
      if now - lastCommandTime > MIN_TIME_BETWEEN_UPDATES {
        request, r := UpdateTelemetry(reply);
      } else {
        request, r := None, Ok(());
      }
    }
  }

  /** The throttle keeps a confirmed setpoint from being overwritten by a poll within the
      next two seconds, whatever that poll would have read. */
  method SetpointSurvivesImmediatePoll(entity: TerneoClimateEntity, temperature: int, now: nat, later: nat,
                                       setReply: Reply, pollReply: Reply)
    requires entity.Valid()
    requires entity.cloudService.SetTemperature(entity.cloudDevice.serialNumber, temperature, setReply).result == Ok(true)
    requires later - now <= MIN_TIME_BETWEEN_UPDATES
    modifies entity
    ensures entity.targetTemperature == Some(temperature) && entity.lastCommandTime == now
  {
    var sent := entity.SetTemperature(Some(temperature), now, setReply);
    var polled, r := entity.Update(later, pollReply);
  }
}
