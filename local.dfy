/** The local backend: UDP discovery of thermostats on the LAN and JSON commands sent
    straight to each device's embedded web server. */
module Local {
  import opened Wrappers
  import opened JsonValues
  import opened PyNumbers
  import opened Http
  import opened Models

  /** The UDP port devices broadcast their announcements on. */
  const UDP_PORT := 23500

  /** `POST http://<ip>/api.cgi` with a JSON body. */
  datatype LocalRequest = LocalRequest(ip: Json, body: Json)

  /** `{"cmd": 4}`: read the device's parameters. */
  function TelemetryCommand(): (c: Json)
    ensures c.JObject? && c.fields.Keys == {"cmd"} && Subscript(c, "cmd") == Ok(JInt(4))
  {
    JObject(map["cmd" := JInt(4)])
  }

  /** `{"sn": serial, "par": [[5, 1, str(temperature)]]}`: write the setpoint. */
  function SetpointCommand(serial: Json, temperature: int): (c: Json)
    ensures c.JObject? && c.fields.Keys == {"sn", "par"} && Subscript(c, "sn") == Ok(serial)
    ensures Triple(c).Some? && |Triple(c).value| == 3
  {
    JObject(map["sn" := serial,
                "par" := JArray([JArray([JInt(5), JInt(1), JString(IntToString(temperature))])])])
  }

  /** `{"sn": serial, "par": [[125, 7, "1" | "0"]]}`: switch the device off or on. */
  function PowerCommand(serial: Json, isOff: bool): (c: Json)
    ensures c.JObject? && c.fields.Keys == {"sn", "par"} && Subscript(c, "sn") == Ok(serial)
    ensures Triple(c).Some? && |Triple(c).value| == 3
  {
    JObject(map["sn" := serial,
                "par" := JArray([JArray([JInt(125), JInt(7), JString(if isOff then "1" else "0")])])])
  }

  /** The single parameter triple a write command carries. */
  function Triple(command: Json): (t: Option<seq<Json>>) {
    if command.JObject? && "par" in command.fields && command.fields["par"].JArray? &&
       |command.fields["par"].items| == 1 && command.fields["par"].items[0].JArray?
    then Some(command.fields["par"].items[0].items)
    else None
  }

  /** The setpoint command addresses parameter 5.1 of the given device, and its value text
      reads back as the requested temperature. */
  lemma SetpointCommandCarriesTemperature(serial: Json, temperature: int)
    ensures SetpointCommand(serial, temperature).fields["sn"] == serial
    ensures var t := Triple(SetpointCommand(serial, temperature));
      t.Some? && |t.value| == 3 && t.value[0] == JInt(5) && t.value[1] == JInt(1) &&
      t.value[2].JString? && PyInt(t.value[2]) == Ok(temperature)
  {
    PyIntOfStr(temperature);
  }

  /** The power command addresses parameter 125.7, with "1" exactly when switching off. */
  lemma PowerCommandCarriesFlag(serial: Json, isOff: bool)
    ensures PowerCommand(serial, isOff).fields["sn"] == serial
    ensures var t := Triple(PowerCommand(serial, isOff));
      t.Some? && |t.value| == 3 && t.value[0] == JInt(125) && t.value[1] == JInt(7) &&
      (PyEq(t.value[2], JString("1")) <==> isOff) && (PyEq(t.value[2], JString("0")) <==> !isOff)
  {
  }

  /** `int(raw) / 16.0` when the raw reading is truthy, None otherwise. */
  function DecodeCurrent(raw: Json): (r: Result<Option<real>>)
    ensures !Truthy(raw) ==> r == Ok(None)
    ensures Truthy(raw) ==> (r.Ok? <==> PyInt(raw).Ok?) && (r.Ok? ==> r.value.Some?)
    ensures r.Ok? && r.value.Some? ==> r.value.value * 16.0 == PyInt(raw).value as real
  {
    if !Truthy(raw) then Ok(None)
    else
      var n :- PyInt(raw);
      Ok(Some(n as real / 16.0))
  }

  /** `int(raw) // 16` when the raw reading is truthy, None otherwise. */
  function DecodeTarget(raw: Json): (r: Result<Option<int>>)
    ensures !Truthy(raw) ==> r == Ok(None)
    ensures Truthy(raw) ==> (r.Ok? <==> PyInt(raw).Ok?) && (r.Ok? ==> r.value.Some?)
    ensures r.Ok? && r.value.Some? ==>
      16 * r.value.value <= PyInt(raw).value < 16 * r.value.value + 16
  {
    if !Truthy(raw) then Ok(None)
    else
      var n :- PyInt(raw);
      Ok(Some(n / 16))
  }

  /** `_parse_telemetry_data`: fixed-point readings in 1/16 degree and "1"/"0" flags. */
  function ParseTelemetryData(data: Json): (r: Result<TerneoTelemetry>)
    ensures r.Err? <==> !data.JObject? ||
                        DecodeCurrent(Member(data.fields, "t.1")).Err? ||
                        DecodeTarget(Member(data.fields, "t.5")).Err?
    ensures !data.JObject? ==> r == Err(AttributeError)
    ensures r.Ok? ==>
      var m := data.fields;
      && (r.value.currentTemperature.None? <==> !Truthy(Member(m, "t.1")))
      && (r.value.targetTemperature.None? <==> !Truthy(Member(m, "t.5")))
      && r.value.heating == Some(Member(m, "f.0") == JString("1"))
      && r.value.powerOff == Some(Member(m, "f.16") == JString("1"))
    ensures r.Ok? && r.value.currentTemperature.Some? ==>
      r.value.currentTemperature.value * 16.0 == PyInt(Member(data.fields, "t.1")).value as real
    ensures r.Ok? && r.value.targetTemperature.Some? ==>
      var raw := PyInt(Member(data.fields, "t.5")).value;
      16 * r.value.targetTemperature.value <= raw < 16 * r.value.targetTemperature.value + 16
  {
    if !data.JObject? then Err(AttributeError)   // `data.get` on a value that is not a dict
    else
      var m := data.fields;
      var current :- DecodeCurrent(Member(m, "t.1"));
      var target :- DecodeTarget(Member(m, "t.5"));
      PyEqString(Member(m, "f.0"), "1");
      PyEqString(Member(m, "f.16"), "1");
      Ok(TerneoTelemetry(current, target,
                         Some(PyEq(Member(m, "f.0"), JString("1"))),
                         Some(PyEq(Member(m, "f.16"), JString("1")))))
  }

  /** A setpoint of t degrees reported as `str(16 * t + r)` with 0 <= r < 16 decodes to t. */
  lemma TargetOfFixedPoint(t: int, r: int)
    requires 0 <= r < 16
    ensures DecodeTarget(JString(IntToString(16 * t + r))) == Ok(Some(t))
  {
    PyIntOfStr(16 * t + r);
  }

  /** A reading reported as `str(raw)` decodes to exactly raw / 16. */
  lemma CurrentOfFixedPoint(raw: int)
    ensures DecodeCurrent(JString(IntToString(raw))) == Ok(Some(raw as real / 16.0))
  {
    PyIntOfStr(raw);
  }

  /** 20.5 degrees travels as "328"; a setpoint of 21 as "336". */
  lemma FixedPointExamples()
    ensures DecodeCurrent(JString(IntToString(328))) == Ok(Some(20.5))
    ensures DecodeTarget(JString(IntToString(336))) == Ok(Some(21))
  {
    CurrentOfFixedPoint(328);
    TargetOfFixedPoint(21, 0);
  }

  /** A missing or empty reading is unknown, never 0.0. */
  lemma MissingReadingIsUnknown(m: map<string, Json>)
    requires "t.1" !in m
    ensures ParseTelemetryData(JObject(m)).Ok? ==> ParseTelemetryData(JObject(m)).value.currentTemperature.None?
  {
  }

  /** What `get_telemetry` makes of the device's reply. */
  function TelemetryOfReply(reply: Reply): (r: Result<Option<TerneoTelemetry>>)
    ensures reply.None? ==> r == Err(TransportError)
    ensures reply.Some? && reply.value.status != 200 ==> r == Ok(None)
    ensures r.Ok? && r.value.Some? <==>
      reply.Some? && reply.value.status == 200 && reply.value.body.Parsed? &&
      ParseTelemetryData(reply.value.body.value).Ok?
    ensures r.Ok? && r.value.Some? ==> Ok(r.value.value) == ParseTelemetryData(reply.value.body.value)
    ensures reply.Some? && reply.value.status == 200 && reply.value.body.Malformed? ==> r == Err(JsonDecodeError)
    ensures reply.Some? && reply.value.status == 200 && reply.value.body.Parsed? &&
            ParseTelemetryData(reply.value.body.value).Err? ==>
              r == Err(ParseTelemetryData(reply.value.body.value).fault)
  {
    match reply
    case None => Err(TransportError)
    case Some(response) =>
      if response.status != 200 then Ok(None)
      else
        var data :- ResponseJson(response);
        var telemetry :- ParseTelemetryData(data);
        Ok(Some(telemetry))
  }

  /** What a write makes of the device's reply: `data.get("success", False)`, whatever
      the status code. */
  function WriteResult(reply: Reply): (r: Result<Json>)
    ensures reply.None? ==> r == Err(TransportError)
    ensures r.Ok? <==> reply.Some? && reply.value.body.Parsed? && reply.value.body.value.JObject?
    ensures r.Ok? ==>
      var m := reply.value.body.value.fields;
      r.value == if "success" in m then m["success"] else JBool(false)
  {
    match reply
    case None => Err(TransportError)
    case Some(response) =>
      var data :- ResponseJson(response);
      Get(data, "success", JBool(false))
  }

  /** A write reports the same result whatever status code came with the body. */
  lemma WriteResultIgnoresStatus(body: JsonText, status: int)
    ensures WriteResult(Some(Response(status, body))) == WriteResult(Some(Response(200, body)))
  {
  }

  // ---------------------------------------------------------------------------------
  // Discovery

  /** A received datagram: its sender's address and its payload, which either fails to
      decode as UTF-8 or is a text for `json.loads`. */
  datatype Payload = Undecodable | Decoded(text: JsonText)
  datatype Datagram = Datagram(source: string, payload: Payload)

  /** A registered discovery callback, named by an arbitrary number; two registrations may
      carry the same number. */
  type Callback = nat

  /** One invocation `callback(device)`. */
  datatype Notification = Notification(callback: Callback, device: TerneoDevice)

  /** What the listener changes: the registry and the callback invocations made so far. */
  datatype Listener = Listener(devices: seq<TerneoDevice>, notifications: seq<Notification>)

  /** After one datagram the listener either goes on listening or returns. */
  datatype Step = Continue(next: Listener) | Return

  /** `_parse_discovery_data`: None for a text that is not JSON; a decoded value that is
      not a dict makes `data.get` raise. */
  function ParseDiscoveryData(text: JsonText): (r: Result<Option<TerneoDevice>>)
    ensures r == Ok(None) <==> text.Malformed?
    ensures r.Err? <==> text.Parsed? && !text.value.JObject?
    ensures r.Err? ==> r.fault == AttributeError
    ensures r.Ok? && r.value.Some? ==>
      r.value.value == TerneoDevice(Member(text.value.fields, "ip"), Member(text.value.fields, "sn"))
  {
    match text
    case Malformed => Ok(None)
    case Parsed(data) =>
      var ip :- Get(data, "ip", JNull);
      Ok(Some(TerneoDevice(ip, Member(data.fields, "sn"))))
  }

  /** The device a datagram announces: the payload's serial at the sender's address. */
  function Announced(datagram: Datagram): (d: Option<TerneoDevice>)
    ensures d.Some? <==> datagram.payload.Decoded? && datagram.payload.text.Parsed? &&
                         datagram.payload.text.value.JObject?
    ensures d.Some? ==> d.value.ip == JString(datagram.source) &&
                        d.value.serialNumber == Member(datagram.payload.text.value.fields, "sn")
  {
    if datagram.payload.Undecodable? then None
    else match ParseDiscoveryData(datagram.payload.text)
      case Ok(Some(parsed)) => Some(parsed.(ip := JString(datagram.source)))
      case _ => None
  }

  /** `device in devices`, which compares with `TerneoDevice.__eq__`. */
  predicate Contains(devices: seq<TerneoDevice>, device: TerneoDevice): (b: bool)
    ensures device in devices ==> b
    ensures b ==> exists i :: 0 <= i < |devices| && PyEq(devices[i].serialNumber, device.serialNumber)
  {
    EqualsReflexive(device);
    exists i :: 0 <= i < |devices| && Equals(devices[i], DeviceOperand(device))
  }

  /** Calling every registered callback with `device`, in registration order. */
  function Notify(callbacks: seq<Callback>, device: TerneoDevice): (n: seq<Notification>)
    ensures |n| == |callbacks|
    ensures forall i :: 0 <= i < |callbacks| ==> n[i] == Notification(callbacks[i], device)
  {
    seq(|callbacks|, i requires 0 <= i < |callbacks| => Notification(callbacks[i], device))
  }

  /** One pass of the `while self._is_discovering` loop for one received datagram. */
  function Receive(state: Listener, callbacks: seq<Callback>, datagram: Datagram): (r: Step)
    ensures r.Return? <==> datagram.payload == Decoded(Malformed)
    ensures r.Continue? && Announced(datagram).Some? && !Contains(state.devices, Announced(datagram).value) ==>
      var device := Announced(datagram).value;
      r.next == Listener(state.devices + [device], state.notifications + Notify(callbacks, device))
    ensures r.Continue? && (Announced(datagram).None? || Contains(state.devices, Announced(datagram).value)) ==>
      r.next == state
  {
    if datagram.payload == Decoded(Malformed) then Return   // `if device is None: return`
    else match Announced(datagram)
      case None => Continue(state)   // decode or `get` raised; the bare except keeps listening
      case Some(device) =>
        if Contains(state.devices, device) then Continue(state)
        else Continue(Listener(state.devices + [device], state.notifications + Notify(callbacks, device)))
  }

  /** The listener's effect over the datagrams received while discovering. */
  function Listen(state: Listener, callbacks: seq<Callback>, datagrams: seq<Datagram>): (r: Listener)
    ensures |state.devices| <= |r.devices| && r.devices[..|state.devices|] == state.devices
    decreases |datagrams|
  {
    if datagrams == [] then state
    else match Receive(state, callbacks, datagrams[0])
      case Return => state
      case Continue(next) => Listen(next, callbacks, datagrams[1..])
  }

  /** No two registry entries are equal `(ip, serial)` pairs. */
  predicate Distinct(devices: seq<TerneoDevice>) {
    forall i, j :: 0 <= i < j < |devices| ==> !Equals(devices[i], DeviceOperand(devices[j]))
  }

  /** `for callback in self.on_device_discovered` over each device appended, in order. */
  function NotifyAll(callbacks: seq<Callback>, devices: seq<TerneoDevice>): seq<Notification>
    decreases |devices|
  {
    if devices == [] then [] else Notify(callbacks, devices[0]) + NotifyAll(callbacks, devices[1..])
  }

  lemma {:induction false} ListenKeepsDistinct(state: Listener, callbacks: seq<Callback>, datagrams: seq<Datagram>)
    requires Distinct(state.devices)
    ensures Distinct(Listen(state, callbacks, datagrams).devices)
    decreases |datagrams|
  {
    if datagrams != [] {
      match Receive(state, callbacks, datagrams[0])
      case Return =>
      case Continue(next) =>
        assert Distinct(next.devices);
        ListenKeepsDistinct(next, callbacks, datagrams[1..]);
    }
  }

  /** The listener only appends, and it invokes every callback once per appended device,
      in the order the devices were appended: a device already present notifies no one. */
  lemma {:induction false} ListenNotifiesEachAppend(state: Listener, callbacks: seq<Callback>, datagrams: seq<Datagram>)
    ensures var r := Listen(state, callbacks, datagrams);
      && |state.devices| <= |r.devices| && r.devices[..|state.devices|] == state.devices
      && r.notifications == state.notifications + NotifyAll(callbacks, r.devices[|state.devices|..])
    decreases |datagrams|
  {
    var r := Listen(state, callbacks, datagrams);
    if datagrams == [] {
      assert r.devices[|state.devices|..] == [];
    } else {
      match Receive(state, callbacks, datagrams[0])
      case Return =>
        assert r.devices[|state.devices|..] == [];
      case Continue(next) =>
        ListenNotifiesEachAppend(next, callbacks, datagrams[1..]);
        if next == state {
        } else {
          var device := Announced(datagrams[0]).value;
          var later := r.devices[|next.devices|..];
          assert next.devices == state.devices + [device];
          assert r.devices[|state.devices|..] == [device] + later;
          assert NotifyAll(callbacks, [device] + later) == Notify(callbacks, device) + NotifyAll(callbacks, later) by {
            assert ([device] + later)[0] == device && ([device] + later)[1..] == later;
          }
        }
    }
  }

  /** Every appended device is the announcement of some datagram: its address is that
      datagram's sender, whatever address the payload claimed. */
  lemma {:induction false} ListenAppendsAnnounced(state: Listener, callbacks: seq<Callback>, datagrams: seq<Datagram>)
    ensures var r := Listen(state, callbacks, datagrams);
      forall k :: |state.devices| <= k < |r.devices| ==>
        exists j :: 0 <= j < |datagrams| && Announced(datagrams[j]) == Some(r.devices[k])
    decreases |datagrams|
  {
    var r := Listen(state, callbacks, datagrams);
    ListenNotifiesEachAppend(state, callbacks, datagrams);
    if datagrams != [] {
      match Receive(state, callbacks, datagrams[0])
      case Return =>
      case Continue(next) =>
        ListenAppendsAnnounced(next, callbacks, datagrams[1..]);
        ListenNotifiesEachAppend(next, callbacks, datagrams[1..]);
        forall k | |state.devices| <= k < |r.devices|
          ensures exists j :: 0 <= j < |datagrams| && Announced(datagrams[j]) == Some(r.devices[k])
        {
          if k < |next.devices| {
            assert next != state;
            assert r.devices[k] == next.devices[k] == Announced(datagrams[0]).value;
          } else {
            var j :| 0 <= j < |datagrams[1..]| && Announced(datagrams[1..][j]) == Some(r.devices[k]);
            assert datagrams[j + 1] == datagrams[1..][j];
          }
        }
    }
  }

  /** The address inside an announcement never reaches the registry. */
  lemma AnnouncedIgnoresClaimedAddress(source: string, m: map<string, Json>, claimed: Json)
    ensures Announced(Datagram(source, Decoded(Parsed(JObject(m["ip" := claimed]))))) ==
            Announced(Datagram(source, Decoded(Parsed(JObject(m)))))
  {
    assert "sn" != "ip" by { assert "sn"[0] != "ip"[0]; }
  }

  /** A datagram received a second time changes nothing and notifies no one. */
  lemma ReceiveTwiceChangesNothing(state: Listener, callbacks: seq<Callback>, datagram: Datagram)
    requires Receive(state, callbacks, datagram).Continue?
    ensures var next := Receive(state, callbacks, datagram).next;
      Receive(next, callbacks, datagram) == Continue(next)
  {
    var next := Receive(state, callbacks, datagram).next;
    if Announced(datagram).Some? {
      var device := Announced(datagram).value;
      if !Contains(state.devices, device) {
        EqualsReflexive(device);
        assert next.devices[|state.devices|] == device;
        assert Contains(next.devices, device);
      }
    }
  }

  /** A datagram that is not JSON ends the listener: nothing after it is processed. */
  lemma MalformedEndsListener(state: Listener, callbacks: seq<Callback>, source: string, rest: seq<Datagram>)
    ensures Listen(state, callbacks, [Datagram(source, Decoded(Malformed))] + rest) == state
  {
  }

  /** Re-announcing a serial from a new address appends a second entry and notifies again,
      because entries are compared by `(ip, serial)`. */
  lemma ReannouncementAppendsSecondEntry(serial: string, first: string, second: string, callbacks: seq<Callback>)
    requires first != second
    ensures var announce := (source: string) => Datagram(source, Decoded(Parsed(JObject(map["sn" := JString(serial)]))));
      var r := Listen(Listener([], []), callbacks, [announce(first), announce(second)]);
      && r.devices == [TerneoDevice(JString(first), JString(serial)), TerneoDevice(JString(second), JString(serial))]
      && r.notifications == Notify(callbacks, r.devices[0]) + Notify(callbacks, r.devices[1])
  {
    var announce := (source: string) => Datagram(source, Decoded(Parsed(JObject(map["sn" := JString(serial)]))));
    var a, b := TerneoDevice(JString(first), JString(serial)), TerneoDevice(JString(second), JString(serial));
    assert Announced(announce(first)) == Some(a);
    assert Announced(announce(second)) == Some(b);
    var s1 := Listener([a], Notify(callbacks, a));
    assert Receive(Listener([], []), callbacks, announce(first)) == Continue(s1);
    assert !Equals(a, DeviceOperand(b));
    assert !Contains([a], b);
    var ds := [announce(first), announce(second)];
    assert ds[1..] == [announce(second)];
    assert Listen(s1, callbacks, ds[1..]) == Listener([a, b], Notify(callbacks, a) + Notify(callbacks, b)) by {
      assert Receive(s1, callbacks, announce(second)) == Continue(Listener([a, b], Notify(callbacks, a) + Notify(callbacks, b)));
      assert ds[1..][1..] == [];
    }
  }

  // ---------------------------------------------------------------------------------
  // The service

  class LocalService {
    var onlineDevices: seq<TerneoDevice>
    var isDiscovering: bool
    var udpSocketOpen: bool          // `_udp_socket` is not None
    var discoveryThreadSet: bool     // `_discovery_thread` is not None
    var onDeviceDiscovered: seq<Callback>
    var notifications: seq<Notification>   // every callback invocation so far, in order

    constructor ()
      ensures onlineDevices == [] && onDeviceDiscovered == [] && notifications == []
      ensures !isDiscovering && !udpSocketOpen && !discoveryThreadSet
    {
      onlineDevices := [];
      isDiscovering := false;
      udpSocketOpen := false;
      discoveryThreadSet := false;
      onDeviceDiscovered := [];
      notifications := [];
    }

    function Snapshot(): Listener
      reads this
    {
      Listener(onlineDevices, notifications)
    }

    /** The first registered device whose serial number equals `serial`. */
    function Find(serial: Json): (d: Option<TerneoDevice>)
      reads this
      ensures d.None? <==> forall i :: 0 <= i < |onlineDevices| ==> !PyEq(onlineDevices[i].serialNumber, serial)
      ensures d.Some? ==> exists i :: 0 <= i < |onlineDevices| && onlineDevices[i] == d.value &&
                                      PyEq(d.value.serialNumber, serial) &&
                                      forall j :: 0 <= j < i ==> !PyEq(onlineDevices[j].serialNumber, serial)
    {
      Next(onlineDevices, (d: TerneoDevice) => PyEq(d.serialNumber, serial))
    }

    /** `get_telemetry`: an unknown serial returns None without a request. */
    function GetTelemetry(serial: Json, reply: Reply): (r: Call<LocalRequest, Option<TerneoTelemetry>>)
      reads this
      ensures Find(serial).None? ==> r == Call(None, Ok(None))
      ensures Find(serial).Some? ==> r.request == Some(LocalRequest(Find(serial).value.ip, TelemetryCommand()))
      ensures Find(serial).Some? ==> r.result == TelemetryOfReply(reply)
      ensures r.result.Ok? && r.result.value.Some? ==>
        Find(serial).Some? && reply.Some? && reply.value.status == 200 && reply.value.body.Parsed? &&
        ParseTelemetryData(reply.value.body.value) == Ok(r.result.value.value)
      ensures Find(serial).Some? && reply.Some? && reply.value.status != 200 ==> r.result == Ok(None)
    {
      match Find(serial)
      case None => Call(None, Ok(None))
      case Some(d) => Call(Some(LocalRequest(d.ip, TelemetryCommand())), TelemetryOfReply(reply))
    }

    /** `set_temperature`: the reply's `success`, False when it is missing. */
    function SetTemperature(serial: Json, temperature: int, reply: Reply): (r: Call<LocalRequest, Json>)
      reads this
      ensures Find(serial).None? ==> r == Call(None, Ok(JBool(false)))
      ensures Find(serial).Some? ==>
        var d := Find(serial).value;
        r == Call(Some(LocalRequest(d.ip, SetpointCommand(d.serialNumber, temperature))), WriteResult(reply))
    {
      match Find(serial)
      case None => Call(None, Ok(JBool(false)))
      case Some(d) => Call(Some(LocalRequest(d.ip, SetpointCommand(d.serialNumber, temperature))), WriteResult(reply))
    }

    /** `_power_on_off`: the reply's `success`, False when it is missing. */
    function PowerOnOff(serial: Json, isOff: bool, reply: Reply): (r: Call<LocalRequest, Json>)
      reads this
      ensures Find(serial).None? ==> r == Call(None, Ok(JBool(false)))
      ensures Find(serial).Some? ==>
        var d := Find(serial).value;
        r == Call(Some(LocalRequest(d.ip, PowerCommand(d.serialNumber, isOff))), WriteResult(reply))
    {
      match Find(serial)
      case None => Call(None, Ok(JBool(false)))
      case Some(d) => Call(Some(LocalRequest(d.ip, PowerCommand(d.serialNumber, isOff))), WriteResult(reply))
    }

    /** `power_on`: sends the "0" flag. */
    function PowerOn(serial: Json, reply: Reply): (r: Call<LocalRequest, Json>)
      reads this
      ensures r.request.Some? ==> var t := Triple(r.request.value.body);
        t.Some? && |t.value| == 3 && t.value[2] == JString("0")
      ensures r == PowerOnOff(serial, false, reply)
    {
      PowerOnOff(serial, false, reply)
    }

    /** `power_off`: sends the "1" flag. */
    function PowerOff(serial: Json, reply: Reply): (r: Call<LocalRequest, Json>)
      reads this
      ensures r.request.Some? ==> var t := Triple(r.request.value.body);
        t.Some? && |t.value| == 3 && t.value[2] == JString("1")
      ensures r == PowerOnOff(serial, true, reply)
    {
      PowerOnOff(serial, true, reply)
    }

    /** `_stop_discovery`: the listener flag is cleared and the socket and thread dropped;
        the registry is kept. Running it again changes nothing more. */
    method StopDiscovery()
      modifies this
      ensures !isDiscovering && !udpSocketOpen && !discoveryThreadSet
      ensures onlineDevices == old(onlineDevices) && notifications == old(notifications)
      ensures onDeviceDiscovered == old(onDeviceDiscovered)
    {
      isDiscovering := false;
      if udpSocketOpen {
        udpSocketOpen := false;    // close(): a blocked receive returns with an error
      }
      discoveryThreadSet := false;
    }

    /** `_start_discovery`: stop any earlier scan, empty the registry, open the socket on
        UDP_PORT and start the listener thread. */
    method StartDiscovery()
      modifies this
      ensures isDiscovering && udpSocketOpen && discoveryThreadSet
      ensures onlineDevices == []
      ensures notifications == old(notifications) && onDeviceDiscovered == old(onDeviceDiscovered)
    {
      StopDiscovery();
      isDiscovering := true;
      onlineDevices := [];
      udpSocketOpen := true;
      discoveryThreadSet := true;
    }

    /** `_udp_listener`, run over the datagrams that arrive before the socket is closed. */
    method UdpListener(datagrams: seq<Datagram>)
      modifies this
      ensures isDiscovering == old(isDiscovering) && udpSocketOpen == old(udpSocketOpen)
      ensures discoveryThreadSet == old(discoveryThreadSet) && onDeviceDiscovered == old(onDeviceDiscovered)
      ensures Snapshot() == if old(isDiscovering) then Listen(old(Snapshot()), onDeviceDiscovered, datagrams)
                            else old(Snapshot())
    {
      var i := 0;
      while isDiscovering && i < |datagrams|
        invariant 0 <= i <= |datagrams|
        invariant isDiscovering == old(isDiscovering) && udpSocketOpen == old(udpSocketOpen)
        invariant discoveryThreadSet == old(discoveryThreadSet) && onDeviceDiscovered == old(onDeviceDiscovered)
        invariant old(isDiscovering) ==>
          Listen(Snapshot(), onDeviceDiscovered, datagrams[i..]) == Listen(old(Snapshot()), onDeviceDiscovered, datagrams)
        invariant !old(isDiscovering) ==> Snapshot() == old(Snapshot())
        decreases |datagrams| - i
      {
        var datagram := datagrams[i];
        assert datagrams[i..] == [datagram] + datagrams[i + 1..];
        i := i + 1;
        if datagram.payload.Undecodable? {
          continue;    // `data.decode()` raised; the bare except keeps listening while discovering
        }
        var parsed := ParseDiscoveryData(datagram.payload.text);
        if parsed.Err? {
          continue;    // `data.get` raised on a non-dict; the same except keeps listening
        }
        if parsed.value.None? {
          return;      // an announcement that is not JSON ends the listener
        }
        var device := parsed.value.value.(ip := JString(datagram.source));
        if !Contains(onlineDevices, device) {
          onlineDevices := onlineDevices + [device];
          var log := notifications;
          var k := 0;
          while k < |onDeviceDiscovered|
            invariant 0 <= k <= |onDeviceDiscovered|
            invariant log == notifications + Notify(onDeviceDiscovered[..k], device)
          {
            log := log + [Notification(onDeviceDiscovered[k], device)];   // callback(device)
            k := k + 1;
          }
          assert onDeviceDiscovered[..k] == onDeviceDiscovered;
          notifications := log;
        }
      }
    }

    /** `initialize`: a discovery window in which `datagrams` arrive, then stop. */
    method Initialize(datagrams: seq<Datagram>)
      modifies this
      ensures !isDiscovering && !udpSocketOpen && !discoveryThreadSet
      ensures onDeviceDiscovered == old(onDeviceDiscovered)
      ensures Snapshot() == Listen(Listener([], old(notifications)), onDeviceDiscovered, datagrams)
      ensures Distinct(onlineDevices)
    {
      StartDiscovery();
      UdpListener(datagrams);
      StopDiscovery();
      ListenKeepsDistinct(Listener([], old(notifications)), onDeviceDiscovered, datagrams);
    }
  }

  /** Stopping twice leaves the service as stopping once does. */
  method StopDiscoveryTwice(service: LocalService)
    modifies service
    ensures !service.isDiscovering && !service.udpSocketOpen && !service.discoveryThreadSet
    ensures service.Snapshot() == old(service.Snapshot())
    ensures service.onDeviceDiscovered == old(service.onDeviceDiscovered)
  {
    service.StopDiscovery();
    service.StopDiscovery();
  }

  /** After a re-announcement from a new address the registry holds both entries, and
      every command for that serial still goes to the first, older address. */
  lemma CommandsGoToFirstAddress(service: LocalService, serial: string, first: string, second: string,
                                 reply: Reply)
    requires service.onlineDevices ==
      [TerneoDevice(JString(first), JString(serial)), TerneoDevice(JString(second), JString(serial))]
    ensures service.Find(JString(serial)) == Some(service.onlineDevices[0])
    ensures service.GetTelemetry(JString(serial), reply).request ==
      Some(LocalRequest(JString(first), TelemetryCommand()))
    ensures service.SetTemperature(JString(serial), 21, reply).request.value.ip == JString(first)
  {
  }
}
