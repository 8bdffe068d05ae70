/** The cloud backend: a session against the vendor's web API, its device catalog, and
    telemetry reads and writes that only count as done when the response echoes them. */
module Cloud {
  import opened Wrappers
  import opened JsonValues
  import opened Strings
  import opened PyNumbers
  import opened Http
  import opened Models

  /** A catalog entry; each field holds whatever the catalog response carried. */
  datatype CloudDevice = CloudDevice(
    id: Json,
    serialNumber: Json,
    name: Json,
    deviceType: Json,
    firmwareVersion: Json,
    model: string)

  /** The requests the client issues. The Authorization header sent with one is
      `CloudService.RequestHeader()` at the time of the call. */
  datatype CloudRequest =
    | Login(email: string, password: string)        // POST /login/
    | ListDevices                                    // GET /device/
    | ReadDevice(id: Json)                           // GET /device/{id}/
    | PutSetpoint(id: Json, value: int)              // PUT /device/{id}/setpoint/
    | PutBasicParameters(id: Json, powerOff: bool)   // PUT /device/{id}/basic-parameters/ (api-v2)

  /** The reply is a 200 whose body decodes to a dict. */
  predicate IsOkObject(reply: Reply) {
    reply.Some? && reply.value.status == 200 && reply.value.body.Parsed? &&
    reply.value.body.value.JObject?
  }

  /** A 200 reply whose decoded body is falsy: `if not data` holds. */
  predicate NoData(reply: Reply) {
    reply.Some? && reply.value.status == 200 && reply.value.body.Parsed? && !Truthy(reply.value.body.value)
  }

  /** A 200 reply whose body is not JSON: `response.json()` raises. */
  predicate Undecodable(reply: Reply) {
    reply.Some? && reply.value.status == 200 && reply.value.body.Malformed?
  }

  /** A 200 reply whose decoded body is truthy but not a dict: it has no `.get`. */
  predicate TruthyNonObject(reply: Reply) {
    reply.Some? && reply.value.status == 200 && reply.value.body.Parsed? &&
    Truthy(reply.value.body.value) && !reply.value.body.value.JObject?
  }

  function Fields(reply: Reply): map<string, Json>
    requires IsOkObject(reply)
  {
    reply.value.body.value.fields
  }

  /** `_send_request`: the decoded body of a 200 response; any other status reads as no data. */
  function SendRequest(reply: Reply): (r: Result<Option<Json>>)
    ensures reply.None? ==> r == Err(TransportError)
    ensures reply.Some? && reply.value.status != 200 ==> r == Ok(None)
    ensures (r.Ok? && r.value.Some?) <==>
            (reply.Some? && reply.value.status == 200 && reply.value.body.Parsed?)
    ensures r.Ok? && r.value.Some? ==> reply.value.body == Parsed(r.value.value)
    ensures r.Err? && reply.Some? ==> r.fault == JsonDecodeError
  {
    match reply
    case None => Err(TransportError)
    case Some(response) =>
      if response.status != 200 then Ok(None)
      else
        var data :- ResponseJson(response);
        Ok(Some(data))
  }

  /** `_safe_bool_conversion`: `value is True`. */
  function SafeBool(value: Json): (b: bool)
    ensures b <==> value == JBool(true)
  {
    value.JBool? && value.b
  }

  /** `_safe_float_conversion`: `float(value)`, or 0.0 where that raises. */
  function SafeFloat(value: Json): (x: real)
    ensures IsNumber(value) ==> x == NumberValue(value)
    ensures value.JString? && ParseDecimal(value.s).Some? ==> x == ParseDecimal(value.s).value
    ensures !IsNumber(value) && !(value.JString? && ParseDecimal(value.s).Some?) ==> x == 0.0
  {
    match PyFloat(value)
    case Ok(x) => x
    case Err(_) => 0.0
  }

  /** A temperature reported as the text of an integer reads as that integer. */
  lemma SafeFloatOfIntegerText(n: int)
    ensures SafeFloat(JString(IntToString(n))) == n as real
  {
    ParseIntOfIntToString(n);
    ParseDecimalOfInteger(IntToString(n));
  }

  /** The keys `get_telemetry` subscripts; a missing one raises KeyError. */
  predicate HasTelemetryKeys(m: map<string, Json>) {
    "device_off" in m && "temp_current" in m && "setpoint_state" in m && "temp_setpoint" in m
  }

  /** The TerneoTelemetry built from the "data" member of a device read. */
  function DecodeTelemetry(t: Json): (r: Result<TerneoTelemetry>)
    ensures r.Ok? <==> t.JObject? && HasTelemetryKeys(t.fields) && PyInt(t.fields["temp_setpoint"]).Ok?
    ensures r.Err? ==> r.fault in {KeyError, TypeError, ValueError}
    ensures r.Ok? ==>
      var m := t.fields;
      && r.value.currentTemperature == Some(SafeFloat(m["temp_current"]))
      && r.value.targetTemperature == Some(PyInt(m["temp_setpoint"]).value)
      && r.value.heating == Some(m["setpoint_state"] == JBool(true))
      && r.value.powerOff == Some(m["device_off"] == JBool(true))
  {
    var deviceOff :- Subscript(t, "device_off");
    var current :- Subscript(t, "temp_current");
    var state :- Subscript(t, "setpoint_state");
    var setpoint :- Subscript(t, "temp_setpoint");
    var target :- PyInt(setpoint);
    Ok(TerneoTelemetry(Some(SafeFloat(current)), Some(target), Some(SafeBool(state)), Some(SafeBool(deviceOff))))
  }

  /** What `get_telemetry` makes of the reply to its device read. */
  function TelemetryOfReply(reply: Reply): (r: Result<Option<TerneoTelemetry>>)
    ensures reply.None? ==> r == Err(TransportError)
    ensures Undecodable(reply) ==> r == Err(JsonDecodeError)
    ensures TruthyNonObject(reply) ==> r == Err(AttributeError)
    ensures reply.Some? && reply.value.status != 200 ==> r == Ok(None)
    ensures NoData(reply) ==> r == Ok(None)
    ensures IsOkObject(reply) && ("data" !in Fields(reply) || !Truthy(Fields(reply)["data"])) ==> r == Ok(None)
    ensures r.Ok? && r.value.Some? <==>
            IsOkObject(reply) && "data" in Fields(reply) && Truthy(Fields(reply)["data"]) &&
            DecodeTelemetry(Fields(reply)["data"]).Ok?
    ensures r.Ok? && r.value.Some? ==> Ok(r.value.value) == DecodeTelemetry(Fields(reply)["data"])
    ensures IsOkObject(reply) && "data" in Fields(reply) && Truthy(Fields(reply)["data"]) &&
            DecodeTelemetry(Fields(reply)["data"]).Err? ==>
              r == Err(DecodeTelemetry(Fields(reply)["data"]).fault)
  {
    var data :- SendRequest(reply);
    if data.None? || !Truthy(data.value) then Ok(None)
    else
      var t :- Get(data.value, "data", JNull);
      if !Truthy(t) then Ok(None)
      else
        var telemetry :- DecodeTelemetry(t);
        Ok(Some(telemetry))
  }

  /** The text `split("/")[-1].split("-")[0].upper()` computes. */
  function ModelText(image: string): (model: string)
    ensures |model| <= |image|
    ensures '/' !in model && '-' !in model
  {
    Upper(BeforeFirst(AfterLast(image, '/'), '-'))
  }

  /** `_extract_model_from_image`; a truthy non-str image has no `split` and raises. */
  function ExtractModelFromImage(image: Json): (r: Result<string>)
    ensures r.Ok? ==> r.value != ""
    ensures !Truthy(image) ==> r == Ok("Unknown")
    ensures r.Err? <==> Truthy(image) && !image.JString?
    ensures r.Err? ==> r.fault == AttributeError
  {
    if !Truthy(image) then Ok("Unknown")
    else if !image.JString? then Err(AttributeError)
    else
      var model := ModelText(image.s);
      Ok(if model == "" then "Unknown" else model)
  }

  /** The directories of an image path end at its last slash. */
  lemma AfterLastOfPath(prefix: string, tail: string)
    requires prefix == "" || prefix[|prefix| - 1] == '/'
    requires '/' !in tail
    ensures AfterLast(prefix + tail, '/') == tail
  {
    if prefix == "" {
      assert prefix + tail == tail;
      SegmentsWithoutSeparator(tail, '/');
    } else {
      var dirs := prefix[..|prefix| - 1];
      assert prefix + tail == dirs + ['/'] + tail;
      AfterLastOfJoin(dirs, '/', tail);
    }
  }

  /** The name of a file ends at its first hyphen. */
  lemma BeforeFirstOfName(name: string, rest: string)
    requires '-' !in name
    requires rest == "" || rest[0] == '-'
    ensures BeforeFirst(name + rest, '-') == name
  {
    if rest == "" {
      assert name + rest == name;
      SegmentsWithoutSeparator(name, '-');
    } else {
      assert name + rest == name + ['-'] + rest[1..];
      BeforeFirstOfJoin(name, '-', rest[1..]);
    }
  }

  /** An image path `prefix + name + rest`, where `prefix` ends the path's directories and
      `rest` starts at the name's first hyphen, yields the upper-cased `name`. */
  lemma ModelOfImagePath(prefix: string, name: string, rest: string)
    requires prefix == "" || prefix[|prefix| - 1] == '/'
    requires '/' !in name && '/' !in rest && '-' !in name
    requires rest == "" || rest[0] == '-'
    ensures ExtractModelFromImage(JString(prefix + name + rest)) ==
            Ok(if name == "" then "Unknown" else Upper(name))
  {
    var image := prefix + name + rest;
    ModelTextOfPath(prefix, name, rest);
    assert |Upper(name)| == |name|;
    if image == "" {
      assert name == "";
    } else {
      assert Truthy(JString(image));
    }
  }

  lemma ModelTextOfPath(prefix: string, name: string, rest: string)
    requires prefix == "" || prefix[|prefix| - 1] == '/'
    requires '/' !in name && '/' !in rest && '-' !in name
    requires rest == "" || rest[0] == '-'
    ensures ModelText(prefix + name + rest) == Upper(name)
  {
    LastSegmentOfPath(prefix, name, rest);
    BeforeFirstOfName(name, rest);
  }

  lemma LastSegmentOfPath(prefix: string, name: string, rest: string)
    requires prefix == "" || prefix[|prefix| - 1] == '/'
    requires '/' !in name && '/' !in rest
    ensures AfterLast(prefix + name + rest, '/') == name + rest
  {
    var tail := name + rest;
    assert prefix + name + rest == prefix + tail;
    NotInConcat(name, rest, '/');
    AfterLastOfPath(prefix, tail);
  }

  /** A catalog image such as `https://my.terneo.ua/static/ax21-black.png` names model AX21. */
  lemma ModelOfCatalogImage()
    ensures ExtractModelFromImage(JString("https://my.terneo.ua/static/" + "ax21" + "-black.png")) == Ok("AX21")
  {
    var prefix, name, rest := "https://my.terneo.ua/static/", "ax21", "-black.png";
    assert prefix[|prefix| - 1] == '/';
    assert '/' !in name && '-' !in name by {
      assert name == ['a', 'x', '2', '1'];
    }
    assert '/' !in rest by {
      assert rest == ['-', 'b', 'l', 'a', 'c', 'k', '.', 'p', 'n', 'g'];
    }
    ModelOfImagePath(prefix, name, rest);
    UpperOfCatalogName();
  }

  lemma UpperOfCatalogName()
    ensures Upper("ax21") == "AX21"
  {
    var upper := Upper("ax21");
    assert upper[0] == 'A' && upper[1] == 'X' && upper[2] == '2' && upper[3] == '1';
    assert upper == ['A', 'X', '2', '1'];
  }

  /** The keys each catalog entry must carry. */
  predicate HasDeviceKeys(m: map<string, Json>) {
    "id" in m && "sn" in m && "name" in m && "type" in m
  }

  function ImageOf(m: map<string, Json>): Json {
    if "image" in m then m["image"] else JString("")
  }

  /** One `CloudDevice(...)` of `_get_devices`. */
  function DecodeDevice(device: Json): (r: Result<CloudDevice>)
    ensures r.Ok? <==> device.JObject? && HasDeviceKeys(device.fields) &&
                       ExtractModelFromImage(ImageOf(device.fields)).Ok?
    ensures r.Ok? ==>
      var m := device.fields;
      && r.value.id == m["id"] && r.value.serialNumber == m["sn"]
      && r.value.name == m["name"] && r.value.deviceType == m["type"]
      && r.value.firmwareVersion == (if "version_name" in m then m["version_name"] else JString("Unknown"))
      && r.value.model == ExtractModelFromImage(ImageOf(m)).value
  {
    var id :- Subscript(device, "id");
    var serial :- Subscript(device, "sn");
    var name :- Subscript(device, "name");
    var deviceType :- Subscript(device, "type");
    // device is a dict here, so neither get can raise
    var firmware := Get(device, "version_name", JString("Unknown")).value;
    var image := Get(device, "image", JString("")).value;
    var model :- ExtractModelFromImage(image);
    Ok(CloudDevice(id, serial, name, deviceType, firmware, model))
  }

  /** The list comprehension of `_get_devices` over a list of entries: all or nothing,
      one device per entry, in order, and the first entry that fails decides the error. */
  function DecodeDevices(entries: seq<Json>): (r: Result<seq<CloudDevice>>)
    ensures r.Ok? <==> forall i :: 0 <= i < |entries| ==> DecodeDevice(entries[i]).Ok?
    ensures r.Ok? ==> |r.value| == |entries| &&
                      forall i :: 0 <= i < |entries| ==> r.value[i] == DecodeDevice(entries[i]).value
    ensures r.Err? ==> exists i :: 0 <= i < |entries| && DecodeDevice(entries[i]) == Err(r.fault) &&
                                  forall j :: 0 <= j < i ==> DecodeDevice(entries[j]).Ok?
  {
    MapResult(entries, DecodeDevice)
  }

  /** Iterating the "results" value: a list yields its entries; an empty dict or str yields
      nothing; a non-empty one yields str items, which `device["id"]` rejects; any other value
      is not iterable. */
  function DecodeResults(results: Json): (r: Result<seq<CloudDevice>>)
    ensures results.JArray? ==> r == DecodeDevices(results.items)
    ensures !results.JArray? ==> (r.Ok? <==> !Truthy(results) && (results.JObject? || results.JString?))
    ensures !results.JArray? && r.Ok? ==> r.value == []
    ensures !results.JArray? && r.Err? ==> r.fault == TypeError
  {
    match results
    case JArray(entries) => DecodeDevices(entries)
    case JObject(m) => if |m| == 0 then Ok([]) else Err(TypeError)
    case JString(s) => if s == "" then Ok([]) else Err(TypeError)
    case _ => Err(TypeError)
  }

  /** The catalog a dict with data carries: `devices_data.get("results", [])`, decoded. */
  function CatalogOfFields(m: map<string, Json>): Result<Option<seq<CloudDevice>>> {
    var results := if "results" in m then m["results"] else JArray([]);
    match DecodeResults(results)
    case Ok(devices) => Ok(Some(devices))
    case Err(f) => Err(f)
  }

  /** `_get_devices`: None when the catalog read brings back no data. */
  function GetDevices(reply: Reply): (r: Result<Option<seq<CloudDevice>>>)
    ensures reply.None? ==> r == Err(TransportError)
    ensures Undecodable(reply) ==> r == Err(JsonDecodeError)
    ensures TruthyNonObject(reply) ==> r == Err(AttributeError)
    ensures reply.Some? && reply.value.status != 200 ==> r == Ok(None)
    ensures NoData(reply) ==> r == Ok(None)
    ensures r.Ok? && r.value.Some? ==> IsOkObject(reply) && |Fields(reply)| != 0
    ensures IsOkObject(reply) && |Fields(reply)| != 0 ==> r == CatalogOfFields(Fields(reply))
  {
    var data :- SendRequest(reply);
    if data.None? || !Truthy(data.value) then Ok(None)
    else if !data.value.JObject? then Err(AttributeError)    // `devices_data.get` on a non-dict
    else CatalogOfFields(data.value.fields)
  }

  /** The catalog keeps the order of "results", one device per entry, and a missing
      "version_name" reads as "Unknown". */
  lemma CatalogKeepsOrder(reply: Reply, entries: seq<Json>)
    requires IsOkObject(reply) && "results" in Fields(reply) && Fields(reply)["results"] == JArray(entries)
    requires forall i :: 0 <= i < |entries| ==> DecodeDevice(entries[i]).Ok?
    ensures GetDevices(reply).Ok? && GetDevices(reply).value.Some?
    ensures var ds := GetDevices(reply).value.value;
      |ds| == |entries| &&
      forall i :: 0 <= i < |entries| ==>
        && entries[i].JObject? && "sn" in entries[i].fields
        && ds[i].serialNumber == entries[i].fields["sn"]
        && ("version_name" !in entries[i].fields ==> ds[i].firmwareVersion == JString("Unknown"))
  {
    assert |Fields(reply)| != 0 by { assert "results" in Fields(reply); }
  }

  /** `HEADERS_BASE["Authorization"]`: empty until some client authenticates. */
  datatype Authorization = Unset | Token(token: Json)

  /** The header text: "Token " and `str(token)`. The text of a float, list or dict token is
      not modelled. */
  function AuthorizationText(a: Authorization): (t: Option<string>)
    ensures a.Unset? ==> t == Some("")
    ensures a.Token? && t.Some? ==> |t.value| >= 6 && t.value[..6] == "Token "
    ensures a == Token(JNull) ==> t == Some("Token None")
    ensures a.Token? && a.token.JString? ==> t == Some("Token " + a.token.s)
  {
    match a
    case Unset => Some("")
    case Token(JNull) => Some("Token None")
    case Token(JBool(b)) => Some(if b then "Token True" else "Token False")
    case Token(JInt(i)) => Some("Token " + IntToString(i))
    case Token(JString(s)) => Some("Token " + s)
    case Token(_) => None
  }

  /** The token a login reply carries: None when the reply brings back no data. */
  function LoginToken(reply: Reply): (r: Result<Option<Json>>)
    ensures reply.None? ==> r == Err(TransportError)
    ensures Undecodable(reply) ==> r == Err(JsonDecodeError)
    ensures TruthyNonObject(reply) ==> r == Err(AttributeError)
    ensures reply.Some? && reply.value.status != 200 ==> r == Ok(None)
    ensures NoData(reply) ==> r == Ok(None)
    ensures r.Ok? && r.value.Some? <==> IsOkObject(reply) && |Fields(reply)| != 0
    ensures r.Ok? && r.value.Some? ==>
      r.value.value == (if "access_token" in Fields(reply) then Fields(reply)["access_token"] else JNull)
  {
    var data :- SendRequest(reply);
    if data.None? || !Truthy(data.value) then Ok(None)
    else
      var token :- Get(data.value, "access_token", JNull);
      Ok(Some(token))
  }

  /** Login succeeds when the reply carries a token that is not None. */
  predicate Authenticates(reply: Reply) {
    LoginToken(reply).Ok? && LoginToken(reply).value.Some? && LoginToken(reply).value.value != JNull
  }

  /** `response_data and response_data.get("value", None) == temperature`. */
  function SetpointConfirmed(reply: Reply, temperature: int): (r: Result<bool>)
    ensures reply.None? ==> r == Err(TransportError)
    ensures Undecodable(reply) ==> r == Err(JsonDecodeError)
    ensures TruthyNonObject(reply) ==> r == Err(AttributeError)
    ensures reply.Some? && reply.value.status != 200 ==> r == Ok(false)
    ensures NoData(reply) ==> r == Ok(false)
    ensures IsOkObject(reply) ==> r.Ok?
    ensures r == Ok(true) <==>
            IsOkObject(reply) && "value" in Fields(reply) && PyEq(Fields(reply)["value"], JInt(temperature))
  {
    var data :- SendRequest(reply);
    if data.None? || !Truthy(data.value) then Ok(false)
    else
      var echo :- Get(data.value, "value", JNull);
      Ok(PyEq(echo, JInt(temperature)))
  }

  /** `response_data and response_data.get("result", {}).get("power_off", None) == is_off`. */
  function PowerConfirmed(reply: Reply, isOff: bool): (r: Result<bool>)
    ensures reply.None? ==> r == Err(TransportError)
    ensures Undecodable(reply) ==> r == Err(JsonDecodeError)
    ensures TruthyNonObject(reply) ==> r == Err(AttributeError)
    ensures reply.Some? && reply.value.status != 200 ==> r == Ok(false)
    ensures NoData(reply) ==> r == Ok(false)
    ensures r == Ok(true) <==>
            IsOkObject(reply) && "result" in Fields(reply) && Fields(reply)["result"].JObject? &&
            "power_off" in Fields(reply)["result"].fields &&
            PyEq(Fields(reply)["result"].fields["power_off"], JBool(isOff))
    ensures IsOkObject(reply) && "result" in Fields(reply) && !Fields(reply)["result"].JObject? ==>
            r == Err(AttributeError)
    ensures IsOkObject(reply) && ("result" !in Fields(reply) || Fields(reply)["result"].JObject?) ==> r.Ok?
  {
    var data :- SendRequest(reply);
    if data.None? || !Truthy(data.value) then Ok(false)
    else
      var result :- Get(data.value, "result", JObject(map[]));
      var echo :- Get(result, "power_off", JNull);
      Ok(PyEq(echo, JBool(isOff)))
  }

  /** A 200 reply that echoes a different setpoint is an unconfirmed write. */
  lemma DifferentEchoIsUnconfirmed(reply: Reply, temperature: int)
    requires IsOkObject(reply) && "value" in Fields(reply)
    requires !PyEq(Fields(reply)["value"], JInt(temperature))
    ensures SetpointConfirmed(reply, temperature) == Ok(false)
  {
  }

  /** A 200 reply without a matching `result.power_off` is an unconfirmed power write:
      a missing `result`, a missing `power_off` and a different one all give false. */
  lemma DifferentPowerEchoIsUnconfirmed(reply: Reply, isOff: bool)
    requires IsOkObject(reply)
    requires "result" !in Fields(reply) || Fields(reply)["result"].JObject?
    requires "result" in Fields(reply) && "power_off" in Fields(reply)["result"].fields ==>
             !PyEq(Fields(reply)["result"].fields["power_off"], JBool(isOff))
    ensures PowerConfirmed(reply, isOff) == Ok(false)
  {
  }

  /** The class attribute `HEADERS_BASE`: one object that every CloudService shares. */
  class SharedHeaders {
    var authorization: Authorization

    constructor ()
      ensures authorization == Unset
    {
      authorization := Unset;
    }
  }

  class CloudService {
    const email: string
    const password: string
    const headers: SharedHeaders
    var accessToken: Json    // JNull until a login stores a token
    var cloudDevices: seq<CloudDevice>

    constructor (email: string, password: string, headers: SharedHeaders)
      ensures this.email == email && this.password == password && this.headers == headers
      ensures accessToken == JNull && cloudDevices == []
    {
      this.email := email;
      this.password := password;
      this.headers := headers;
      accessToken := JNull;
      cloudDevices := [];
    }

    /** The Authorization header of every request this client sends: a copy of the
        shared `HEADERS_BASE` taken when the request is made. */
    function RequestHeader(): (h: Option<string>)
      reads this, headers
      ensures headers.authorization.Unset? ==> h == Some("")
      ensures headers.authorization.Token? && h.Some? ==> |h.value| >= 6 && h.value[..6] == "Token "
    {
      AuthorizationText(headers.authorization)
    }

    /** `auth`: stores the token of a login reply that has data, even a missing (None) one. */
    method Auth(reply: Reply) returns (r: Result<bool>)
      modifies this, headers
      ensures cloudDevices == old(cloudDevices)
      ensures LoginToken(reply).Err? ==>
        r == Err(LoginToken(reply).fault) &&
        accessToken == old(accessToken) && headers.authorization == old(headers.authorization)
      ensures LoginToken(reply) == Ok(None) ==>
        r == Ok(false) &&
        accessToken == old(accessToken) && headers.authorization == old(headers.authorization)
      ensures LoginToken(reply).Ok? && LoginToken(reply).value.Some? ==>
        accessToken == LoginToken(reply).value.value && headers.authorization == Token(accessToken)
      ensures LoginToken(reply).Ok? && LoginToken(reply).value.Some? ==>
        r == Ok(LoginToken(reply).value.value != JNull)
      ensures r == Ok(true) <==> Authenticates(reply)
    {
      var sent := SendRequest(reply);
      if sent.Err? {
        return Err(sent.fault);
      }
      var data := sent.value;
      if data.None? || !Truthy(data.value) {
        return Ok(false);
      }
      var token := Get(data.value, "access_token", JNull);
      if token.Err? {
        return Err(token.fault);
      }
      accessToken := token.value;
      // A missing token is stored too: the shared header then reads "Token None".
      headers.authorization := Token(accessToken);
      r := Ok(accessToken != JNull);
    }

    /** `initialize`: log in, then replace the registry with the catalog (or [] when the
        catalog read brings back nothing). A failed login leaves the registry as it was. */
    method Initialize(loginReply: Reply, catalogReply: Reply) returns (requests: seq<CloudRequest>, r: Result<()>)
      modifies this, headers
      ensures requests == if Authenticates(loginReply) then [Login(email, password), ListDevices]
                          else [Login(email, password)]
      ensures LoginToken(loginReply).Ok? && LoginToken(loginReply).value.Some? ==>
        accessToken == LoginToken(loginReply).value.value && headers.authorization == Token(accessToken)
      ensures !Authenticates(loginReply) ==> cloudDevices == old(cloudDevices)
      ensures LoginToken(loginReply).Err? || LoginToken(loginReply) == Ok(None) ==>
        accessToken == old(accessToken) && headers.authorization == old(headers.authorization)
      ensures LoginToken(loginReply).Err? ==> r == Err(LoginToken(loginReply).fault)
      ensures LoginToken(loginReply).Ok? && !Authenticates(loginReply) ==> r == Ok(())
      ensures Authenticates(loginReply) ==>
        match GetDevices(catalogReply)
        case Err(f) => r == Err(f) && cloudDevices == old(cloudDevices)
        case Ok(None) => r == Ok(()) && cloudDevices == []
        case Ok(Some(ds)) => r == Ok(()) && cloudDevices == ds
    {
      requests := [Login(email, password)];
      var authenticated := Auth(loginReply);
      if authenticated.Err? {
        return requests, Err(authenticated.fault);
      }
      r := Ok(());
      if authenticated.value {
        requests := requests + [ListDevices];
        var devices := GetDevices(catalogReply);
        if devices.Err? {
          return requests, Err(devices.fault);
        }
        cloudDevices := if devices.value.Some? then devices.value.value else [];
      }
    }

    /** The first registered device whose serial number equals `serial`. */
    function Find(serial: Json): (d: Option<CloudDevice>)
      reads this
      ensures d.None? <==> forall i :: 0 <= i < |cloudDevices| ==> !PyEq(cloudDevices[i].serialNumber, serial)
      ensures d.Some? ==> exists i :: 0 <= i < |cloudDevices| && cloudDevices[i] == d.value &&
                                      PyEq(d.value.serialNumber, serial) &&
                                      forall j :: 0 <= j < i ==> !PyEq(cloudDevices[j].serialNumber, serial)
    {
      Next(cloudDevices, (c: CloudDevice) => PyEq(c.serialNumber, serial))
    }

    /** `get_name`. */
    function GetName(serial: Json): (r: Option<Json>)
      reads this
      ensures r.None? <==> forall i :: 0 <= i < |cloudDevices| ==> !PyEq(cloudDevices[i].serialNumber, serial)
      ensures r.Some? ==> exists i :: 0 <= i < |cloudDevices| && cloudDevices[i].name == r.value &&
                                      PyEq(cloudDevices[i].serialNumber, serial)
      ensures r.Some? ==> r.value == Find(serial).value.name
    {
      match Find(serial)
      case None => None
      case Some(d) => Some(d.name)
    }

    /** `get_telemetry`: an unknown serial returns None without a request. */
    function GetTelemetry(serial: Json, reply: Reply): (r: Call<CloudRequest, Option<TerneoTelemetry>>)
      reads this
      ensures Find(serial).None? ==> r == Call(None, Ok(None))
      ensures Find(serial).Some? ==> r.request == Some(ReadDevice(Find(serial).value.id))
      ensures Find(serial).Some? ==> r.result == TelemetryOfReply(reply)
      ensures r.result.Ok? && r.result.value.Some? ==>
        Find(serial).Some? && IsOkObject(reply) && "data" in Fields(reply) &&
        DecodeTelemetry(Fields(reply)["data"]) == Ok(r.result.value.value)
      ensures reply.Some? && reply.value.status != 200 ==> r.result == Ok(None)
    {
      match Find(serial)
      case None => Call(None, Ok(None))
      case Some(d) => Call(Some(ReadDevice(d.id)), TelemetryOfReply(reply))
    }

    /** `set_temperature`: true only when the reply echoes the requested value. */
    function SetTemperature(serial: Json, temperature: int, reply: Reply): (r: Call<CloudRequest, bool>)
      reads this
      ensures Find(serial).None? ==> r == Call(None, Ok(false))
      ensures Find(serial).Some? ==> r.request == Some(PutSetpoint(Find(serial).value.id, temperature))
      ensures Find(serial).Some? ==> r.result == SetpointConfirmed(reply, temperature)
      ensures r.result == Ok(true) <==>
        Find(serial).Some? && IsOkObject(reply) && "value" in Fields(reply) &&
        PyEq(Fields(reply)["value"], JInt(temperature))
    {
      match Find(serial)
      case None => Call(None, Ok(false))
      case Some(d) => Call(Some(PutSetpoint(d.id, temperature)), SetpointConfirmed(reply, temperature))
    }

    /** `power_on_off`: true only when the reply's `result.power_off` echoes the request. */
    function PowerOnOff(serial: Json, isOff: bool, reply: Reply): (r: Call<CloudRequest, bool>)
      reads this
      ensures Find(serial).None? ==> r == Call(None, Ok(false))
      ensures Find(serial).Some? ==> r.request == Some(PutBasicParameters(Find(serial).value.id, isOff))
      ensures Find(serial).Some? ==> r.result == PowerConfirmed(reply, isOff)
      ensures r.result == Ok(true) <==> Find(serial).Some? && PowerConfirmed(reply, isOff) == Ok(true)
    {
      match Find(serial)
      case None => Call(None, Ok(false))
      case Some(d) => Call(Some(PutBasicParameters(d.id, isOff)), PowerConfirmed(reply, isOff))
    }
  }

  /** Because the header is a class attribute, a login by one client that carries no token
      changes the header every other client sends to "Token None". */
  method SharedHeaderAfterMissingToken(first: CloudService, second: CloudService, reply: Reply)
    returns (text: Option<string>)
    requires first.headers == second.headers
    requires IsOkObject(reply) && |Fields(reply)| != 0 && "access_token" !in Fields(reply)
    modifies second, second.headers
    ensures text == Some("Token None") && first.RequestHeader() == Some("Token None")
  {
    var ok := second.Auth(reply);
    text := first.RequestHeader();
  }
}
