# Terneo thermostat integration — a verified model

This project models the core of a Home Assistant integration for Terneo floor-heating
thermostats:

- **Shared records.** One telemetry reading is a `TerneoTelemetry`. A LAN device is a `TerneoDevice`, and its `__eq__` compares the address and the serial number.
- **The cloud backend** (`CloudService`):
  - It logs in to the vendor's web API and stores the token in a header that every client shares.
  - It loads the device catalog and derives each device's model from its image URL.
  - It reads telemetry.
  - It writes a setpoint or the power state. A write counts as confirmed only when the response echoes the requested value.
- **The local backend** (`LocalService`):
  - It listens for UDP announcements on port 23500 and keeps a registry of devices, calling the registered callbacks once per new entry.
  - It talks JSON to each device's `api.cgi`. Temperatures travel as fixed-point integers in 1/16 °C.
- **The climate entity** (`TerneoClimateEntity`):
  - It maps telemetry to HVAC mode and action.
  - It applies confirmed setpoint and mode commands.
  - It polls for fresh telemetry only when the last command is more than two seconds old.

The modules are:

- `Wrappers` (Option, Result, `Next`, `MapResult`), `JsonValues` (decoded JSON and Python's `==`, truthiness, `.get` and `[]`), `PyNumbers` (`int()`, `float()`, `str()`) and `Strings` (`split`, `upper`). These model the Python operations the core relies on.
- `Http`: a reply is `None` when the client raised, otherwise a status code and a body.
- `Models`, `Cloud`, `Local` and `Climate`, one per source file.

Several things are inputs to the model rather than computed by it:

- Network replies are parameters.
- Datagrams arrive as a sequence.
- The time of day is a `nat` count of microseconds since `datetime.min`.
- Every read or write for one device returns the request it would issue (`Call.request`). This makes "no request is sent for an unknown serial" a stated property. `CloudService.Initialize` returns the requests it issues too. `CloudService.Auth` returns no request; it always sends one login.
- The Authorization header a cloud request carries is `CloudService.RequestHeader()` at the time of the call. It is not a field of the request value.

Python exceptions that escape an operation are `Err(fault)` results.

Quirks of the code that the model keeps:

- **Re-announcements.** The local registry compares entries by `(ip, serial)` (`TerneoDevice.__eq__` via `in`). So a device that re-announces from a new address gets a second entry and a second round of callbacks. Its existing entry's address is not overwritten (`Local.ReannouncementAppendsSecondEntry`).
- **Non-JSON packets.** A discovery packet that is not JSON ends the listener (`return`). It is not skipped (`Local.MalformedEndsListener`). Undecodable bytes and JSON that is not an object are skipped.
- **Missing login token.** A login reply with data but no `access_token` still overwrites the shared header, with the text `Token None`, for every client (`Cloud.SharedHeaderAfterMissingToken`).
- **Local writes and status codes.** Local writes do not look at the HTTP status (`Local.WriteResultIgnoresStatus`). Only the local telemetry read treats a status other than 200 as "no telemetry".
- **Exceptions propagate.** Transport errors, undecodable bodies and missing keys escape the operations as exceptions (`Err`); they are not turned into "no result". Within the modelled operations, only these places catch exceptions:
  - `_safe_float_conversion` turns a failed `float()` into 0.0.
  - `_parse_discovery_data` turns a JSON decode error into None.
  - The bare `except` in `_udp_listener` keeps listening while discovering.
  - `async_set_temperature` and `async_set_hvac_mode` catch and log everything.

## Model

| member | source | states |
|---|---|---|
| `Models.EqualsNeedsBothFields` | custom_components/terneo/terneo_net/models.py:22-24 | two devices are equal exactly when both the addresses and the serial numbers are equal; a different address alone makes them different |
| `Models.NeverEqualsOtherValue` | custom_components/terneo/terneo_net/models.py:23-25 | a device never equals a value that is not a TerneoDevice |
| `Models.EqualsReflexive` | custom_components/terneo/terneo_net/models.py:22-24 | every device equals itself, so `device in registry` holds once it is appended |
| `Models.EqualsSymmetric` | custom_components/terneo/terneo_net/models.py:22-24 | device equality does not depend on the order of the operands |
| `Models.Equals` | custom_components/terneo/terneo_net/models.py:22-25 | a device equals only another TerneoDevice, and only one with an equal serial number |
| `Cloud.SendRequest` | custom_components/terneo/terneo_net/cloud.py:169-178 | a raising client propagates; a status other than 200 is "no data"; a 200 yields its decoded body, and a body that is not JSON raises JSONDecodeError |
| `Cloud.SafeBool` | custom_components/terneo/terneo_net/cloud.py:99-102 | true exactly when the value is the boolean True (not 1, not "true") |
| `Cloud.SafeFloat` | custom_components/terneo/terneo_net/cloud.py:91-97 | numbers convert to their value, decimal strings to the decimal they spell, anything else to 0.0 |
| `Cloud.DecodeTelemetry` | custom_components/terneo/terneo_net/cloud.py:81-88 | succeeds exactly when the four keys are present and `temp_setpoint` converts with `int()`; the failure is KeyError, TypeError or ValueError; each field is the converted member |
| `Cloud.TelemetryOfReply` | custom_components/terneo/terneo_net/cloud.py:74-89 | telemetry is produced exactly for a 200 dict reply with a truthy `data` that decodes, and a `data` that fails to decode raises its error; a missing or empty `data`, an empty body or a non-200 status is None; a raising client, a body that is not JSON and a truthy body that is not a dict raise |
| `Cloud.ModelText` | custom_components/terneo/terneo_net/cloud.py:138 | the model text is never longer than the image path and holds no "/" and no "-" |
| `Cloud.ExtractModelFromImage` | custom_components/terneo/terneo_net/cloud.py:133-139 | the result is never empty; a falsy image gives "Unknown"; a truthy non-string image raises AttributeError |
| `Cloud.ModelOfImagePath` | custom_components/terneo/terneo_net/cloud.py:138-139 | for an image path `dirs/` + name + `-rest`, the model is the upper-cased name |
| `Cloud.ModelOfCatalogImage` | custom_components/terneo/terneo_net/cloud.py:134-139 | `https://my.terneo.ua/static/ax21-black.png` names model "AX21" |
| `Cloud.DecodeDevice` | custom_components/terneo/terneo_net/cloud.py:122-129 | an entry decodes exactly when it is a dict with id, sn, name and type and a usable image; a missing version_name reads "Unknown"; each field comes from its key |
| `Cloud.DecodeDevices` | custom_components/terneo/terneo_net/cloud.py:121-131 | the comprehension succeeds exactly when every entry decodes, and then it yields one device per entry, in order; otherwise the first entry that fails decides the error |
| `Cloud.DecodeResults` | custom_components/terneo/terneo_net/cloud.py:130 | a list is decoded entry by entry; an empty dict or string yields no devices; any other value raises TypeError |
| `Cloud.GetDevices` | custom_components/terneo/terneo_net/cloud.py:116-131 | a non-200 status or an empty body gives None; a raising client, a body that is not JSON and a truthy body that is not a dict raise; a non-empty dict gives the devices of its `results` (default []) as `CatalogOfFields` decodes them, or the error decoding them raised |
| `Cloud.CatalogKeepsOrder` | custom_components/terneo/terneo_net/cloud.py:121-131 | a catalog whose entries all decode yields as many devices as entries, with the i-th serial taken from the i-th entry |
| `Cloud.AuthorizationText` | custom_components/terneo/terneo_net/cloud.py:55 | the header is empty before any login and starts with "Token " after one; a None token writes "Token None"; a string token is appended verbatim |
| `Cloud.LoginToken` | custom_components/terneo/terneo_net/cloud.py:49-54 | a login reply yields a token exactly when it is a 200 non-empty dict; the token is `access_token`, or None when it is missing; a non-200 status or an empty body gives no token; a raising client, a body that is not JSON and a truthy body that is not a dict raise |
| `Cloud.SetpointConfirmed` | custom_components/terneo/terneo_net/cloud.py:111-114 | a setpoint write is confirmed exactly when a 200 dict reply echoes a `value` equal to the request; a non-200 status or an empty body is unconfirmed; a raising client, a body that is not JSON and a truthy body that is not a dict raise |
| `Cloud.PowerConfirmed` | custom_components/terneo/terneo_net/cloud.py:158-167 | a power write is confirmed exactly when a 200 dict reply echoes `result.power_off` equal to the request; a 200 dict reply whose `result` is missing or a dict is never an error; a non-200 status or an empty body is unconfirmed; a raising client, a body that is not JSON, a truthy body that is not a dict and a `result` that is not a dict raise |
| `Cloud.DifferentEchoIsUnconfirmed` | custom_components/terneo/terneo_net/cloud.py:114 | a 200 reply that echoes another value is an unconfirmed write, not an error |
| `Cloud.DifferentPowerEchoIsUnconfirmed` | custom_components/terneo/terneo_net/cloud.py:164-167 | a 200 dict reply with no `result`, no `power_off` or a different `power_off` is an unconfirmed power write, not an error |
| `Cloud.SharedHeaders.constructor` | custom_components/terneo/terneo_net/cloud.py:23 | the shared header starts with an empty Authorization |
| `Cloud.CloudService.constructor` | custom_components/terneo/terneo_net/cloud.py:25-30 | a new client has no token and an empty catalog |
| `Cloud.CloudService.RequestHeader` | custom_components/terneo/terneo_net/cloud.py:174 | the Authorization header a request copies from the shared header: empty before any login, starting with "Token " after one |
| `Cloud.CloudService.Auth` | custom_components/terneo/terneo_net/cloud.py:48-56 | a reply with data stores its token, even a missing one, in the client and in the shared header, and returns whether that token is not None; no data returns False and changes nothing; an exception propagates and changes nothing |
| `Cloud.CloudService.Initialize` | custom_components/terneo/terneo_net/cloud.py:44-46 | the catalog is fetched only after a successful login; it then replaces the registry ([] when it has no data); a login that fails without raising returns normally and leaves the registry unchanged, and one without data also leaves the token and the shared header unchanged; an exception propagates |
| `Cloud.CloudService.Find` | custom_components/terneo/terneo_net/cloud.py:59-61 | the first catalog device whose serial equals the argument (no earlier device matches), or None exactly when there is none |
| `Cloud.CloudService.GetName` | custom_components/terneo/terneo_net/cloud.py:58-65 | the name of the first catalog device with that serial, or None exactly when the serial is unknown |
| `Cloud.CloudService.GetTelemetry` | custom_components/terneo/terneo_net/cloud.py:67-89 | an unknown serial gives None without a request; otherwise it reads that device's data endpoint and returns what `TelemetryOfReply` makes of the reply: the decoded `data` of a 200 reply, None for a non-200 status or missing or empty data |
| `Cloud.CloudService.SetTemperature` | custom_components/terneo/terneo_net/cloud.py:104-114 | an unknown serial gives false without a request; otherwise it puts the setpoint to that device and returns exactly what `SetpointConfirmed` makes of the reply, exceptions included, so the result is true exactly when the reply echoes the setpoint |
| `Cloud.CloudService.PowerOnOff` | custom_components/terneo/terneo_net/cloud.py:151-167 | an unknown serial gives false without a request; otherwise it puts `power_off` to that device and returns exactly what `PowerConfirmed` makes of the reply, exceptions included, so the result is true exactly when the reply echoes the request |
| `Cloud.SafeFloatOfIntegerText` | custom_components/terneo/terneo_net/cloud.py:83-85 | a reading reported as the text of an integer n reads as n, not as the 0.0 fallback |
| `Cloud.SharedHeaderAfterMissingToken` | custom_components/terneo/terneo_net/cloud.py:23-56 | after a login by one client whose reply lacks a token, every other client sharing the header sends "Token None" as its Authorization header |
| `Local.SetpointCommandCarriesTemperature` | custom_components/terneo/terneo_net/local.py:53 | the setpoint command addresses this serial and parameter 5.1, and its value text reads back with `int()` as the temperature |
| `Local.PowerCommandCarriesFlag` | custom_components/terneo/terneo_net/local.py:74-77 | the power command addresses this serial and parameter 125.7, with "1" exactly when switching off and "0" exactly when switching on |
| `Local.DecodeCurrent` | custom_components/terneo/terneo_net/local.py:134-138 | a falsy reading is None; otherwise the reading must convert with `int()`, and sixteen times the result is the raw value |
| `Local.DecodeTarget` | custom_components/terneo/terneo_net/local.py:141-145 | a falsy setpoint is None; otherwise the result t satisfies 16t <= raw < 16t + 16 (floor division) |
| `Local.ParseTelemetryData` | custom_components/terneo/terneo_net/local.py:131-152 | a non-dict raises AttributeError; it fails exactly when one of the readings fails to convert; a temperature is None exactly when its key is missing or falsy; heating and power-off hold exactly when "f.0" and "f.16" are the string "1" |
| `Local.TargetOfFixedPoint` | custom_components/terneo/terneo_net/local.py:143 | a setpoint reported as `str(16t + r)` with 0 <= r < 16 decodes to t |
| `Local.CurrentOfFixedPoint` | custom_components/terneo/terneo_net/local.py:136 | a reading reported as `str(raw)` decodes to exactly raw / 16 |
| `Local.TelemetryCommand` | custom_components/terneo/terneo_net/local.py:36 | the read command is a dict whose only key is `cmd`, holding 4 |
| `Local.SetpointCommand` | custom_components/terneo/terneo_net/local.py:53 | the setpoint command is a dict with exactly the keys `sn` (the serial) and `par` (one parameter triple) |
| `Local.PowerCommand` | custom_components/terneo/terneo_net/local.py:74-77 | the power command is a dict with exactly the keys `sn` (the serial) and `par` (one parameter triple) |
| `Local.FixedPointExamples` | custom_components/terneo/terneo_net/local.py:136-143 | "328" reads as 20.5 °C and "336" as a setpoint of 21 |
| `Local.MissingReadingIsUnknown` | custom_components/terneo/terneo_net/local.py:134-138 | a reply without "t.1" reports an unknown temperature, not 0 |
| `Local.TelemetryOfReply` | custom_components/terneo/terneo_net/local.py:35-41 | a raising client propagates; a status other than 200 gives None; a 200 JSON body gives the telemetry it parses to; a 200 body that is not JSON raises JSONDecodeError, and a body the parser rejects raises the parser's error |
| `Local.WriteResult` | custom_components/terneo/terneo_net/local.py:55-56 | a dict reply yields its `success`, or False when that is missing; a non-dict raises; a client error propagates |
| `Local.WriteResultIgnoresStatus` | custom_components/terneo/terneo_net/local.py:50-56 | a write's result is the same whatever the status code is |
| `Local.ParseDiscoveryData` | custom_components/terneo/terneo_net/local.py:117-129 | text that is not JSON gives None; JSON that is not a dict raises AttributeError; a dict gives its `ip` and `sn`, None where missing |
| `Local.Announced` | custom_components/terneo/terneo_net/local.py:103-108 | a datagram announces a device exactly when it decodes to a JSON dict; the device's address is the sender's and its serial the payload's `sn` |
| `Local.Contains` | custom_components/terneo/terneo_net/local.py:109 | `device in devices` holds for any device the registry holds, and only when some entry has an equal serial number |
| `Local.Notify` | custom_components/terneo/terneo_net/local.py:111-112 | every registered callback is invoked once with the device, in registration order |
| `Local.Receive` | custom_components/terneo/terneo_net/local.py:99-115 | the loop returns exactly on a non-JSON datagram; a new device is appended and notified to every callback; anything else changes nothing |
| `Local.Listen` | custom_components/terneo/terneo_net/local.py:98-115 | the listener only appends to the registry and never reorders or drops entries |
| `Local.ListenKeepsDistinct` | custom_components/terneo/terneo_net/local.py:109-110 | a registry with no two equal entries keeps that property through any run of the listener |
| `Local.ListenNotifiesEachAppend` | custom_components/terneo/terneo_net/local.py:109-112 | the callback log grows by exactly one invocation per callback for each appended device, in append order |
| `Local.ListenAppendsAnnounced` | custom_components/terneo/terneo_net/local.py:103-110 | every appended device is the announcement of some received datagram |
| `Local.AnnouncedIgnoresClaimedAddress` | custom_components/terneo/terneo_net/local.py:108 | the `ip` inside an announcement never reaches the registry |
| `Local.ReceiveTwiceChangesNothing` | custom_components/terneo/terneo_net/local.py:109 | a datagram received a second time changes nothing and notifies no one |
| `Local.MalformedEndsListener` | custom_components/terneo/terneo_net/local.py:105-106 | nothing after a non-JSON datagram is processed |
| `Local.ReannouncementAppendsSecondEntry` | custom_components/terneo/terneo_net/local.py:109-110 | one serial announced from two addresses gives two entries and two rounds of callbacks |
| `Local.LocalService.constructor` | custom_components/terneo/terneo_net/local.py:15-21 | a new service has no devices, no callbacks, no socket and no thread, and is not discovering |
| `Local.LocalService.Find` | custom_components/terneo/terneo_net/local.py:29-31 | the first registered device whose serial equals the argument (no earlier entry matches), or None exactly when there is none |
| `Local.LocalService.GetTelemetry` | custom_components/terneo/terneo_net/local.py:28-41 | an unknown serial gives None without a request; otherwise it posts `{"cmd": 4}` to the device's address and returns what `TelemetryOfReply` makes of the reply: None for a non-200 status, the parse of a 200 JSON body |
| `Local.LocalService.SetTemperature` | custom_components/terneo/terneo_net/local.py:43-56 | an unknown serial gives False without a request; otherwise it posts the setpoint command for the device's serial to its address, and the result is the reply's `success` |
| `Local.LocalService.PowerOnOff` | custom_components/terneo/terneo_net/local.py:64-80 | an unknown serial gives False without a request; otherwise it posts the power command to the device's address, and the result is the reply's `success` |
| `Local.LocalService.PowerOn` | custom_components/terneo/terneo_net/local.py:58-59 | behaves as `_power_on_off(serial, False)`: an unknown serial gives False without a request; any command sent carries the "0" flag |
| `Local.LocalService.PowerOff` | custom_components/terneo/terneo_net/local.py:61-62 | behaves as `_power_on_off(serial, True)`: an unknown serial gives False without a request; any command sent carries the "1" flag |
| `Local.CommandsGoToFirstAddress` | custom_components/terneo/terneo_net/local.py:29-36 | with a serial registered at an old and a new address, the lookup picks the old entry, so reads and writes go to the old address |
| `Local.LocalService.StopDiscovery` | custom_components/terneo/terneo_net/local.py:91-96 | discovery is off with no socket and no thread; the registry and the callbacks are kept |
| `Local.LocalService.StartDiscovery` | custom_components/terneo/terneo_net/local.py:82-89 | discovery is on with a socket and a thread, and the registry is empty |
| `Local.LocalService.UdpListener` | custom_components/terneo/terneo_net/local.py:98-115 | while discovering, the registry and callback log end as the listener function prescribes for the received datagrams; when not discovering, nothing changes |
| `Local.LocalService.Initialize` | custom_components/terneo/terneo_net/local.py:23-26 | after one discovery window the service is stopped, and its registry is what the listener builds from an empty one, with no two equal entries |
| `Local.StopDiscoveryTwice` | custom_components/terneo/terneo_net/local.py:91-96 | stopping twice leaves the same state as stopping once: discovery off, and the registry, the callback log and the callbacks kept |
| `Climate.Observe` | custom_components/terneo/climate.py:115-127 | a missing reading raises TypeError; a reading below 5 is shown as None and any other reading unchanged; the target is copied; the mode is OFF exactly when powered off; the action is OFF exactly when powered off, HEATING exactly when on and heating, and IDLE otherwise; the result is always consistent |
| `Climate.Refresh` | custom_components/terneo/climate.py:110-127 | an error from the read propagates; no telemetry changes nothing; telemetry t gives exactly `Observe` of t; a consistent state stays consistent, and the command time is kept |
| `Climate.ObserveForgetsEarlierState` | custom_components/terneo/climate.py:116-127 | what the entity showed before a telemetry update does not affect what it shows after |
| `Climate.ObserveIsIdempotent` | custom_components/terneo/climate.py:116-127 | applying the same telemetry twice is the same as applying it once |
| `Climate.InitialRefreshes` | custom_components/terneo/climate.py:53-176 | a new entity polls at every time more than two seconds after `datetime.min` |
| `Climate.Refreshes` | custom_components/terneo/climate.py:175 | a poll happens only strictly after the last command time, and never within two seconds of `datetime.min` |
| `Climate.TerneoClimateEntity.constructor` | custom_components/terneo/climate.py:51-62 | a new entity is OFF in mode and action, shows no temperatures, and its last command time is `datetime.min` |
| `Climate.TerneoClimateEntity.UpdateTelemetry` | custom_components/terneo/climate.py:110-127 | the entity reads its device's telemetry and shows what `Refresh` prescribes; on an error nothing changes |
| `Climate.TerneoClimateEntity.SetTemperature` | custom_components/terneo/climate.py:129-150 | no temperature sends nothing; a confirmed write sets the target and the command time; a refusal or error changes nothing |
| `Climate.TerneoClimateEntity.SetHvacMode` | custom_components/terneo/climate.py:152-171 | a confirmed switch sets mode OFF with action OFF, or mode HEAT with action IDLE, and the command time; a refusal or error changes nothing |
| `Climate.TerneoClimateEntity.Update` | custom_components/terneo/climate.py:173-176 | within two seconds of the last command nothing is read or changed; later it behaves as a telemetry update |
| `Climate.SetpointSurvivesImmediatePoll` | custom_components/terneo/climate.py:129-176 | a poll within two seconds of a confirmed setpoint cannot overwrite it, whatever the poll would read |

## Left out

- Network I/O: the HTTP clients (`httpx`), `_get_http_client` and `close`, the URLs, and every request header other than Authorization. Replies are parameters, and a request is named by a `CloudRequest` or `LocalRequest` value.
- Discovery I/O: sockets (`bind`, `recvfrom` and its 1024-byte buffer), `threading.Thread`, the `asyncio.Semaphore(1)` gate and the 120-second `asyncio.sleep` in `initialize`. The listener runs sequentially over the datagrams that arrive while discovering. The flag `_is_discovering` stays constant during that run, so a stop racing the listener is not modelled.
- A callback that raises is not modelled. A registered callback is a number, and its invocation is logged.
- `json.loads`, `response.json()` and `bytes.decode()` are not modelled. Their outcomes are the `JsonText` (`Parsed`/`Malformed`) and `Payload` (`Undecodable`/`Decoded`) inputs.
- Float and string parsing details:
  - Floating point is exact `real` arithmetic.
  - `float()` and `int()` on strings accept `[sign]digits[.digits]` and `[sign]digits`. Whitespace, underscores, exponents, `inf`, `nan` and non-ASCII Unicode digits (which Python's `int()` and `float()` accept) are not modelled.
- `CloudService` and `HEADERS_BASE`: in Python `HEADERS_BASE` is one class attribute for every instance. The model passes the `SharedHeaders` object to the constructor, so two `CloudService`s may hold different ones; `Cloud.SharedHeaderAfterMissingToken` therefore requires that both clients hold the same object.
- `Cloud.SetpointConfirmed`, `Cloud.PowerConfirmed`: `response_data and …` returns the falsy `response_data` itself (None, `{}`, …) rather than `False`. The model returns `false` there, keeping only the truthiness, which is all that `async_set_temperature` and `async_set_hvac_mode` test (climate.py:139 and 159).
- `Cloud.AuthorizationText`: the header text for a float, list or dict token is not modelled (the result is `None`).
- `str.upper()` is modelled for ASCII letters only.
- `CloudService._get_device` is not modelled. Nothing calls it, and it builds a `CloudDevice` without its required fields.
- Other parts of the repository are not part of this model: `async_setup_entry` (one entity per catalog device after `initialize`), `async_added_to_hass` (one telemetry update), the config flow and the package setup.
- Logging, `__str__`, `unique_id`, `device_info` and the other Home Assistant entity properties are not modelled. `async_write_ha_state` is not modelled either.
- Setpoints are whole degrees: Home Assistant may pass a float temperature, and the model's setpoint is an `int`.
