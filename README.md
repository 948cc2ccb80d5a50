# HTTP Agent integration — a Dafny model

HTTP Agent is a Home Assistant integration. It polls one HTTP endpoint and
turns the answer into a set of declared entities: sensors, binary sensors,
read-only numbers and device trackers. This project models what the
integration itself decides, and proves properties of that model:

- which declarations become which entities, and which configuration each
  entity binds to (a first-match search by name);
- how each entity renders the latest poll snapshot: the binary-sensor
  coercion, the `mdi:` icon rule, attributes, numeric and positional
  values, and the tracker source type;
- the sensor platform's clean-up of registry entries for sensors that are
  no longer declared, including the round trip of `entry_id + "_" + name`
  back to the name;
- the two configuration wizards as state machines over `data`, `headers`,
  `sensors`, `current_sensor` and `selected_sensor_index`. This covers the
  URL check, the unique-id sanitisation, the menus, completing a new sensor
  with its optional fields, and deleting or replacing a selected sensor.
  Both flows are proved to keep the invariant that every stored sensor has
  a name (and the pending one a name and a kind). The forms that list the
  sensors raise KeyError when the invariant fails, and a flow that keeps it
  never raises there;
- entry setup and unload: the set of needed platforms, the per-entry
  record under the domain, and removal on a successful unload.

Modules follow the source files:

- `Values`: Python values, truthiness, exceptions, ASCII `lower()`.
- `Declarations`: stored sensor declarations, the search and the kind filter.
- `Config`: the entry's configuration dictionary and the options-over-data merge.
- `Render`: the snapshot access, icon and colour rules shared by the platforms.
- `BinarySensor`, `Sensor`, `Number`, `DeviceTracker`: one module per platform file.
- `ConfigFlow`: `config_flow.py`.
- `Integration`: `__init__.py`.

Python exceptions are values: `Outcome.Raise(e)`. Host calls are reduced to
the decision they represent. A form shown becomes `ShowForm`, an entry
created becomes `CreateEntry`, and platforms forwarded become the returned
set.

An empty icon is reported as the empty string, not as None: the prefix rule
only touches truthy icons (`Render.NormalizeIcon`).

## Model

| member | source | states |
|---|---|---|
| Values.Lower | custom_components/http_agent/binary_sensor.py:101 | `s.lower()` keeps the length and lower-cases each ASCII letter, leaving every other character as it is |
| Values.LowerIdempotent | custom_components/http_agent/device_tracker.py:149-156 | lower-casing twice equals lower-casing once, so comparing a lowered string with a lower-case word ignores case |
| Declarations.FindFromIsFirstMatch | custom_components/http_agent/binary_sensor.py:74-77 | the scan stops at the first declaration named `name`, or at the first nameless one (KeyError), or at the end. Every declaration before the stop point is named and has a different name |
| Declarations.FindFromNamed | custom_components/http_agent/binary_sensor.py:74-77 | when every declaration has a name, the scan never stops at a nameless one |
| Declarations.FindByName | custom_components/http_agent/binary_sensor.py:74-77 | the search loop with `break` returns exactly what the first-match scan specifies |
| Declarations.BoundConfig | custom_components/http_agent/binary_sensor.py:68-77 | the bound configuration is a declaration with that name, and it occurs no later than any declaration with that name. It is None exactly when no declaration has the name |
| Declarations.BindConfig | custom_components/http_agent/number.py:72-81 | the constructor's loop binds exactly `BoundConfig` |
| Declarations.OfKind | custom_components/http_agent/binary_sensor.py:40-42 | the filtered list holds exactly the declarations whose kind is `kind`, with a missing kind counting as "sensor" |
| Declarations.OfKindCounts | custom_components/http_agent/binary_sensor.py:40-42 | each declaration of the kind occurs in the filtered list exactly as often as in the input, and no other declaration occurs |
| Declarations.OfKindConcat | custom_components/http_agent/binary_sensor.py:40-42 | filtering keeps declaration order: the filter of `a + b` is the filter of `a` followed by the filter of `b` |
| Declarations.UniqueIdFor | custom_components/http_agent/binary_sensor.py:66 | the unique id is the entry id, then `_`, then the name, at known positions |
| Declarations.EntitiesOfKindMatchDecls | custom_components/http_agent/binary_sensor.py:39-44 | the setup loop creates one entity per declaration of the kind, in order. Each is named after its declaration and bound by the first-match search |
| Declarations.LookupEntities | custom_components/http_agent/device_tracker.py:39-44 | the shared setup loop returns exactly the specified entity list |
| Declarations.ConfigField | custom_components/http_agent/binary_sensor.py:109-113 | `device_class` or unit is the bound declaration's field. It is None when nothing is bound or the field is missing (the same getter is at sensor.py:116-128 and number.py:109-121) |
| Config.Merge | custom_components/http_agent/__init__.py:29-31 | the merged keys are the union of both key sets. Options override data, and data keys the options lack are kept |
| Config.SensorsOf | custom_components/http_agent/__init__.py:44 | `data.get(CONF_SENSORS, [])`: the stored list, or empty when there is none |
| Config.HeadersOf | custom_components/http_agent/config_flow.py:356 | `data.get(CONF_HEADERS, [])`: the stored list, or empty when there is none |
| Render.Field | custom_components/http_agent/binary_sensor.py:90-91 | a field read is the stored value, or None when the sensor or the key is missing |
| Render.NormalizeIcon | custom_components/http_agent/binary_sensor.py:124-128 | a falsy icon is returned unchanged; a prefixed icon is unchanged; an unprefixed non-empty string gets `mdi:`. A truthy non-string raises AttributeError, and any truthy result starts with `mdi:` |
| Render.NormalizeIconIdempotent | custom_components/http_agent/sensor.py:139-141 | normalising an already normalised icon changes nothing |
| Render.Icon | custom_components/http_agent/binary_sensor.py:115-128 | `icon` is None without data, otherwise the normalised record icon (the same property is at sensor.py:130-143, number.py:123-136 and device_tracker.py:158-171) |
| Render.ColorAttributes | custom_components/http_agent/binary_sensor.py:130-143 | attributes hold `color` exactly when the record's colour is truthy, copied unchanged, and no other key (the same property is at sensor.py:145-158 and number.py:138-151) |
| Render.IconExamples | custom_components/http_agent/sensor.py:139-141 | `home` becomes `mdi:home`; `mdi:home` is unchanged; `""` and None are returned as they are |
| BinarySensor.CoerceState | custom_components/http_agent/binary_sensor.py:94-106 | None stays unknown. A bool passes through before the numeric rule, a string is on iff lowered it is one of the six words, a number is on iff positive, and anything else follows its truthiness |
| BinarySensor.IsOn | custom_components/http_agent/binary_sensor.py:84-106 | `is_on` is None exactly when there is no data or no state; otherwise it is the coerced state |
| BinarySensor.CoercionAgreesWithTruthiness | custom_components/http_agent/binary_sensor.py:97-106 | for non-string states other than negative numbers, coercion equals Python truthiness |
| BinarySensor.StringStateIsOnlyWords | custom_components/http_agent/binary_sensor.py:100-101 | a string state is on iff its lowered form is an on-word, with no fallback to truthiness |
| BinarySensor.CoercionExamples | custom_components/http_agent/binary_sensor.py:100-104 | "Active" and 1 are on; "0", "off", "" and 0 are off; None is unknown |
| BinarySensor.NoDataIsUnknown | custom_components/http_agent/binary_sensor.py:87-88 | with no data, or an empty snapshot, the sensor is unknown and never off |
| BinarySensor.SetupEntry | custom_components/http_agent/binary_sensor.py:26-47 | one entity per `binary_sensor` declaration, in order, each named after it and bound by the search |
| Sensor.NativeValue | custom_components/http_agent/sensor.py:107-114 | the value is the record's `state` exactly, or None without data, without the sensor or without a state |
| Sensor.SensorEntitiesMatchDecls | custom_components/http_agent/sensor.py:39-44 | one sensor per declaration of kind "sensor" (the default), in order, each bound to its own declaration |
| Sensor.CurrentNames | custom_components/http_agent/sensor.py:53-56 | the current names are exactly the names of all declarations, whatever their kind |
| Sensor.AfterFirst | custom_components/http_agent/sensor.py:70 | `split("_", 1)[1]` is the suffix after the first `_`; no `_` occurs before that one |
| Sensor.AfterFirstConcat | custom_components/http_agent/sensor.py:70 | splitting `a + "_" + b` at the first `_` gives `b` when `a` has no `_` |
| Sensor.AfterFirstUniqueId | custom_components/http_agent/sensor.py:67-71 | the name read back from a unique id `entry_id_name` is the sensor name, when the entry id has no `_` |
| Sensor.FindObsolete | custom_components/http_agent/sensor.py:58-72 | the collected ids are exactly the registry entries of this entry and sensor domain whose unique id contains `_` and whose name part is not current |
| Sensor.LiveSensorKept | custom_components/http_agent/sensor.py:61-72 | the registry entry of a declared sensor is never marked obsolete |
| Sensor.RemovedSensorIsObsolete | custom_components/http_agent/sensor.py:61-72 | the registry entry of a sensor that is no longer declared is marked obsolete |
| Sensor.EntityRegistry.Remove | custom_components/http_agent/sensor.py:77 | `async_remove` deletes exactly that id |
| Sensor.RemoveAll | custom_components/http_agent/sensor.py:74-77 | the removal loop deletes exactly the collected ids |
| Sensor.SetupEntry | custom_components/http_agent/sensor.py:26-77 | the entities are the specified sensors. The registry afterwards is the old registry minus exactly its obsolete entries |
| Number.NativeValue | custom_components/http_agent/number.py:88-107 | the value is None without data or state; otherwise it is `float(state)`, with None where the conversion fails |
| Number.ValueNeedsConvertibleState | custom_components/http_agent/number.py:98-107 | a value is reported iff there is data, a state, and the state converts |
| Number.SetNativeValue | custom_components/http_agent/number.py:169-172 | setting a value always raises NotImplementedError |
| Number.SetupEntry | custom_components/http_agent/number.py:27-48 | one entity per `number` declaration, in order, each named after it and bound by the search |
| DeviceTracker.ParseSourceType | custom_components/http_agent/device_tracker.py:148-156 | the source type is router, bluetooth or bluetooth_le iff the lowered string is that word, and GPS for every other string |
| DeviceTracker.ParseSourceTypeName | custom_components/http_agent/device_tracker.py:148-156 | parsing a source type's own name gives that source type back |
| DeviceTracker.ParseSourceTypeIgnoresCase | custom_components/http_agent/device_tracker.py:149-153 | parsing a lowered string gives the same result as parsing the original |
| DeviceTracker.SourceTypeOf | custom_components/http_agent/device_tracker.py:139-156 | GPS without data or without the key; a string is parsed; any other value, None included, raises AttributeError |
| DeviceTracker.LocationName | custom_components/http_agent/device_tracker.py:124-137 | the truthy `location_name`, else the state, through `str()` (a string as it is, an integer in decimal, a bool as `True`/`False`). It is None exactly without data or when the chosen value is None |
| DeviceTracker.EmptyLocationFallsBackToState | custom_components/http_agent/device_tracker.py:133-135 | an empty location name falls back to the state |
| DeviceTracker.NumericLocationIsDecimal | custom_components/http_agent/device_tracker.py:133-137 | an integer state 21 reads `"21"`, a falsy location name falls back to the state -7 read `"-7"`, and `True` reads `"True"` |
| DeviceTracker.NatToDecimalValue | custom_components/http_agent/device_tracker.py:137 | the digits `str()` writes for a natural number denote that number |
| DeviceTracker.Coordinate | custom_components/http_agent/device_tracker.py:84-122 | the `latitude` and `longitude` properties (`DeviceTracker.Latitude` and `DeviceTracker.Longitude` are this function for the two keys) are None without data or value; otherwise they are `float()` of it, with None where that fails |
| DeviceTracker.Attributes | custom_components/http_agent/device_tracker.py:173-192 | `color` appears iff truthy. `raw_latitude`/`raw_longitude` appear iff not None, copied unchanged, and no other key |
| DeviceTracker.NoDataTracker | custom_components/http_agent/device_tracker.py:127-143 | without data there is no icon, no location name and no attributes, and the source type is GPS |
| DeviceTracker.SetupEntry | custom_components/http_agent/device_tracker.py:26-47 | one tracker per `device_tracker` declaration, in order, each named after it and bound by the search |
| ConfigFlow.UrlErrors | custom_components/http_agent/config_flow.py:73-78 | no error iff `url` is a string that parses with a non-empty scheme and netloc; otherwise exactly `base: invalid_url` |
| ConfigFlow.ReplaceChar | custom_components/http_agent/config_flow.py:204-206 | `replace(c, "_")` keeps the length and replaces exactly the occurrences of `c` |
| ConfigFlow.UniqueIdOf | custom_components/http_agent/config_flow.py:202-206 | the unique id has the raw string's length. None of `/ . ? & =` remains, and every other character is unchanged |
| ConfigFlow.Insert | custom_components/http_agent/config_flow.py:381 | `list.insert(i, x)` puts `x` at `i` and shifts the rest, or appends when `i` is past the end |
| ConfigFlow.InitMenu | custom_components/http_agent/config_flow.py:376-381 | `payload` is in the menu, at index 2, iff the method (or the default) carries a payload |
| ConfigFlow.SensorsMenu | custom_components/http_agent/config_flow.py:556-560 | `[add, edit, clear, done]` with sensors, `[add, done]` without; edit and clear appear iff there are sensors |
| ConfigFlow.CompletionIsUnique | custom_components/http_agent/config_flow.py:270-289 | the completed declaration is determined by the pending sensor and the answers |
| ConfigFlow.CompleteSensorConfig | custom_components/http_agent/config_flow.py:270-289 | the completed declaration has every key of the pending sensor, the answers and the optional fields. Answers win, pending values survive otherwise, and missing optional fields are "" |
| ConfigFlow.CompletedHasEveryField | custom_components/http_agent/config_flow.py:276-289 | all nine optional fields are present. The pending name and type survive when the answers do not repeat them |
| ConfigFlow.GivenAnswers | custom_components/http_agent/config_flow.py:657-663 | exactly the keys whose answer is present and non-empty, with their answers |
| ConfigFlow.ModifiedConfig | custom_components/http_agent/config_flow.py:645-683 | name from the answers, kind kept, state/icon/color default to "". Device class and unit appear iff given; tracker fields appear iff the kind is device_tracker and they are given; no other key |
| ConfigFlow.ModifyKeepsKind | custom_components/http_agent/config_flow.py:646-651 | a modified declaration keeps its original kind and takes the new name |
| ConfigFlow.RemoveAt | custom_components/http_agent/config_flow.py:613 | `del sensors[i]` shortens the list by one and keeps the others in order |
| ConfigFlow.Selection | custom_components/http_agent/config_flow.py:613 | reading the selected index raises AttributeError before any selection and IndexError past the end |
| ConfigFlow.NamedSelection | custom_components/http_agent/config_flow.py:618-619 | the edit form also needs the selected sensor's name, and raises KeyError without it |
| ConfigFlow.FormIfSelected | custom_components/http_agent/config_flow.py:689-694 | a form that reads the selected sensor is shown iff the selection is valid and named; otherwise it raises the selection's error |
| ConfigFlow.ListingForm | custom_components/http_agent/config_flow.py:219-228 | a form that lists the sensors by name is shown iff every sensor has a name, and raises KeyError otherwise (also config_flow.py:545-554 and 587-589) |
| ConfigFlow.SensorConfigForm | custom_components/http_agent/config_flow.py:296-297 | the sensor_config form is shown iff a pending sensor with a kind exists; TypeError with none, KeyError without a kind |
| ConfigFlow.CreateFlow.constructor | custom_components/http_agent/config_flow.py:58-63 | a new flow starts with empty data, headers and sensors, and no pending sensor |
| ConfigFlow.CreateFlow.StepUser | custom_components/http_agent/config_flow.py:65-102 | a valid URL merges the answers into `data` and shows the headers menu; otherwise the user form shows `invalid_url` and `data` is unchanged |
| ConfigFlow.CreateFlow.StepHeaders | custom_components/http_agent/config_flow.py:104-137 | `done` stores the headers, then goes to payload iff the method carries a payload, else to the sensors menu (KeyError if a stored sensor is nameless). A missing method raises KeyError |
| ConfigFlow.CreateFlow.StepAddHeader | custom_components/http_agent/config_flow.py:139-162 | exactly one `{key, value}` is appended at the end, earlier headers unchanged. A missing key or value raises KeyError |
| ConfigFlow.CreateFlow.StepPayload | custom_components/http_agent/config_flow.py:164-185 | stores the content type (KeyError without one) and the payload, "" by default, then shows the sensors menu as `ListingForm` builds it |
| ConfigFlow.CreateFlow.StepSensors | custom_components/http_agent/config_flow.py:187-240 | `done` aborts with `no_sensors` on an empty list. Otherwise it stores the sensors and sets the sanitised unique id; it aborts with `already_configured` if that id is taken, and else creates the entry titled by the netloc. The menu raises KeyError for a nameless sensor |
| ConfigFlow.CreateFlow.StepAddSensor | custom_components/http_agent/config_flow.py:242-264 | the pending sensor becomes exactly the chosen name and kind |
| ConfigFlow.CreateFlow.StepSensorConfig | custom_components/http_agent/config_flow.py:266-297 | exactly one completed declaration is appended and the pending sensor is cleared. With no pending sensor it raises TypeError, and the form raises KeyError when the pending sensor has no kind. Every sensor stays named, and a valid flow never raises |
| ConfigFlow.OptionsFlow.constructor | custom_components/http_agent/config_flow.py:349-358 | the flow starts from data merged with options, the stored headers and sensors, and nothing pending or selected |
| ConfigFlow.OptionsFlow.StepInit | custom_components/http_agent/config_flow.py:360-392 | each action opens its step (the sensors menu raises KeyError for a nameless sensor), and any other input shows the init menu built by `InitMenu` |
| ConfigFlow.OptionsFlow.StepBasic | custom_components/http_agent/config_flow.py:394-438 | a valid URL merges the answers and saves; otherwise the form shows `invalid_url` and `data` is unchanged |
| ConfigFlow.OptionsFlow.StepHeaders | custom_components/http_agent/config_flow.py:440-472 | clear empties the headers; done stores them and saves; nothing else changes |
| ConfigFlow.OptionsFlow.StepAddHeader | custom_components/http_agent/config_flow.py:474-497 | exactly one header is appended at the end, or KeyError is raised without a key or value |
| ConfigFlow.OptionsFlow.StepPayload | custom_components/http_agent/config_flow.py:499-523 | stores the content type and payload, then saves |
| ConfigFlow.OptionsFlow.StepSensors | custom_components/http_agent/config_flow.py:525-572 | clear empties the list. Done aborts with `no_sensors` on an empty list, and otherwise stores the sensors and saves. The menu is `SensorsMenu`; the menu and the select form raise KeyError for a nameless sensor, so a valid flow never raises here |
| ConfigFlow.OptionsFlow.StepSelectSensor | custom_components/http_agent/config_flow.py:574-600 | selects the first index whose name matches. No match raises StopIteration, a nameless sensor reached first raises KeyError, and the form raises KeyError when any sensor is nameless |
| ConfigFlow.OptionsFlow.StepEditSensor | custom_components/http_agent/config_flow.py:602-639 | delete removes exactly the selected sensor and keeps the others in order. Edit and the form need a valid named selection; in a valid flow with a valid selection nothing raises |
| ConfigFlow.OptionsFlow.StepModifySensor | custom_components/http_agent/config_flow.py:641-689 | replaces only the selected sensor and keeps its kind. A missing name raises KeyError before the selection is read; in a valid flow with a valid selection and a name nothing raises |
| ConfigFlow.OptionsFlow.StepAddSensor | custom_components/http_agent/config_flow.py:770-792 | the pending sensor becomes exactly the chosen name and kind |
| ConfigFlow.OptionsFlow.StepSensorConfig | custom_components/http_agent/config_flow.py:794-825 | exactly one completed declaration is appended and the pending sensor is cleared, with the create flow's errors. Every sensor stays named, and a valid flow never raises |
| Integration.PlatformForKind | custom_components/http_agent/__init__.py:45-53 | each of the four kinds maps to its platform, and no other string maps to one |
| Integration.PlatformsOfExactly | custom_components/http_agent/__init__.py:43-53 | a platform is needed iff some declaration's kind (default "sensor") maps to it |
| Integration.UnknownKindsNeedNothing | custom_components/http_agent/__init__.py:45-53 | declarations of unknown kinds need no platform |
| Integration.PlatformsOfWithinPlatforms | custom_components/http_agent/__init__.py:16-21 | the needed platforms are always among `PLATFORMS` |
| Integration.NeededPlatforms | custom_components/http_agent/__init__.py:43-53 | the loop computes exactly the needed platforms of the merged configuration's sensors |
| Integration.Coordinator.Close | custom_components/http_agent/__init__.py:85 | closing marks the coordinator's session closed |
| Integration.SetupEntry | custom_components/http_agent/__init__.py:24-70 | creates the domain map if missing and stores the entry's coordinator and platforms, leaving other entries and domains alone. Platforms are forwarded iff there are any; a failed first refresh raises ConfigEntryNotReady |
| Integration.UnloadEntry | custom_components/http_agent/__init__.py:78-96 | closes the coordinator first. `unload_ok` holds when no platforms were set up, or when the host unloads them; the entry is removed iff `unload_ok`, nothing else changes, and an unknown entry raises KeyError |
| Integration.SetupThenUnloadRestores | custom_components/http_agent/__init__.py:24-96 | setting an entry up and unloading it again (refresh and platform unload succeeding) closes its new coordinator and leaves the domain's entry map as it was, minus any earlier record of that entry; other domains are untouched |

## Left out

- The polling coordinator: the HTTP request, the timer, response normalisation, `last_update_success` and `async_close`'s I/O. `coordinator.py` is not part of this model. The snapshot is an input (`Option<Snapshot>`), a failed first refresh is the flag `refreshOk`, and the `available` property of each platform is not modelled.
- `const.py` is not part of this model. The configuration keys are placeholder strings that are all distinct. `DOMAIN` is the directory name. `HTTP_METHODS_WITH_PAYLOAD` and `DEFAULT_METHOD` are parameters, and the device-class and sensor-type lists are not used.
- `float()` is a parameter returning None where it raises ValueError or TypeError. Its OverflowError on huge integers, which the source does not catch, is not modelled, and neither is `str()` of a float (`DeviceTracker.PyStr` takes it as a parameter).
- `urlparse` is a parameter returning None where it raises. In `CreateFlow.StepSensors` a failing parse is reported as ValueError, and a stored URL that is not a string is reported as KeyError. Neither can happen after the user step has accepted the URL.
- `str.lower()` is modelled as ASCII lower-casing, so the lowered string itself differs from Python's for non-ASCII letters. Every comparison the code makes still has the same result. The only non-ASCII characters that lower to ASCII are the Kelvin sign, which gives `k`, and the dotted capital I, which gives `i` followed by a combining dot that is not ASCII. None of the compared words contains `k`.
- BinarySensor.SetupEntry: requires every declaration to have a name, which excludes inputs the source accepts. The binary-sensor setup raises KeyError only for a nameless declaration of its own kind, or when a name search reaches a nameless declaration before the match (binary_sensor.py:40-44, 74-77: the setup loop and the constructor's search). Otherwise it ignores nameless declarations of other kinds. The KeyError path is not modelled. Both flows keep every stored sensor named (`Valid()`, proved for every step), so the flows never produce such inputs.
- Number.SetupEntry: the same requirement and the same gap as the binary-sensor setup, for declarations of kind "number" (number.py:41-45, 78-81).
- DeviceTracker.SetupEntry: the same requirement and the same gap as the binary-sensor setup, for declarations of kind "device_tracker" (device_tracker.py:40-44, 74-77).
- Sensor.SetupEntry: requires every declaration to have a name. Here the source raises KeyError for a nameless declaration of any kind, because the set of current names reads every declaration's name (sensor.py:54-56). That KeyError is not modelled.
- The platform setups take the merged configuration's sensor list directly. Lookup of the coordinator in `hass.data` and the `data[CONF_SENSORS]` KeyError are not modelled.
- `async_add_entities` is not modelled: each platform setup returns its entity list instead. The binary-sensor, number and tracker setups skip the call for an empty list, and the sensor setup always makes it; the model does not tell these apart.
- Sensor.FindObsolete and Sensor.RemoveAll treat `entities_to_remove` as a set. Registry ids are unique, so only the order of removal, which is unobservable here, is lost.
- Integration.SetupEntry and Integration.UnloadEntry keep the platform list as a set. `list(needed_platforms)` has no defined order.
- The options update listener (`async_update_options`, a reload through the host) is not modelled.
- Home Assistant host API calls are reduced to their decisions: forms, entries, aborts, forwarding, platform unloading and registry removal.
- Voluptuous schemas are not modelled: their coercion, range checks and defaults. Form answers are inputs, a missing required answer raises KeyError where the code indexes it, and the forms' field lists and description placeholders (UI text) are left out.
- A step called with no answer is the same as a step called with an answer that has no `action`. The flows model the action as `Option<string>`.
- In the create flow, `_abort_if_unique_id_configured` is modelled by the set `configured` of unique ids already in use, which gives the `already_configured` abort. The `already_in_progress` abort that `async_set_unique_id` raises when another flow holds the same id is not modelled.
- StepSelectSensor: the source's StopIteration escapes a coroutine, where Python re-raises it as RuntimeError. The model keeps the name of the exception the code triggers.
- Floats are real numbers: NaN and the infinities, which `float()` and the JSON decoder accept, are not represented. So `native_value` and the coordinates never report them, and the binary-sensor rule never sees a NaN state (for which `nan > 0` is False). `Values.Value`, `Number.NativeValue` and `DeviceTracker.Coordinate` are affected.
- `ConfigFlow.ListingForm` models only whether the sensor listing can be built (every sensor named); the listing text, the sensor-type labels and the select form's choices are UI content and are not modelled.
- A non-list value stored under `headers` or `sensors` is read as an empty list (`Config.SensorsOf`, `Config.HeadersOf`).
- `device_info`, `name`, logging and async suspension are not modelled, and neither are the entity classes' `_attr_*` fields beyond name, unique id and bound configuration.
