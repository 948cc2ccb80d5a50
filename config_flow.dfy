/** The two configuration wizards: the create flow that builds a new entry
    step by step, and the options flow that edits an existing one. Each step
    either shows a form, finishes with an entry, aborts, or raises. */
module ConfigFlow {
  import opened Values
  import opened Declarations
  import opened Config

  /** What `urlparse` splits a URL into (the parts the flows read). */
  datatype UrlParts = UrlParts(scheme: string, netloc: string, path: string, query: string)

  /** Constants of const.py the flows depend on: the methods that carry a
      payload (`HTTP_METHODS_WITH_PAYLOAD`) and `DEFAULT_METHOD`. */
  datatype Constants = Constants(methodsWithPayload: set<string>, defaultMethod: string)

  /** The answers of a form whose fields are all strings. */
  type Answers = map<string, string>

  /** What a step returns to the host: a form (with its action menu, when
      it has one, and its errors), a finished entry, or an abort. */
  datatype FlowResult =
    | ShowForm(stepId: string, actions: seq<string>, errors: map<string, string>)
    | CreateEntry(title: string, data: ConfData)
    | Abort(reason: string)

  /** A form without an action menu and without errors. */
  function Form(stepId: string): FlowResult
  {
    ShowForm(stepId, [], map[])
  }

  /** A form whose one field is the action menu. */
  function Menu(stepId: string, actions: seq<string>): FlowResult
  {
    ShowForm(stepId, actions, map[])
  }

  const CREATE_HEADER_ACTIONS: seq<string> := ["add", "done"]
  const OPTIONS_HEADER_ACTIONS: seq<string> := ["add", "clear", "done"]
  const CREATE_SENSOR_ACTIONS: seq<string> := ["add", "done"]
  const EDIT_ACTIONS: seq<string> := ["edit", "delete", "back"]

  /** The URL check of the user and basic steps: no errors exactly when the
      answer has a string `url` that `urlparse` accepts with a non-empty
      scheme and a non-empty netloc, and otherwise the single error
      `base: invalid_url` (a missing key and a raising `urlparse` are caught
      the same way). `urlparse` returns None where it raises. */
  function UrlErrors(input: ConfData, urlparse: string -> Option<UrlParts>): (errors: map<string, string>)
    ensures errors == map[] || errors == map["base" := "invalid_url"]
    ensures errors == map[] <==>
              && URL in input && input[URL].CStr?
              && urlparse(input[URL].s).Some?
              && urlparse(input[URL].s).value.scheme != ""
              && urlparse(input[URL].s).value.netloc != ""
  {
    var invalid := map["base" := "invalid_url"];
    assert "base" in invalid;
    if URL !in input || !input[URL].CStr? then invalid
    else
      match urlparse(input[URL].s)
      case None => invalid
      case Some(parsed) => if parsed.scheme == "" || parsed.netloc == "" then invalid else map[]
  }

  /** `s.replace(c, "_")` for a one-character `c`. */
  function ReplaceChar(s: string, c: char): (r: string)
    ensures |r| == |s|
    ensures forall i :: 0 <= i < |s| ==> r[i] == (if s[i] == c then '_' else s[i])
  {
    if s == [] then [] else [if s[0] == c then '_' else s[0]] + ReplaceChar(s[1..], c)
  }

  /** The characters the unique id replaces by `_`. */
  const SANITISED := "/.?&="

  /** The create flow's unique id: netloc, path and query run together, with
      each `/ . ? & =` replaced by `_`. Its length is that of the raw string,
      none of those characters remains, and every other character stays. */
  function UniqueIdOf(p: UrlParts): (id: string)
    ensures |id| == |p.netloc + p.path + p.query|
    ensures forall i :: 0 <= i < |id| ==>
              var c := (p.netloc + p.path + p.query)[i];
              id[i] == if c in SANITISED then '_' else c
    ensures forall i :: 0 <= i < |id| ==> id[i] !in SANITISED
  {
    var raw := p.netloc + p.path + p.query;
    ReplaceChar(ReplaceChar(ReplaceChar(ReplaceChar(ReplaceChar(raw, '/'), '.'), '?'), '&'), '=')
  }

  /** The title of a created entry. */
  function EntryTitle(p: UrlParts): string
  {
    "HTTP Agent - " + p.netloc
  }

  /** Python's `list.insert(i, x)` for `i >= 0`: past the end it appends. */
  function Insert<T>(s: seq<T>, i: nat, x: T): (r: seq<T>)
    ensures |r| == |s| + 1
    ensures i <= |s| ==> r[..i] == s[..i] && r[i] == x && r[i + 1..] == s[i..]
    ensures i > |s| ==> r == s + [x]
  {
    if i <= |s| then s[..i] + [x] + s[i..] else s + [x]
  }

  /** `data.get(CONF_METHOD, DEFAULT_METHOD)`. */
  function MethodOf(data: ConfData, consts: Constants): ConfValue
  {
    if METHOD in data then data[METHOD] else CStr(consts.defaultMethod)
  }

  /** `method in HTTP_METHODS_WITH_PAYLOAD`. */
  predicate SupportsPayload(m: ConfValue, consts: Constants)
  {
    m.CStr? && m.s in consts.methodsWithPayload
  }

  /** The options flow's main menu: `payload` is offered, at index 2, exactly
      when the configured (or default) method carries a payload. */
  function InitMenu(data: ConfData, consts: Constants): (options: seq<string>)
    ensures "payload" in options <==> SupportsPayload(MethodOf(data, consts), consts)
    ensures SupportsPayload(MethodOf(data, consts), consts) ==> options == ["basic", "headers", "payload", "sensors"]
    ensures !SupportsPayload(MethodOf(data, consts), consts) ==> options == ["basic", "headers", "sensors"]
  {
    var options := ["basic", "headers", "sensors"];
    if SupportsPayload(MethodOf(data, consts), consts) then Insert(options, 2, "payload") else options
  }

  /** The options flow's sensors menu: edit and clear are offered only when
      there are sensors. */
  function SensorsMenu(sensors: seq<Decl>): (actions: seq<string>)
    ensures sensors != [] ==> actions == ["add", "edit", "clear", "done"]
    ensures sensors == [] ==> actions == ["add", "done"]
    ensures ("edit" in actions <==> sensors != []) && ("clear" in actions <==> sensors != [])
  {
    var actions := ["add", "done"];
    if sensors != [] then Insert(Insert(actions, 1, "edit"), 2, "clear") else actions
  }

  /** The fields `sensor_config` fills in when the answers lack them. */
  const OPTIONAL_FIELDS: seq<string> :=
    [STATE, ICON, COLOR, DEVICE_CLASS, UNIT, LATITUDE, LONGITUDE, LOCATION_NAME, SOURCE_TYPE]

  /** What the `sensor_config` step stores for `current` completed by
      `input`: every key of either plus every optional field; an answer wins
      over the pending name and type; an optional field neither has is "". */
  predicate Completes(config: Decl, current: Decl, input: Answers)
  {
    && config.Keys == current.Keys + input.Keys + (set f | f in OPTIONAL_FIELDS)
    && (forall k :: k in input ==> config[k] == input[k])
    && (forall k :: k in current && k !in input ==> config[k] == current[k])
    && (forall f :: f in OPTIONAL_FIELDS && f !in current && f !in input ==> config[f] == "")
  }

  /** The completion is a function of its inputs: there is only one. */
  lemma {:induction false} CompletionIsUnique(a: Decl, b: Decl, current: Decl, input: Answers)
    requires Completes(a, current, input) && Completes(b, current, input)
    ensures a == b
  {
    forall k | k in a
      ensures a[k] == b[k]
    {
      if k !in input && k !in current {
        assert k in (set f | f in OPTIONAL_FIELDS);
      }
    }
  }

  /** `sensor_config = dict(current); sensor_config.update(user_input)` and
      the loop over the optional fields. */
  method CompleteSensorConfig(current: Decl, input: Answers) returns (config: Decl)
    ensures Completes(config, current, input)
  {
    config := current + input;
    for i := 0 to |OPTIONAL_FIELDS|
      invariant config.Keys == current.Keys + input.Keys + (set f | f in OPTIONAL_FIELDS[..i])
      invariant forall k :: k in current + input ==> config[k] == (current + input)[k]
      invariant forall k :: k in config && k !in current + input ==> config[k] == ""
    {
      var field := OPTIONAL_FIELDS[i];
      assert OPTIONAL_FIELDS[..i + 1] == OPTIONAL_FIELDS[..i] + [field];
      if field !in config {
        config := config[field := if field in input then input[field] else ""];
      }
    }
    assert OPTIONAL_FIELDS[..|OPTIONAL_FIELDS|] == OPTIONAL_FIELDS;
  }

  /** `user_input.get(key, "")`. */
  function GetStr(input: Answers, key: string): string
  {
    if key in input then input[key] else ""
  }

  /** The tracker fields the modify step copies for a device tracker. */
  const TRACKER_FIELDS: set<string> := {LATITUDE, LONGITUDE, LOCATION_NAME, SOURCE_TYPE}

  /** The answers among `keys` that are given (present and non-empty). */
  function GivenAnswers(input: Answers, keys: set<string>): (given: Answers)
    ensures given.Keys <= keys
    ensures forall k :: k in keys ==> (k in given <==> GetStr(input, k) != "")
    ensures forall k :: k in given ==> k in input && given[k] == input[k]
  {
    map k | k in keys && k in input && input[k] != "" :: input[k]
  }

  /** The declaration the modify step stores: the new name, the original
      kind kept, state/icon/color defaulting to "", device class and unit only
      when given, and the tracker fields only for a device tracker and only
      when given. The conditional assignments touch distinct keys, so they
      are gathered into one map each. */
  function ModifiedConfig(input: Answers, kind: string): (c: Decl)
    requires NAME in input
    ensures c.Keys <= {NAME, TYPE, STATE, ICON, COLOR, DEVICE_CLASS, UNIT} + TRACKER_FIELDS
    ensures {NAME, TYPE, STATE, ICON, COLOR} <= c.Keys
    ensures c[NAME] == input[NAME] && c[TYPE] == kind
    ensures c[STATE] == GetStr(input, STATE) && c[ICON] == GetStr(input, ICON) && c[COLOR] == GetStr(input, COLOR)
    ensures forall k :: k in {DEVICE_CLASS, UNIT} ==> (k in c <==> GetStr(input, k) != "")
    ensures forall k :: k in TRACKER_FIELDS ==> (k in c <==> kind == "device_tracker" && GetStr(input, k) != "")
    ensures forall k :: k in c && k !in {NAME, TYPE, STATE, ICON, COLOR} ==> k in input && c[k] == input[k]
  {
    var base := map[NAME := input[NAME], TYPE := kind, STATE := GetStr(input, STATE),
                    ICON := GetStr(input, ICON), COLOR := GetStr(input, COLOR)];
    assert base.Keys == {NAME, TYPE, STATE, ICON, COLOR};
    assert base.Keys !! {DEVICE_CLASS, UNIT} + TRACKER_FIELDS;
    var general := base + GivenAnswers(input, {DEVICE_CLASS, UNIT});
    if kind == "device_tracker" then general + GivenAnswers(input, TRACKER_FIELDS) else general
  }

  /** `del sensors[i]`: the others keep their order. */
  function RemoveAt(s: seq<Decl>, i: nat): (r: seq<Decl>)
    requires i < |s|
    ensures |r| == |s| - 1
    ensures forall j :: 0 <= j < i ==> r[j] == s[j]
    ensures forall j :: i <= j < |r| ==> r[j] == s[j + 1]
  {
    s[..i] + s[i + 1..]
  }

  /** Reading `self.sensors[self.selected_sensor_index]`: AttributeError
      when no sensor was selected yet, IndexError when the index is past the
      end. */
  function Selection(sensors: seq<Decl>, selected: Option<nat>): (r: Outcome<nat>)
    ensures r.Ok? <==> selected.Some? && selected.value < |sensors|
    ensures r.Ok? ==> r.value == selected.value
    ensures selected.None? ==> r == Raise(AttributeError)
    ensures selected.Some? && selected.value >= |sensors| ==> r == Raise(IndexError)
  {
    match selected
    case None => Raise(AttributeError)
    case Some(i) => if i < |sensors| then Ok(i) else Raise(IndexError)
  }

  /** The selected sensor as the edit and modify forms read it, which also
      needs its name (KeyError without one). */
  function NamedSelection(sensors: seq<Decl>, selected: Option<nat>): (r: Outcome<nat>)
    ensures r.Ok? <==> Selection(sensors, selected).Ok? && NAME in sensors[selected.value]
    ensures r.Ok? ==> r.value == selected.value
    ensures Selection(sensors, selected).Raise? ==> r == Selection(sensors, selected)
    ensures Selection(sensors, selected).Ok? && NAME !in sensors[selected.value] ==> r == Raise(KeyError)
  {
    match Selection(sensors, selected)
    case Raise(e) => Raise(e)
    case Ok(i) => if NAME in sensors[i] then Ok(i) else Raise(KeyError)
  }

  /** A step's outcome when it only needs a valid named selection to show
      `form`. */
  function FormIfSelected(sensors: seq<Decl>, selected: Option<nat>, form: FlowResult): (r: Outcome<FlowResult>)
    ensures r.Ok? <==> NamedSelection(sensors, selected).Ok?
    ensures r.Ok? ==> r.value == form
    ensures r.Raise? ==> r.error == NamedSelection(sensors, selected).error
  {
    match NamedSelection(sensors, selected)
    case Raise(e) => Raise(e)
    case Ok(_) => Ok(form)
  }

  /** A form whose description or choices list the stored sensors by name
      (the sensors menu, the select form): it is shown when every sensor has
      a name, and building it raises KeyError otherwise. */
  function ListingForm(sensors: seq<Decl>, form: FlowResult): (r: Outcome<FlowResult>)
    ensures r.Ok? <==> Named(sensors)
    ensures r.Ok? ==> r.value == form
    ensures r.Raise? ==> r.error == KeyError
  {
    if Named(sensors) then Ok(form) else Raise(KeyError)
  }

  /** The `sensor_config` form, which reads the pending sensor's kind:
      TypeError with no pending sensor, KeyError when it has no kind. */
  function SensorConfigForm(current: Option<Decl>): (r: Outcome<FlowResult>)
    ensures r.Ok? <==> current.Some? && TYPE in current.value
    ensures r.Ok? ==> r.value == Form("sensor_config")
    ensures current.None? ==> r == Raise(TypeError)
    ensures current.Some? && TYPE !in current.value ==> r == Raise(KeyError)
  {
    match current
    case None => Raise(TypeError)
    case Some(c) => if TYPE in c then Ok(Form("sensor_config")) else Raise(KeyError)
  }

  /** The create flow (`HTTPAgentConfigFlow`). */
  class CreateFlow {
    var data: ConfData
    var headers: seq<Header>
    var sensors: seq<Decl>
    var currentSensor: Option<Decl>
    /** The unique id set by `async_set_unique_id`. */
    var uniqueId: Option<string>

    /** Every stored sensor and the pending one carry a name, and the
        pending one a kind: what the platform setups and the forms rely on. */
    predicate Valid()
      reads this
    {
      Named(sensors) && (currentSensor.Some? ==> NAME in currentSensor.value && TYPE in currentSensor.value)
    }

    constructor ()
      ensures data == map[] && headers == [] && sensors == []
      ensures currentSensor == None && uniqueId == None
    {
      data := map[];
      headers := [];
      sensors := [];
      currentSensor := None;
      uniqueId := None;
    }

    /** `async_step_user`: a valid URL merges the answers into `data` and
        moves on to the headers menu; an invalid one shows the form again
        with the error. */
    method StepUser(input: Option<ConfData>, urlparse: string -> Option<UrlParts>) returns (r: FlowResult)
      modifies this`data
      ensures input.None? ==> r == Form("user") && data == old(data)
      ensures input.Some? && UrlErrors(input.value, urlparse) != map[] ==>
                r == ShowForm("user", [], map["base" := "invalid_url"]) && data == old(data)
      ensures input.Some? && UrlErrors(input.value, urlparse) == map[] ==>
                r == Menu("headers", CREATE_HEADER_ACTIONS) && data == old(data) + input.value
    {
      if input.None? {
        return Form("user");
      }
      var errors := UrlErrors(input.value, urlparse);
      if errors == map[] {
        data := data + input.value;
        return Menu("headers", CREATE_HEADER_ACTIONS);
      }
      return ShowForm("user", [], errors);
    }

    /** `async_step_headers`: `done` stores the headers and continues with
        the payload form exactly when the method carries a payload, else
        with the sensors menu, which lists the sensors by name. */
    method StepHeaders(action: Option<string>, consts: Constants) returns (r: Outcome<FlowResult>)
      modifies this`data
      ensures action == Some("add") ==> r == Ok(Form("add_header")) && data == old(data)
      ensures action == Some("done") ==> data == old(data)[HEADERS := CHeaders(headers)]
      ensures action == Some("done") && METHOD !in old(data) ==> r == Raise(KeyError)
      ensures action == Some("done") && METHOD in old(data) ==>
                r == if SupportsPayload(old(data)[METHOD], consts) then Ok(Form("payload"))
                     else ListingForm(sensors, Menu("sensors", CREATE_SENSOR_ACTIONS))
      ensures action != Some("add") && action != Some("done") ==>
                r == Ok(Menu("headers", CREATE_HEADER_ACTIONS)) && data == old(data)
    {
      if action == Some("add") {
        return Ok(Form("add_header"));
      } else if action == Some("done") {
        data := data[HEADERS := CHeaders(headers)];
        if METHOD !in data {
          return Raise(KeyError);
        }
        if SupportsPayload(data[METHOD], consts) {
          return Ok(Form("payload"));
        }
        return ListingForm(sensors, Menu("sensors", CREATE_SENSOR_ACTIONS));
      }
      return Ok(Menu("headers", CREATE_HEADER_ACTIONS));
    }

    /** `async_step_add_header`: appends exactly one header at the end. */
    method StepAddHeader(input: Option<Answers>) returns (r: Outcome<FlowResult>)
      modifies this`headers
      ensures input.None? ==> r == Ok(Form("add_header")) && headers == old(headers)
      ensures input.Some? && ("key" !in input.value || "value" !in input.value) ==>
                r == Raise(KeyError) && headers == old(headers)
      ensures input.Some? && "key" in input.value && "value" in input.value ==>
                r == Ok(Menu("headers", CREATE_HEADER_ACTIONS)) &&
                headers == old(headers) + [Header(input.value["key"], input.value["value"])]
    {
      if input.None? {
        return Ok(Form("add_header"));
      }
      if "key" !in input.value || "value" !in input.value {
        return Raise(KeyError);
      }
      headers := headers + [Header(input.value["key"], input.value["value"])];
      return Ok(Menu("headers", CREATE_HEADER_ACTIONS));
    }

    /** `async_step_payload`: stores the content type (KeyError without one)
        and the payload, "" by default, then shows the sensors menu. */
    method StepPayload(input: Option<ConfData>) returns (r: Outcome<FlowResult>)
      modifies this`data
      ensures input.None? ==> r == Ok(Form("payload")) && data == old(data)
      ensures input.Some? && CONTENT_TYPE !in input.value ==> r == Raise(KeyError) && data == old(data)
      ensures input.Some? && CONTENT_TYPE in input.value ==>
                r == ListingForm(sensors, Menu("sensors", CREATE_SENSOR_ACTIONS)) &&
                data == old(data)[CONTENT_TYPE := input.value[CONTENT_TYPE]]
                                 [PAYLOAD := if PAYLOAD in input.value then input.value[PAYLOAD] else CStr("")]
    {
      if input.None? {
        return Ok(Form("payload"));
      }
      if CONTENT_TYPE !in input.value {
        return Raise(KeyError);
      }
      data := data[CONTENT_TYPE := input.value[CONTENT_TYPE]];
      data := data[PAYLOAD := if PAYLOAD in input.value then input.value[PAYLOAD] else CStr("")];
      return ListingForm(sensors, Menu("sensors", CREATE_SENSOR_ACTIONS));
    }

    /** `async_step_sensors`: `done` aborts with `no_sensors` on an empty
        list; otherwise it stores the sensors, sets the unique id derived
        from the URL, aborts with `already_configured` when another entry
        (`configured`) has that id, and else creates the entry. */
    method StepSensors(action: Option<string>, urlparse: string -> Option<UrlParts>, configured: set<string>)
      returns (r: Outcome<FlowResult>)
      modifies this`data, this`uniqueId
      ensures action == Some("add") ==> r == Ok(Form("add_sensor")) && data == old(data) && uniqueId == old(uniqueId)
      ensures action == Some("done") && sensors == [] ==>
                r == Ok(Abort("no_sensors")) && data == old(data) && uniqueId == old(uniqueId)
      ensures action == Some("done") && sensors != [] ==> data == old(data)[SENSORS := CSensors(sensors)]
      ensures action == Some("done") && sensors != [] && (URL !in data || !data[URL].CStr?) ==>
                r == Raise(KeyError) && uniqueId == old(uniqueId)
      ensures action == Some("done") && sensors != [] && URL in data && data[URL].CStr? ==>
                match urlparse(data[URL].s)
                case None => r == Raise(ValueError) && uniqueId == old(uniqueId)
                case Some(p) =>
                  && uniqueId == Some(UniqueIdOf(p))
                  && r == Ok(if UniqueIdOf(p) in configured then Abort("already_configured")
                             else CreateEntry(EntryTitle(p), data))
      ensures action != Some("add") && action != Some("done") ==>
                r == ListingForm(sensors, Menu("sensors", CREATE_SENSOR_ACTIONS)) && data == old(data) && uniqueId == old(uniqueId)
    {
      if action == Some("add") {
        return Ok(Form("add_sensor"));
      } else if action == Some("done") {
        if sensors == [] {
          return Ok(Abort("no_sensors"));
        }
        data := data[SENSORS := CSensors(sensors)];
        if URL !in data || !data[URL].CStr? {
          return Raise(KeyError);
        }
        var parsed := urlparse(data[URL].s);
        if parsed.None? {
          return Raise(ValueError);
        }
        var id := UniqueIdOf(parsed.value);
        uniqueId := Some(id);
        if id in configured {
          return Ok(Abort("already_configured"));
        }
        return Ok(CreateEntry(EntryTitle(parsed.value), data));
      }
      return ListingForm(sensors, Menu("sensors", CREATE_SENSOR_ACTIONS));
    }

    /** `async_step_add_sensor`: holds the chosen name and kind until the
        sensor is configured. */
    method StepAddSensor(input: Option<Answers>) returns (r: Outcome<FlowResult>)
      modifies this`currentSensor
      ensures old(Valid()) ==> Valid()
      ensures input.None? ==> r == Ok(Form("add_sensor")) && currentSensor == old(currentSensor)
      ensures input.Some? && (NAME !in input.value || TYPE !in input.value) ==>
                r == Raise(KeyError) && currentSensor == old(currentSensor)
      ensures input.Some? && NAME in input.value && TYPE in input.value ==>
                r == Ok(Form("sensor_config")) &&
                currentSensor == Some(map[NAME := input.value[NAME], TYPE := input.value[TYPE]])
    {
      if input.None? {
        return Ok(Form("add_sensor"));
      }
      if NAME !in input.value || TYPE !in input.value {
        return Raise(KeyError);
      }
      currentSensor := Some(map[NAME := input.value[NAME], TYPE := input.value[TYPE]]);
      return Ok(Form("sensor_config"));
    }

    /** `async_step_sensor_config`: appends the completed declaration,
        clears the pending sensor and shows the sensors menu; with no pending
        sensor, `dict(None)` and `None[...]` raise TypeError, and the form
        needs the pending sensor's kind. A valid flow never raises here. */
    method StepSensorConfig(input: Option<Answers>) returns (r: Outcome<FlowResult>)
      modifies this`sensors, this`currentSensor
      ensures old(Valid()) ==> Valid()
      ensures old(Valid()) && old(currentSensor).Some? ==> r.Ok?
      ensures old(currentSensor).None? ==>
                r == Raise(TypeError) && sensors == old(sensors) && currentSensor == old(currentSensor)
      ensures input.None? ==>
                r == SensorConfigForm(old(currentSensor)) && sensors == old(sensors) && currentSensor == old(currentSensor)
      ensures old(currentSensor).Some? && input.Some? ==>
                && |sensors| == |old(sensors)| + 1
                && sensors[..|old(sensors)|] == old(sensors)
                && Completes(sensors[|old(sensors)|], old(currentSensor).value, input.value)
                && currentSensor == None
                && r == ListingForm(sensors, Menu("sensors", CREATE_SENSOR_ACTIONS))
    {
      if input.None? {
        return SensorConfigForm(currentSensor);
      }
      if currentSensor.None? {
        return Raise(TypeError);
      }
      var config := CompleteSensorConfig(currentSensor.value, input.value);
      sensors := sensors + [config];
      currentSensor := None;
      return ListingForm(sensors, Menu("sensors", CREATE_SENSOR_ACTIONS));
    }
  }

  /** The options flow (`HTTPAgentOptionsFlow`). */
  class OptionsFlow {
    var data: ConfData
    var headers: seq<Header>
    var sensors: seq<Decl>
    var currentSensor: Option<Decl>
    /** `selected_sensor_index`; None while the attribute is not set. */
    var selectedIndex: Option<nat>

    /** Every stored sensor and the pending one carry a name, and the
        pending one a kind: what the platform setups and the forms rely on. */
    predicate Valid()
      reads this
    {
      Named(sensors) && (currentSensor.Some? ==> NAME in currentSensor.value && TYPE in currentSensor.value)
    }

    /** Starts from the entry's data with its options laid over it. */
    constructor (entryData: ConfData, entryOptions: ConfData)
      ensures data == Merge(entryData, entryOptions)
      ensures headers == HeadersOf(data) && sensors == SensorsOf(data)
      ensures currentSensor == None && selectedIndex == None
      ensures Named(SensorsOf(data)) ==> Valid()
    {
      data := Merge(entryData, entryOptions);
      headers := HeadersOf(Merge(entryData, entryOptions));
      sensors := SensorsOf(Merge(entryData, entryOptions));
      currentSensor := None;
      selectedIndex := None;
    }

    /** `async_step_init`: the main menu and its four branches; the sensors
        menu lists the sensors by name. */
    method StepInit(action: Option<string>, consts: Constants) returns (r: Outcome<FlowResult>)
      ensures action == Some("basic") ==> r == Ok(Form("basic"))
      ensures action == Some("headers") ==> r == Ok(Menu("headers", OPTIONS_HEADER_ACTIONS))
      ensures action == Some("payload") ==> r == Ok(Form("payload"))
      ensures action == Some("sensors") ==> r == ListingForm(sensors, Menu("sensors", SensorsMenu(sensors)))
      ensures action !in {Some("basic"), Some("headers"), Some("payload"), Some("sensors")} ==>
                r == Ok(Menu("init", InitMenu(data, consts)))
    {
      if action == Some("basic") {
        return Ok(Form("basic"));
      } else if action == Some("headers") {
        return Ok(Menu("headers", OPTIONS_HEADER_ACTIONS));
      } else if action == Some("payload") {
        return Ok(Form("payload"));
      } else if action == Some("sensors") {
        return ListingForm(sensors, Menu("sensors", SensorsMenu(sensors)));
      }
      return Ok(Menu("init", InitMenu(data, consts)));
    }

    /** `async_step_basic`: a valid URL merges the answers and saves the
        options. */
    method StepBasic(input: Option<ConfData>, urlparse: string -> Option<UrlParts>) returns (r: FlowResult)
      modifies this`data
      ensures input.None? ==> r == Form("basic") && data == old(data)
      ensures input.Some? && UrlErrors(input.value, urlparse) != map[] ==>
                r == ShowForm("basic", [], map["base" := "invalid_url"]) && data == old(data)
      ensures input.Some? && UrlErrors(input.value, urlparse) == map[] ==>
                data == old(data) + input.value && r == CreateEntry("", data)
    {
      if input.None? {
        return Form("basic");
      }
      var errors := UrlErrors(input.value, urlparse);
      if errors == map[] {
        data := data + input.value;
        return CreateEntry("", data);
      }
      return ShowForm("basic", [], errors);
    }

    /** `async_step_headers`: add, clear (and show the menu again), or done
        (store and save). */
    method StepHeaders(action: Option<string>) returns (r: FlowResult)
      modifies this`data, this`headers
      ensures action == Some("add") ==> r == Form("add_header") && data == old(data) && headers == old(headers)
      ensures action == Some("clear") ==>
                r == Menu("headers", OPTIONS_HEADER_ACTIONS) && data == old(data) && headers == []
      ensures action == Some("done") ==>
                headers == old(headers) && data == old(data)[HEADERS := CHeaders(headers)] && r == CreateEntry("", data)
      ensures action !in {Some("add"), Some("clear"), Some("done")} ==>
                r == Menu("headers", OPTIONS_HEADER_ACTIONS) && data == old(data) && headers == old(headers)
    {
      if action == Some("add") {
        return Form("add_header");
      } else if action == Some("clear") {
        headers := [];
        return Menu("headers", OPTIONS_HEADER_ACTIONS);
      } else if action == Some("done") {
        data := data[HEADERS := CHeaders(headers)];
        return CreateEntry("", data);
      }
      return Menu("headers", OPTIONS_HEADER_ACTIONS);
    }

    /** `async_step_add_header`: appends exactly one header at the end. */
    method StepAddHeader(input: Option<Answers>) returns (r: Outcome<FlowResult>)
      modifies this`headers
      ensures input.None? ==> r == Ok(Form("add_header")) && headers == old(headers)
      ensures input.Some? && ("key" !in input.value || "value" !in input.value) ==>
                r == Raise(KeyError) && headers == old(headers)
      ensures input.Some? && "key" in input.value && "value" in input.value ==>
                r == Ok(Menu("headers", OPTIONS_HEADER_ACTIONS)) &&
                headers == old(headers) + [Header(input.value["key"], input.value["value"])]
    {
      if input.None? {
        return Ok(Form("add_header"));
      }
      if "key" !in input.value || "value" !in input.value {
        return Raise(KeyError);
      }
      headers := headers + [Header(input.value["key"], input.value["value"])];
      return Ok(Menu("headers", OPTIONS_HEADER_ACTIONS));
    }

    /** `async_step_payload`: stores content type and payload and saves. */
    method StepPayload(input: Option<ConfData>) returns (r: Outcome<FlowResult>)
      modifies this`data
      ensures input.None? ==> r == Ok(Form("payload")) && data == old(data)
      ensures input.Some? && CONTENT_TYPE !in input.value ==> r == Raise(KeyError) && data == old(data)
      ensures input.Some? && CONTENT_TYPE in input.value ==>
                && data == old(data)[CONTENT_TYPE := input.value[CONTENT_TYPE]]
                                    [PAYLOAD := if PAYLOAD in input.value then input.value[PAYLOAD] else CStr("")]
                && r == Ok(CreateEntry("", data))
    {
      if input.None? {
        return Ok(Form("payload"));
      }
      if CONTENT_TYPE !in input.value {
        return Raise(KeyError);
      }
      data := data[CONTENT_TYPE := input.value[CONTENT_TYPE]];
      data := data[PAYLOAD := if PAYLOAD in input.value then input.value[PAYLOAD] else CStr("")];
      return Ok(CreateEntry("", data));
    }

    /** `async_step_sensors`: add, edit, clear (and show the menu again), or
        done, which aborts with `no_sensors` on an empty list and otherwise
        stores the sensors and saves. The sensors menu and the select form
        list the sensors by name; a valid flow never raises here. */
    method StepSensors(action: Option<string>) returns (r: Outcome<FlowResult>)
      modifies this`data, this`sensors
      ensures old(Valid()) ==> Valid() && r.Ok?
      ensures action == Some("add") ==> r == Ok(Form("add_sensor")) && data == old(data) && sensors == old(sensors)
      ensures action == Some("edit") ==>
                r == ListingForm(sensors, Form("select_sensor")) && data == old(data) && sensors == old(sensors)
      ensures action == Some("clear") ==>
                r == Ok(Menu("sensors", ["add", "done"])) && data == old(data) && sensors == []
      ensures action == Some("done") && old(sensors) == [] ==>
                r == Ok(Abort("no_sensors")) && data == old(data) && sensors == old(sensors)
      ensures action == Some("done") && old(sensors) != [] ==>
                sensors == old(sensors) && data == old(data)[SENSORS := CSensors(sensors)] && r == Ok(CreateEntry("", data))
      ensures action !in {Some("add"), Some("edit"), Some("clear"), Some("done")} ==>
                r == ListingForm(sensors, Menu("sensors", SensorsMenu(sensors))) && data == old(data) && sensors == old(sensors)
    {
      if action == Some("add") {
        return Ok(Form("add_sensor"));
      } else if action == Some("edit") {
        return ListingForm(sensors, Form("select_sensor"));
      } else if action == Some("clear") {
        sensors := [];
        return ListingForm(sensors, Menu("sensors", SensorsMenu(sensors)));
      } else if action == Some("done") {
        if sensors == [] {
          return Ok(Abort("no_sensors"));
        }
        data := data[SENSORS := CSensors(sensors)];
        return Ok(CreateEntry("", data));
      }
      return ListingForm(sensors, Menu("sensors", SensorsMenu(sensors)));
    }

    /** `async_step_select_sensor`: selects the first sensor with the chosen
        name. No match lets `next()` raise StopIteration; a nameless sensor
        reached first raises KeyError, and so does the form when any sensor
        is nameless. */
    method StepSelectSensor(input: Option<Answers>) returns (r: Outcome<FlowResult>)
      modifies this`selectedIndex
      ensures input.None? ==> r == ListingForm(sensors, Form("select_sensor")) && selectedIndex == old(selectedIndex)
      ensures input.Some? && "sensor" !in input.value ==> r == Raise(KeyError) && selectedIndex == old(selectedIndex)
      ensures r.Raise? ==> selectedIndex == old(selectedIndex)
      ensures input.Some? && "sensor" in input.value ==>
                var name := input.value["sensor"];
                match FindFrom(sensors, name, 0)
                case Found(i) =>
                  && r == Ok(Menu("edit_sensor", EDIT_ACTIONS)) && selectedIndex == Some(i)
                  && i < |sensors| && NAME in sensors[i] && sensors[i][NAME] == name
                  && forall j :: 0 <= j < i ==> NAME in sensors[j] && sensors[j][NAME] != name
                case NotFound =>
                  && r == Raise(StopIteration)
                  && forall d :: d in sensors ==> NAME in d && d[NAME] != name
                case Nameless(i) => r == Raise(KeyError)
    {
      if input.None? {
        return ListingForm(sensors, Form("select_sensor"));
      }
      if "sensor" !in input.value {
        return Raise(KeyError);
      }
      var name := input.value["sensor"];
      var found := FindByName(sensors, name);
      FindFromIsFirstMatch(sensors, name, 0);
      match found
      case Found(i) =>
        selectedIndex := Some(i);
        r := Ok(Menu("edit_sensor", EDIT_ACTIONS));
      case NotFound =>
        forall d | d in sensors
          ensures NAME in d && d[NAME] != name
        {
          var j :| 0 <= j < |sensors| && sensors[j] == d;
        }
        r := Raise(StopIteration);
      case Nameless(_) =>
        r := Raise(KeyError);
    }

    /** `async_step_edit_sensor`: edit shows the modify form, delete removes
        exactly the selected sensor, back returns to the sensors menu. */
    method StepEditSensor(action: Option<string>) returns (r: Outcome<FlowResult>)
      modifies this`sensors
      ensures old(Valid()) ==> Valid()
      ensures old(Valid()) && Selection(old(sensors), selectedIndex).Ok? ==> r.Ok?
      ensures action == Some("edit") ==>
                r == FormIfSelected(sensors, selectedIndex, Form("modify_sensor")) && sensors == old(sensors)
      ensures action == Some("delete") && Selection(old(sensors), selectedIndex).Raise? ==>
                r == Raise(Selection(old(sensors), selectedIndex).error) && sensors == old(sensors)
      ensures action == Some("delete") && Selection(old(sensors), selectedIndex).Ok? ==>
                && sensors == RemoveAt(old(sensors), selectedIndex.value)
                && r == ListingForm(sensors, Menu("sensors", SensorsMenu(sensors)))
      ensures action == Some("back") ==>
                r == ListingForm(sensors, Menu("sensors", SensorsMenu(sensors))) && sensors == old(sensors)
      ensures action !in {Some("edit"), Some("delete"), Some("back")} ==>
                r == FormIfSelected(sensors, selectedIndex, Menu("edit_sensor", EDIT_ACTIONS)) && sensors == old(sensors)
    {
      if action == Some("edit") {
        return FormIfSelected(sensors, selectedIndex, Form("modify_sensor"));
      } else if action == Some("delete") {
        var selection := Selection(sensors, selectedIndex);
        if selection.Raise? {
          return Raise(selection.error);
        }
        sensors := RemoveAt(sensors, selection.value);
        return ListingForm(sensors, Menu("sensors", SensorsMenu(sensors)));
      } else if action == Some("back") {
        return ListingForm(sensors, Menu("sensors", SensorsMenu(sensors)));
      }
      return FormIfSelected(sensors, selectedIndex, Menu("edit_sensor", EDIT_ACTIONS));
    }

    /** `async_step_modify_sensor`: replaces only the selected sensor, keeping
        its original kind. The new name is read first, so a missing name
        raises KeyError before the selection is looked at. */
    method StepModifySensor(input: Option<Answers>) returns (r: Outcome<FlowResult>)
      modifies this`sensors
      ensures old(Valid()) ==> Valid()
      ensures old(Valid()) && Selection(old(sensors), selectedIndex).Ok? && (input.Some? ==> NAME in input.value) ==> r.Ok?
      ensures input.None? ==>
                r == FormIfSelected(sensors, selectedIndex, Form("modify_sensor")) && sensors == old(sensors)
      ensures input.Some? && NAME !in input.value ==> r == Raise(KeyError) && sensors == old(sensors)
      ensures input.Some? && NAME in input.value && Selection(old(sensors), selectedIndex).Raise? ==>
                r == Raise(Selection(old(sensors), selectedIndex).error) && sensors == old(sensors)
      ensures input.Some? && NAME in input.value && Selection(old(sensors), selectedIndex).Ok? ==>
                var i := selectedIndex.value;
                && sensors == old(sensors)[i := ModifiedConfig(input.value, KindOf(old(sensors)[i]))]
                && KindOf(sensors[i]) == KindOf(old(sensors)[i])
                && r == ListingForm(sensors, Menu("sensors", SensorsMenu(sensors)))
    {
      if input.None? {
        return FormIfSelected(sensors, selectedIndex, Form("modify_sensor"));
      }
      if NAME !in input.value {
        return Raise(KeyError);
      }
      var selection := Selection(sensors, selectedIndex);
      if selection.Raise? {
        return Raise(selection.error);
      }
      var i := selection.value;
      sensors := sensors[i := ModifiedConfig(input.value, KindOf(sensors[i]))];
      return ListingForm(sensors, Menu("sensors", SensorsMenu(sensors)));
    }

    /** `async_step_add_sensor`: holds the chosen name and kind. */
    method StepAddSensor(input: Option<Answers>) returns (r: Outcome<FlowResult>)
      modifies this`currentSensor
      ensures old(Valid()) ==> Valid()
      ensures input.None? ==> r == Ok(Form("add_sensor")) && currentSensor == old(currentSensor)
      ensures input.Some? && (NAME !in input.value || TYPE !in input.value) ==>
                r == Raise(KeyError) && currentSensor == old(currentSensor)
      ensures input.Some? && NAME in input.value && TYPE in input.value ==>
                r == Ok(Form("sensor_config")) &&
                currentSensor == Some(map[NAME := input.value[NAME], TYPE := input.value[TYPE]])
    {
      if input.None? {
        return Ok(Form("add_sensor"));
      }
      if NAME !in input.value || TYPE !in input.value {
        return Raise(KeyError);
      }
      currentSensor := Some(map[NAME := input.value[NAME], TYPE := input.value[TYPE]]);
      return Ok(Form("sensor_config"));
    }

    /** `async_step_sensor_config`: appends the completed declaration,
        clears the pending sensor and shows the sensors menu; the errors are
        those of the create flow. A valid flow never raises here. */
    method StepSensorConfig(input: Option<Answers>) returns (r: Outcome<FlowResult>)
      modifies this`sensors, this`currentSensor
      ensures old(Valid()) ==> Valid()
      ensures old(Valid()) && old(currentSensor).Some? ==> r.Ok?
      ensures old(currentSensor).None? ==>
                r == Raise(TypeError) && sensors == old(sensors) && currentSensor == old(currentSensor)
      ensures input.None? ==>
                r == SensorConfigForm(old(currentSensor)) && sensors == old(sensors) && currentSensor == old(currentSensor)
      ensures old(currentSensor).Some? && input.Some? ==>
                && |sensors| == |old(sensors)| + 1
                && sensors[..|old(sensors)|] == old(sensors)
                && Completes(sensors[|old(sensors)|], old(currentSensor).value, input.value)
                && currentSensor == None
                && r == ListingForm(sensors, Menu("sensors", SensorsMenu(sensors)))
    {
      if input.None? {
        return SensorConfigForm(currentSensor);
      }
      if currentSensor.None? {
        return Raise(TypeError);
      }
      var config := CompleteSensorConfig(currentSensor.value, input.value);
      sensors := sensors + [config];
      currentSensor := None;
      return ListingForm(sensors, Menu("sensors", SensorsMenu(sensors)));
    }
  }

  /** A completed declaration has all nine optional fields, and the pending
      name and kind survive when the answers do not repeat them. */
  lemma CompletedHasEveryField(config: Decl, current: Decl, input: Answers)
    requires Completes(config, current, input)
    ensures forall f :: f in OPTIONAL_FIELDS ==> f in config
    ensures NAME in current && NAME !in input ==> config[NAME] == current[NAME]
    ensures TYPE in current && TYPE !in input ==> config[TYPE] == current[TYPE]
  {
  }

  /** Modifying a sensor and then reading its kind gives the kind it had. */
  lemma ModifyKeepsKind(input: Answers, d: Decl)
    requires NAME in input
    ensures KindOf(ModifiedConfig(input, KindOf(d))) == KindOf(d)
    ensures ModifiedConfig(input, KindOf(d))[NAME] == input[NAME]
  {
  }
}
