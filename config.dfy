/** The persisted configuration of one entry: the dictionary both flows build
    and the integration reads back, merged from the entry's data and options. */
module Config {
  import opened Declarations

  /** One request header as the header steps store it. */
  datatype Header = Header(key: string, value: string)

  /** A value of the configuration dictionary. */
  datatype ConfValue =
    | CStr(s: string)
    | CInt(i: int)
    | CBool(b: bool)
    | CHeaders(headers: seq<Header>)
    | CSensors(sensors: seq<Decl>)

  type ConfData = map<string, ConfValue>

  // Keys of the configuration dictionary (const.py is not part of this model).
  const URL := "url"
  const METHOD := "method"
  const HEADERS := "headers"
  const CONTENT_TYPE := "content_type"
  const PAYLOAD := "payload"
  const SENSORS := "sensors"

  /** The integration's domain, which is also its directory name. */
  const DOMAIN := "http_agent"

  /** `data = dict(entry.data); if entry.options: data.update(entry.options)`. */
  function Merge(data: ConfData, options: ConfData): (m: ConfData)
    ensures m.Keys == data.Keys + options.Keys
    ensures forall k :: k in options ==> m[k] == options[k]
    ensures forall k :: k in data && k !in options ==> m[k] == data[k]
  {
    if options == map[] then data else data + options
  }

  /** `data.get(CONF_SENSORS, [])`. */
  function SensorsOf(data: ConfData): (ds: seq<Decl>)
    ensures SENSORS in data && data[SENSORS].CSensors? ==> ds == data[SENSORS].sensors
    ensures SENSORS !in data ==> ds == []
  {
    if SENSORS in data && data[SENSORS].CSensors? then data[SENSORS].sensors else []
  }

  /** `data.get(CONF_HEADERS, [])`. */
  function HeadersOf(data: ConfData): (hs: seq<Header>)
    ensures HEADERS in data && data[HEADERS].CHeaders? ==> hs == data[HEADERS].headers
    ensures HEADERS !in data ==> hs == []
  {
    if HEADERS in data && data[HEADERS].CHeaders? then data[HEADERS].headers else []
  }
}
