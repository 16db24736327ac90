/** Graph elements as the generators build them and the sink buffers them. */
module Elements {

  /** Java's 32-bit `int` and 64-bit `long`. */
  newtype int32 = x: int | -0x8000_0000 <= x < 0x8000_0000
  newtype int64 = x: int | -0x8000_0000_0000_0000 <= x < 0x8000_0000_0000_0000

  /** The boxed values the generators store as vertices and properties. */
  datatype Value = IntValue(i: int32) | LongValue(l: int64) | StringValue(s: string)

  /** A property map: each name occurs at most once. */
  type Properties = map<string, Value>

  datatype Element =
    | Entity(group: string, vertex: Value, properties: Properties)
    | Edge(group: string, source: Value, destination: Value, directed: bool, properties: Properties)

  /** `putProperty` on a freshly built element: a map put on its properties, nothing else changes. */
  function PutProperty(e: Element, name: string, value: Value): (r: Element)
    ensures r.properties.Keys == e.properties.Keys + {name}
    ensures r.properties[name] == value
    ensures forall k :: k in e.properties && k != name ==> r.properties[k] == e.properties[k]
    ensures r.(properties := e.properties) == e
  {
    e.(properties := e.properties[name := value])
  }
}
