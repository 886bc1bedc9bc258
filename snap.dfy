/** The parts of the SNAP toolkit the script talks to, kept opaque: product
    and geometry handles, the parameter map handed to an operator, and the
    operator call itself, which the model receives as a function. */
module Snap {

  /** A loaded product. The toolkit owns its bands and metadata. */
  datatype Product = Product(handle: nat)

  /** A JTS geometry built by the toolkit's WKT reader. */
  datatype Geometry = Geometry(handle: nat)

  /** A Python float passed through untouched, as its IEEE-754 bit pattern. */
  datatype Float64 = Float64(bits: bv64)

  /** The range of java.lang.Integer. */
  newtype Int32 = x: int | -0x8000_0000 <= x < 0x8000_0000

  /** What an operator parameter can hold. */
  datatype Value =
    | Str(s: string)
    | Bool(b: bool)
    | Int(i: Int32)
    | Float(f: Float64)
    | Geom(g: Geometry)

  /** The java.util.HashMap of operator parameters. */
  type Params = map<string, Value>

  /** HashMap.put: the key now holds the new value, every other entry is as it was. */
  function Put(m: Params, key: string, v: Value): (r: Params)
    ensures r.Keys == m.Keys + {key}
    ensures r[key] == v
    ensures forall k :: k in m && k != key ==> k in r && r[k] == m[k]
  {
    m[key := v]
  }

  /** One call of GPF.createProduct: operator name, parameters, source product. */
  datatype Invocation = Invocation(operator: string, parameters: Params, source: Product)

  /** What an operator gives back: a new product, or the exception it raised. */
  datatype Outcome = Produced(product: Product) | Raised(message: string)

  /** GPF.createProduct as the toolkit implements it, unknown to the model. */
  type Engine = Invocation -> Outcome

  /** What the JTS WKT reader gives back for a text. */
  datatype ReadOutcome = Parsed(geometry: Geometry) | ParseFailed(message: string)

  /** WKTReader().read as the toolkit implements it. */
  type WktReader = string -> ReadOutcome
}
