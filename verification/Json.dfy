/** JSON as Python holds it, and Python's == on it. */
module JsonValues {
  import opened Wrappers

  /** A JSON value as Python holds it; floats are reals. */
  datatype Json =
    | Null
    | Bool(b: bool)
    | Int(i: int)
    | Float(x: real)
    | Text(s: string)
    | Array(items: seq<Json>)
    | Object(fields: map<string, Json>)

  function Number(v: Json): Option<real> {
    match v
    case Bool(b) => Some(if b then 1.0 else 0.0)
    case Int(i) => Some(i as real)
    case Float(x) => Some(x)
    case _ => None
  }

  /** Python's ==: True == 1 == 1.0. */
  predicate PyEq(v: Json, w: Json)
    decreases v
  {
    if Number(v).Some? || Number(w).Some? then Number(v) == Number(w)
    else match (v, w)
      case (Array(a), Array(b)) => |a| == |b| && forall i :: 0 <= i < |a| ==> PyEq(a[i], b[i])
      case (Object(f), Object(g)) => f.Keys == g.Keys && forall k :: k in f && k in g ==> PyEq(f[k], g[k])
      case _ => v == w
  }
}
