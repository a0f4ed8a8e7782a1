/**
 args.py: what a call's arguments become before a backend receives them.  A dict is a sequence of
 items, in insertion order, with distinct keys.
*/
module ArgsSpec {
  import opened Wrappers
  import opened JsonValues

  type Name = string

  /** A declared argument, before it has a parameter name. */
  datatype Raw = Raw(wire: Name, required: bool, default: Option<Json>)

  datatype Spec = Spec(wire: Name, param: Name, required: bool, default: Option<Json>)

  predicate DistinctRaw(raw: seq<Raw>) { forall i, j :: 0 <= i < j < |raw| ==> raw[i].wire != raw[j].wire }

  // ------------------------------------------------------------------ parameter names

  function Params(specs: seq<Spec>): set<Name> { set s | s in specs :: s.param }

  /** Names already taken that are no shorter than `param`: what the renaming loop has left to meet. */
  function Longer(seen: set<Name>, n: nat): set<Name> { set s | s in seen && |s| >= n }

  lemma LongerShrinks(seen: set<Name>, param: Name)
    requires param in seen
    ensures Longer(seen, |param| + 1) < Longer(seen, |param|)
    ensures |Longer(seen, |param| + 1)| < |Longer(seen, |param|)|
  {
    var a, b := Longer(seen, |param| + 1), Longer(seen, |param|);
    assert param in b && param !in a;
    assert a <= b - {param};
    FewerElements(a, b - {param});
  }

  /** while param in seen: param = f"{param}_" */
  function Rename(param: Name, seen: set<Name>): Name
    decreases |Longer(seen, |param|)|
  {
    if param in seen then
      LongerShrinks(seen, param);
      Rename(param + "_", seen)
    else param
  }

  /** normalize_args after it has read the schema; `sanitize` is param_name. */
  function Normalize(raw: seq<Raw>, sanitize: Name -> Name): (specs: seq<Spec>)
    ensures |specs| == |raw|
    ensures forall i :: 0 <= i < |raw| ==>
              specs[i].wire == raw[i].wire && specs[i].required == raw[i].required && specs[i].default == raw[i].default
  {
    if raw == [] then []
    else
      var less, r := Normalize(raw[..|raw| - 1], sanitize), raw[|raw| - 1];
      less + [Spec(r.wire, Rename(sanitize(r.wire), Params(less)), r.required, r.default)]
  }

  // ------------------------------------------------------------------ prepare_args

  /** to_wire */
  function ToWire(specs: seq<Spec>): map<Name, Name> {
    if specs == [] then map[]
    else
      var s := specs[|specs| - 1];
      var m := ToWire(specs[..|specs| - 1])[s.wire := s.wire];
      if s.param in m then m else m[s.param := s.wire]
  }

  /** The defaults a backend applies for an absent argument. */
  function Defaults(specs: seq<Spec>): map<Name, Json> {
    if specs == [] then map[]
    else
      var m, s := Defaults(specs[..|specs| - 1]), specs[|specs| - 1];
      if !s.required && s.default.Some? then m[s.wire := s.default.value] else m
  }

  datatype Item = Item(key: Name, value: Json)

  predicate DistinctKeys(args: seq<Item>) { forall i, j :: 0 <= i < j < |args| ==> args[i].key != args[j].key }

  datatype Error = Unknown(key: Name) | Twice(wire: Name, first: Name, second: Name) | Missing(wire: Name)

  datatype Progress = Progress(out: seq<Item>, source: map<Name, Name>)

  /** The name an argument is forwarded under, or its refusal. */
  function Wire(names: map<Name, Name>, closed: bool, key: Name): Result<Name, Error> {
    if key in names then Ok(names[key]) else if closed then Err(Unknown(key)) else Ok(key)
  }

  predicate Dropped(defaults: map<Name, Json>, wire: Name, value: Json) {
    value.Null? || (wire in defaults && PyEq(value, defaults[wire]))
  }

  /** The loop over the arguments. */
  function Collect(names: map<Name, Name>, defaults: map<Name, Json>, closed: bool,
                   args: seq<Item>): Result<Progress, Error> {
    if args == [] then Ok(Progress([], map[]))
    else match Collect(names, defaults, closed, args[..|args| - 1])
      case Err(e) => Err(e)
      case Ok(p) =>
        var a := args[|args| - 1];
        match Wire(names, closed, a.key)
        case Err(e) => Err(e)
        case Ok(w) =>
          if w in p.source then Err(Twice(w, p.source[w], a.key))
          else Ok(Progress(p.out + (if Dropped(defaults, w, a.value) then [] else [Item(w, a.value)]),
                           p.source[w := a.key]))
  }

  predicate HasKey(items: seq<Item>, key: Name) { exists i :: 0 <= i < |items| && items[i].key == key }

  /** The first required argument that is not there. */
  function FirstMissing(specs: seq<Spec>, out: seq<Item>): Option<Name> {
    if specs == [] then None
    else if specs[0].required && !HasKey(out, specs[0].wire) then Some(specs[0].wire)
    else FirstMissing(specs[1..], out)
  }

  /** prepare_args */
  function Prepare(specs: seq<Spec>, closed: bool, args: seq<Item>): Result<seq<Item>, Error> {
    match Collect(ToWire(specs), Defaults(specs), closed, args)
    case Err(e) => Err(e)
    case Ok(p) =>
      if FirstMissing(specs, p.out).Some? then Err(Missing(FirstMissing(specs, p.out).value)) else Ok(p.out)
  }
}
