/** args.py's own loops. */
module Args {
  import opened Wrappers
  import opened JsonValues
  import opened ArgsSpec

  /** normalize_args, once the schema is read as `raw`. */
  method NormalizeArgs(raw: seq<Raw>, sanitize: Name -> Name) returns (specs: seq<Spec>)
    ensures specs == Normalize(raw, sanitize)
  {
    specs := [];
    var seen: set<Name> := {};
    for i := 0 to |raw|
      invariant specs == Normalize(raw[..i], sanitize)
      invariant seen == Params(specs)
    {
      var r := raw[i];
      var param := sanitize(r.wire);
      while param in seen
        invariant Rename(param, seen) == Rename(sanitize(r.wire), seen)
        decreases |Longer(seen, |param|)|
      {
        LongerShrinks(seen, param);
        param := param + "_";
      }
      assert raw[..i + 1][..i] == raw[..i];
      ghost var before := specs;
      specs := specs + [Spec(r.wire, param, r.required, r.default)];
      ParamsGrow(before, specs[|before|]);
      seen := seen + {param};
    }
    assert raw[..|raw|] == raw;
  }

  lemma ParamsGrow(specs: seq<Spec>, s: Spec)
    ensures Params(specs + [s]) == Params(specs) + {s.param}
  {
    assert forall t :: t in specs + [s] <==> t in specs || t == s;
  }

  /** The two tables prepare_args looks names and defaults up in. */
  method Tables(specs: seq<Spec>) returns (toWire: map<Name, Name>, defaults: map<Name, Json>)
    ensures toWire == ToWire(specs) && defaults == Defaults(specs)
  {
    toWire, defaults := map[], map[];
    for i := 0 to |specs|
      invariant toWire == ToWire(specs[..i]) && defaults == Defaults(specs[..i])
    {
      var s := specs[i];
      assert specs[..i + 1][..i] == specs[..i];
      toWire := toWire[s.wire := s.wire];
      if s.param !in toWire {
        toWire := toWire[s.param := s.wire];
      }
      if !s.required && s.default.Some? {
        defaults := defaults[s.wire := s.default.value];
      }
    }
    assert specs[..|specs|] == specs;
  }

  lemma {:induction false} RefusedStaysRefused(names: map<Name, Name>, defaults: map<Name, Json>, closed: bool,
                                               args: seq<Item>, i: nat)
    requires i <= |args| && Collect(names, defaults, closed, args[..i]).Err?
    ensures Collect(names, defaults, closed, args) == Collect(names, defaults, closed, args[..i])
    decreases |args| - i
  {
    if i < |args| {
      assert args[..i + 1][..i] == args[..i];
      RefusedStaysRefused(names, defaults, closed, args, i + 1);
    } else {
      assert args[..i] == args;
    }
  }

  /** prepare_args, from the normalised schema. */
  method PrepareArgs(specs: seq<Spec>, closed: bool, args: seq<Item>) returns (r: Result<seq<Item>, Error>)
    ensures r == Prepare(specs, closed, args)
  {
    var toWire, defaults := Tables(specs);
    var out: seq<Item>, source: map<Name, Name> := [], map[];
    for i := 0 to |args|
      invariant Collect(toWire, defaults, closed, args[..i]) == Ok(Progress(out, source))
    {
      var key, value := args[i].key, args[i].value;
      assert args[..i + 1][..i] == args[..i];
      var wire := key;
      if key in toWire {
        wire := toWire[key];
      } else if closed {
        RefusedStaysRefused(toWire, defaults, closed, args, i + 1);
        return Err(Unknown(key));
      }
      if wire in source {
        RefusedStaysRefused(toWire, defaults, closed, args, i + 1);
        return Err(Twice(wire, source[wire], key));
      }
      source := source[wire := key];
      assert out + [] == out;
      if !(value.Null? || (wire in defaults && PyEq(value, defaults[wire]))) {
        out := out + [Item(wire, value)];
      }
    }
    assert args[..|args|] == args;
    r := CheckRequired(specs, out);
  }

  /** The last loop of prepare_args. */
  method CheckRequired(specs: seq<Spec>, out: seq<Item>) returns (r: Result<seq<Item>, Error>)
    ensures r == if FirstMissing(specs, out).Some? then Err(Missing(FirstMissing(specs, out).value)) else Ok(out)
  {
    for i := 0 to |specs|
      invariant FirstMissing(specs, out) == FirstMissing(specs[i..], out)
    {
      assert specs[i..][1..] == specs[i + 1..];
      if specs[i].required && !HasKey(out, specs[i].wire) {
        return Err(Missing(specs[i].wire));
      }
    }
    assert specs[|specs|..] == [];
    r := Ok(out);
  }
}
