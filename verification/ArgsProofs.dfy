/** That preparing arguments keeps the meaning of a call. */
module ArgsProofs {
  import opened Wrappers
  import opened JsonValues
  import opened ArgsSpec

  // ------------------------------------------------------------------ Python's ==

  lemma {:induction false} EqualToItself(v: Json)
    ensures PyEq(v, v)
  {
    match v
    case Array(items) =>
      forall i | 0 <= i < |items| ensures PyEq(items[i], items[i]) { EqualToItself(items[i]); }
    case Object(fields) =>
      forall k | k in fields ensures PyEq(fields[k], fields[k]) { EqualToItself(fields[k]); }
    case _ =>
  }

  /** What is not the same but equal is a number or a boolean, at some depth. */
  lemma EqualExactly(v: Json, w: Json)
    ensures v.Text? || v.Null? ==> (PyEq(v, w) <==> v == w)
    ensures v.Int? && w.Bool? ==> (PyEq(v, w) <==> v.i == if w.b then 1 else 0)
    ensures v.Int? && w.Float? ==> (PyEq(v, w) <==> v.i as real == w.x)
    ensures v.Array? && w.Array? ==>
              (PyEq(v, w) <==>
                && |v.items| == |w.items|
                && forall i :: 0 <= i < |v.items| ==> PyEq(v.items[i], w.items[i]))
  {}

  // ------------------------------------------------------------------ parameter names

  function Underscores(n: nat): (r: string)
    ensures |r| == n
  {
    if n == 0 then "" else "_" + Underscores(n - 1)
  }

  lemma {:induction false} UnderscoresComm(n: nat)
    ensures "_" + Underscores(n) == Underscores(n) + "_"
  {
    if n > 0 { UnderscoresComm(n - 1); }
  }

  /** The renaming loop ends on the first free name among the wanted one and its underscored forms. */
  lemma {:induction false} RenameIsFirstFree(param: Name, seen: set<Name>) returns (k: nat)
    ensures Rename(param, seen) == param + Underscores(k)
    ensures Rename(param, seen) !in seen
    ensures forall j: nat :: j < k ==> param + Underscores(j) in seen
    decreases |Longer(seen, |param|)|
  {
    if param in seen {
      LongerShrinks(seen, param);
      var less := RenameIsFirstFree(param + "_", seen);
      k := less + 1;
      assert param + Underscores(k) == (param + "_") + Underscores(less);
      forall j: nat | j < k ensures param + Underscores(j) in seen {
        if j == 0 {
          assert param + Underscores(0) == param;
        } else {
          assert param + Underscores(j) == (param + "_") + Underscores(j - 1);
        }
      }
    } else {
      k := 0;
      assert param + Underscores(0) == param;
    }
  }

  predicate DistinctParams(specs: seq<Spec>) {
    forall i, j :: 0 <= i < j < |specs| ==> specs[i].param != specs[j].param
  }

  predicate DistinctWires(specs: seq<Spec>) { forall i, j :: 0 <= i < j < |specs| ==> specs[i].wire != specs[j].wire }

  /** No two arguments of a tool get the same parameter name. */
  lemma {:induction false} ParamsAreDistinct(raw: seq<Raw>, sanitize: Name -> Name)
    ensures DistinctParams(Normalize(raw, sanitize))
    ensures DistinctRaw(raw) ==> DistinctWires(Normalize(raw, sanitize))
  {
    if raw != [] {
      var less, r := Normalize(raw[..|raw| - 1], sanitize), raw[|raw| - 1];
      ParamsAreDistinct(raw[..|raw| - 1], sanitize);
      var k := RenameIsFirstFree(sanitize(r.wire), Params(less));
      forall i | 0 <= i < |less| ensures less[i].param in Params(less) {}
    }
  }

  /** Each argument, in its order, keeps what is declared of it, and gets the first name that is free
      after those of the arguments before it. */
  lemma {:induction false} NormalizedExactly(raw: seq<Raw>, sanitize: Name -> Name, i: nat) returns (k: nat)
    requires i < |raw|
    ensures var specs := Normalize(raw, sanitize); var wanted := sanitize(raw[i].wire);
      && specs[i].wire == raw[i].wire && specs[i].required == raw[i].required && specs[i].default == raw[i].default
      && specs[i].param == wanted + Underscores(k) && specs[i].param !in Params(specs[..i])
      && forall j: nat :: j < k ==> wanted + Underscores(j) in Params(specs[..i])
  {
    var n := |raw| - 1;
    var less := Normalize(raw[..n], sanitize);
    if i < n {
      k := NormalizedExactly(raw[..n], sanitize, i);
      assert Normalize(raw, sanitize)[..i] == less[..i];
    } else {
      k := RenameIsFirstFree(sanitize(raw[n].wire), Params(less));
      assert Normalize(raw, sanitize)[..n] == less;
    }
  }

  // ------------------------------------------------------------------ spellings

  predicate IsWire(specs: seq<Spec>, key: Name) { exists i :: 0 <= i < |specs| && specs[i].wire == key }

  predicate IsParam(specs: seq<Spec>, key: Name) { exists i :: 0 <= i < |specs| && specs[i].param == key }

  /** What to_wire knows: wire names stand for themselves, first of all; the other parameter names for
      their argument. */
  lemma {:induction false} ToWireIs(specs: seq<Spec>, key: Name)
    requires DistinctParams(specs)
    ensures key in ToWire(specs) <==> IsWire(specs, key) || IsParam(specs, key)
    ensures IsWire(specs, key) ==> key in ToWire(specs) && ToWire(specs)[key] == key
    ensures !IsWire(specs, key) ==>
              forall i :: 0 <= i < |specs| && specs[i].param == key ==>
                key in ToWire(specs) && ToWire(specs)[key] == specs[i].wire
  {
    if specs != [] {
      var n := |specs| - 1;
      ToWireIs(specs[..n], key);
      NamesGrow(specs, key);
    }
  }

  lemma NamesGrow(specs: seq<Spec>, key: Name)
    requires specs != []
    ensures var n := |specs| - 1;
            && (IsWire(specs, key) <==> IsWire(specs[..n], key) || specs[n].wire == key)
            && (IsParam(specs, key) <==> IsParam(specs[..n], key) || specs[n].param == key)
  {
    var n := |specs| - 1;
    var less := specs[..n];
    if IsWire(less, key) { var i :| 0 <= i < |less| && less[i].wire == key; assert specs[i].wire == key; }
    if IsParam(less, key) { var i :| 0 <= i < |less| && less[i].param == key; assert specs[i].param == key; }
  }

  lemma ToWireLeadsToWires(specs: seq<Spec>, key: Name)
    requires DistinctParams(specs) && key in ToWire(specs)
    ensures IsWire(specs, ToWire(specs)[key])
    ensures ToWire(specs)[key] in ToWire(specs) && ToWire(specs)[ToWire(specs)[key]] == ToWire(specs)[key]
  {
    ToWireIs(specs, key);
    if !IsWire(specs, key) {
      var i :| 0 <= i < |specs| && specs[i].param == key;
      assert specs[i].wire == ToWire(specs)[key];
    }
    ToWireIs(specs, ToWire(specs)[key]);
  }

  /** What a key of a call means: the argument of that wire name; else the one with that parameter
      name; else nothing on a closed schema, and itself on an open one. */
  lemma WireExactly(specs: seq<Spec>, closed: bool, key: Name)
    requires DistinctParams(specs)
    ensures IsWire(specs, key) ==> Wire(ToWire(specs), closed, key) == Ok(key)
    ensures !IsWire(specs, key) ==>
              forall i :: 0 <= i < |specs| && specs[i].param == key ==>
                Wire(ToWire(specs), closed, key) == Ok(specs[i].wire)
    ensures !IsWire(specs, key) && !IsParam(specs, key) ==>
              Wire(ToWire(specs), closed, key) == if closed then Err(Unknown(key)) else Ok(key)
  {
    ToWireIs(specs, key);
  }

  /** The defaults are those of the optional arguments that declare one. */
  lemma {:induction false} DefaultsExactly(specs: seq<Spec>, w: Name, v: Json)
    requires DistinctWires(specs)
    ensures w in Defaults(specs) && Defaults(specs)[w] == v <==>
            exists i :: 0 <= i < |specs| && specs[i].wire == w && !specs[i].required && specs[i].default == Some(v)
  {
    if specs != [] {
      var n := |specs| - 1;
      var less := specs[..n];
      DefaultsExactly(less, w, v);
      if w == specs[n].wire { NoWire(less, w); }
      if i :| 0 <= i < n && less[i].wire == w && !less[i].required && less[i].default == Some(v) {
        assert specs[i] == less[i];
      }
      if i :| 0 <= i < n && specs[i].wire == w && !specs[i].required && specs[i].default == Some(v) {
        assert less[i] == specs[i];
      }
    }
  }

  lemma {:induction false} NoWire(specs: seq<Spec>, w: Name)
    requires forall i :: 0 <= i < |specs| ==> specs[i].wire != w
    ensures w !in Defaults(specs)
  {
    if specs != [] { NoWire(specs[..|specs| - 1], w); }
  }

  /** No generated name is another argument's wire name. */
  predicate NoClash(specs: seq<Spec>) {
    forall i, j :: 0 <= i < |specs| && 0 <= j < |specs| && i != j ==> specs[i].param != specs[j].wire
  }

  /** Every parameter name leads to its own argument, exactly when no generated name is another's
      wire name. */
  lemma ParamsLeadHome(specs: seq<Spec>)
    requires DistinctParams(specs) && DistinctWires(specs)
    ensures NoClash(specs) <==>
            forall i :: 0 <= i < |specs| ==>
              specs[i].param in ToWire(specs) && ToWire(specs)[specs[i].param] == specs[i].wire
  {
    forall i: nat | i < |specs|
      ensures specs[i].param in ToWire(specs)
      ensures ToWire(specs)[specs[i].param] == specs[i].wire <==>
              !(exists j :: 0 <= j < |specs| && j != i && specs[j].wire == specs[i].param)
    {
      ToWireIs(specs, specs[i].param);
      assert IsParam(specs, specs[i].param);
    }
  }

  // ------------------------------------------------------------------ collecting

  predicate Accepted(names: map<Name, Name>, closed: bool, args: seq<Item>) {
    && (forall i :: 0 <= i < |args| ==> Wire(names, closed, args[i].key).Ok?)
    && (forall i, j :: 0 <= i < j < |args| ==> Wire(names, closed, args[i].key) != Wire(names, closed, args[j].key))
  }

  /** What is forwarded, when nothing is refused. */
  function Forwarded(names: map<Name, Name>, defaults: map<Name, Json>, closed: bool, args: seq<Item>): seq<Item> {
    if args == [] then []
    else
      var a := args[|args| - 1];
      var less := Forwarded(names, defaults, closed, args[..|args| - 1]);
      match Wire(names, closed, a.key)
      case Err(_) => less
      case Ok(w) => less + if Dropped(defaults, w, a.value) then [] else [Item(w, a.value)]
  }

  /** Some item is forwarded as w, or would be. */
  predicate Reaches(names: map<Name, Name>, closed: bool, args: seq<Item>, w: Name) {
    exists i :: 0 <= i < |args| && Wire(names, closed, args[i].key) == Ok(w)
  }

  lemma ReachesGrow(names: map<Name, Name>, closed: bool, args: seq<Item>, w: Name)
    requires args != []
    ensures Reaches(names, closed, args, w) <==>
            Reaches(names, closed, args[..|args| - 1], w) || Wire(names, closed, args[|args| - 1].key) == Ok(w)
  {
    var less := args[..|args| - 1];
    if Reaches(names, closed, less, w) {
      var i :| 0 <= i < |less| && Wire(names, closed, less[i].key) == Ok(w);
      assert Wire(names, closed, args[i].key) == Ok(w);
    }
  }

  lemma AcceptedGrow(names: map<Name, Name>, closed: bool, args: seq<Item>)
    requires args != []
    ensures var less, w := args[..|args| - 1], Wire(names, closed, args[|args| - 1].key);
            Accepted(names, closed, args) <==>
              Accepted(names, closed, less) && w.Ok? && !Reaches(names, closed, less, w.value)
  {
    var n := |args| - 1;
    var less, w := args[..n], Wire(names, closed, args[n].key);
    if Accepted(names, closed, less) && w.Ok? && !Reaches(names, closed, less, w.value) {
      forall i | 0 <= i < n ensures Wire(names, closed, args[i].key).Ok? && Wire(names, closed, args[i].key) != w {
        assert less[i] == args[i];
      }
    }
    if Accepted(names, closed, args) {
      forall i | 0 <= i < n ensures Wire(names, closed, less[i].key).Ok? && Wire(names, closed, less[i].key) != w {
        assert less[i] == args[i];
      }
    }
  }

  /** The loop succeeds exactly when every key is known, or allowed, and no two mean the same
      argument; it then forwards what is not dropped. */
  lemma {:induction false} CollectIs(names: map<Name, Name>, defaults: map<Name, Json>, closed: bool, args: seq<Item>)
    ensures Collect(names, defaults, closed, args).Ok? <==> Accepted(names, closed, args)
    ensures Collect(names, defaults, closed, args).Ok? ==>
              Collect(names, defaults, closed, args).value.out == Forwarded(names, defaults, closed, args)
    ensures Collect(names, defaults, closed, args).Ok? ==>
              forall w :: w in Collect(names, defaults, closed, args).value.source <==> Reaches(names, closed, args, w)
  {
    if args != [] {
      CollectIs(names, defaults, closed, args[..|args| - 1]);
      AcceptedGrow(names, closed, args);
      forall w ensures Reaches(names, closed, args, w) <==>
                       || Reaches(names, closed, args[..|args| - 1], w)
                       || Wire(names, closed, args[|args| - 1].key) == Ok(w)
      {
        ReachesGrow(names, closed, args, w);
      }
    }
  }

  /** Items that are already what they would become. */
  predicate Settled(names: map<Name, Name>, defaults: map<Name, Json>, closed: bool, items: seq<Item>) {
    && (forall i :: 0 <= i < |items| ==>
          && Wire(names, closed, items[i].key) == Ok(items[i].key)
          && !Dropped(defaults, items[i].key, items[i].value))
    && DistinctKeys(items)
  }

  lemma {:induction false} SettledStay(names: map<Name, Name>, defaults: map<Name, Json>, closed: bool,
                                       items: seq<Item>)
    requires Settled(names, defaults, closed, items)
    ensures Forwarded(names, defaults, closed, items) == items
    ensures Accepted(names, closed, items)
  {
    if items != [] {
      var n := |items| - 1;
      var less, last := items[..n], items[n];
      SettledStay(names, defaults, closed, less);
      ForwardedStep(names, defaults, closed, items);
      assert Wire(names, closed, last.key) == Ok(last.key) && !Dropped(defaults, last.key, last.value);
      assert items == less + [last] && last == Item(last.key, last.value);
    }
  }

  /** Each step of forwarding looks at its own item only. */
  lemma ForwardedStep(names: map<Name, Name>, defaults: map<Name, Json>, closed: bool, args: seq<Item>)
    requires args != []
    ensures var a := args[|args| - 1];
            var less := Forwarded(names, defaults, closed, args[..|args| - 1]);
            var w := Wire(names, closed, a.key);
            Forwarded(names, defaults, closed, args) ==
            if w.Err? || Dropped(defaults, w.value, a.value) then less else less + [Item(w.value, a.value)]
  {
    var less := Forwarded(names, defaults, closed, args[..|args| - 1]);
    assert less + [] == less;
  }

  lemma SettledGrow(names: map<Name, Name>, defaults: map<Name, Json>, closed: bool, items: seq<Item>, x: Item)
    requires Settled(names, defaults, closed, items) && !HasKey(items, x.key)
    requires Wire(names, closed, x.key) == Ok(x.key) && !Dropped(defaults, x.key, x.value)
    ensures Settled(names, defaults, closed, items + [x])
  {
    forall i | 0 <= i < |items| ensures items[i].key != x.key {}
  }

  /** A name an argument is forwarded under stands for itself. */
  lemma WireStands(specs: seq<Spec>, closed: bool, key: Name)
    requires DistinctParams(specs) && Wire(ToWire(specs), closed, key).Ok?
    ensures Wire(ToWire(specs), closed, Wire(ToWire(specs), closed, key).value) == Wire(ToWire(specs), closed, key)
  {
    if key in ToWire(specs) { ToWireLeadsToWires(specs, key); }
  }

  lemma {:induction false} ForwardedSettles(specs: seq<Spec>, closed: bool, args: seq<Item>)
    requires DistinctParams(specs) && Accepted(ToWire(specs), closed, args)
    ensures var names, defaults := ToWire(specs), Defaults(specs);
            var out := Forwarded(names, defaults, closed, args);
            && Settled(names, defaults, closed, out)
            && (forall k :: HasKey(out, k) ==> Reaches(names, closed, args, k))
  {
    if args != [] {
      var names, defaults, n := ToWire(specs), Defaults(specs), |args| - 1;
      var less, a := Forwarded(names, defaults, closed, args[..n]), args[n];
      AcceptedGrow(names, closed, args);
      ForwardedSettles(specs, closed, args[..n]);
      ForwardedStep(names, defaults, closed, args);
      WireStands(specs, closed, a.key);
      var x := Item(Wire(names, closed, a.key).value, a.value);
      if !Dropped(defaults, x.key, x.value) { SettledGrow(names, defaults, closed, less, x); }
      forall k | HasKey(Forwarded(names, defaults, closed, args), k) ensures Reaches(names, closed, args, k) {
        HasKeyAppend(less, x, k);
        ReachesGrow(names, closed, args, k);
      }
    }
  }

  /** Preparing what was prepared changes nothing, order included. */
  lemma PrepareIsIdempotent(specs: seq<Spec>, closed: bool, args: seq<Item>)
    requires DistinctParams(specs) && Prepare(specs, closed, args).Ok?
    ensures Prepare(specs, closed, Prepare(specs, closed, args).value) == Prepare(specs, closed, args)
  {
    var names, defaults := ToWire(specs), Defaults(specs);
    CollectIs(names, defaults, closed, args);
    ForwardedSettles(specs, closed, args);
    var out := Forwarded(names, defaults, closed, args);
    SettledStay(names, defaults, closed, out);
    CollectIs(names, defaults, closed, out);
  }

  // ------------------------------------------------------------------ the meaning of a call

  /** The value given for an argument under any spelling; a null is none. */
  function Given(names: map<Name, Name>, closed: bool, args: seq<Item>, w: Name): (r: Option<Json>)
    ensures r.Some? ==> !r.value.Null?
  {
    if args == [] then None
    else
      var a := args[|args| - 1];
      if Wire(names, closed, a.key) == Ok(w) then (if a.value.Null? then None else Some(a.value))
      else Given(names, closed, args[..|args| - 1], w)
  }

  /** What a backend acts on: what was given, or the default it fills in. */
  function Meant(specs: seq<Spec>, closed: bool, args: seq<Item>, w: Name): Option<Json> {
    var given := Given(ToWire(specs), closed, args, w);
    if given.None? && w in Defaults(specs) then Some(Defaults(specs)[w]) else given
  }

  lemma {:induction false} GivenAfter(specs: seq<Spec>, closed: bool, args: seq<Item>, w: Name)
    requires DistinctParams(specs) && Accepted(ToWire(specs), closed, args)
    ensures var names, defaults := ToWire(specs), Defaults(specs);
            var before := Given(names, closed, args, w);
            var got := Given(names, closed, Forwarded(names, defaults, closed, args), w);
            got == if before.Some? && Dropped(defaults, w, before.value) then None else before
  {
    if args != [] {
      var n := |args| - 1;
      var names, defaults, a := ToWire(specs), Defaults(specs), args[n];
      GivenAfter(specs, closed, args[..n], w);
      ForwardedSettles(specs, closed, args);
      NotGivenTwice(names, closed, args, w);
      var less := Forwarded(names, defaults, closed, args[..n]);
      var v := Wire(names, closed, a.key).value;
      if !Dropped(defaults, v, a.value) {
        var out := Forwarded(names, defaults, closed, args);
        assert out == less + [Item(v, a.value)];
        assert out[..|less|] == less;
        assert out[|out| - 1] == Item(v, a.value) && out[..|out| - 1] == less;
        assert Wire(names, closed, v) == Ok(v) by {
          assert Wire(names, closed, out[|less|].key) == Ok(out[|less|].key);
        }
        assert Given(names, closed, out, w) == if v == w then Some(a.value) else Given(names, closed, less, w);
        assert Given(names, closed, args, w) == if v == w then Some(a.value) else Given(names, closed, args[..n], w);
      } else {
        assert Forwarded(names, defaults, closed, args) == less;
      }
    }
  }

  lemma NotGivenTwice(names: map<Name, Name>, closed: bool, args: seq<Item>, w: Name)
    requires args != [] && Accepted(names, closed, args)
    ensures Wire(names, closed, args[|args| - 1].key) == Ok(w) ==> Given(names, closed, args[..|args| - 1], w) == None
  {
    if Wire(names, closed, args[|args| - 1].key) == Ok(w) {
      NeverGiven(names, closed, args[..|args| - 1], w);
    }
  }

  lemma {:induction false} NeverGiven(names: map<Name, Name>, closed: bool, args: seq<Item>, w: Name)
    requires forall i :: 0 <= i < |args| ==> Wire(names, closed, args[i].key) != Ok(w)
    ensures Given(names, closed, args, w) == None
  {
    if args != [] { NeverGiven(names, closed, args[..|args| - 1], w); }
  }

  /** The caller gave, for a defaulted argument, what Python calls equal to the default and JSON
      does not. */
  predicate Confused(specs: seq<Spec>, closed: bool, args: seq<Item>, w: Name) {
    var given := Given(ToWire(specs), closed, args, w);
    && given.Some? && w in Defaults(specs)
    && PyEq(given.value, Defaults(specs)[w]) && given.value != Defaults(specs)[w]
  }

  /** A backend that fills in its defaults acts on the same values for what it receives as for what
      the caller wrote, except exactly where the caller's value was confused with the default: there
      it acts on the default. */
  lemma PrepareKeepsMeaning(specs: seq<Spec>, closed: bool, args: seq<Item>, w: Name)
    requires DistinctParams(specs) && Prepare(specs, closed, args).Ok?
    ensures var out := Prepare(specs, closed, args).value;
            var meant, got := Meant(specs, closed, args, w), Meant(specs, closed, out, w);
            && (got != meant <==> Confused(specs, closed, args, w))
            && (got != meant ==> got == Some(Defaults(specs)[w]))
  {
    var names, defaults := ToWire(specs), Defaults(specs);
    CollectIs(names, defaults, closed, args);
    GivenAfter(specs, closed, args, w);
  }

  /** Python's equal is not JSON's same: a true given where the default is 1 reaches nobody. */
  lemma TrueIsTakenForOne()
    ensures var specs, args := [Spec("n", "n", false, Some(Int(1)))], [Item("n", Bool(true))];
            && Prepare(specs, true, args) == Ok([])
            && Meant(specs, true, args, "n") == Some(Bool(true))
            && Meant(specs, true, [], "n") == Some(Int(1))
  {
    var specs, args := [Spec("n", "n", false, Some(Int(1)))], [Item("n", Bool(true))];
    assert specs[..0] == [] && args[..0] == [];
    assert Defaults([]) == map[] && ToWire([]) == map[];
    assert Defaults(specs) == map["n" := Int(1)];
    assert ToWire(specs) == map["n" := "n"];
    assert PyEq(Bool(true), Int(1));
    Single(ToWire(specs), Defaults(specs), args[0]);
    assert FirstMissing(specs[1..], []).None?;
    assert Given(ToWire(specs), true, args, "n") == Some(Bool(true));
  }

  // ------------------------------------------------------------------ when it is refused

  lemma {:induction false} FirstMissingIs(specs: seq<Spec>, out: seq<Item>)
    ensures FirstMissing(specs, out).None? <==>
            forall i :: 0 <= i < |specs| && specs[i].required ==> HasKey(out, specs[i].wire)
    ensures FirstMissing(specs, out).Some? ==>
              exists i :: 0 <= i < |specs| && specs[i].required && specs[i].wire == FirstMissing(specs, out).value
  {
    if specs != [] {
      FirstMissingIs(specs[1..], out);
      assert forall i :: 1 <= i < |specs| ==> specs[i] == specs[1..][i - 1];
    }
  }

  lemma {:induction false} NotDefaulted(specs: seq<Spec>, w: Name)
    ensures w in Defaults(specs) ==> exists i :: 0 <= i < |specs| && specs[i].wire == w && !specs[i].required
  {
    if specs != [] {
      NotDefaulted(specs[..|specs| - 1], w);
    }
  }

  lemma {:induction false} KeptMeansGiven(names: map<Name, Name>, defaults: map<Name, Json>, closed: bool,
                                          args: seq<Item>, w: Name)
    requires Accepted(names, closed, args) && w !in defaults
    ensures HasKey(Forwarded(names, defaults, closed, args), w) <==> Given(names, closed, args, w).Some?
  {
    if args != [] {
      var n := |args| - 1;
      KeptMeansGiven(names, defaults, closed, args[..n], w);
      NotGivenTwice(names, closed, args, w);
      var less, v := Forwarded(names, defaults, closed, args[..n]), Wire(names, closed, args[n].key).value;
      HasKeyAppend(less, Item(v, args[n].value), w);
      assert Forwarded(names, defaults, closed, args) ==
             if Dropped(defaults, v, args[n].value) then less else less + [Item(v, args[n].value)];
    }
  }

  lemma HasKeyAppend(items: seq<Item>, x: Item, w: Name)
    ensures HasKey(items + [x], w) <==> HasKey(items, w) || x.key == w
  {
    if HasKey(items, w) {
      var i :| 0 <= i < |items| && items[i].key == w;
      assert (items + [x])[i].key == w;
    }
    if x.key == w { assert (items + [x])[|items|].key == w; }
  }

  /** A call is accepted exactly when every key is declared, or the schema is open; no argument is
      given under two spellings; and every required argument is given, and is not null. */
  lemma PreparedExactly(specs: seq<Spec>, closed: bool, args: seq<Item>)
    requires DistinctParams(specs) && DistinctWires(specs)
    ensures Prepare(specs, closed, args).Ok? <==>
            && Accepted(ToWire(specs), closed, args)
            && forall i :: 0 <= i < |specs| && specs[i].required ==>
                 Given(ToWire(specs), closed, args, specs[i].wire).Some?
  {
    var names, defaults := ToWire(specs), Defaults(specs);
    CollectIs(names, defaults, closed, args);
    if Accepted(names, closed, args) {
      FirstMissingIs(specs, Forwarded(names, defaults, closed, args));
      forall i | 0 <= i < |specs| && specs[i].required
        ensures HasKey(Forwarded(names, defaults, closed, args), specs[i].wire) <==>
            Given(names, closed, args, specs[i].wire).Some?
      {
        NotDefaulted(specs, specs[i].wire);
        KeptMeansGiven(names, defaults, closed, args, specs[i].wire);
      }
    }
  }

  // ------------------------------------------------------------------ either spelling

  /** The same items, some wire names written as their parameter names. */
  predicate Respelled(specs: seq<Spec>, a: seq<Item>, b: seq<Item>) {
    |a| == |b| && forall i :: 0 <= i < |a| ==>
      && a[i].value == b[i].value
      && (|| a[i].key == b[i].key
          || exists j :: 0 <= j < |specs| && a[i].key == specs[j].wire && b[i].key == specs[j].param)
  }

  predicate SameWires(names: map<Name, Name>, closed: bool, a: seq<Item>, b: seq<Item>) {
    |a| == |b| && forall i :: 0 <= i < |a| ==>
      a[i].value == b[i].value && Wire(names, closed, a[i].key) == Wire(names, closed, b[i].key)
  }

  lemma {:induction false} SameWiresSame(names: map<Name, Name>, defaults: map<Name, Json>, closed: bool,
                                         a: seq<Item>, b: seq<Item>)
    requires SameWires(names, closed, a, b)
    ensures Forwarded(names, defaults, closed, a) == Forwarded(names, defaults, closed, b)
    ensures Accepted(names, closed, a) <==> Accepted(names, closed, b)
  {
    SameWiresAccepted(names, closed, a, b);
    if a != [] {
      var n := |a| - 1;
      assert SameWires(names, closed, a[..n], b[..n]);
      SameWiresSame(names, defaults, closed, a[..n], b[..n]);
      ForwardedStep(names, defaults, closed, a);
      ForwardedStep(names, defaults, closed, b);
      assert a[n].value == b[n].value && Wire(names, closed, a[n].key) == Wire(names, closed, b[n].key);
    }
  }

  lemma SameWiresAccepted(names: map<Name, Name>, closed: bool, a: seq<Item>, b: seq<Item>)
    requires SameWires(names, closed, a, b)
    ensures Accepted(names, closed, a) <==> Accepted(names, closed, b)
  {}

  /** Both spellings of a call are the same call, when no generated name is another's wire name. */
  lemma SpellingDoesNotMatter(specs: seq<Spec>, closed: bool, a: seq<Item>, b: seq<Item>)
    requires DistinctParams(specs) && DistinctWires(specs) && NoClash(specs) && Respelled(specs, a, b)
    ensures Prepare(specs, closed, a).Ok? <==> Prepare(specs, closed, b).Ok?
    ensures Prepare(specs, closed, a).Ok? ==> Prepare(specs, closed, a) == Prepare(specs, closed, b)
  {
    var names, defaults := ToWire(specs), Defaults(specs);
    forall i | 0 <= i < |a| ensures Wire(names, closed, a[i].key) == Wire(names, closed, b[i].key) {
      if a[i].key != b[i].key {
        var j :| 0 <= j < |specs| && a[i].key == specs[j].wire && b[i].key == specs[j].param;
        ParamsLeadHome(specs);
        ToWireIs(specs, specs[j].wire);
      }
    }
    SameWiresSame(names, defaults, closed, a, b);
    CollectIs(names, defaults, closed, a);
    CollectIs(names, defaults, closed, b);
  }

  function Plain(w: Name): Name { if w == "--x" then "x" else w }

  const CLASH := [Spec("--x", "x", false, None), Spec("x", "x_", false, None)]

  lemma ClashNames()
    ensures Normalize([Raw("--x", false, None), Raw("x", false, None)], Plain) == CLASH
  {
    var raw := [Raw("--x", false, None), Raw("x", false, None)];
    assert raw[..1] == [Raw("--x", false, None)] && raw[..1][..0] == [];
    var one := Normalize(raw[..1], Plain);
    assert Normalize([], Plain) == [];
    assert Params([]) == {};
    assert one == [Spec("--x", "x", false, None)];
    assert Params(one) == {"x"};
    assert Rename("x", {"x"}) == "x_" by { assert Rename("x_", {"x"}) == "x_"; }
  }

  lemma ClashTables()
    ensures ToWire(CLASH) == map["--x" := "--x", "x" := "x", "x_" := "x"] && Defaults(CLASH) == map[]
  {
    var one := CLASH[..1];
    assert one == [Spec("--x", "x", false, None)] && one[..0] == [];
    assert ToWire([]) == map[] && Defaults([]) == map[];
    assert ToWire(one) == map["--x" := "--x", "x" := "--x"] && Defaults(one) == map[];
  }

  lemma NothingRequired(out: seq<Item>)
    ensures FirstMissing(CLASH, out).None?
  {
    FirstMissingIs(CLASH, out);
  }

  /** When one is, the published parameter reaches the other argument: `--x` is published as `x`,
      which is what `x` itself is called. */
  lemma ClashMisroutes()
    ensures var specs := Normalize([Raw("--x", false, None), Raw("x", false, None)], Plain);
            && specs[0].wire == "--x" && specs[0].param == "x"
            && Prepare(specs, true, [Item("x", Int(1))]) == Ok([Item("x", Int(1))])
            && Prepare(specs, true, [Item("--x", Int(1))]) == Ok([Item("--x", Int(1))])
  {
    ClashNames();
    ClashTables();
    Single(ToWire(CLASH), map[], Item("x", Int(1)));
    Single(ToWire(CLASH), map[], Item("--x", Int(1)));
    NothingRequired([Item("x", Int(1))]);
    NothingRequired([Item("--x", Int(1))]);
  }

  /** A call of one argument. */
  lemma Single(names: map<Name, Name>, defaults: map<Name, Json>, a: Item)
    requires a.key in names
    ensures var w := names[a.key];
            Collect(names, defaults, true, [a]) ==
            Ok(Progress(if Dropped(defaults, w, a.value) then [] else [Item(w, a.value)], map[w := a.key]))
  {
    var args := [a];
    var less := args[..|args| - 1];
    assert less == [];
    assert Collect(names, defaults, true, less) == Ok(Progress([], map[]));
    var p: Progress := Collect(names, defaults, true, less).value;
    assert p.source == map[];
    assert Wire(names, true, args[|args| - 1].key) == Ok(names[a.key]);
    var w := names[a.key];
    var kept := if Dropped(defaults, w, a.value) then [] else [Item(w, a.value)];
    assert p.out + kept == kept && p.source[w := a.key] == map[w := a.key];
  }

  // ------------------------------------------------------------------ why it is refused

  predicate UnknownAt(names: map<Name, Name>, closed: bool, args: seq<Item>, key: Name, i: nat) {
    i < |args| && args[i].key == key && closed && key !in names && Accepted(names, closed, args[..i])
  }

  predicate TwiceAt(names: map<Name, Name>, closed: bool, args: seq<Item>, w: Name, first: Name, second: Name,
                    i: nat, j: nat)
  {
    && i < j < |args| && args[i].key == first && args[j].key == second
    && Wire(names, closed, first) == Ok(w) && Wire(names, closed, second) == Ok(w)
    && Accepted(names, closed, args[..j])
  }

  /** The refusal is about the first key that cannot be taken. */
  ghost predicate Blames(names: map<Name, Name>, closed: bool, args: seq<Item>, e: Error) {
    match e
    case Unknown(key) => exists i: nat :: UnknownAt(names, closed, args, key, i)
    case Twice(w, first, second) => exists i: nat, j: nat :: TwiceAt(names, closed, args, w, first, second, i, j)
    case Missing(_) => false
  }

  lemma BlamesGrow(names: map<Name, Name>, closed: bool, args: seq<Item>, e: Error)
    requires args != [] && Blames(names, closed, args[..|args| - 1], e)
    ensures Blames(names, closed, args, e)
  {
    var less := args[..|args| - 1];
    match e
    case Unknown(key) =>
      var i: nat :| UnknownAt(names, closed, less, key, i);
      assert less[..i] == args[..i];
      assert UnknownAt(names, closed, args, key, i);
    case Twice(w, a, b) =>
      var i: nat, j: nat :| TwiceAt(names, closed, less, w, a, b, i, j);
      assert less[..j] == args[..j];
      assert TwiceAt(names, closed, args, w, a, b, i, j);
  }

  /** `source` remembers under which key an argument came. */
  lemma {:induction false} SourceOf(names: map<Name, Name>, defaults: map<Name, Json>, closed: bool,
                                    args: seq<Item>, w: Name) returns (i: nat)
    requires Collect(names, defaults, closed, args).Ok? && w in Collect(names, defaults, closed, args).value.source
    ensures i < |args| && args[i].key == Collect(names, defaults, closed, args).value.source[w]
    ensures Wire(names, closed, args[i].key) == Ok(w)
  {
    var n := |args| - 1;
    i := n;
    if Wire(names, closed, args[n].key) != Ok(w) {
      i := SourceOf(names, defaults, closed, args[..n], w);
    }
  }

  lemma {:induction false} CollectRefuses(names: map<Name, Name>, defaults: map<Name, Json>, closed: bool,
                                          args: seq<Item>)
    requires Collect(names, defaults, closed, args).Err?
    ensures Blames(names, closed, args, Collect(names, defaults, closed, args).error)
  {
    var n := |args| - 1;
    var less, last := args[..n], args[n].key;
    CollectIs(names, defaults, closed, less);
    if Collect(names, defaults, closed, less).Err? {
      CollectRefuses(names, defaults, closed, less);
      BlamesGrow(names, closed, args, Collect(names, defaults, closed, args).error);
    } else if Wire(names, closed, last).Err? {
      assert UnknownAt(names, closed, args, last, n);
    } else {
      var w := Wire(names, closed, last).value;
      var i := SourceOf(names, defaults, closed, less, w);
      assert TwiceAt(names, closed, args, w, args[i].key, last, i, n);
    }
  }

  /** A required argument that is not given, or null, the first of them. */
  predicate MissingAt(specs: seq<Spec>, closed: bool, args: seq<Item>, i: nat) {
    && i < |specs| && specs[i].required && Given(ToWire(specs), closed, args, specs[i].wire).None?
    && forall j :: 0 <= j < i && specs[j].required ==> Given(ToWire(specs), closed, args, specs[j].wire).Some?
  }

  lemma {:induction false} FirstMissingAt(specs: seq<Spec>, out: seq<Item>) returns (i: nat)
    requires FirstMissing(specs, out).Some?
    ensures i < |specs| && specs[i].required && specs[i].wire == FirstMissing(specs, out).value
    ensures !HasKey(out, specs[i].wire)
    ensures forall j :: 0 <= j < i && specs[j].required ==> HasKey(out, specs[j].wire)
  {
    i := 0;
    if !(specs[0].required && !HasKey(out, specs[0].wire)) {
      var k := FirstMissingAt(specs[1..], out);
      i := k + 1;
      assert forall j :: 1 <= j < |specs| ==> specs[j] == specs[1..][j - 1];
    }
  }

  /** A refusal names what is wrong with the call: its first key that is unknown on a closed schema,
      or is the second spelling of an argument, with the first one; and if there is none, the first
      required argument that is missing. */
  lemma RefusedForAReason(specs: seq<Spec>, closed: bool, args: seq<Item>)
    requires DistinctParams(specs) && DistinctWires(specs) && Prepare(specs, closed, args).Err?
    ensures var e := Prepare(specs, closed, args).error;
      if e.Missing? then
        && Accepted(ToWire(specs), closed, args)
        && exists i: nat :: MissingAt(specs, closed, args, i) && specs[i].wire == e.wire
      else Blames(ToWire(specs), closed, args, e)
  {
    var names, defaults := ToWire(specs), Defaults(specs);
    CollectIs(names, defaults, closed, args);
    if Collect(names, defaults, closed, args).Err? {
      CollectRefuses(names, defaults, closed, args);
    } else {
      var i := FirstMissingAt(specs, Forwarded(names, defaults, closed, args));
      forall j | 0 <= j < |specs| && specs[j].required
        ensures HasKey(Forwarded(names, defaults, closed, args), specs[j].wire) <==>
                Given(names, closed, args, specs[j].wire).Some?
      {
        NotDefaulted(specs, specs[j].wire);
        KeptMeansGiven(names, defaults, closed, args, specs[j].wire);
      }
      assert MissingAt(specs, closed, args, i);
    }
  }
}
