/** PHP values as the library sees them: what `json_decode` produces, what
    parameter arrays hold, and the PHP rules (truthiness, `isset`, string
    conversion, `array_merge`) that the library's branches depend on. */
module Php {

  datatype Option<+T> = None | Some(value: T)

  datatype Result<+T, +E> = Ok(value: T) | Err(error: E)

  /** A key of a PHP array: an integer or a string. */
  datatype Key = IntKey(i: int) | StrKey(s: string)

  /** A PHP value. `Arr` is a PHP array (an ordered map; a JSON list decodes
      to one with the keys 0, 1, ...); `Obj` is the stdClass object that
      `json_decode` makes of a JSON object. Floats are not modelled. */
  datatype Value =
    | Null
    | Bool(b: bool)
    | Num(n: int)
    | Str(s: string)
    | Arr(entries: seq<(Key, Value)>)
    | Obj(props: seq<(string, Value)>)

  /** The values `env()` and `config()` can yield. */
  type Scalar = v: Value | v.Null? || v.Bool? || v.Num? || v.Str? witness Null

  /** PHP's conversion to bool: null, false, 0, "", "0" and the empty array
      are false; every object is true. */
  predicate Truthy(v: Value)
  {
    match v
    case Null => false
    case Bool(b) => b
    case Num(n) => n != 0
    case Str(s) => s != "" && s != "0"
    case Arr(e) => |e| > 0
    case Obj(_) => true
  }

  /** `isset($x)`: the value is present and not null. */
  predicate Isset(v: Value)
  {
    !v.Null?
  }

  predicate KeyTruthy(k: Key)
  {
    match k
    case IntKey(i) => i != 0
    case StrKey(s) => s != "" && s != "0"
  }

  function DigitChar(d: nat): char
    requires d < 10
  {
    "0123456789"[d]
  }

  /** The decimal digits of `n`, as PHP prints an integer. */
  function NatToString(n: nat): (s: string)
    ensures |s| > 0 && s[0] != '-'
    ensures n > 0 ==> s[0] != '0'
  {
    if n < 10 then [DigitChar(n)] else NatToString(n / 10) + [DigitChar(n % 10)]
  }

  function IntToString(n: int): (s: string)
    ensures |s| > 0
    ensures (s[0] == '-') <==> n < 0
  {
    if n < 0 then "-" + NatToString(-n) else NatToString(n)
  }

  function KeyString(k: Key): string
  {
    match k
    case IntKey(i) => IntToString(i)
    case StrKey(s) => s
  }

  /** A value converted to string by `.` concatenation: an array becomes
      "Array" (with a warning); an stdClass object cannot be converted and
      PHP raises an Error, which is `None` here. */
  function StringOf(v: Value): (r: Option<string>)
    ensures r.None? <==> v.Obj?
    ensures v.Str? ==> r == Some(v.s)
  {
    match v
    case Null => Some("")
    case Bool(b) => Some(if b then "1" else "")
    case Num(n) => Some(IntToString(n))
    case Str(s) => Some(s)
    case Arr(_) => Some("Array")
    case Obj(_) => None
  }

  function ScalarString(v: Scalar): (s: string)
    ensures StringOf(v) == Some(s)
  {
    match v
    case Null => ""
    case Bool(b) => if b then "1" else ""
    case Num(n) => IntToString(n)
    case Str(s) => s
  }

  /** The message PHP raises when an stdClass is converted to string. */
  const ObjectToStringError := "Object of class stdClass could not be converted to string"

  /** `$entries[$k]`: the value stored under `k`, or null when there is none. */
  function Lookup(entries: seq<(Key, Value)>, k: Key): (r: Value)
    ensures r != Null ==> exists i :: 0 <= i < |entries| && entries[i] == (k, r)
  {
    if entries == [] then Null
    else if entries[0].0 == k then entries[0].1
    else Lookup(entries[1..], k)
  }

  /** `$entries['name']` on a PHP array given by the caller. */
  function Field(entries: seq<(Key, Value)>, name: string): Value
  {
    Lookup(entries, StrKey(name))
  }

  /** `$v[$k]` on an array; null for anything else. */
  function Index(v: Value, k: Key): Value
  {
    if v.Arr? then Lookup(v.entries, k) else Null
  }

  function PropLookup(props: seq<(string, Value)>, name: string): Value
  {
    if props == [] then Null
    else if props[0].0 == name then props[0].1
    else PropLookup(props[1..], name)
  }

  /** `$v->name ?? null`: the property of an object, null when it is
      missing or when `v` is not an object. */
  function Prop(v: Value, name: string): Value
  {
    if v.Obj? then PropLookup(v.props, name) else Null
  }

  /** `Prop` for each of `names`, in order. */
  function ReadAll(names: seq<string>, v: Value): (r: seq<Value>)
    ensures |r| == |names|
  {
    if names == [] then [] else [Prop(v, names[0])] + ReadAll(names[1..], v)
  }

  lemma {:induction false} ReadAllAt(names: seq<string>, v: Value, i: nat)
    requires i < |names|
    ensures ReadAll(names, v)[i] == Prop(v, names[i])
  {
    if i > 0 {
      ReadAllAt(names[1..], v, i - 1);
    }
  }

  lemma {:induction false} ReadAllConcat(a: seq<string>, b: seq<string>, v: Value)
    ensures ReadAll(a + b, v) == ReadAll(a, v) + ReadAll(b, v)
  {
    if a == [] {
      assert a + b == b;
    } else {
      assert (a + b)[1..] == a[1..] + b;
      ReadAllConcat(a[1..], b, v);
    }
  }

  /** `ReadAll` of five names, spelled out. */
  lemma ReadAllFive(a: string, b: string, c: string, d: string, e: string, v: Value)
    ensures ReadAll([a, b, c, d, e], v) == [Prop(v, a), Prop(v, b), Prop(v, c), Prop(v, d), Prop(v, e)]
  {
    var ns := [a, b, c, d, e];
    forall i | 0 <= i < 5 ensures ReadAll(ns, v)[i] == Prop(v, ns[i]) {
      ReadAllAt(ns, v, i);
    }
  }

  /** `ReadAll` of eight names, spelled out. */
  lemma ReadAllEight(a: string, b: string, c: string, d: string, e: string, f: string, g: string, h: string, v: Value)
    ensures ReadAll([a, b, c, d, e, f, g, h], v) == [Prop(v, a), Prop(v, b), Prop(v, c), Prop(v, d), Prop(v, e), Prop(v, f), Prop(v, g), Prop(v, h)]
  {
    var ns := [a, b, c, d, e, f, g, h];
    forall i | 0 <= i < 8 ensures ReadAll(ns, v)[i] == Prop(v, ns[i]) {
      ReadAllAt(ns, v, i);
    }
  }

  /** `ReadAll` of nine names, spelled out. */
  lemma ReadAllNine(a: string, b: string, c: string, d: string, e: string, f: string, g: string, h: string, i: string, v: Value)
    ensures ReadAll([a, b, c, d, e, f, g, h, i], v) == [Prop(v, a), Prop(v, b), Prop(v, c), Prop(v, d), Prop(v, e), Prop(v, f), Prop(v, g), Prop(v, h), Prop(v, i)]
  {
    var ns := [a, b, c, d, e, f, g, h, i];
    forall i | 0 <= i < 9 ensures ReadAll(ns, v)[i] == Prop(v, ns[i]) {
      ReadAllAt(ns, v, i);
    }
  }

  /** `ReadAll` of ten names, spelled out. */
  lemma ReadAllTen(a: string, b: string, c: string, d: string, e: string, f: string, g: string, h: string, i: string, j: string, v: Value)
    ensures ReadAll([a, b, c, d, e, f, g, h, i, j], v) == [Prop(v, a), Prop(v, b), Prop(v, c), Prop(v, d), Prop(v, e), Prop(v, f), Prop(v, g), Prop(v, h), Prop(v, i), Prop(v, j)]
  {
    var ns := [a, b, c, d, e, f, g, h, i, j];
    forall i | 0 <= i < 10 ensures ReadAll(ns, v)[i] == Prop(v, ns[i]) {
      ReadAllAt(ns, v, i);
    }
  }

  /** An object with the properties `names` holding `vals`, as
      `json_decode(json_encode([...]))` makes of an associative array. */
  function ObjectOf(names: seq<string>, vals: seq<Value>): (r: Value)
    requires |names| == |vals|
    ensures r.Obj? && |r.props| == |names|
    ensures forall i :: 0 <= i < |names| ==> r.props[i] == (names[i], vals[i])
  {
    Obj(seq(|names|, i requires 0 <= i < |names| => (names[i], vals[i])))
  }

  /** `getJson()` of a resource constructed from `v`: its fields `names`
      read from `v` and written back into an object. */
  function Snapshot(names: seq<string>, v: Value): (r: Value)
    ensures r.Obj? && |r.props| == |names|
  {
    ObjectOf(names, ReadAll(names, v))
  }

  predicate Distinct(names: seq<string>)
  {
    forall i, j :: 0 <= i < j < |names| ==> names[i] != names[j]
  }

  lemma {:induction false} PropLookupAt(props: seq<(string, Value)>, i: nat)
    requires i < |props|
    requires forall j :: 0 <= j < i ==> props[j].0 != props[i].0
    ensures PropLookup(props, props[i].0) == props[i].1
  {
    if i > 0 {
      PropLookupAt(props[1..], i - 1);
    }
  }

  /** Reading back every property of `ObjectOf(names, vals)` gives `vals`:
      the round trip between a resource's `getJson` and its constructor. */
  lemma ReadAllObjectOf(names: seq<string>, vals: seq<Value>)
    requires |names| == |vals| && Distinct(names)
    ensures ReadAll(names, ObjectOf(names, vals)) == vals
  {
    var o := ObjectOf(names, vals);
    forall i | 0 <= i < |names|
      ensures ReadAll(names, o)[i] == vals[i]
    {
      ReadAllAt(names, o, i);
      PropLookupAt(o.props, i);
    }
  }

  /** What `foreach ($v as $key => $value)` visits: an array's entries, an
      object's properties; nothing for any other value. */
  function Entries(body: Value): (es: seq<(Key, Value)>)
    ensures body.Arr? ==> es == body.entries
    ensures body.Obj? ==> (|es| == |body.props| &&
      forall i :: 0 <= i < |es| ==> es[i] == (StrKey(body.props[i].0), body.props[i].1))
    ensures !body.Arr? && !body.Obj? ==> es == []
  {
    match body
    case Arr(e) => e
    case Obj(ps) => seq(|ps|, i requires 0 <= i < |ps| => (StrKey(ps[i].0), ps[i].1))
    case _ => []
  }

  /** A PHP list: the values under the keys 0, 1, ... */
  function ListOf(vs: seq<Value>): (r: Value)
    ensures r.Arr? && |r.entries| == |vs|
    ensures forall i :: 0 <= i < |vs| ==> r.entries[i] == (IntKey(i), vs[i])
  {
    Arr(seq(|vs|, i requires 0 <= i < |vs| => (IntKey(i), vs[i])))
  }

  /** The first components of a sequence of pairs: the keys of an array's
      entries, or the names of parameter candidates. */
  function KeysOf<K, V>(entries: seq<(K, V)>): (ks: seq<K>)
    ensures |ks| == |entries|
    ensures forall i :: 0 <= i < |entries| ==> ks[i] == entries[i].0
  {
    seq(|entries|, i requires 0 <= i < |entries| => entries[i].0)
  }

  /** `array_merge($entries, [$key => $v])` for a non-numeric string key:
      an existing entry under `key` is overwritten where it stands,
      otherwise the entry is appended. */
  function Merge(entries: seq<(Key, Value)>, key: string, v: Value): (r: seq<(Key, Value)>)
    ensures StrKey(key) !in KeysOf(entries) ==> r == entries + [(StrKey(key), v)]
    ensures StrKey(key) in KeysOf(entries) ==> KeysOf(r) == KeysOf(entries)
  {
    if entries == [] then [(StrKey(key), v)]
    else if entries[0].0 == StrKey(key) then [(StrKey(key), v)] + entries[1..]
    else [entries[0]] + Merge(entries[1..], key, v)
  }

  /** Which test guards an optional parameter: `if ($x)` or `isset($x)`. */
  datatype Presence = ByTruthiness | ByIsset

  predicate Present(p: Presence, v: Value)
  {
    match p
    case ByTruthiness => Truthy(v)
    case ByIsset => Isset(v)
  }

  /** The library's parameter building, step by step: for each candidate in
      order, `if (test($v)) { $params = array_merge($params, [$k => $v]); }`. */
  function Assemble(p: Presence, params: seq<(Key, Value)>, cands: seq<(string, Value)>): seq<(Key, Value)>
    decreases |cands|
  {
    if cands == [] then params
    else
      var next := if Present(p, cands[0].1) then Merge(params, cands[0].0, cands[0].1) else params;
      Assemble(p, next, cands[1..])
  }

  /** The candidates that pass the test, in their order: what `Assemble`
      should amount to. */
  function Selected(p: Presence, cands: seq<(string, Value)>): seq<(Key, Value)>
  {
    if cands == [] then []
    else Picked(p, cands[0]) + Selected(p, cands[1..])
  }

  lemma {:induction false} SelectedKeys(p: Presence, cands: seq<(string, Value)>, k: Key)
    requires k.StrKey? && k.s !in KeysOf(cands)
    ensures k !in KeysOf(Selected(p, cands))
  {
    if cands != [] {
      assert k.s !in KeysOf(cands[1..]) by {
        forall i | 0 <= i < |cands[1..]| ensures KeysOf(cands[1..])[i] == KeysOf(cands)[i + 1] { }
      }
      SelectedKeys(p, cands[1..], k);
      var head := if Present(p, cands[0].1) then [(StrKey(cands[0].0), cands[0].1)] else [];
      assert Selected(p, cands) == head + Selected(p, cands[1..]);
      assert k != StrKey(cands[0].0) by { assert KeysOf(cands)[0] == cands[0].0; }
      var ks := KeysOf(head + Selected(p, cands[1..]));
      forall i | 0 <= i < |ks| ensures ks[i] != k {
        if i >= |head| {
          assert ks[i] == KeysOf(Selected(p, cands[1..]))[i - |head|];
        }
      }
    }
  }

  /** A key that is neither in `params` nor the appended entry's key is not
      in the longer sequence either. */
  lemma KeyNotAppended(params: seq<(Key, Value)>, e: (Key, Value), k: Key)
    requires k !in KeysOf(params) && k != e.0
    ensures k !in KeysOf(params + [e])
  {
    KeysOfConcat(params, [e]);
  }

  /** The entry a candidate contributes when it passes the test. */
  function Picked(p: Presence, c: (string, Value)): (r: seq<(Key, Value)>)
    ensures r == if Present(p, c.1) then [(StrKey(c.0), c.1)] else []
  {
    if Present(p, c.1) then [(StrKey(c.0), c.1)] else []
  }

  /** One guarded merge of a name not yet present appends its entry. */
  lemma AssembleStep(p: Presence, params: seq<(Key, Value)>, cands: seq<(string, Value)>)
    requires cands != [] && StrKey(cands[0].0) !in KeysOf(params)
    ensures Assemble(p, params, cands) == Assemble(p, params + Picked(p, cands[0]), cands[1..])
  {
    if !Present(p, cands[0].1) {
      assert params + Picked(p, cands[0]) == params;
    }
  }

  /** The later candidates' names stay absent after the first is appended. */
  lemma RestAbsent(p: Presence, params: seq<(Key, Value)>, cands: seq<(string, Value)>)
    requires cands != [] && Distinct(KeysOf(cands))
    requires forall i :: 0 <= i < |cands| ==> StrKey(cands[i].0) !in KeysOf(params)
    ensures forall i :: 0 <= i < |cands| - 1 ==> StrKey(cands[1..][i].0) !in KeysOf(params + Picked(p, cands[0]))
  {
    var c := cands[0];
    forall i | 0 <= i < |cands| - 1
      ensures StrKey(cands[1..][i].0) !in KeysOf(params + Picked(p, c))
    {
      assert cands[1..][i] == cands[i + 1];
      assert KeysOf(cands)[0] != KeysOf(cands)[i + 1];
      if Present(p, c.1) {
        KeyNotAppended(params, (StrKey(c.0), c.1), StrKey(cands[i + 1].0));
      } else {
        assert params + Picked(p, c) == params;
      }
    }
  }

  /** When no two candidates share a name and none is already in `params`,
      the guarded merges only ever append. */
  lemma {:induction false} AssembleAppends(p: Presence, params: seq<(Key, Value)>, cands: seq<(string, Value)>)
    requires Distinct(KeysOf(cands))
    requires forall i :: 0 <= i < |cands| ==> StrKey(cands[i].0) !in KeysOf(params)
    ensures Assemble(p, params, cands) == params + Selected(p, cands)
    decreases |cands|
  {
    if cands != [] {
      AssembleStep(p, params, cands);
      RestAbsent(p, params, cands);
      DistinctTail(cands);
      AssembleAppends(p, params + Picked(p, cands[0]), cands[1..]);
      SelectedUnfold(p, params, cands);
    }
  }

  /** Dropping the first name keeps the names distinct. */
  lemma DistinctTail(cands: seq<(string, Value)>)
    requires cands != [] && Distinct(KeysOf(cands))
    ensures Distinct(KeysOf(cands[1..]))
  {
    assert KeysOf(cands[1..]) == KeysOf(cands)[1..];
  }

  /** Appending the selection is appending the first pick, then the rest's. */
  lemma SelectedUnfold(p: Presence, params: seq<(Key, Value)>, cands: seq<(string, Value)>)
    requires cands != []
    ensures params + Selected(p, cands) == params + Picked(p, cands[0]) + Selected(p, cands[1..])
  {
    assert Selected(p, cands) == Picked(p, cands[0]) + Selected(p, cands[1..]);
  }

  lemma AssembleSelects(p: Presence, cands: seq<(string, Value)>)
    requires Distinct(KeysOf(cands))
    ensures Assemble(p, [], cands) == Selected(p, cands)
  {
    AssembleAppends(p, [], cands);
  }

  /** The guarded merges over `a + b` are those over `a`, then those over `b`. */
  lemma {:induction false} AssembleConcat(p: Presence, params: seq<(Key, Value)>, a: seq<(string, Value)>, b: seq<(string, Value)>)
    ensures Assemble(p, params, a + b) == Assemble(p, Assemble(p, params, a), b)
    decreases |a|
  {
    if a == [] {
      assert a + b == b;
    } else {
      var next := if Present(p, a[0].1) then Merge(params, a[0].0, a[0].1) else params;
      assert (a + b)[0] == a[0];
      assert (a + b)[1..] == a[1..] + b;
      AssembleConcat(p, next, a[1..], b);
    }
  }

  lemma {:induction false} SelectedConcat(p: Presence, a: seq<(string, Value)>, b: seq<(string, Value)>)
    ensures Selected(p, a + b) == Selected(p, a) + Selected(p, b)
    decreases |a|
  {
    if a == [] {
      assert a + b == b;
    } else {
      var head := Picked(p, a[0]);
      assert (a + b)[0] == a[0];
      assert (a + b)[1..] == a[1..] + b;
      SelectedConcat(p, a[1..], b);
      assert Selected(p, a + b) == head + Selected(p, a[1..] + b);
      assert head + (Selected(p, a[1..]) + Selected(p, b)) == (head + Selected(p, a[1..])) + Selected(p, b);
    }
  }

  lemma MergePastHead(e: (Key, Value), entries: seq<(Key, Value)>, key: string, v: Value)
    requires e.0 != StrKey(key)
    ensures Merge([e] + entries, key, v) == [e] + Merge(entries, key, v)
  {
    assert ([e] + entries)[1..] == entries;
  }

  lemma MergeAtHead(entries: seq<(Key, Value)>, key: string, v: Value)
    ensures Merge([(StrKey(key), v)] + entries, key, v) == [(StrKey(key), v)] + entries
  {
    assert ([(StrKey(key), v)] + entries)[1..] == entries;
  }

  /** Merging a present candidate a second time overwrites its entry with the
      same value: the parameters do not change. */
  lemma {:induction false} MergeRepeat(p: Presence, cands: seq<(string, Value)>, i: nat)
    requires Distinct(KeysOf(cands)) && i < |cands| && Present(p, cands[i].1)
    ensures Merge(Selected(p, cands), cands[i].0, cands[i].1) == Selected(p, cands)
    decreases |cands|
  {
    var c := cands[0];
    var rest := cands[1..];
    var tail := Selected(p, rest);
    if i == 0 {
      assert Selected(p, cands) == [(StrKey(c.0), c.1)] + tail;
      MergeAtHead(tail, c.0, c.1);
    } else {
      var d := cands[i];
      assert KeysOf(rest) == KeysOf(cands)[1..];
      assert rest[i - 1] == d;
      MergeRepeat(p, rest, i - 1);
      if Present(p, c.1) {
        assert KeysOf(cands)[0] != KeysOf(cands)[i];
        assert Selected(p, cands) == [(StrKey(c.0), c.1)] + tail;
        MergePastHead((StrKey(c.0), c.1), tail, d.0, d.1);
      } else {
        assert Selected(p, cands) == tail;
      }
    }
  }

  lemma KeysOfConcat(a: seq<(Key, Value)>, b: seq<(Key, Value)>)
    ensures KeysOf(a + b) == KeysOf(a) + KeysOf(b)
  {
  }

  /** With distinct names, a candidate's key is among the parameters exactly
      when its value passes the test. */
  lemma {:induction false} SelectedMembership(p: Presence, cands: seq<(string, Value)>, i: nat)
    requires Distinct(KeysOf(cands)) && i < |cands|
    ensures StrKey(cands[i].0) in KeysOf(Selected(p, cands)) <==> Present(p, cands[i].1)
    decreases |cands|
  {
    var c := cands[0];
    var rest := cands[1..];
    var head := if Present(p, c.1) then [(StrKey(c.0), c.1)] else [];
    assert Selected(p, cands) == head + Selected(p, rest);
    KeysOfConcat(head, Selected(p, rest));
    assert KeysOf(rest) == KeysOf(cands)[1..];
    if i == 0 {
      if !Present(p, c.1) {
        assert c.0 !in KeysOf(rest) by {
          forall j | 0 <= j < |rest| ensures KeysOf(rest)[j] != c.0 {
            assert KeysOf(cands)[0] != KeysOf(cands)[j + 1];
          }
        }
        SelectedKeys(p, rest, StrKey(c.0));
      } else {
        assert KeysOf(head)[0] == StrKey(c.0);
      }
    } else {
      assert rest[i - 1] == cands[i];
      SelectedMembership(p, rest, i - 1);
      assert KeysOf(cands)[0] != KeysOf(cands)[i];
    }
  }

  function Nulls(n: nat): (vs: seq<Value>)
    ensures |vs| == n && forall i :: 0 <= i < n ==> vs[i] == Null
  {
    seq(n, _ => Null)
  }
}
