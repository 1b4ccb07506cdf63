/** The error normaliser: `GigapayException` keeps the decoded body of a
    rejected response and flattens it into one comma-joined message. */
module Exceptions {
  import opened Php

  const NonFieldErrors := "non_field_errors"

  /** `is_array($value) ? $value[0] : $value`. */
  function ProblemMessage(value: Value): Value
  {
    if value.Arr? then Index(value, IntKey(0)) else value
  }

  /** The entry gets the "Problem with <key>->" prefix: its key is not
      "non_field_errors" and is truthy (so index 0 of a list-shaped body and
      the keys "" and "0" are reported bare). */
  predicate Keyed(key: Key)
  {
    KeyTruthy(key) && key != StrKey(NonFieldErrors)
  }

  function Prefixed(key: Key, text: string): string
  {
    "Problem with " + KeyString(key) + "->" + text
  }

  /** One iteration of the loop: the new `$error_message`, or `None` when a
      string conversion raises a PHP Error. A falsy accumulated message is
      replaced rather than extended; a bare message is stored as it is,
      without conversion. */
  function Step(acc: Value, key: Key, value: Value): Option<Value>
  {
    var pm := ProblemMessage(value);
    if Keyed(key) then
      if Truthy(acc) then
        match (StringOf(acc), StringOf(pm))
        case (Some(a), Some(t)) => Some(Str(a + "," + Prefixed(key, t)))
        case _ => None
      else
        match StringOf(pm)
        case Some(t) => Some(Str(Prefixed(key, t)))
        case None => None
    else
      if Truthy(acc) then
        match (StringOf(acc), StringOf(pm))
        case (Some(a), Some(t)) => Some(Str(a + "," + t))
        case _ => None
      else Some(pm)
  }

  /** The loop over the remaining entries, starting from `acc`. */
  function Accumulate(acc: Value, es: seq<(Key, Value)>): Option<Value>
    decreases |es|
  {
    if es == [] then Some(acc)
    else
      match Step(acc, es[0].0, es[0].1)
      case None => None
      case Some(next) => Accumulate(next, es[1..])
  }

  /** What `getErrorMessage` returns for a decoded body: null for a falsy
      body, otherwise the accumulated message (`None`: a PHP Error). */
  function ErrorMessage(body: Value): Option<Value>
  {
    if Truthy(body) then Accumulate(Null, Entries(body)) else Some(Null)
  }

  /** The message `Exception::__construct` receives: null becomes "", a
      scalar its string form; an array or object is a TypeError. */
  function ExceptionText(m: Value): (r: Result<string, string>)
    ensures r.Ok? <==> !m.Arr? && !m.Obj?
    ensures m.Str? ==> r == Ok(m.s)
  {
    match m
    case Arr(_) => Err("Exception::__construct(): Argument #1 ($message) must be of type string, array given")
    case Obj(_) => Err("Exception::__construct(): Argument #1 ($message) must be of type string, stdClass given")
    case _ => Ok(StringOf(m).value)
  }

  /** The message a `GigapayException` on `body` ends up with, or the
      message of the PHP Error raised while constructing it. */
  function ExceptionMessage(body: Value): Result<string, string>
  {
    match ErrorMessage(body)
    case None => Err(ObjectToStringError)
    case Some(m) => ExceptionText(m)
  }

  /** The text one entry contributes. */
  function SegmentText(key: Key, value: Value): string
  {
    var t := StringOf(ProblemMessage(value));
    var text := if t.Some? then t.value else "";
    if Keyed(key) then Prefixed(key, text) else text
  }

  /** Every entry converts cleanly and contributes a truthy string: a keyed
      entry whose message is not an object, or a bare entry whose message
      is a truthy string. */
  predicate WellFormedEntry(key: Key, value: Value)
  {
    var pm := ProblemMessage(value);
    if Keyed(key) then !pm.Obj? else pm.Str? && Truthy(pm)
  }

  function Segments(es: seq<(Key, Value)>): (ss: seq<string>)
    ensures |ss| == |es|
  {
    if es == [] then [] else [SegmentText(es[0].0, es[0].1)] + Segments(es[1..])
  }

  function Join(ss: seq<string>): string
  {
    if |ss| == 0 then "" else if |ss| == 1 then ss[0] else ss[0] + "," + Join(ss[1..])
  }

  lemma {:induction false} PrefixedTruthy(key: Key, text: string)
    ensures Truthy(Str(Prefixed(key, text)))
  {
    var s := Prefixed(key, text);
    assert s[0] == 'P' && s[1] == 'r';
  }

  lemma {:induction false} WellFormedStep(acc: Value, key: Key, value: Value)
    requires acc.Null? || (acc.Str? && Truthy(acc))
    requires WellFormedEntry(key, value)
    ensures Step(acc, key, value) ==
      Some(Str(if acc.Null? then SegmentText(key, value) else acc.s + "," + SegmentText(key, value)))
    ensures Truthy(Str(SegmentText(key, value)))
  {
    if Keyed(key) {
      PrefixedTruthy(key, StringOf(ProblemMessage(value)).value);
    }
  }

  lemma {:induction false} AccumulateJoins(a: string, es: seq<(Key, Value)>)
    requires Truthy(Str(a))
    requires forall i :: 0 <= i < |es| ==> WellFormedEntry(es[i].0, es[i].1)
    ensures Accumulate(Str(a), es) == Some(Str(if es == [] then a else a + "," + Join(Segments(es))))
    decreases |es|
  {
    if es != [] {
      var s0 := SegmentText(es[0].0, es[0].1);
      WellFormedStep(Str(a), es[0].0, es[0].1);
      AccumulateJoins(a + "," + s0, es[1..]);
      if |es| > 1 {
        assert Segments(es) == [s0] + Segments(es[1..]);
        assert Join(Segments(es)) == s0 + "," + Join(Segments(es[1..]));
        assert a + "," + s0 + "," + Join(Segments(es[1..])) == a + "," + (s0 + "," + Join(Segments(es[1..])));
      } else {
        assert es[1..] == [];
        assert Segments(es) == [s0];
      }
    }
  }

  /** One segment per top-level entry, in iteration order, joined with ",":
      "Problem with <key>-><message>" for a keyed entry, the bare message
      otherwise, where a list contributes its first element. */
  lemma {:induction false} MessageJoinsSegments(body: Value)
    requires body.Obj? || body.Arr?
    requires forall i :: 0 <= i < |Entries(body)| ==> WellFormedEntry(Entries(body)[i].0, Entries(body)[i].1)
    ensures Entries(body) == [] ==> ErrorMessage(body) == Some(Null)
    ensures Entries(body) != [] ==> ErrorMessage(body) == Some(Str(Join(Segments(Entries(body)))))
  {
    var es := Entries(body);
    if es != [] {
      assert Truthy(body);
      var s0 := SegmentText(es[0].0, es[0].1);
      WellFormedStep(Null, es[0].0, es[0].1);
      AccumulateJoins(s0, es[1..]);
      assert Segments(es) == [s0] + Segments(es[1..]);
      if |es| == 1 {
        assert es[1..] == [];
      }
    } else if body.Arr? {
      assert !Truthy(body);
    }
  }

  /** A falsy body (null, false, 0, "", "0", an empty array) gives a null
      message, and so does an object without properties. */
  lemma FalsyBodyHasNoMessage(body: Value)
    requires !Truthy(body) || body == Obj([])
    ensures ErrorMessage(body) == Some(Null)
  {
  }

  /** A falsy message accumulated so far is overwritten by the next
      segment instead of being extended with a comma. */
  lemma {:induction false} FalsyMessageOverwritten(t: string, key: Key, value: Value)
    requires !Truthy(Str(t)) && Keyed(key) && !ProblemMessage(value).Obj?
    ensures Step(Str(t), key, value) == Some(Str(SegmentText(key, value)))
    ensures ErrorMessage(Obj([(NonFieldErrors, ListOf([Str(t)])), ("email", ListOf([Str("taken")]))]))
         == Some(Str("Problem with email->taken"))
  {
    var body := Obj([(NonFieldErrors, ListOf([Str(t)])), ("email", ListOf([Str("taken")]))]);
    var es := Entries(body);
    assert es[0] == (StrKey(NonFieldErrors), ListOf([Str(t)]));
    assert es[1] == (StrKey("email"), ListOf([Str("taken")]));
    assert ProblemMessage(ListOf([Str(t)])) == Str(t);
    assert ProblemMessage(ListOf([Str("taken")])) == Str("taken");
    assert StrKey("email") != StrKey(NonFieldErrors);
    assert Truthy(body);
    assert Step(Null, es[0].0, es[0].1) == Some(Str(t));
    assert Keyed(StrKey("email"));
    assert Prefixed(StrKey("email"), "taken") == "Problem with email->taken";
    assert Step(Str(t), es[1].0, es[1].1) == Some(Str("Problem with email->taken"));
    assert es[1..][0] == es[1];
    assert es[1..][1..] == [];
    assert Accumulate(Str("Problem with email->taken"), es[1..][1..]) == Some(Str("Problem with email->taken"));
    assert Accumulate(Str(t), es[1..]) == Some(Str("Problem with email->taken"));
  }

  /** A list-shaped body: index 0 is a falsy key, so its value is kept bare
      and unconverted; when it is an object the exception's construction
      fails with a TypeError. */
  lemma {:induction false} ListShapedBodyIsNotFlattened(fields: seq<(string, Value)>)
    ensures ErrorMessage(ListOf([Obj(fields)])) == Some(Obj(fields))
    ensures ExceptionMessage(ListOf([Obj(fields)])).Err?
  {
    var body := ListOf([Obj(fields)]);
    assert Entries(body) == [(IntKey(0), Obj(fields))];
    assert !Keyed(IntKey(0));
    assert Truthy(body);
    assert Step(Null, IntKey(0), Obj(fields)) == Some(Obj(fields));
    assert Entries(body)[1..] == [];
    assert Accumulate(Null, Entries(body)) == Accumulate(Obj(fields), []);
  }

  /** A rejected response: the decoded body is kept unchanged and the
      message is derived from it once. */
  class GigapayException {
    const json: Value
    const message: string

    /** Requires what PHP needs to finish the construction; the failing
        case (a PHP Error or TypeError) is modelled by the caller. */
    constructor (body: Value)
      requires ExceptionMessage(body).Ok?
      ensures json == body && message == ExceptionMessage(body).value
    {
      json := body;
      message := ExceptionMessage(body).value;
    }

    /** `getJson`: the body exactly as it was received. */
    function GetJson(): (r: Value)
      ensures r == json
    {
      json
    }

    /** `getErrorMessage`: the loop over the body's top-level entries. */
    method GetErrorMessage() returns (r: Option<Value>)
      ensures r == ErrorMessage(json)
    {
      if !Truthy(json) {
        return Some(Null);
      }
      var es := Entries(json);
      var acc: Value := Null;
      var i := 0;
      while i < |es|
        invariant 0 <= i <= |es|
        invariant Accumulate(acc, es[i..]) == Accumulate(Null, es)
      {
        var next := Step(acc, es[i].0, es[i].1);
        if next.None? {
          assert es[i..][0] == es[i];
          return None;
        }
        assert es[i..][1..] == es[i + 1..];
        acc := next.value;
        i := i + 1;
      }
      r := Some(acc);
    }
  }
}
