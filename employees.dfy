/** The Employee resource: validation and parameters of `create`,
    `createByArray` and `replace`, and the fixed field updates of the
    `update*`, `save`, `replace` and `destroy` methods. */
module Employees {
  import opened Php
  import opened Managers
  import opened Endpoints
  import opened Resources

  /** The fields in the order the constructor reads them and `getJson`
      writes them. */
  const EmployeeKeys: seq<string> :=
    ["id", "name", "cellphone_number", "email", "country", "metadata",
     "created_at", "notified_at", "claimed_at", "verified_at"]

  /** The constructor's reads, one key at a time. */
  lemma EmployeeKeysRead(json: Value)
    ensures ReadAll(EmployeeKeys, json) ==
      [Prop(json, "id"), Prop(json, "name"), Prop(json, "cellphone_number"), Prop(json, "email"),
       Prop(json, "country"), Prop(json, "metadata"), Prop(json, "created_at"),
       Prop(json, "notified_at"), Prop(json, "claimed_at"), Prop(json, "verified_at")]
  {
    ReadAllTen("id", "name", "cellphone_number", "email", "country", "metadata", "created_at", "notified_at", "claimed_at", "verified_at", json);
  }

  lemma EmployeeKeysDistinct()
    ensures Distinct(EmployeeKeys)
  {
  }

  const ContactRequired := "Either email or cellphone_number is required."
  const NameRequired := "Name is required."

  /** `create`'s candidate parameters, in the order it tests them. */
  function CreateCandidates(name: Value, email: Value, cellphoneNumber: Value, country: Value, metadata: Value, id: Value)
    : seq<(string, Value)>
  {
    [("id", id), ("name", name), ("email", email), ("country", country),
     ("cellphone_number", cellphoneNumber), ("metadata", metadata)]
  }

  lemma CreateCandidatesDistinct(name: Value, email: Value, cellphoneNumber: Value, country: Value, metadata: Value, id: Value)
    ensures Distinct(KeysOf(CreateCandidates(name, email, cellphoneNumber, country, metadata, id)))
  {
    var cands := CreateCandidates(name, email, cellphoneNumber, country, metadata, id);
    assert KeysOf(cands) == ["id", "name", "email", "country", "cellphone_number", "metadata"];
    ContactNamesDistinct();
  }

  lemma ContactNamesDistinct()
    ensures Distinct(["id", "name", "email", "country", "cellphone_number", "metadata"])
  {
  }

  /** `create`: the contact check, then one guarded merge per argument. */
  function CreateParams(name: Value, email: Value, cellphoneNumber: Value, country: Value, metadata: Value, id: Value)
    : (r: Result<seq<(Key, Value)>, string>)
    ensures r.Err? <==> !Truthy(email) && !Truthy(cellphoneNumber)
    ensures r.Err? ==> r.error == ContactRequired
    ensures r.Ok? ==> r.value == Selected(ByTruthiness, CreateCandidates(name, email, cellphoneNumber, country, metadata, id))
  {
    if !Truthy(email) && !Truthy(cellphoneNumber) then Err(ContactRequired)
    else
      var cands := CreateCandidates(name, email, cellphoneNumber, country, metadata, id);
      CreateCandidatesDistinct(name, email, cellphoneNumber, country, metadata, id);
      AssembleSelects(ByTruthiness, cands);
      Ok(Assemble(ByTruthiness, [], cands))
  }

  /** The candidates `createByArray` and `replace` read from the given array. */
  function ArrayCandidates(e: seq<(Key, Value)>): seq<(string, Value)>
  {
    CreateCandidates(Field(e, "name"), Field(e, "email"), Field(e, "cellphone_number"),
                     Field(e, "country"), Field(e, "metadata"), Field(e, "id"))
  }

  /** The part `createByArray` and `replace` share: `id` if set, then the
      required `name`, then the other fields that are set. */
  function NamedParams(e: seq<(Key, Value)>): (r: Result<seq<(Key, Value)>, string>)
    ensures r.Err? <==> !Isset(Field(e, "name"))
    ensures r.Err? ==> r.error == NameRequired
    ensures r.Ok? ==> r.value == Selected(ByIsset, ArrayCandidates(e))
  {
    var cands := ArrayCandidates(e);
    var ps := Assemble(ByIsset, [], cands[..1]);
    if !Isset(Field(e, "name")) then Err(NameRequired)
    else
      var withName := Merge(ps, "name", Field(e, "name"));
      NamedParamsSteps(e);
      Ok(Assemble(ByIsset, withName, cands[2..]))
  }

  lemma NamedParamsSteps(e: seq<(Key, Value)>)
    requires Isset(Field(e, "name"))
    ensures Assemble(ByIsset, Merge(Assemble(ByIsset, [], ArrayCandidates(e)[..1]), "name", Field(e, "name")), ArrayCandidates(e)[2..])
         == Selected(ByIsset, ArrayCandidates(e))
  {
    var cands := ArrayCandidates(e);
    var ps := Assemble(ByIsset, [], cands[..1]);
    assert cands == cands[..1] + (cands[1..2] + cands[2..]);
    AssembleConcat(ByIsset, [], cands[..1], cands[1..2] + cands[2..]);
    AssembleConcat(ByIsset, ps, cands[1..2], cands[2..]);
    assert cands[1..2] == [("name", Field(e, "name"))];
    assert Assemble(ByIsset, ps, cands[1..2]) == Merge(ps, "name", Field(e, "name"));
    CreateCandidatesDistinct(Field(e, "name"), Field(e, "email"), Field(e, "cellphone_number"),
                             Field(e, "country"), Field(e, "metadata"), Field(e, "id"));
    AssembleSelects(ByIsset, cands);
  }

  /** `createByArray`: the `isset` contact check comes before the name check. */
  function CreateByArrayParams(e: seq<(Key, Value)>): (r: Result<seq<(Key, Value)>, string>)
    ensures r == Err(ContactRequired) <==> !Isset(Field(e, "email")) && !Isset(Field(e, "cellphone_number"))
    ensures r == Err(NameRequired) <==>
      (Isset(Field(e, "email")) || Isset(Field(e, "cellphone_number"))) && !Isset(Field(e, "name"))
    ensures r.Ok? <==> (Isset(Field(e, "email")) || Isset(Field(e, "cellphone_number"))) && Isset(Field(e, "name"))
    ensures r.Ok? ==> r.value == Selected(ByIsset, ArrayCandidates(e))
  {
    if !Isset(Field(e, "email")) && !Isset(Field(e, "cellphone_number")) then Err(ContactRequired)
    else NamedParams(e)
  }

  /** `create` tests truthiness and `createByArray` tests `isset`: an empty
      email is refused by the first and accepted by the second. */
  lemma EmptyEmailIsSetButFalsy(name: Value)
    requires Isset(name)
    ensures CreateParams(name, Str(""), Null, Null, Null, Null) == Err(ContactRequired)
    ensures CreateByArrayParams([(StrKey("name"), name), (StrKey("email"), Str(""))]).Ok?
  {
    var e := [(StrKey("name"), name), (StrKey("email"), Str(""))];
    var tail := [(StrKey("email"), Str(""))];
    assert e[1..] == tail;
    assert Lookup(tail, StrKey("email")) == Str("");
    assert e[0].0 != StrKey("email");
    assert Field(e, "email") == Str("");
    assert Field(e, "name") == name;
  }

  /** What `replace` (and `createByArray` once the contact check passed)
      sends holds a field of the array exactly when it is set. */
  lemma NamedParamsHoldSetFields(e: seq<(Key, Value)>, i: nat)
    requires NamedParams(e).Ok? && i < 6
    ensures StrKey(ArrayCandidates(e)[i].0) in KeysOf(NamedParams(e).value) <==> Isset(ArrayCandidates(e)[i].1)
  {
    CreateCandidatesDistinct(Field(e, "name"), Field(e, "email"), Field(e, "cellphone_number"),
                             Field(e, "country"), Field(e, "metadata"), Field(e, "id"));
    SelectedMembership(ByIsset, ArrayCandidates(e), i);
  }

  /** `create` sends an argument exactly when it is truthy. */
  lemma CreateParamsHoldTruthyArguments(name: Value, email: Value, cellphoneNumber: Value, country: Value, metadata: Value,
                                        id: Value, i: nat)
    requires CreateParams(name, email, cellphoneNumber, country, metadata, id).Ok? && i < 6
    ensures var cands := CreateCandidates(name, email, cellphoneNumber, country, metadata, id);
      StrKey(cands[i].0) in KeysOf(CreateParams(name, email, cellphoneNumber, country, metadata, id).value) <==> Truthy(cands[i].1)
  {
    CreateCandidatesDistinct(name, email, cellphoneNumber, country, metadata, id);
    SelectedMembership(ByTruthiness, CreateCandidates(name, email, cellphoneNumber, country, metadata, id), i);
  }

  class Employee {
    var id: Value
    var name: Value
    var cellphoneNumber: Value
    var email: Value
    var country: Value
    var metadata: Value
    var createdAt: Value
    var notifiedAt: Value
    var claimedAt: Value
    var verifiedAt: Value

    /** The fields, in `EmployeeKeys` order. */
    function Values(): (vs: seq<Value>)
      reads this
      ensures |vs| == |EmployeeKeys|
    {
      [id, name, cellphoneNumber, email, country, metadata, createdAt, notifiedAt, claimedAt, verifiedAt]
    }

    /** `new Employee($json)`: each field is `$json->field ?? null`. */
    constructor (json: Value)
      ensures Values() == ReadAll(EmployeeKeys, json)
    {
      EmployeeKeysRead(json);
      id := Prop(json, "id");
      name := Prop(json, "name");
      cellphoneNumber := Prop(json, "cellphone_number");
      email := Prop(json, "email");
      country := Prop(json, "country");
      metadata := Prop(json, "metadata");
      createdAt := Prop(json, "created_at");
      notifiedAt := Prop(json, "notified_at");
      claimedAt := Prop(json, "claimed_at");
      verifiedAt := Prop(json, "verified_at");
    }

    /** `getJson()`: an object with the ten fields; constructing an Employee
        from it gives back the same fields. */
    function GetJson(): (r: Value)
      reads this
      ensures r.Obj? && |r.props| == |EmployeeKeys|
      ensures ReadAll(EmployeeKeys, r) == Values()
    {
      EmployeeKeysDistinct();
      ReadAllObjectOf(EmployeeKeys, Values());
      ObjectOf(EmployeeKeys, Values())
    }

    /** The URL every instance method targets: `getUrl() . '/' . $this->id`. */
    function Address(cfg: Config): Result<string, Failure>
      reads this
    {
      ItemUrl(EmployeeUrl(cfg), id)
    }

    /** `updateId($new_id)`: a one-key PATCH to the old id's URL; only `id`
        changes, and only when the call returned. */
    method UpdateId(cfg: Config, newId: Value, outcome: Outcome) returns (thrown: Option<Failure>, sent: Option<Request>)
      modifies this
      ensures sent == SentTo(cfg, PATCH, old(Address(cfg)), FormParams([(StrKey("id"), newId)]))
      ensures thrown == ErrorOf(Reached(cfg, old(Address(cfg)), outcome))
      ensures Values() == if thrown.None? then old(Values())[0 := newId] else old(Values())
    {
      var res;
      res, sent := CallAt(cfg, PATCH, Address(cfg), FormParams([(StrKey("id"), newId)]), outcome);
      thrown := ErrorOf(res);
      if thrown.None? {
        id := newId;
      }
    }

    /** `updateName($new_name)`: only `name` changes. */
    method UpdateName(cfg: Config, newName: Value, outcome: Outcome) returns (thrown: Option<Failure>, sent: Option<Request>)
      modifies this
      ensures sent == SentTo(cfg, PATCH, old(Address(cfg)), FormParams([(StrKey("name"), newName)]))
      ensures thrown == ErrorOf(Reached(cfg, old(Address(cfg)), outcome))
      ensures Values() == if thrown.None? then old(Values())[1 := newName] else old(Values())
    {
      var res;
      res, sent := CallAt(cfg, PATCH, Address(cfg), FormParams([(StrKey("name"), newName)]), outcome);
      thrown := ErrorOf(res);
      if thrown.None? {
        name := newName;
      }
    }

    /** `updateEmail($new_email)`: only `email` changes. */
    method UpdateEmail(cfg: Config, newEmail: Value, outcome: Outcome) returns (thrown: Option<Failure>, sent: Option<Request>)
      modifies this
      ensures sent == SentTo(cfg, PATCH, old(Address(cfg)), FormParams([(StrKey("email"), newEmail)]))
      ensures thrown == ErrorOf(Reached(cfg, old(Address(cfg)), outcome))
      ensures Values() == if thrown.None? then old(Values())[3 := newEmail] else old(Values())
    {
      var res;
      res, sent := CallAt(cfg, PATCH, Address(cfg), FormParams([(StrKey("email"), newEmail)]), outcome);
      thrown := ErrorOf(res);
      if thrown.None? {
        email := newEmail;
      }
    }

    /** `updateMetaDate($new_metadata)`: `metadata` becomes the `metadata`
        of the response, not the value sent. */
    method UpdateMetaDate(cfg: Config, newMetadata: Value, outcome: Outcome) returns (thrown: Option<Failure>, sent: Option<Request>)
      modifies this
      ensures sent == SentTo(cfg, PATCH, old(Address(cfg)), FormParams([(StrKey("metadata"), newMetadata)]))
      ensures thrown == ErrorOf(Reached(cfg, old(Address(cfg)), outcome))
      ensures thrown.None? ==> Values() == old(Values())[5 := Prop(Response(cfg, outcome).value, "metadata")]
      ensures thrown.Some? ==> Values() == old(Values())
    {
      var res;
      res, sent := CallAt(cfg, PATCH, Address(cfg), FormParams([(StrKey("metadata"), newMetadata)]), outcome);
      thrown := ErrorOf(res);
      if thrown.None? {
        metadata := Prop(res.value, "metadata");
      }
    }

    /** `updateCountry($new_country)`: only `country` changes. */
    method UpdateCountry(cfg: Config, newCountry: Value, outcome: Outcome) returns (thrown: Option<Failure>, sent: Option<Request>)
      modifies this
      ensures sent == SentTo(cfg, PATCH, old(Address(cfg)), FormParams([(StrKey("country"), newCountry)]))
      ensures thrown == ErrorOf(Reached(cfg, old(Address(cfg)), outcome))
      ensures Values() == if thrown.None? then old(Values())[4 := newCountry] else old(Values())
    {
      var res;
      res, sent := CallAt(cfg, PATCH, Address(cfg), FormParams([(StrKey("country"), newCountry)]), outcome);
      thrown := ErrorOf(res);
      if thrown.None? {
        country := newCountry;
      }
    }

    /** `updateCellphoneNumber($new_cellphone_number)`: only
        `cellphone_number` changes. */
    method UpdateCellphoneNumber(cfg: Config, newNumber: Value, outcome: Outcome) returns (thrown: Option<Failure>, sent: Option<Request>)
      modifies this
      ensures sent == SentTo(cfg, PATCH, old(Address(cfg)), FormParams([(StrKey("cellphone_number"), newNumber)]))
      ensures thrown == ErrorOf(Reached(cfg, old(Address(cfg)), outcome))
      ensures Values() == if thrown.None? then old(Values())[2 := newNumber] else old(Values())
    {
      var res;
      res, sent := CallAt(cfg, PATCH, Address(cfg), FormParams([(StrKey("cellphone_number"), newNumber)]), outcome);
      thrown := ErrorOf(res);
      if thrown.None? {
        cellphoneNumber := newNumber;
      }
    }

    /** The six fields `save` sends, all of them, set or not. */
    function SaveParams(): (ps: seq<(Key, Value)>)
      reads this
      ensures KeysOf(ps) == [StrKey("id"), StrKey("name"), StrKey("email"), StrKey("country"),
                             StrKey("cellphone_number"), StrKey("metadata")]
    {
      [(StrKey("id"), id), (StrKey("name"), name), (StrKey("email"), email),
       (StrKey("country"), country), (StrKey("cellphone_number"), cellphoneNumber),
       (StrKey("metadata"), metadata)]
    }

    /** `save()`: PATCHes the six editable fields, then takes `metadata` from
        the response. */
    method Save(cfg: Config, outcome: Outcome) returns (thrown: Option<Failure>, sent: Option<Request>)
      modifies this
      ensures sent == SentTo(cfg, PATCH, old(Address(cfg)), FormParams(old(SaveParams())))
      ensures thrown == ErrorOf(Reached(cfg, old(Address(cfg)), outcome))
      ensures thrown.None? ==> Values() == old(Values())[5 := Prop(Response(cfg, outcome).value, "metadata")]
      ensures thrown.Some? ==> Values() == old(Values())
    {
      var res;
      res, sent := CallAt(cfg, PATCH, Address(cfg), FormParams(SaveParams()), outcome);
      thrown := ErrorOf(res);
      if thrown.None? {
        metadata := Prop(res.value, "metadata");
      }
    }

    /** `replace($employee)`: the URL is built first, then the name check;
        a PUT, and every field of the answer except `cellphone_number`,
        which keeps its old value. */
    method Replace(cfg: Config, e: seq<(Key, Value)>, outcome: Outcome) returns (thrown: Option<Failure>, sent: Option<Request>)
      modifies this
      ensures old(Address(cfg)).Err? ==> thrown == Some(old(Address(cfg)).error) && sent == None
      ensures old(Address(cfg)).Ok? && NamedParams(e).Err? ==> thrown == Some(Thrown(NameRequired)) && sent == None
      ensures old(Address(cfg)).Ok? && NamedParams(e).Ok? ==>
        sent == Sent(cfg, PUT, old(Address(cfg)).value, FormParams(NamedParams(e).value)) &&
        thrown == ErrorOf(Response(cfg, outcome))
      ensures thrown.None? ==>
        Values() == ReadAll(EmployeeKeys, Response(cfg, outcome).value)[2 := old(cellphoneNumber)]
      ensures thrown.Some? ==> Values() == old(Values())
    {
      var url := Address(cfg);
      if url.Err? {
        return Some(url.error), None;
      }
      var ps := NamedParams(e);
      if ps.Err? {
        return Some(Thrown(ps.error)), None;
      }
      var res;
      res, sent := Call(cfg, PUT, url.value, FormParams(ps.value), outcome);
      if res.Err? {
        return Some(res.error), sent;
      }
      var answer := new Employee(res.value);
      CopyAllButCellphone(answer);
      thrown := None;
    }

    /** The nine assignments that end `replace`. */
    method CopyAllButCellphone(other: Employee)
      requires other != this
      modifies this
      ensures Values() == other.Values()[2 := old(cellphoneNumber)]
    {
      id := other.id;
      name := other.name;
      email := other.email;
      country := other.country;
      metadata := other.metadata;
      createdAt := other.createdAt;
      notifiedAt := other.notifiedAt;
      claimedAt := other.claimedAt;
      verifiedAt := other.verifiedAt;
    }

    /** `destroy()`: a DELETE, then all ten fields are null. */
    method Destroy(cfg: Config, outcome: Outcome) returns (thrown: Option<Failure>, sent: Option<Request>)
      modifies this
      ensures sent == SentTo(cfg, DELETE, old(Address(cfg)), Null)
      ensures thrown == ErrorOf(Reached(cfg, old(Address(cfg)), outcome))
      ensures Values() == if thrown.None? then Nulls(|EmployeeKeys|) else old(Values())
    {
      var res;
      res, sent := CallAt(cfg, DELETE, Address(cfg), Null, outcome);
      thrown := ErrorOf(res);
      if thrown.None? {
        id, name, cellphoneNumber, email, country := Null, Null, Null, Null, Null;
        metadata, createdAt, notifiedAt, claimedAt, verifiedAt := Null, Null, Null, Null, Null;
      }
    }

    /** `resend()`: a PATCH on `/employees/{id}/resend`, then `findById($this->id)`. */
    method Resend(cfg: Config, patched: Outcome, fetched: Outcome) returns (r: Result<Employee, Failure>, sent: seq<Request>)
      ensures Reached(cfg, ResendUrl(EmployeeUrl(cfg), id), patched).Err? ==>
        r == Err(Reached(cfg, ResendUrl(EmployeeUrl(cfg), id), patched).error) &&
        sent == Requests(SentTo(cfg, PATCH, ResendUrl(EmployeeUrl(cfg), id), Null))
      ensures Reached(cfg, ResendUrl(EmployeeUrl(cfg), id), patched).Ok? ==>
        sent == Requests(SentTo(cfg, PATCH, ResendUrl(EmployeeUrl(cfg), id), Null)) +
                Requests(SentTo(cfg, GET, Address(cfg), Null)) &&
        Made(r, Reached(cfg, Address(cfg), fetched))
      ensures r.Ok? ==> fresh(r.value)
    {
      var res, first := CallAt(cfg, PATCH, ResendUrl(EmployeeUrl(cfg), id), Null, patched);
      if res.Err? {
        return Err(res.error), Requests(first);
      }
      var second;
      r, second := FindById(cfg, id, fetched);
      sent := Requests(first) + Requests(second);
    }

    /** `getAllPayouts()`: the payouts list filtered by `employee={id}`; an
        stdClass id cannot be put into the URL. */
    method GetAllPayouts(cfg: Config) returns (r: Result<ListResource, Failure>)
      ensures r.Err? <==> id.Obj?
      ensures r.Err? ==> r.error == EngineError(ObjectToStringError)
      ensures r.Ok? ==> fresh(r.value) && r.value.url == WithFilter(PayoutUrl(cfg), "employee", StringOf(id).value)
    {
      match StringOf(id)
      case None =>
        r := Err(EngineError(ObjectToStringError));
      case Some(s) =>
        var list := new ListResource(PayoutUrl(cfg));
        var _ := list.AddFilter("employee", s);
        r := Ok(list);
    }
  }

  /** A new Employee built from what the call returned; the call's failure
      otherwise. */
  predicate Made(r: Result<Employee, Failure>, res: Result<Value, Failure>)
    reads if r.Ok? then {r.value} else {}
  {
    (r.Ok? <==> res.Ok?) &&
    (r.Ok? ==> r.value.Values() == ReadAll(EmployeeKeys, res.value)) &&
    (r.Err? ==> r.error == res.error)
  }

  method FromResponse(res: Result<Value, Failure>) returns (r: Result<Employee, Failure>)
    ensures Made(r, res)
    ensures r.Ok? ==> fresh(r.value)
  {
    if res.Err? {
      return Err(res.error);
    }
    var e := new Employee(res.value);
    r := Ok(e);
  }

  /** `Employee::create(...)`: nothing is sent when validation throws;
      otherwise a POST with `form_params`. */
  method Create(cfg: Config, name: Value, email: Value, cellphoneNumber: Value, country: Value, metadata: Value, id: Value,
                outcome: Outcome)
    returns (r: Result<Employee, Failure>, sent: Option<Request>)
    ensures CreateParams(name, email, cellphoneNumber, country, metadata, id).Err? ==>
      r == Err(Thrown(ContactRequired)) && sent == None
    ensures CreateParams(name, email, cellphoneNumber, country, metadata, id).Ok? ==>
      sent == Sent(cfg, POST, EmployeeUrl(cfg), FormParams(CreateParams(name, email, cellphoneNumber, country, metadata, id).value)) &&
      Made(r, Response(cfg, outcome))
    ensures r.Ok? ==> fresh(r.value)
  {
    var ps := CreateParams(name, email, cellphoneNumber, country, metadata, id);
    if ps.Err? {
      return Err(Thrown(ps.error)), None;
    }
    var res;
    res, sent := Call(cfg, POST, EmployeeUrl(cfg), FormParams(ps.value), outcome);
    r := FromResponse(res);
  }

  /** `Employee::createByArray($employee)`. */
  method CreateByArray(cfg: Config, e: seq<(Key, Value)>, outcome: Outcome)
    returns (r: Result<Employee, Failure>, sent: Option<Request>)
    ensures CreateByArrayParams(e).Err? ==> r == Err(Thrown(CreateByArrayParams(e).error)) && sent == None
    ensures CreateByArrayParams(e).Ok? ==>
      sent == Sent(cfg, POST, EmployeeUrl(cfg), FormParams(CreateByArrayParams(e).value)) &&
      Made(r, Response(cfg, outcome))
    ensures r.Ok? ==> fresh(r.value)
  {
    var ps := CreateByArrayParams(e);
    if ps.Err? {
      return Err(Thrown(ps.error)), None;
    }
    var res;
    res, sent := Call(cfg, POST, EmployeeUrl(cfg), FormParams(ps.value), outcome);
    r := FromResponse(res);
  }

  /** `Employee::list()`. */
  method List(cfg: Config) returns (l: ListResource)
    ensures fresh(l) && l.url == EmployeeUrl(cfg)
  {
    l := new ListResource(EmployeeUrl(cfg));
  }

  /** `Employee::findById($id)`: a GET on `/employees/{id}`. */
  method FindById(cfg: Config, id: Value, outcome: Outcome) returns (r: Result<Employee, Failure>, sent: Option<Request>)
    ensures sent == SentTo(cfg, GET, ItemUrl(EmployeeUrl(cfg), id), Null)
    ensures Made(r, Reached(cfg, ItemUrl(EmployeeUrl(cfg), id), outcome))
    ensures r.Ok? ==> fresh(r.value)
  {
    var res;
    res, sent := CallAt(cfg, GET, ItemUrl(EmployeeUrl(cfg), id), Null, outcome);
    r := FromResponse(res);
  }

  /** On a server URL without '?', an employee's payouts are listed at
      `/payouts?employee={id}`. */
  lemma AllPayoutsQuery(cfg: Config, id: string)
    requires '?' !in Server(cfg)
    ensures WithFilter(PayoutUrl(cfg), "employee", id) == PayoutUrl(cfg) + "?employee=" + id
  {
    assert '?' !in "/payouts";
    SeparatorIsAmpersandIff(PayoutUrl(cfg));
  }
}
