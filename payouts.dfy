/** The Payout resource: validation and parameters of `create`,
    `createInline`, `createByArray` and `createMultiple`, its sixteen fields,
    `destroy`, and the in-place expansion of the invoice and employee
    references. */
module Payouts {
  import opened Php
  import opened Managers
  import opened Endpoints
  import opened Resources
  import Employees
  import Invoices

  /** The fields in the order the constructor reads them and `getJson`
      writes them, in two halves of eight. */
  const PayoutFrontKeys: seq<string> :=
    ["id", "amount", "invoiced_amount", "cost", "country", "currency", "description",
     "full_salary_specification"]
  const PayoutBackKeys: seq<string> :=
    ["employee", "invoice", "metadata", "start_at", "end_at", "created_at", "notified_at", "accepted_at"]
  const PayoutKeys: seq<string> := PayoutFrontKeys + PayoutBackKeys

  /** The constructor's reads, one key at a time. */
  lemma PayoutKeysRead(json: Value)
    ensures ReadAll(PayoutKeys, json) == ReadAll(PayoutFrontKeys, json) + ReadAll(PayoutBackKeys, json)
    ensures ReadAll(PayoutFrontKeys, json) ==
      [Prop(json, "id"), Prop(json, "amount"), Prop(json, "invoiced_amount"), Prop(json, "cost"),
       Prop(json, "country"), Prop(json, "currency"), Prop(json, "description"),
       Prop(json, "full_salary_specification")]
    ensures ReadAll(PayoutBackKeys, json) ==
      [Prop(json, "employee"), Prop(json, "invoice"), Prop(json, "metadata"), Prop(json, "start_at"),
       Prop(json, "end_at"), Prop(json, "created_at"), Prop(json, "notified_at"), Prop(json, "accepted_at")]
  {
    ReadAllConcat(PayoutFrontKeys, PayoutBackKeys, json);
    PayoutFrontRead(json);
    PayoutBackRead(json);
  }

  lemma PayoutFrontRead(json: Value)
    ensures ReadAll(PayoutFrontKeys, json) ==
      [Prop(json, "id"), Prop(json, "amount"), Prop(json, "invoiced_amount"), Prop(json, "cost"),
       Prop(json, "country"), Prop(json, "currency"), Prop(json, "description"),
       Prop(json, "full_salary_specification")]
  {
    ReadAllEight("id", "amount", "invoiced_amount", "cost", "country", "currency", "description", "full_salary_specification", json);
  }

  lemma PayoutBackRead(json: Value)
    ensures ReadAll(PayoutBackKeys, json) ==
      [Prop(json, "employee"), Prop(json, "invoice"), Prop(json, "metadata"), Prop(json, "start_at"),
       Prop(json, "end_at"), Prop(json, "created_at"), Prop(json, "notified_at"), Prop(json, "accepted_at")]
  {
    ReadAllEight("employee", "invoice", "metadata", "start_at", "end_at", "created_at", "notified_at", "accepted_at", json);
  }

  lemma SixteenNulls()
    ensures [Null, Null, Null, Null, Null, Null, Null, Null] + [Null, Null, Null, Null, Null, Null, Null, Null] == Nulls(16)
  {
  }

  lemma PayoutKeysDistinct()
    ensures Distinct(PayoutKeys)
  {
  }

  const AmountRequired := "Either amount, cost or invoiced_amount is required."
  const InvoicedAmountRequired := "Invoiced_amount is required."
  const DescriptionRequired := "description is required"
  const EmployeeRequired := "employee is required"
  const EmployeeFieldRequired := "employee field is required."
  const DescriptionFieldRequired := "description field is required."
  const NoInvoice := "No invoice found"
  const NoEmployee := "No employee found"

  /** The candidate parameters of `create` and `createByArray`, in the order
      they are tested. */
  function CreateCandidates(employee: Value, description: Value, amount: Value, cost: Value, invoicedAmount: Value,
                            currency: Value, metadata: Value, startAt: Value, endAt: Value, id: Value)
    : seq<(string, Value)>
  {
    [("id", id), ("amount", amount), ("cost", cost), ("currency", currency), ("description", description),
     ("employee", employee), ("invoiced_amount", invoicedAmount), ("metadata", metadata),
     ("start_at", startAt), ("end_at", endAt)]
  }

  const CreateNames: seq<string> :=
    ["id", "amount", "cost", "currency", "description", "employee", "invoiced_amount", "metadata", "start_at", "end_at"]

  lemma CreateNamesDistinct()
    ensures Distinct(CreateNames)
  {
  }

  lemma CreateCandidatesDistinct(employee: Value, description: Value, amount: Value, cost: Value, invoicedAmount: Value,
                                 currency: Value, metadata: Value, startAt: Value, endAt: Value, id: Value)
    ensures Distinct(KeysOf(CreateCandidates(employee, description, amount, cost, invoicedAmount, currency, metadata, startAt, endAt, id)))
  {
    assert KeysOf(CreateCandidates(employee, description, amount, cost, invoicedAmount, currency, metadata, startAt, endAt, id))
        == CreateNames;
    CreateNamesDistinct();
  }

  /** `create`: one truthy amount is required, then one guarded merge per
      argument. */
  function CreateParams(employee: Value, description: Value, amount: Value, cost: Value, invoicedAmount: Value,
                        currency: Value, metadata: Value, startAt: Value, endAt: Value, id: Value)
    : (r: Result<seq<(Key, Value)>, string>)
    ensures r.Err? <==> !Truthy(amount) && !Truthy(cost) && !Truthy(invoicedAmount)
    ensures r.Err? ==> r.error == AmountRequired
    ensures r.Ok? ==> (r.value ==
      Selected(ByTruthiness, CreateCandidates(employee, description, amount, cost, invoicedAmount, currency, metadata, startAt, endAt, id)))
  {
    if !Truthy(amount) && !Truthy(cost) && !Truthy(invoicedAmount) then Err(AmountRequired)
    else
      var cands := CreateCandidates(employee, description, amount, cost, invoicedAmount, currency, metadata, startAt, endAt, id);
      CreateCandidatesDistinct(employee, description, amount, cost, invoicedAmount, currency, metadata, startAt, endAt, id);
      AssembleSelects(ByTruthiness, cands);
      Ok(Assemble(ByTruthiness, [], cands))
  }

  /** `create` sends an argument exactly when it is truthy. */
  lemma CreateParamsHoldTruthyArguments(employee: Value, description: Value, amount: Value, cost: Value, invoicedAmount: Value,
                                        currency: Value, metadata: Value, startAt: Value, endAt: Value, id: Value, i: nat)
    requires CreateParams(employee, description, amount, cost, invoicedAmount, currency, metadata, startAt, endAt, id).Ok?
    requires i < 10
    ensures var cands := CreateCandidates(employee, description, amount, cost, invoicedAmount, currency, metadata, startAt, endAt, id);
      StrKey(cands[i].0) in KeysOf(CreateParams(employee, description, amount, cost, invoicedAmount, currency, metadata, startAt, endAt, id).value)
      <==> Truthy(cands[i].1)
  {
    CreateCandidatesDistinct(employee, description, amount, cost, invoicedAmount, currency, metadata, startAt, endAt, id);
    SelectedMembership(ByTruthiness,
      CreateCandidates(employee, description, amount, cost, invoicedAmount, currency, metadata, startAt, endAt, id), i);
  }

  function InlineCandidates(id: Value, currency: Value, description: Value, employee: Value, invoicedAmount: Value, metadata: Value)
    : seq<(string, Value)>
  {
    [("id", id), ("currency", currency), ("description", description), ("employee", employee),
     ("invoiced_amount", invoicedAmount), ("metadata", metadata)]
  }

  lemma InlineNamesDistinct()
    ensures Distinct(["id", "currency", "description", "employee", "invoiced_amount", "metadata"])
  {
  }

  /** `createInline`: a truthy invoiced amount is required, then one guarded
      merge per argument. */
  function InlineParams(id: Value, currency: Value, description: Value, employee: Value, invoicedAmount: Value, metadata: Value)
    : (r: Result<seq<(Key, Value)>, string>)
    ensures r.Err? <==> !Truthy(invoicedAmount)
    ensures r.Err? ==> r.error == InvoicedAmountRequired
    ensures r.Ok? ==> r.value == Selected(ByTruthiness, InlineCandidates(id, currency, description, employee, invoicedAmount, metadata))
    ensures r.Ok? ==> StrKey("invoiced_amount") in KeysOf(r.value)
  {
    if !Truthy(invoicedAmount) then Err(InvoicedAmountRequired)
    else
      var cands := InlineCandidates(id, currency, description, employee, invoicedAmount, metadata);
      assert KeysOf(cands) == ["id", "currency", "description", "employee", "invoiced_amount", "metadata"];
      InlineNamesDistinct();
      AssembleSelects(ByTruthiness, cands);
      SelectedMembership(ByTruthiness, cands, 4);
      Ok(Assemble(ByTruthiness, [], cands))
  }

  /** The candidates `createByArray` reads from the given array. */
  function ArrayCandidates(p: seq<(Key, Value)>): seq<(string, Value)>
  {
    CreateCandidates(Field(p, "employee"), Field(p, "description"), Field(p, "amount"), Field(p, "cost"),
                     Field(p, "invoiced_amount"), Field(p, "currency"), Field(p, "metadata"),
                     Field(p, "start_at"), Field(p, "end_at"), Field(p, "id"))
  }

  predicate SomeAmountSet(p: seq<(Key, Value)>)
  {
    Isset(Field(p, "amount")) || Isset(Field(p, "cost")) || Isset(Field(p, "invoiced_amount"))
  }

  /** `createByArray`: the amount check, then the four optional leading
      fields, then the required `description` and `employee`, then the rest. */
  function CreateByArrayParams(p: seq<(Key, Value)>): (r: Result<seq<(Key, Value)>, string>)
    ensures r == Err(AmountRequired) <==> !SomeAmountSet(p)
    ensures r == Err(DescriptionRequired) <==> SomeAmountSet(p) && !Isset(Field(p, "description"))
    ensures r == Err(EmployeeRequired) <==>
      SomeAmountSet(p) && Isset(Field(p, "description")) && !Isset(Field(p, "employee"))
    ensures r.Ok? <==> SomeAmountSet(p) && Isset(Field(p, "description")) && Isset(Field(p, "employee"))
    ensures r.Ok? ==> r.value == Selected(ByIsset, ArrayCandidates(p))
  {
    if !SomeAmountSet(p) then Err(AmountRequired)
    else
      var cands := ArrayCandidates(p);
      var leading := Assemble(ByIsset, [], cands[..4]);
      if !Isset(Field(p, "description")) then Err(DescriptionRequired)
      else
        var withDescription := Merge(leading, "description", Field(p, "description"));
        if !Isset(Field(p, "employee")) then Err(EmployeeRequired)
        else
          var withEmployee := Merge(withDescription, "employee", Field(p, "employee"));
          CreateByArraySteps(p);
          Ok(Assemble(ByIsset, withEmployee, cands[6..]))
  }

  lemma CreateByArraySteps(p: seq<(Key, Value)>)
    requires Isset(Field(p, "description")) && Isset(Field(p, "employee"))
    ensures var cands := ArrayCandidates(p);
      Assemble(ByIsset,
        Merge(Merge(Assemble(ByIsset, [], cands[..4]), "description", Field(p, "description")), "employee", Field(p, "employee")),
        cands[6..])
      == Selected(ByIsset, cands)
  {
    var cands := ArrayCandidates(p);
    var leading := Assemble(ByIsset, [], cands[..4]);
    var d := Merge(leading, "description", Field(p, "description"));
    assert cands == cands[..4] + (cands[4..5] + (cands[5..6] + cands[6..]));
    AssembleConcat(ByIsset, [], cands[..4], cands[4..5] + (cands[5..6] + cands[6..]));
    AssembleConcat(ByIsset, leading, cands[4..5], cands[5..6] + cands[6..]);
    assert cands[4..5] == [("description", Field(p, "description"))];
    assert Assemble(ByIsset, leading, cands[4..5]) == d;
    AssembleConcat(ByIsset, d, cands[5..6], cands[6..]);
    assert cands[5..6] == [("employee", Field(p, "employee"))];
    assert Assemble(ByIsset, d, cands[5..6]) == Merge(d, "employee", Field(p, "employee"));
    CreateCandidatesDistinct(Field(p, "employee"), Field(p, "description"), Field(p, "amount"), Field(p, "cost"),
                             Field(p, "invoiced_amount"), Field(p, "currency"), Field(p, "metadata"),
                             Field(p, "start_at"), Field(p, "end_at"), Field(p, "id"));
    AssembleSelects(ByIsset, cands);
  }

  /** The first check one entry of `createMultiple` fails, if any. An entry
      that is not an array has no fields. */
  function EntryError(payout: Value): (m: Option<string>)
    ensures m.None? <==>
      Isset(Index(payout, StrKey("employee"))) && Isset(Index(payout, StrKey("description"))) &&
      (Isset(Index(payout, StrKey("amount"))) || Isset(Index(payout, StrKey("cost"))) ||
       Isset(Index(payout, StrKey("invoiced_amount"))))
    ensures m == Some(EmployeeFieldRequired) <==> !Isset(Index(payout, StrKey("employee")))
    ensures m == Some(DescriptionFieldRequired) <==>
      Isset(Index(payout, StrKey("employee"))) && !Isset(Index(payout, StrKey("description")))
    ensures m == Some(AmountRequired) <==>
      Isset(Index(payout, StrKey("employee"))) && Isset(Index(payout, StrKey("description"))) &&
      !Isset(Index(payout, StrKey("amount"))) && !Isset(Index(payout, StrKey("cost"))) &&
      !Isset(Index(payout, StrKey("invoiced_amount")))
  {
    if !Isset(Index(payout, StrKey("employee"))) then Some(EmployeeFieldRequired)
    else if !Isset(Index(payout, StrKey("description"))) then Some(DescriptionFieldRequired)
    else if !Isset(Index(payout, StrKey("amount"))) && !Isset(Index(payout, StrKey("cost"))) &&
            !Isset(Index(payout, StrKey("invoiced_amount"))) then Some(AmountRequired)
    else None
  }

  /** The message `createMultiple` throws: that of the first entry failing
      a check. */
  function FirstError(es: seq<(Key, Value)>): Option<string>
    decreases |es|
  {
    if es == [] then None
    else if EntryError(es[0].1).Some? then EntryError(es[0].1)
    else FirstError(es[1..])
  }

  /** No error exactly when every entry passes; otherwise the error is that of
      an entry all of whose predecessors pass. */
  lemma FirstErrorIsFirst(es: seq<(Key, Value)>)
    ensures FirstError(es).None? <==> forall i :: 0 <= i < |es| ==> EntryError(es[i].1).None?
    ensures FirstError(es).Some? ==> exists i :: (0 <= i < |es| && FirstError(es) == EntryError(es[i].1) &&
      forall j :: 0 <= j < i ==> EntryError(es[j].1).None?)
  {
    NoErrorWhenAllPass(es);
    ErrorOfFirstFailure(es);
  }

  lemma {:induction false} NoErrorWhenAllPass(es: seq<(Key, Value)>)
    ensures FirstError(es).None? <==> forall i :: 0 <= i < |es| ==> EntryError(es[i].1).None?
    decreases |es|
  {
    if es != [] {
      NoErrorWhenAllPass(es[1..]);
      if EntryError(es[0].1).None? && FirstError(es[1..]).None? {
        forall i | 0 <= i < |es| ensures EntryError(es[i].1).None? {
          if i > 0 {
            assert es[i] == es[1..][i - 1];
          }
        }
      }
      if FirstError(es).Some? && EntryError(es[0].1).None? {
        var k :| 0 <= k < |es[1..]| && EntryError(es[1..][k].1).Some?;
        assert es[k + 1] == es[1..][k];
      }
    }
  }

  lemma {:induction false} ErrorOfFirstFailure(es: seq<(Key, Value)>)
    ensures FirstError(es).Some? ==> exists i :: (0 <= i < |es| && FirstError(es) == EntryError(es[i].1) &&
      forall j :: 0 <= j < i ==> EntryError(es[j].1).None?)
    decreases |es|
  {
    if es != [] {
      ErrorOfFirstFailure(es[1..]);
      if EntryError(es[0].1).None? && FirstError(es[1..]).Some? {
        var k :| 0 <= k < |es[1..]| && FirstError(es[1..]) == EntryError(es[1..][k].1) &&
          forall j :: 0 <= j < k ==> EntryError(es[1..][j].1).None?;
        assert es[k + 1] == es[1..][k];
        forall j | 0 <= j < k + 1 ensures EntryError(es[j].1).None? {
          if j > 0 {
            assert es[j] == es[1..][j - 1];
          }
        }
      }
    }
  }

  class Payout {
    var id: Value
    var amount: Value
    var invoicedAmount: Value
    var cost: Value
    var country: Value
    var currency: Value
    var description: Value
    var fullSalarySpecification: Value
    var employee: Value
    var invoice: Value
    var metadata: Value
    var startAt: Value
    var endAt: Value
    var createdAt: Value
    var notifiedAt: Value
    var acceptedAt: Value

    /** The fields, in `PayoutKeys` order. */
    function Values(): (vs: seq<Value>)
      reads this
      ensures |vs| == |PayoutKeys|
    {
      Front() + Back()
    }

    function Front(): seq<Value>
      reads this
    {
      [id, amount, invoicedAmount, cost, country, currency, description, fullSalarySpecification]
    }

    function Back(): seq<Value>
      reads this
    {
      [employee, invoice, metadata, startAt, endAt, createdAt, notifiedAt, acceptedAt]
    }

    /** `new Payout($json)`: each field is `$json->field ?? null`. */
    constructor (json: Value)
      ensures Values() == ReadAll(PayoutKeys, json)
    {
      PayoutKeysRead(json);
      id := Prop(json, "id");
      amount := Prop(json, "amount");
      invoicedAmount := Prop(json, "invoiced_amount");
      cost := Prop(json, "cost");
      country := Prop(json, "country");
      currency := Prop(json, "currency");
      description := Prop(json, "description");
      fullSalarySpecification := Prop(json, "full_salary_specification");
      employee := Prop(json, "employee");
      invoice := Prop(json, "invoice");
      metadata := Prop(json, "metadata");
      startAt := Prop(json, "start_at");
      endAt := Prop(json, "end_at");
      createdAt := Prop(json, "created_at");
      notifiedAt := Prop(json, "notified_at");
      acceptedAt := Prop(json, "accepted_at");
    }

    /** `getJson()`: an object with the sixteen fields; constructing a Payout
        from it gives back the same fields. */
    function GetJson(): (r: Value)
      reads this
      ensures r.Obj? && |r.props| == |PayoutKeys|
      ensures ReadAll(PayoutKeys, r) == Values()
    {
      PayoutKeysDistinct();
      ReadAllObjectOf(PayoutKeys, Values());
      ObjectOf(PayoutKeys, Values())
    }

    /** `getUrl() . '/' . $this->id`. */
    function Address(cfg: Config): Result<string, Failure>
      reads this
    {
      ItemUrl(PayoutUrl(cfg), id)
    }

    /** `destroy()`: a DELETE, then all sixteen fields are null. */
    method Destroy(cfg: Config, outcome: Outcome) returns (thrown: Option<Failure>, sent: Option<Request>)
      modifies this
      ensures sent == SentTo(cfg, DELETE, old(Address(cfg)), Null)
      ensures thrown == ErrorOf(Reached(cfg, old(Address(cfg)), outcome))
      ensures Values() == if thrown.None? then Nulls(16) else old(Values())
    {
      var res;
      res, sent := CallAt(cfg, DELETE, Address(cfg), Null, outcome);
      thrown := ErrorOf(res);
      if thrown.None? {
        Clear();
      }
    }

    /** The sixteen assignments that end `destroy`. */
    method Clear()
      modifies this
      ensures Values() == Nulls(16)
    {
      ClearFront();
      ClearBack();
      SixteenNulls();
    }

    method ClearFront()
      modifies this
      ensures Front() == [Null, Null, Null, Null, Null, Null, Null, Null]
      ensures Back() == old(Back())
    {
      id, amount, invoicedAmount, cost := Null, Null, Null, Null;
      country, currency, description, fullSalarySpecification := Null, Null, Null, Null;
    }

    method ClearBack()
      modifies this
      ensures Front() == old(Front())
      ensures Back() == [Null, Null, Null, Null, Null, Null, Null, Null]
    {
      employee, invoice, metadata, startAt := Null, Null, Null, Null;
      endAt, createdAt, notifiedAt, acceptedAt := Null, Null, Null, Null;
    }

    /** `resend()`: a PATCH on `/payouts/{id}/resend`, then `findById($this->id)`. */
    method Resend(cfg: Config, patched: Outcome, fetched: Outcome) returns (r: Result<Payout, Failure>, sent: seq<Request>)
      ensures Reached(cfg, ResendUrl(PayoutUrl(cfg), id), patched).Err? ==>
        r == Err(Reached(cfg, ResendUrl(PayoutUrl(cfg), id), patched).error) &&
        sent == Requests(SentTo(cfg, PATCH, ResendUrl(PayoutUrl(cfg), id), Null))
      ensures Reached(cfg, ResendUrl(PayoutUrl(cfg), id), patched).Ok? ==>
        sent == Requests(SentTo(cfg, PATCH, ResendUrl(PayoutUrl(cfg), id), Null)) +
                Requests(SentTo(cfg, GET, Address(cfg), Null)) &&
        Made(r, Reached(cfg, Address(cfg), fetched))
      ensures r.Ok? ==> fresh(r.value)
    {
      var res, first := CallAt(cfg, PATCH, ResendUrl(PayoutUrl(cfg), id), Null, patched);
      if res.Err? {
        return Err(res.error), Requests(first);
      }
      var second;
      r, second := FindById(cfg, id, fetched);
      sent := Requests(first) + Requests(second);
    }

    /** `expandInvoice()`: a falsy reference throws; otherwise the invoice is
        fetched and only the `invoice` field becomes its `getJson()`. */
    method ExpandInvoice(cfg: Config, outcome: Outcome) returns (thrown: Option<Failure>, sent: Option<Request>)
      modifies this
      ensures !Truthy(old(invoice)) ==> thrown == Some(Thrown(NoInvoice)) && sent == None
      ensures Truthy(old(invoice)) ==>
        sent == SentTo(cfg, GET, ItemUrl(InvoiceUrl(cfg), old(invoice)), Null) &&
        thrown == ErrorOf(Reached(cfg, ItemUrl(InvoiceUrl(cfg), old(invoice)), outcome))
      ensures thrown.None? ==> (Values() ==
        old(Values())[9 := Snapshot(Invoices.InvoiceKeys, Reached(cfg, ItemUrl(InvoiceUrl(cfg), old(invoice)), outcome).value)])
      ensures thrown.Some? ==> Values() == old(Values())
    {
      if !Truthy(invoice) {
        return Some(Thrown(NoInvoice)), None;
      }
      var found;
      found, sent := Invoices.FindById(cfg, invoice, outcome);
      if found.Err? {
        return Some(found.error), sent;
      }
      var json := found.value.GetJson();
      assert json == Snapshot(Invoices.InvoiceKeys, Reached(cfg, ItemUrl(InvoiceUrl(cfg), invoice), outcome).value) by {
        assert found.value.Values() == ReadAll(Invoices.InvoiceKeys, Reached(cfg, ItemUrl(InvoiceUrl(cfg), invoice), outcome).value);
      }
      SetInvoice(json);
      thrown := None;
    }

    /** `expandEmployee()`: a falsy reference throws; otherwise the employee
        is fetched and only the `employee` field becomes its `getJson()`. */
    method ExpandEmployee(cfg: Config, outcome: Outcome) returns (thrown: Option<Failure>, sent: Option<Request>)
      modifies this
      ensures !Truthy(old(employee)) ==> thrown == Some(Thrown(NoEmployee)) && sent == None
      ensures Truthy(old(employee)) ==>
        sent == SentTo(cfg, GET, ItemUrl(EmployeeUrl(cfg), old(employee)), Null) &&
        thrown == ErrorOf(Reached(cfg, ItemUrl(EmployeeUrl(cfg), old(employee)), outcome))
      ensures thrown.None? ==> (Values() ==
        old(Values())[8 := Snapshot(Employees.EmployeeKeys, Reached(cfg, ItemUrl(EmployeeUrl(cfg), old(employee)), outcome).value)])
      ensures thrown.Some? ==> Values() == old(Values())
    {
      if !Truthy(employee) {
        return Some(Thrown(NoEmployee)), None;
      }
      var found;
      found, sent := Employees.FindById(cfg, employee, outcome);
      if found.Err? {
        return Some(found.error), sent;
      }
      var json := found.value.GetJson();
      assert json == Snapshot(Employees.EmployeeKeys, Reached(cfg, ItemUrl(EmployeeUrl(cfg), employee), outcome).value) by {
        assert found.value.Values() == ReadAll(Employees.EmployeeKeys, Reached(cfg, ItemUrl(EmployeeUrl(cfg), employee), outcome).value);
      }
      SetEmployee(json);
      thrown := None;
    }
    /** The one assignment that ends `expandInvoice`. */
    method SetInvoice(v: Value)
      modifies this
      ensures Values() == old(Values())[9 := v]
    {
      invoice := v;
    }

    /** The one assignment that ends `expandEmployee`. */
    method SetEmployee(v: Value)
      modifies this
      ensures Values() == old(Values())[8 := v]
    {
      employee := v;
    }
  }

  /** Once expanded, the reference is an object, which `findById` cannot put
      into a URL: expanding twice raises a PHP Error without a request. */
  lemma SecondExpansionFails(cfg: Config, body: Value)
    ensures Truthy(Snapshot(Invoices.InvoiceKeys, body))
    ensures ItemUrl(InvoiceUrl(cfg), Snapshot(Invoices.InvoiceKeys, body)) == Err(EngineError(ObjectToStringError))
    ensures ItemUrl(EmployeeUrl(cfg), Snapshot(Employees.EmployeeKeys, body)) == Err(EngineError(ObjectToStringError))
  {
  }

  /** A new Payout built from what the call returned; the call's failure
      otherwise. */
  predicate Made(r: Result<Payout, Failure>, res: Result<Value, Failure>)
    reads if r.Ok? then {r.value} else {}
  {
    (r.Ok? <==> res.Ok?) &&
    (r.Ok? ==> r.value.Values() == ReadAll(PayoutKeys, res.value)) &&
    (r.Err? ==> r.error == res.error)
  }

  method FromResponse(res: Result<Value, Failure>) returns (r: Result<Payout, Failure>)
    ensures Made(r, res)
    ensures r.Ok? ==> fresh(r.value)
  {
    if res.Err? {
      return Err(res.error);
    }
    var p := new Payout(res.value);
    r := Ok(p);
  }

  /** `Payout::create(...)`: nothing is sent when validation throws;
      otherwise a POST with `form_params` to `/payouts`. */
  method Create(cfg: Config, employee: Value, description: Value, amount: Value, cost: Value, invoicedAmount: Value,
                currency: Value, metadata: Value, startAt: Value, endAt: Value, id: Value, outcome: Outcome)
    returns (r: Result<Payout, Failure>, sent: Option<Request>)
    ensures CreateParams(employee, description, amount, cost, invoicedAmount, currency, metadata, startAt, endAt, id).Err? ==>
      r == Err(Thrown(AmountRequired)) && sent == None
    ensures CreateParams(employee, description, amount, cost, invoicedAmount, currency, metadata, startAt, endAt, id).Ok? ==>
      sent == Sent(cfg, POST, PayoutUrl(cfg),
        FormParams(CreateParams(employee, description, amount, cost, invoicedAmount, currency, metadata, startAt, endAt, id).value)) &&
      Made(r, Response(cfg, outcome))
    ensures r.Ok? ==> fresh(r.value)
  {
    var ps := CreateParams(employee, description, amount, cost, invoicedAmount, currency, metadata, startAt, endAt, id);
    if ps.Err? {
      return Err(Thrown(ps.error)), None;
    }
    var res;
    res, sent := Call(cfg, POST, PayoutUrl(cfg), FormParams(ps.value), outcome);
    r := FromResponse(res);
  }

  /** `Payout::createInline(...)`: a POST with a `json` body to
      `/payouts/?expand=employee`. */
  method CreateInline(cfg: Config, id: Value, currency: Value, description: Value, employee: Value, invoicedAmount: Value,
                      metadata: Value, outcome: Outcome)
    returns (r: Result<Payout, Failure>, sent: Option<Request>)
    ensures !Truthy(invoicedAmount) ==> r == Err(Thrown(InvoicedAmountRequired)) && sent == None
    ensures Truthy(invoicedAmount) ==>
      sent == Sent(cfg, POST, InlinePayoutUrl(cfg),
        JsonBody(Arr(InlineParams(id, currency, description, employee, invoicedAmount, metadata).value))) &&
      Made(r, Response(cfg, outcome))
    ensures r.Ok? ==> fresh(r.value)
  {
    var ps := InlineParams(id, currency, description, employee, invoicedAmount, metadata);
    if ps.Err? {
      return Err(Thrown(ps.error)), None;
    }
    var res;
    res, sent := Call(cfg, POST, InlinePayoutUrl(cfg), JsonBody(Arr(ps.value)), outcome);
    r := FromResponse(res);
  }

  /** `Payout::createByArray($payout)`. */
  method CreateByArray(cfg: Config, p: seq<(Key, Value)>, outcome: Outcome)
    returns (r: Result<Payout, Failure>, sent: Option<Request>)
    ensures CreateByArrayParams(p).Err? ==> r == Err(Thrown(CreateByArrayParams(p).error)) && sent == None
    ensures CreateByArrayParams(p).Ok? ==>
      sent == Sent(cfg, POST, PayoutUrl(cfg), FormParams(CreateByArrayParams(p).value)) &&
      Made(r, Response(cfg, outcome))
    ensures r.Ok? ==> fresh(r.value)
  {
    var ps := CreateByArrayParams(p);
    if ps.Err? {
      return Err(Thrown(ps.error)), None;
    }
    var res;
    res, sent := Call(cfg, POST, PayoutUrl(cfg), FormParams(ps.value), outcome);
    r := FromResponse(res);
  }

  /** `Payout::createMultiple($payouts)`: every entry is validated before the
      single POST of the whole array as `json`; then one Payout per element
      of the answer, in order. */
  method CreateMultiple(cfg: Config, payouts: seq<(Key, Value)>, outcome: Outcome)
    returns (r: Result<seq<Payout>, Failure>, sent: Option<Request>)
    ensures FirstError(payouts).Some? ==> r == Err(Thrown(FirstError(payouts).value)) && sent == None
    ensures FirstError(payouts).None? ==>
      sent == Sent(cfg, POST, PayoutUrl(cfg), JsonBody(Arr(payouts))) &&
      (r.Ok? <==> Response(cfg, outcome).Ok?) &&
      (r.Err? ==> r.error == Response(cfg, outcome).error)
    ensures r.Ok? ==>
      |r.value| == |Entries(Response(cfg, outcome).value)| &&
      forall i :: 0 <= i < |r.value| ==>
        fresh(r.value[i]) && r.value[i].Values() == ReadAll(PayoutKeys, Entries(Response(cfg, outcome).value)[i].1)
  {
    var m := Validate(payouts);
    if m.Some? {
      return Err(Thrown(m.value)), None;
    }
    var res;
    res, sent := Call(cfg, POST, PayoutUrl(cfg), JsonBody(Arr(payouts)), outcome);
    if res.Err? {
      return Err(res.error), sent;
    }
    var instances := Instantiate(Entries(res.value));
    r := Ok(instances);
  }

  /** The validation loop of `createMultiple`: stops at the first entry that
      fails a check. */
  method Validate(payouts: seq<(Key, Value)>) returns (m: Option<string>)
    ensures m == FirstError(payouts)
  {
    var i := 0;
    while i < |payouts|
      invariant 0 <= i <= |payouts|
      invariant FirstError(payouts[i..]) == FirstError(payouts)
    {
      assert payouts[i..][0] == payouts[i];
      m := EntryError(payouts[i].1);
      if m.Some? {
        return;
      }
      assert payouts[i..][1..] == payouts[i + 1..];
      i := i + 1;
    }
    m := None;
  }

  /** The construction loop of `createMultiple`: one new Payout per element
      of the answer, in order. */
  method Instantiate(es: seq<(Key, Value)>) returns (instances: seq<Payout>)
    ensures |instances| == |es|
    ensures forall i :: 0 <= i < |es| ==> fresh(instances[i]) && instances[i].Values() == ReadAll(PayoutKeys, es[i].1)
  {
    instances := [];
    var k := 0;
    while k < |es|
      invariant 0 <= k <= |es| && |instances| == k
      invariant forall j :: 0 <= j < k ==> fresh(instances[j]) && instances[j].Values() == ReadAll(PayoutKeys, es[j].1)
    {
      var p := new Payout(es[k].1);
      instances := instances + [p];
      k := k + 1;
    }
  }

  /** `Payout::list()`. */
  method List(cfg: Config) returns (l: ListResource)
    ensures fresh(l) && l.url == PayoutUrl(cfg)
  {
    l := new ListResource(PayoutUrl(cfg));
  }

  /** `Payout::findById($id)`: a GET on `/payouts/{id}`. */
  method FindById(cfg: Config, id: Value, outcome: Outcome) returns (r: Result<Payout, Failure>, sent: Option<Request>)
    ensures sent == SentTo(cfg, GET, ItemUrl(PayoutUrl(cfg), id), Null)
    ensures Made(r, Reached(cfg, ItemUrl(PayoutUrl(cfg), id), outcome))
    ensures r.Ok? ==> fresh(r.value)
  {
    var res;
    res, sent := CallAt(cfg, GET, ItemUrl(PayoutUrl(cfg), id), Null, outcome);
    r := FromResponse(res);
  }
}
