/** The Pricing resource: the validation and parameter order of
    `calculatePricing`, whose `description` is merged twice, and the nine
    fields of a price calculation. */
module Pricings {
  import opened Php
  import opened Managers
  import opened Endpoints
  import opened Resources

  /** The fields in the order the constructor reads them and `getJson`
      writes them. */
  const PricingKeys: seq<string> :=
    ["amount", "invoiced_amount", "cost", "currency", "fee", "health_insurance", "payroll", "tax", "vat"]

  /** The constructor's reads, one key at a time. */
  lemma PricingKeysRead(json: Value)
    ensures ReadAll(PricingKeys, json) ==
      [Prop(json, "amount"), Prop(json, "invoiced_amount"), Prop(json, "cost"),
       Prop(json, "currency"), Prop(json, "fee"), Prop(json, "health_insurance"),
       Prop(json, "payroll"), Prop(json, "tax"), Prop(json, "vat")]
  {
    ReadAllNine("amount", "invoiced_amount", "cost", "currency", "fee", "health_insurance", "payroll", "tax", "vat", json);
  }

  lemma PricingKeysDistinct()
    ensures Distinct(PricingKeys)
  {
  }

  const AmountRequired := "Either cost or amount or invoiced_amount is required."

  /** The first ten guarded merges of `calculatePricing`. */
  function LeadingCandidates(employee: Value, currency: Value, cost: Value, amount: Value, invoicedAmount: Value,
                             description: Value, fullSalarySpecification: Value, metadata: Value, startAt: Value, endAt: Value)
    : seq<(string, Value)>
  {
    [("employee", employee), ("currency", currency), ("cost", cost), ("amount", amount),
     ("invoiced_amount", invoicedAmount), ("description", description),
     ("full_salary_specification", fullSalarySpecification), ("metadata", metadata),
     ("start_at", startAt), ("end_at", endAt)]
  }

  const LeadingNames: seq<string> :=
    ["employee", "currency", "cost", "amount", "invoiced_amount", "description",
     "full_salary_specification", "metadata", "start_at", "end_at"]

  lemma LeadingNamesDistinct()
    ensures Distinct(LeadingNames) && "id" !in LeadingNames
  {
  }

  /** Every guarded merge `calculatePricing` performs, in order:
      `description` is tested and merged a second time, before `id`. */
  function MergeSteps(employee: Value, currency: Value, cost: Value, amount: Value, invoicedAmount: Value,
                      description: Value, fullSalarySpecification: Value, metadata: Value, startAt: Value, endAt: Value,
                      id: Value)
    : seq<(string, Value)>
  {
    LeadingCandidates(employee, currency, cost, amount, invoicedAmount, description, fullSalarySpecification,
                      metadata, startAt, endAt)
    + [("description", description), ("id", id)]
  }

  /** The parameters as they should come out: each field once. */
  function PricingCandidates(employee: Value, currency: Value, cost: Value, amount: Value, invoicedAmount: Value,
                             description: Value, fullSalarySpecification: Value, metadata: Value, startAt: Value, endAt: Value,
                             id: Value)
    : seq<(string, Value)>
  {
    LeadingCandidates(employee, currency, cost, amount, invoicedAmount, description, fullSalarySpecification,
                      metadata, startAt, endAt)
    + [("id", id)]
  }

  /** `calculatePricing`: one truthy amount is required; the parameters are
      the truthy arguments in the order employee, currency, cost, amount,
      invoiced_amount, description, full_salary_specification, metadata,
      start_at, end_at, id, with `description` once, at its first place. */
  function PricingParams(employee: Value, currency: Value, cost: Value, amount: Value, invoicedAmount: Value,
                         description: Value, fullSalarySpecification: Value, metadata: Value, startAt: Value, endAt: Value,
                         id: Value)
    : (r: Result<seq<(Key, Value)>, string>)
    ensures r.Err? <==> !Truthy(cost) && !Truthy(amount) && !Truthy(invoicedAmount)
    ensures r.Err? ==> r.error == AmountRequired
    ensures r.Ok? ==> (r.value == Selected(ByTruthiness, PricingCandidates(employee, currency, cost, amount, invoicedAmount,
                        description, fullSalarySpecification, metadata, startAt, endAt, id)))
  {
    if !Truthy(cost) && !Truthy(amount) && !Truthy(invoicedAmount) then Err(AmountRequired)
    else
      DescriptionMergedOnce(employee, currency, cost, amount, invoicedAmount, description, fullSalarySpecification,
                            metadata, startAt, endAt, id);
      Ok(Assemble(ByTruthiness, [], MergeSteps(employee, currency, cost, amount, invoicedAmount, description,
                                               fullSalarySpecification, metadata, startAt, endAt, id)))
  }

  /** Merging one of the distinct leading candidates again, then a further
      candidate with a new name, gives each name once, in the first order. */
  lemma RepeatedMergeThenAppend(p: Presence, lead: seq<(string, Value)>, j: nat, c: (string, Value))
    requires Distinct(KeysOf(lead)) && j < |lead| && c.0 !in KeysOf(lead)
    ensures Assemble(p, [], lead + [lead[j]] + [c]) == Selected(p, lead + [c])
  {
    var s := Selected(p, lead);
    var again := [lead[j]];
    var last := [c];
    assert lead + [lead[j]] + [c] == lead + (again + last);
    AssembleConcat(p, [], lead, again + last);
    AssembleSelects(p, lead);
    AssembleConcat(p, s, again, last);
    assert Assemble(p, s, again) == s by {
      if Present(p, lead[j].1) {
        MergeRepeat(p, lead, j);
      }
    }
    SelectedKeys(p, lead, StrKey(c.0));
    assert KeysOf(last) == [c.0];
    AssembleAppends(p, s, last);
    SelectedConcat(p, lead, last);
  }

  /** The second `description` merge overwrites the first with the same
      value, so the twelve merges amount to eleven distinct parameters. */
  lemma DescriptionMergedOnce(employee: Value, currency: Value, cost: Value, amount: Value, invoicedAmount: Value,
                              description: Value, fullSalarySpecification: Value, metadata: Value, startAt: Value, endAt: Value,
                              id: Value)
    ensures Assemble(ByTruthiness, [], MergeSteps(employee, currency, cost, amount, invoicedAmount, description,
                                                  fullSalarySpecification, metadata, startAt, endAt, id))
         == Selected(ByTruthiness, PricingCandidates(employee, currency, cost, amount, invoicedAmount, description,
                                                     fullSalarySpecification, metadata, startAt, endAt, id))
  {
    var lead := LeadingCandidates(employee, currency, cost, amount, invoicedAmount, description, fullSalarySpecification,
                                  metadata, startAt, endAt);
    assert KeysOf(lead) == LeadingNames;
    LeadingNamesDistinct();
    assert lead[5] == ("description", description);
    RepeatedMergeThenAppend(ByTruthiness, lead, 5, ("id", id));
    assert MergeSteps(employee, currency, cost, amount, invoicedAmount, description, fullSalarySpecification,
                      metadata, startAt, endAt, id) == lead + [lead[5]] + [("id", id)];
    assert PricingCandidates(employee, currency, cost, amount, invoicedAmount, description, fullSalarySpecification,
                             metadata, startAt, endAt, id) == lead + [("id", id)];
  }

  /** `calculatePricing` sends an argument exactly when it is truthy. */
  lemma PricingParamsHoldTruthyArguments(employee: Value, currency: Value, cost: Value, amount: Value, invoicedAmount: Value,
                                         description: Value, fullSalarySpecification: Value, metadata: Value, startAt: Value,
                                         endAt: Value, id: Value, i: nat)
    requires PricingParams(employee, currency, cost, amount, invoicedAmount, description, fullSalarySpecification,
                           metadata, startAt, endAt, id).Ok?
    requires i < 11
    ensures var cands := PricingCandidates(employee, currency, cost, amount, invoicedAmount, description,
                                           fullSalarySpecification, metadata, startAt, endAt, id);
      StrKey(cands[i].0) in KeysOf(PricingParams(employee, currency, cost, amount, invoicedAmount, description,
                                                 fullSalarySpecification, metadata, startAt, endAt, id).value)
      <==> Truthy(cands[i].1)
  {
    var cands := PricingCandidates(employee, currency, cost, amount, invoicedAmount, description,
                                   fullSalarySpecification, metadata, startAt, endAt, id);
    assert KeysOf(cands) == LeadingNames + ["id"];
    LeadingNamesDistinct();
    SelectedMembership(ByTruthiness, cands, i);
  }

  class Pricing {
    var amount: Value
    var invoicedAmount: Value
    var cost: Value
    var currency: Value
    var fee: Value
    var healthInsurance: Value
    var payroll: Value
    var tax: Value
    var vat: Value

    /** The fields, in `PricingKeys` order. */
    function Values(): (vs: seq<Value>)
      reads this
      ensures |vs| == |PricingKeys|
    {
      [amount, invoicedAmount, cost, currency, fee, healthInsurance, payroll, tax, vat]
    }

    /** `new Pricing($json)`: each field is `$json->field`, null (with a
        warning) when it is missing. */
    constructor (json: Value)
      ensures Values() == ReadAll(PricingKeys, json)
    {
      PricingKeysRead(json);
      amount := Prop(json, "amount");
      invoicedAmount := Prop(json, "invoiced_amount");
      cost := Prop(json, "cost");
      currency := Prop(json, "currency");
      fee := Prop(json, "fee");
      healthInsurance := Prop(json, "health_insurance");
      payroll := Prop(json, "payroll");
      tax := Prop(json, "tax");
      vat := Prop(json, "vat");
    }

    /** `getJson()`: an object with the nine fields; constructing a Pricing
        from it gives back the same fields. */
    function GetJson(): (r: Value)
      reads this
      ensures r.Obj? && |r.props| == |PricingKeys|
      ensures ReadAll(PricingKeys, r) == Values()
    {
      PricingKeysDistinct();
      ReadAllObjectOf(PricingKeys, Values());
      ObjectOf(PricingKeys, Values())
    }
  }

  /** A new Pricing built from what the call returned; the call's failure
      otherwise. */
  predicate Made(r: Result<Pricing, Failure>, res: Result<Value, Failure>)
    reads if r.Ok? then {r.value} else {}
  {
    (r.Ok? <==> res.Ok?) &&
    (r.Ok? ==> r.value.Values() == ReadAll(PricingKeys, res.value)) &&
    (r.Err? ==> r.error == res.error)
  }

  method FromResponse(res: Result<Value, Failure>) returns (r: Result<Pricing, Failure>)
    ensures Made(r, res)
    ensures r.Ok? ==> fresh(r.value)
  {
    if res.Err? {
      return Err(res.error);
    }
    var p := new Pricing(res.value);
    r := Ok(p);
  }

  /** `Pricing::calculatePricing(...)`: nothing is sent when validation
      throws; otherwise a POST with `form_params` to `/pricing`. */
  method CalculatePricing(cfg: Config, employee: Value, currency: Value, cost: Value, amount: Value, invoicedAmount: Value,
                          description: Value, fullSalarySpecification: Value, metadata: Value, startAt: Value, endAt: Value,
                          id: Value, outcome: Outcome)
    returns (r: Result<Pricing, Failure>, sent: Option<Request>)
    ensures PricingParams(employee, currency, cost, amount, invoicedAmount, description, fullSalarySpecification,
                          metadata, startAt, endAt, id).Err? ==>
      r == Err(Thrown(AmountRequired)) && sent == None
    ensures PricingParams(employee, currency, cost, amount, invoicedAmount, description, fullSalarySpecification,
                          metadata, startAt, endAt, id).Ok? ==>
      sent == Sent(cfg, POST, PricingUrl(cfg),
        FormParams(PricingParams(employee, currency, cost, amount, invoicedAmount, description, fullSalarySpecification,
                                 metadata, startAt, endAt, id).value)) &&
      Made(r, Response(cfg, outcome))
    ensures r.Ok? ==> fresh(r.value)
  {
    var ps := PricingParams(employee, currency, cost, amount, invoicedAmount, description, fullSalarySpecification,
                            metadata, startAt, endAt, id);
    if ps.Err? {
      return Err(Thrown(ps.error)), None;
    }
    var res;
    res, sent := Call(cfg, POST, PricingUrl(cfg), FormParams(ps.value), outcome);
    r := FromResponse(res);
  }

  /** `Pricing::list()`. */
  method List(cfg: Config) returns (l: ListResource)
    ensures fresh(l) && l.url == PricingUrl(cfg)
  {
    l := new ListResource(PricingUrl(cfg));
  }

  /** `Pricing::findById($id)`: a GET on `/pricing/{id}`. */
  method FindById(cfg: Config, id: Value, outcome: Outcome) returns (r: Result<Pricing, Failure>, sent: Option<Request>)
    ensures sent == SentTo(cfg, GET, ItemUrl(PricingUrl(cfg), id), Null)
    ensures Made(r, Reached(cfg, ItemUrl(PricingUrl(cfg), id), outcome))
    ensures r.Ok? ==> fresh(r.value)
  {
    var res;
    res, sent := CallAt(cfg, GET, ItemUrl(PricingUrl(cfg), id), Null, outcome);
    r := FromResponse(res);
  }
}
