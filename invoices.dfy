/** The Invoice resource: its ten fields, the fixed updates of `updateId`,
    `updateMetaDate`, `save` and `destroy`, and the URLs of `findById` and
    `resend`. `json_decode` of a metadata string is the parameter `decode`. */
module Invoices {
  import opened Php
  import opened Managers
  import opened Endpoints
  import opened Resources

  /** The fields in the order the constructor reads them and `getJson`
      writes them. */
  const InvoiceKeys: seq<string> :=
    ["id", "app", "price", "currency", "ocr_number", "metadata", "open", "paid_at", "pdf", "created_at"]

  /** The constructor's reads, one key at a time. */
  lemma InvoiceKeysRead(json: Value)
    ensures ReadAll(InvoiceKeys, json) ==
      [Prop(json, "id"), Prop(json, "app"), Prop(json, "price"), Prop(json, "currency"),
       Prop(json, "ocr_number"), Prop(json, "metadata"), Prop(json, "open"), Prop(json, "paid_at"),
       Prop(json, "pdf"), Prop(json, "created_at")]
  {
    ReadAllTen("id", "app", "price", "currency", "ocr_number", "metadata", "open", "paid_at", "pdf", "created_at", json);
  }

  lemma InvoiceKeysDistinct()
    ensures Distinct(InvoiceKeys)
  {
  }

  class Invoice {
    var id: Value
    var app: Value
    var price: Value
    var currency: Value
    var ocrNumber: Value
    var metadata: Value
    var open: Value
    var paidAt: Value
    var pdf: Value
    var createdAt: Value

    /** The fields, in `InvoiceKeys` order. */
    function Values(): (vs: seq<Value>)
      reads this
      ensures |vs| == |InvoiceKeys|
    {
      [id, app, price, currency, ocrNumber, metadata, open, paidAt, pdf, createdAt]
    }

    /** `new Invoice($json)`: each field is `$json->field`, null (with a
        warning) when it is missing. */
    constructor (json: Value)
      ensures Values() == ReadAll(InvoiceKeys, json)
    {
      InvoiceKeysRead(json);
      id := Prop(json, "id");
      app := Prop(json, "app");
      price := Prop(json, "price");
      currency := Prop(json, "currency");
      ocrNumber := Prop(json, "ocr_number");
      metadata := Prop(json, "metadata");
      open := Prop(json, "open");
      paidAt := Prop(json, "paid_at");
      pdf := Prop(json, "pdf");
      createdAt := Prop(json, "created_at");
    }

    /** `getJson()`: an object with the ten fields; constructing an Invoice
        from it gives back the same fields. */
    function GetJson(): (r: Value)
      reads this
      ensures r.Obj? && |r.props| == |InvoiceKeys|
      ensures ReadAll(InvoiceKeys, r) == Values()
    {
      InvoiceKeysDistinct();
      ReadAllObjectOf(InvoiceKeys, Values());
      ObjectOf(InvoiceKeys, Values())
    }

    /** `getUrl() . '/' . $this->id`. */
    function Address(cfg: Config): Result<string, Failure>
      reads this
    {
      ItemUrl(InvoiceUrl(cfg), id)
    }

    /** `updateId($new_id)`: a one-key PATCH to the old id's URL; only `id`
        changes, and only when the call returned. */
    method UpdateId(cfg: Config, newId: Value, outcome: Outcome) returns (thrown: Option<Failure>, sent: Option<Request>)
      modifies this
      ensures sent == SentTo(cfg, PATCH, old(Address(cfg)), FormParams([(StrKey("id"), newId)]))
      ensures thrown == ErrorOf(Reached(cfg, old(Address(cfg)), outcome))
      ensures Values() == if thrown.None? then old(Values())[0 := newId] else old(Values())
    {
      var res;
      res, sent := CallAt(cfg, PATCH, Address(cfg), FormParams([(StrKey("id"), newId)]), outcome);
      thrown := ErrorOf(res);
      if thrown.None? {
        id := newId;
      }
    }

    /** `updateMetaDate($new_metadata)`: sends the string, then keeps its
        decoded form. */
    method UpdateMetaDate(cfg: Config, decode: string -> Value, newMetadata: string, outcome: Outcome)
      returns (thrown: Option<Failure>, sent: Option<Request>)
      modifies this
      ensures sent == SentTo(cfg, PATCH, old(Address(cfg)), FormParams([(StrKey("metadata"), Str(newMetadata))]))
      ensures thrown == ErrorOf(Reached(cfg, old(Address(cfg)), outcome))
      ensures Values() == if thrown.None? then old(Values())[5 := decode(newMetadata)] else old(Values())
    {
      var res;
      res, sent := CallAt(cfg, PATCH, Address(cfg), FormParams([(StrKey("metadata"), Str(newMetadata))]), outcome);
      thrown := ErrorOf(res);
      if thrown.None? {
        metadata := decode(newMetadata);
      }
    }

    /** `save()`: only `id` and `metadata` are sent; afterwards `metadata` is
        replaced by `json_decode((string)$this->metadata)`, which raises a
        PHP Error, after the request, when it is an object. */
    method Save(cfg: Config, decode: string -> Value, outcome: Outcome) returns (thrown: Option<Failure>, sent: Option<Request>)
      modifies this
      ensures sent == SentTo(cfg, PATCH, old(Address(cfg)), FormParams([(StrKey("id"), old(id)), (StrKey("metadata"), old(metadata))]))
      ensures Reached(cfg, old(Address(cfg)), outcome).Err? ==> thrown == ErrorOf(Reached(cfg, old(Address(cfg)), outcome))
      ensures Reached(cfg, old(Address(cfg)), outcome).Ok? && old(metadata).Obj? ==>
        thrown == Some(EngineError(ObjectToStringError))
      ensures thrown.None? <==> Reached(cfg, old(Address(cfg)), outcome).Ok? && !old(metadata).Obj?
      ensures thrown.None? ==> Values() == old(Values())[5 := decode(StringOf(old(metadata)).value)]
      ensures thrown.Some? ==> Values() == old(Values())
    {
      var res;
      res, sent := CallAt(cfg, PATCH, Address(cfg), FormParams([(StrKey("id"), id), (StrKey("metadata"), metadata)]), outcome);
      if res.Err? {
        return Some(res.error), sent;
      }
      match StringOf(metadata)
      case None =>
        thrown := Some(EngineError(ObjectToStringError));
      case Some(text) =>
        metadata := decode(text);
        thrown := None;
    }

    /** `destroy()`: a DELETE, then all ten fields are null. */
    method Destroy(cfg: Config, outcome: Outcome) returns (thrown: Option<Failure>, sent: Option<Request>)
      modifies this
      ensures sent == SentTo(cfg, DELETE, old(Address(cfg)), Null)
      ensures thrown == ErrorOf(Reached(cfg, old(Address(cfg)), outcome))
      ensures Values() == if thrown.None? then Nulls(|InvoiceKeys|) else old(Values())
    {
      var res;
      res, sent := CallAt(cfg, DELETE, Address(cfg), Null, outcome);
      thrown := ErrorOf(res);
      if thrown.None? {
        id, app, price, currency, ocrNumber := Null, Null, Null, Null, Null;
        metadata, open, paidAt, pdf, createdAt := Null, Null, Null, Null, Null;
      }
    }

    /** `resend()`: a PATCH on the PAYOUTS URL `/payouts/{id}/resend`, then
        `findById($this->id)` on the invoices. */
    method Resend(cfg: Config, patched: Outcome, fetched: Outcome) returns (r: Result<Invoice, Failure>, sent: seq<Request>)
      ensures Reached(cfg, ResendUrl(PayoutUrl(cfg), id), patched).Err? ==>
        r == Err(Reached(cfg, ResendUrl(PayoutUrl(cfg), id), patched).error) &&
        sent == Requests(SentTo(cfg, PATCH, ResendUrl(PayoutUrl(cfg), id), Null))
      ensures Reached(cfg, ResendUrl(PayoutUrl(cfg), id), patched).Ok? ==>
        sent == Requests(SentTo(cfg, PATCH, ResendUrl(PayoutUrl(cfg), id), Null)) +
                Requests(SentTo(cfg, GET, Address(cfg), Null)) &&
        Made(r, Reached(cfg, Address(cfg), fetched))
      ensures r.Ok? ==> fresh(r.value)
    {
      var res, first := CallAt(cfg, PATCH, ResendUrl(PayoutUrl(cfg), id), Null, patched);
      if res.Err? {
        return Err(res.error), Requests(first);
      }
      var second;
      r, second := FindById(cfg, id, fetched);
      sent := Requests(first) + Requests(second);
    }
  }

  /** A new Invoice built from what the call returned; the call's failure
      otherwise. */
  predicate Made(r: Result<Invoice, Failure>, res: Result<Value, Failure>)
    reads if r.Ok? then {r.value} else {}
  {
    (r.Ok? <==> res.Ok?) &&
    (r.Ok? ==> r.value.Values() == ReadAll(InvoiceKeys, res.value)) &&
    (r.Err? ==> r.error == res.error)
  }

  method FromResponse(res: Result<Value, Failure>) returns (r: Result<Invoice, Failure>)
    ensures Made(r, res)
    ensures r.Ok? ==> fresh(r.value)
  {
    if res.Err? {
      return Err(res.error);
    }
    var i := new Invoice(res.value);
    r := Ok(i);
  }

  /** `Invoice::list()`. */
  method List(cfg: Config) returns (l: ListResource)
    ensures fresh(l) && l.url == InvoiceUrl(cfg)
  {
    l := new ListResource(InvoiceUrl(cfg));
  }

  /** `Invoice::findById($id)`: a GET on `/invoices/{id}`. */
  method FindById(cfg: Config, id: Value, outcome: Outcome) returns (r: Result<Invoice, Failure>, sent: Option<Request>)
    ensures sent == SentTo(cfg, GET, ItemUrl(InvoiceUrl(cfg), id), Null)
    ensures Made(r, Reached(cfg, ItemUrl(InvoiceUrl(cfg), id), outcome))
    ensures r.Ok? ==> fresh(r.value)
  {
    var res;
    res, sent := CallAt(cfg, GET, ItemUrl(InvoiceUrl(cfg), id), Null, outcome);
    r := FromResponse(res);
  }

  /** `resend` does not address the invoices collection at all. */
  lemma ResendTargetsPayouts(cfg: Config, id: Value)
    requires !id.Obj?
    ensures ResendUrl(PayoutUrl(cfg), id).value == PayoutUrl(cfg) + "/" + StringOf(id).value + "/resend"
    ensures !(InvoiceUrl(cfg) + "/" <= ResendUrl(PayoutUrl(cfg), id).value)
  {
    var n := |Server(cfg)|;
    var u := ResendUrl(PayoutUrl(cfg), id).value;
    assert u[n + 1] == 'p';
    assert (InvoiceUrl(cfg) + "/")[n + 1] == 'i';
  }
}
