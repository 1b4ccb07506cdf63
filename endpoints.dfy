/** The resource URLs (`getUrl`, `getInlineUrl`, `findById`, ...) and the one
    call shape every resource shares: build a URL, which can raise a PHP
    Error, then hand it to a fresh `RequestManager`. */
module Endpoints {
  import opened Php
  import opened Managers

  /** `config('gigapay.server_url')` converted to string. */
  function Server(cfg: Config): string
  {
    ScalarString(cfg.serverUrl)
  }

  function PayoutUrl(cfg: Config): string
  {
    Server(cfg) + "/payouts"
  }

  function InlinePayoutUrl(cfg: Config): string
  {
    Server(cfg) + "/payouts/?expand=employee"
  }

  function EmployeeUrl(cfg: Config): string
  {
    Server(cfg) + "/employees"
  }

  function InvoiceUrl(cfg: Config): string
  {
    Server(cfg) + "/invoices"
  }

  function WebhookUrl(cfg: Config): string
  {
    Server(cfg) + "/webhooks"
  }

  function PricingUrl(cfg: Config): string
  {
    Server(cfg) + "/pricing"
  }

  /** `$base . '/' . $id`: an stdClass id cannot be converted and raises a
      PHP Error before any request. */
  function ItemUrl(base: string, id: Value): (r: Result<string, Failure>)
    ensures r.Err? <==> id.Obj?
    ensures r.Err? ==> r.error == EngineError(ObjectToStringError)
    ensures r.Ok? ==> r.value == base + "/" + StringOf(id).value
  {
    match StringOf(id)
    case None => Err(EngineError(ObjectToStringError))
    case Some(s) => Ok(base + "/" + s)
  }

  /** `$base . '/' . $id . '/resend'`. */
  function ResendUrl(base: string, id: Value): (r: Result<string, Failure>)
    ensures r.Err? <==> id.Obj?
    ensures r.Ok? ==> r.value == ItemUrl(base, id).value + "/resend"
  {
    match ItemUrl(base, id)
    case Err(e) => Err(e)
    case Ok(u) => Ok(u + "/resend")
  }

  /** The request issued once the URL is known: none if building it failed. */
  function SentTo(cfg: Config, verb: Verb, url: Result<string, Failure>, params: Value): Option<Request>
  {
    if url.Err? then None else Sent(cfg, verb, url.value, params)
  }

  /** What the call returns or throws once the URL is known. */
  function Reached(cfg: Config, url: Result<string, Failure>, outcome: Outcome): Result<Value, Failure>
  {
    if url.Err? then Err(url.error) else Response(cfg, outcome)
  }

  /** What a method returning `$this` (or nothing) throws, if anything. */
  function ErrorOf(res: Result<Value, Failure>): (f: Option<Failure>)
    ensures f.None? <==> res.Ok?
    ensures f.Some? ==> res == Err(f.value)
  {
    if res.Ok? then None else Some(res.error)
  }

  function Requests(sent: Option<Request>): seq<Request>
  {
    if sent.None? then [] else [sent.value]
  }

  /** Build the URL, then `(new RequestManager())->getData(...)`. */
  method CallAt(cfg: Config, verb: Verb, url: Result<string, Failure>, params: Value, outcome: Outcome)
    returns (r: Result<Value, Failure>, sent: Option<Request>)
    ensures sent == SentTo(cfg, verb, url, params)
    ensures r == Reached(cfg, url, outcome)
    ensures sent.Some? ==> url.Ok? && sent.value.url == url.value && sent.value.verb == verb
  {
    if url.Err? {
      return Err(url.error), None;
    }
    r, sent := Call(cfg, verb, url.value, params, outcome);
  }

  /** A GET, PATCH, PUT and DELETE on an item go to the collection URL with
      '/' and the id appended; `resend` appends '/resend' to that. */
  lemma ItemUrlsExtendCollection(base: string, id: Value)
    requires !id.Obj?
    ensures base + "/" <= ItemUrl(base, id).value
    ensures ItemUrl(base, id).value <= ResendUrl(base, id).value
  {
  }

  lemma SuffixesDiffer(s: string, a: string, b: string, k: nat)
    requires k < |a| && k < |b| && a[k] != b[k]
    ensures s + a != s + b
  {
    assert (s + a)[|s| + k] == a[k];
    assert (s + b)[|s| + k] == b[k];
  }

  /** Every endpoint is the server URL followed by its own path, so no two
      collections share a URL. */
  lemma EndpointsDiffer(cfg: Config)
    ensures PayoutUrl(cfg) != EmployeeUrl(cfg) && PayoutUrl(cfg) != InvoiceUrl(cfg)
    ensures PayoutUrl(cfg) != WebhookUrl(cfg) && PayoutUrl(cfg) != PricingUrl(cfg)
    ensures EmployeeUrl(cfg) != InvoiceUrl(cfg) && EmployeeUrl(cfg) != WebhookUrl(cfg)
    ensures EmployeeUrl(cfg) != PricingUrl(cfg) && InvoiceUrl(cfg) != WebhookUrl(cfg)
    ensures InvoiceUrl(cfg) != PricingUrl(cfg) && WebhookUrl(cfg) != PricingUrl(cfg)
  {
    var s := Server(cfg);
    SuffixesDiffer(s, "/payouts", "/employees", 1);
    SuffixesDiffer(s, "/payouts", "/invoices", 1);
    SuffixesDiffer(s, "/payouts", "/webhooks", 1);
    SuffixesDiffer(s, "/payouts", "/pricing", 2);
    SuffixesDiffer(s, "/employees", "/invoices", 1);
    SuffixesDiffer(s, "/employees", "/webhooks", 1);
    SuffixesDiffer(s, "/employees", "/pricing", 1);
    SuffixesDiffer(s, "/invoices", "/webhooks", 1);
    SuffixesDiffer(s, "/invoices", "/pricing", 1);
    SuffixesDiffer(s, "/webhooks", "/pricing", 1);
  }

  /** The inline-employee URL is the payouts URL with a query already on it. */
  lemma InlineExtendsPayouts(cfg: Config)
    ensures InlinePayoutUrl(cfg) == PayoutUrl(cfg) + "/?expand=employee"
  {
    assert "/payouts" + "/?expand=employee" == "/payouts/?expand=employee";
  }
}
