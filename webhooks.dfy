/** The Webhook resource: the parameters of `create` and `createByArray`,
    the fixed updates of its five fields, and the nine helpers that register
    a callback for one Gigapay event. */
module Webhooks {
  import opened Php
  import opened Managers
  import opened Endpoints
  import opened Resources
  import opened Events

  /** The fields in the order the constructor reads them and `getJson`
      writes them. */
  const WebhookKeys: seq<string> := ["id", "url", "events", "secret_key", "metadata"]

  /** The constructor's reads, one key at a time. */
  lemma WebhookKeysRead(json: Value)
    ensures ReadAll(WebhookKeys, json) ==
      [Prop(json, "id"), Prop(json, "url"), Prop(json, "events"), Prop(json, "secret_key"),
       Prop(json, "metadata")]
  {
    ReadAllFive("id", "url", "events", "secret_key", "metadata", json);
  }

  lemma WebhookKeysDistinct()
    ensures Distinct(WebhookKeys)
  {
  }

  const UrlAndEventsRequired := "Url and events are required"

  /** The optional arguments of `create` after `url`, in merge order. */
  function TrailingCandidates(event: Value, secretKey: Value, metadata: Value): seq<(string, Value)>
  {
    [("events", event), ("secret_key", secretKey), ("metadata", metadata)]
  }

  /** `create`'s parameters. The `url` merge is guarded by the endpoint
      string `$url = Webhook::getUrl()`, not by the callback URL. */
  function CreateParams(webhookUrl: Value, event: Value, secretKey: Value, metadata: Value, id: Value, endpoint: string)
    : (r: seq<(Key, Value)>)
    ensures r == Selected(ByTruthiness, [("id", id)])
               + (if Truthy(Str(endpoint)) then [(StrKey("url"), webhookUrl)] else [])
               + Selected(ByTruthiness, TrailingCandidates(event, secretKey, metadata))
  {
    var withId := Assemble(ByTruthiness, [], [("id", id)]);
    var withUrl := if Truthy(Str(endpoint)) then Merge(withId, "url", webhookUrl) else withId;
    CreateParamsSteps(webhookUrl, event, secretKey, metadata, id, endpoint);
    Assemble(ByTruthiness, withUrl, TrailingCandidates(event, secretKey, metadata))
  }

  lemma CreateParamsSteps(webhookUrl: Value, event: Value, secretKey: Value, metadata: Value, id: Value, endpoint: string)
    ensures var withId := Assemble(ByTruthiness, [], [("id", id)]);
      var withUrl := if Truthy(Str(endpoint)) then Merge(withId, "url", webhookUrl) else withId;
      Assemble(ByTruthiness, withUrl, TrailingCandidates(event, secretKey, metadata))
        == Selected(ByTruthiness, [("id", id)])
           + (if Truthy(Str(endpoint)) then [(StrKey("url"), webhookUrl)] else [])
           + Selected(ByTruthiness, TrailingCandidates(event, secretKey, metadata))
  {
    var first := [("id", id)];
    assert KeysOf(first) == ["id"];
    AssembleSelects(ByTruthiness, first);
    UrlMerge(id, webhookUrl, Truthy(Str(endpoint)));
    TrailingAbsent(id, webhookUrl, Truthy(Str(endpoint)), event, secretKey, metadata);
    var withUrl := Selected(ByTruthiness, first) + (if Truthy(Str(endpoint)) then [(StrKey("url"), webhookUrl)] else []);
    AssembleAppends(ByTruthiness, withUrl, TrailingCandidates(event, secretKey, metadata));
  }

  /** The `url` merge after `id` appends. */
  lemma UrlMerge(id: Value, webhookUrl: Value, withUrl: bool)
    ensures var withId := Selected(ByTruthiness, [("id", id)]);
      (if withUrl then Merge(withId, "url", webhookUrl) else withId)
        == withId + (if withUrl then [(StrKey("url"), webhookUrl)] else [])
  {
    var first := [("id", id)];
    assert KeysOf(first) == ["id"];
    SelectedKeys(ByTruthiness, first, StrKey("url"));
  }

  /** The trailing names are distinct and none is `id` or `url`. */
  lemma TrailingAbsent(id: Value, webhookUrl: Value, withUrl: bool, event: Value, secretKey: Value, metadata: Value)
    ensures var lead := Selected(ByTruthiness, [("id", id)]) + (if withUrl then [(StrKey("url"), webhookUrl)] else []);
      var rest := TrailingCandidates(event, secretKey, metadata);
      Distinct(KeysOf(rest)) && forall i :: 0 <= i < |rest| ==> StrKey(rest[i].0) !in KeysOf(lead)
  {
    LeadingKeys(id, webhookUrl, withUrl);
    assert KeysOf(TrailingCandidates(event, secretKey, metadata)) == ["events", "secret_key", "metadata"];
  }

  /** Before the trailing merges, the parameters hold at most `id` and `url`. */
  lemma LeadingKeys(id: Value, webhookUrl: Value, withUrl: bool)
    ensures var lead := Selected(ByTruthiness, [("id", id)]) + (if withUrl then [(StrKey("url"), webhookUrl)] else []);
      forall k :: k in KeysOf(lead) ==> k == StrKey("id") || k == StrKey("url")
  {
    var first := [("id", id)];
    var head := Picked(ByTruthiness, first[0]);
    assert Selected(ByTruthiness, first) == head by {
      assert first[1..] == [];
    }
    var lead := head + (if withUrl then [(StrKey("url"), webhookUrl)] else []);
    forall k | k in KeysOf(lead) ensures k == StrKey("id") || k == StrKey("url") {
      var i :| 0 <= i < |lead| && KeysOf(lead)[i] == k;
      if i < |head| {
        assert lead[i] == (StrKey("id"), id);
      } else {
        assert lead[i] == (StrKey("url"), webhookUrl);
      }
    }
  }

  /** The endpoint is never empty nor "0", so `create` always sends `url`,
      null or falsy as the callback URL may be. */
  lemma CreateAlwaysSendsUrl(cfg: Config, webhookUrl: Value, event: Value, secretKey: Value, metadata: Value, id: Value)
    ensures var ps := CreateParams(webhookUrl, event, secretKey, metadata, id, WebhookUrl(cfg));
      ps == Selected(ByTruthiness, [("id", id)]) + [(StrKey("url"), webhookUrl)]
            + Selected(ByTruthiness, TrailingCandidates(event, secretKey, metadata)) &&
      StrKey("url") in KeysOf(ps)
  {
    EndpointIsTruthy(cfg);
    var ps := CreateParams(webhookUrl, event, secretKey, metadata, id, WebhookUrl(cfg));
    var head := Selected(ByTruthiness, [("id", id)]);
    assert ps[|head|] == (StrKey("url"), webhookUrl);
    assert KeysOf(ps)[|head|] == StrKey("url");
  }

  function ArrayCandidates(w: seq<(Key, Value)>): seq<(string, Value)>
  {
    [("id", Field(w, "id")), ("url", Field(w, "url")), ("events", Field(w, "events")),
     ("secret_key", Field(w, "secret_key")), ("metadata", Field(w, "metadata"))]
  }

  /** `createByArray`: `url` and `events` must be set; then each field of
      the array that is set, in key order. */
  function CreateByArrayParams(w: seq<(Key, Value)>): (r: Result<seq<(Key, Value)>, string>)
    ensures r.Err? <==> !Isset(Field(w, "url")) || !Isset(Field(w, "events"))
    ensures r.Err? ==> r.error == UrlAndEventsRequired
    ensures r.Ok? ==> r.value == Selected(ByIsset, ArrayCandidates(w))
  {
    if !Isset(Field(w, "url")) || !Isset(Field(w, "events")) then Err(UrlAndEventsRequired)
    else
      assert KeysOf(ArrayCandidates(w)) == WebhookKeys;
      WebhookKeysDistinct();
      AssembleSelects(ByIsset, ArrayCandidates(w));
      Ok(Assemble(ByIsset, [], ArrayCandidates(w)))
  }

  /** What `createByArray` sends always holds `url` and `events`, then the
      other fields exactly when they are set. */
  lemma CreateByArrayHoldsSetFields(w: seq<(Key, Value)>, i: nat)
    requires CreateByArrayParams(w).Ok? && i < 5
    ensures StrKey(ArrayCandidates(w)[i].0) in KeysOf(CreateByArrayParams(w).value) <==> Isset(ArrayCandidates(w)[i].1)
    ensures StrKey("url") in KeysOf(CreateByArrayParams(w).value) && StrKey("events") in KeysOf(CreateByArrayParams(w).value)
  {
    assert KeysOf(ArrayCandidates(w)) == WebhookKeys;
    WebhookKeysDistinct();
    SelectedMembership(ByIsset, ArrayCandidates(w), i);
    SelectedMembership(ByIsset, ArrayCandidates(w), 1);
    SelectedMembership(ByIsset, ArrayCandidates(w), 2);
  }

  class Webhook {
    var id: Value
    var url: Value
    var events: Value
    var secretKey: Value
    var metadata: Value

    /** The fields, in `WebhookKeys` order. */
    function Values(): (vs: seq<Value>)
      reads this
      ensures |vs| == |WebhookKeys|
    {
      [id, url, events, secretKey, metadata]
    }

    /** `new Webhook($json)`: each field is `$json->field ?? null`. */
    constructor (json: Value)
      ensures Values() == ReadAll(WebhookKeys, json)
    {
      WebhookKeysRead(json);
      id := Prop(json, "id");
      url := Prop(json, "url");
      events := Prop(json, "events");
      secretKey := Prop(json, "secret_key");
      metadata := Prop(json, "metadata");
    }

    /** `getJson()`: an object with the five fields; constructing a Webhook
        from it gives back the same fields. */
    function GetJson(): (r: Value)
      reads this
      ensures r.Obj? && |r.props| == |WebhookKeys|
      ensures ReadAll(WebhookKeys, r) == Values()
    {
      WebhookKeysDistinct();
      ReadAllObjectOf(WebhookKeys, Values());
      ObjectOf(WebhookKeys, Values())
    }

    /** The URL every instance method targets: `getUrl() . '/' . $this->id`. */
    function Address(cfg: Config): Result<string, Failure>
      reads this
    {
      ItemUrl(WebhookUrl(cfg), id)
    }

    /** `updateId($new_id)`: a one-key PATCH to the old id's URL; only `id`
        changes, and only when the call returned. */
    method UpdateId(cfg: Config, newId: Value, outcome: Outcome) returns (thrown: Option<Failure>, sent: Option<Request>)
      modifies this
      ensures sent == SentTo(cfg, PATCH, old(Address(cfg)), FormParams([(StrKey("id"), newId)]))
      ensures thrown == ErrorOf(Reached(cfg, old(Address(cfg)), outcome))
      ensures Values() == if thrown.None? then old(Values())[0 := newId] else old(Values())
    {
      var res;
      res, sent := CallAt(cfg, PATCH, Address(cfg), FormParams([(StrKey("id"), newId)]), outcome);
      thrown := ErrorOf(res);
      if thrown.None? {
        id := newId;
      }
    }

    /** `updateUrl($new_url)`: only `url` changes. */
    method UpdateUrl(cfg: Config, newUrl: Value, outcome: Outcome) returns (thrown: Option<Failure>, sent: Option<Request>)
      modifies this
      ensures sent == SentTo(cfg, PATCH, old(Address(cfg)), FormParams([(StrKey("url"), newUrl)]))
      ensures thrown == ErrorOf(Reached(cfg, old(Address(cfg)), outcome))
      ensures Values() == if thrown.None? then old(Values())[1 := newUrl] else old(Values())
    {
      var res;
      res, sent := CallAt(cfg, PATCH, Address(cfg), FormParams([(StrKey("url"), newUrl)]), outcome);
      thrown := ErrorOf(res);
      if thrown.None? {
        url := newUrl;
      }
    }

    /** `updateEvent($new_event)`: sends the event as given, then keeps it as
        a one-element list. */
    method UpdateEvent(cfg: Config, newEvent: Value, outcome: Outcome) returns (thrown: Option<Failure>, sent: Option<Request>)
      modifies this
      ensures sent == SentTo(cfg, PATCH, old(Address(cfg)), FormParams([(StrKey("events"), newEvent)]))
      ensures thrown == ErrorOf(Reached(cfg, old(Address(cfg)), outcome))
      ensures Values() == if thrown.None? then old(Values())[2 := ListOf([newEvent])] else old(Values())
    {
      var res;
      res, sent := CallAt(cfg, PATCH, Address(cfg), FormParams([(StrKey("events"), newEvent)]), outcome);
      thrown := ErrorOf(res);
      if thrown.None? {
        events := ListOf([newEvent]);
      }
    }

    /** `updateMetaDate($new_metadata)`: sends the string, then keeps its
        decoded form. */
    method UpdateMetaDate(cfg: Config, decode: string -> Value, newMetadata: string, outcome: Outcome)
      returns (thrown: Option<Failure>, sent: Option<Request>)
      modifies this
      ensures sent == SentTo(cfg, PATCH, old(Address(cfg)), FormParams([(StrKey("metadata"), Str(newMetadata))]))
      ensures thrown == ErrorOf(Reached(cfg, old(Address(cfg)), outcome))
      ensures Values() == if thrown.None? then old(Values())[4 := decode(newMetadata)] else old(Values())
    {
      var res;
      res, sent := CallAt(cfg, PATCH, Address(cfg), FormParams([(StrKey("metadata"), Str(newMetadata))]), outcome);
      thrown := ErrorOf(res);
      if thrown.None? {
        metadata := decode(newMetadata);
      }
    }

    /** `updateSecretKey($new_secret_key)`: only `secret_key` changes. */
    method UpdateSecretKey(cfg: Config, newKey: Value, outcome: Outcome) returns (thrown: Option<Failure>, sent: Option<Request>)
      modifies this
      ensures sent == SentTo(cfg, PATCH, old(Address(cfg)), FormParams([(StrKey("secret_key"), newKey)]))
      ensures thrown == ErrorOf(Reached(cfg, old(Address(cfg)), outcome))
      ensures Values() == if thrown.None? then old(Values())[3 := newKey] else old(Values())
    {
      var res;
      res, sent := CallAt(cfg, PATCH, Address(cfg), FormParams([(StrKey("secret_key"), newKey)]), outcome);
      thrown := ErrorOf(res);
      if thrown.None? {
        secretKey := newKey;
      }
    }

    /** The five fields `save` sends, all of them, set or not; `metadata`
        comes before `secret_key`. */
    function SaveParams(): (ps: seq<(Key, Value)>)
      reads this
      ensures KeysOf(ps) == [StrKey("id"), StrKey("url"), StrKey("events"), StrKey("metadata"), StrKey("secret_key")]
    {
      [(StrKey("id"), id), (StrKey("url"), url), (StrKey("events"), events),
       (StrKey("metadata"), metadata), (StrKey("secret_key"), secretKey)]
    }

    /** `save()`: after the PATCH, `metadata` becomes
        `json_decode((string)$this->metadata)`, a PHP Error when it is an
        object, and only then `events` is wrapped in one more list. */
    method Save(cfg: Config, decode: string -> Value, outcome: Outcome) returns (thrown: Option<Failure>, sent: Option<Request>)
      modifies this
      ensures sent == SentTo(cfg, PATCH, old(Address(cfg)), FormParams(old(SaveParams())))
      ensures Reached(cfg, old(Address(cfg)), outcome).Err? ==> thrown == ErrorOf(Reached(cfg, old(Address(cfg)), outcome))
      ensures Reached(cfg, old(Address(cfg)), outcome).Ok? && old(metadata).Obj? ==>
        thrown == Some(EngineError(ObjectToStringError))
      ensures thrown.None? <==> Reached(cfg, old(Address(cfg)), outcome).Ok? && !old(metadata).Obj?
      ensures thrown.None? ==>
        Values() == old(Values())[2 := ListOf([old(events)])][4 := decode(StringOf(old(metadata)).value)]
      ensures thrown.Some? ==> Values() == old(Values())
    {
      var res;
      res, sent := CallAt(cfg, PATCH, Address(cfg), FormParams(SaveParams()), outcome);
      if res.Err? {
        return Some(res.error), sent;
      }
      match StringOf(metadata)
      case None =>
        thrown := Some(EngineError(ObjectToStringError));
      case Some(text) =>
        metadata := decode(text);
        events := ListOf([events]);
        thrown := None;
    }

    /** `destroy()`: a DELETE, then all five fields are null. */
    method Destroy(cfg: Config, outcome: Outcome) returns (thrown: Option<Failure>, sent: Option<Request>)
      modifies this
      ensures sent == SentTo(cfg, DELETE, old(Address(cfg)), Null)
      ensures thrown == ErrorOf(Reached(cfg, old(Address(cfg)), outcome))
      ensures Values() == if thrown.None? then Nulls(|WebhookKeys|) else old(Values())
    {
      var res;
      res, sent := CallAt(cfg, DELETE, Address(cfg), Null, outcome);
      thrown := ErrorOf(res);
      if thrown.None? {
        id, url, events, metadata, secretKey := Null, Null, Null, Null, Null;
      }
    }
  }

  /** A new Webhook built from what the call returned; the call's failure
      otherwise. */
  predicate Made(r: Result<Webhook, Failure>, res: Result<Value, Failure>)
    reads if r.Ok? then {r.value} else {}
  {
    (r.Ok? <==> res.Ok?) &&
    (r.Ok? ==> r.value.Values() == ReadAll(WebhookKeys, res.value)) &&
    (r.Err? ==> r.error == res.error)
  }

  method FromResponse(res: Result<Value, Failure>) returns (r: Result<Webhook, Failure>)
    ensures Made(r, res)
    ensures r.Ok? ==> fresh(r.value)
  {
    if res.Err? {
      return Err(res.error);
    }
    var w := new Webhook(res.value);
    r := Ok(w);
  }

  /** `Webhook::create(...)`: no validation; a POST with `form_params`. */
  method Create(cfg: Config, webhookUrl: Value, event: Value, secretKey: Value, metadata: Value, id: Value, outcome: Outcome)
    returns (r: Result<Webhook, Failure>, sent: Option<Request>)
    ensures sent == Sent(cfg, POST, WebhookUrl(cfg),
                         FormParams(CreateParams(webhookUrl, event, secretKey, metadata, id, WebhookUrl(cfg))))
    ensures Made(r, Response(cfg, outcome))
    ensures r.Ok? ==> fresh(r.value)
  {
    var res;
    res, sent := Call(cfg, POST, WebhookUrl(cfg),
                      FormParams(CreateParams(webhookUrl, event, secretKey, metadata, id, WebhookUrl(cfg))), outcome);
    r := FromResponse(res);
  }

  /** `Webhook::createByArray($webhook)`: nothing is sent when validation
      throws. */
  method CreateByArray(cfg: Config, w: seq<(Key, Value)>, outcome: Outcome)
    returns (r: Result<Webhook, Failure>, sent: Option<Request>)
    ensures CreateByArrayParams(w).Err? ==> r == Err(Thrown(UrlAndEventsRequired)) && sent == None
    ensures CreateByArrayParams(w).Ok? ==>
      sent == Sent(cfg, POST, WebhookUrl(cfg), FormParams(CreateByArrayParams(w).value)) &&
      Made(r, Response(cfg, outcome))
    ensures r.Ok? ==> fresh(r.value)
  {
    var ps := CreateByArrayParams(w);
    if ps.Err? {
      return Err(Thrown(ps.error)), None;
    }
    var res;
    res, sent := Call(cfg, POST, WebhookUrl(cfg), FormParams(ps.value), outcome);
    r := FromResponse(res);
  }

  /** `Webhook::list()`. */
  method List(cfg: Config) returns (l: ListResource)
    ensures fresh(l) && l.url == WebhookUrl(cfg)
  {
    l := new ListResource(WebhookUrl(cfg));
  }

  /** `Webhook::findById($webhook_id)`: a GET on `/webhooks/{id}`. */
  method FindById(cfg: Config, id: Value, outcome: Outcome) returns (r: Result<Webhook, Failure>, sent: Option<Request>)
    ensures sent == SentTo(cfg, GET, ItemUrl(WebhookUrl(cfg), id), Null)
    ensures Made(r, Reached(cfg, ItemUrl(WebhookUrl(cfg), id), outcome))
    ensures r.Ok? ==> fresh(r.value)
  {
    var res;
    res, sent := CallAt(cfg, GET, ItemUrl(WebhookUrl(cfg), id), Null, outcome);
    r := FromResponse(res);
  }

  lemma EndpointIsTruthy(cfg: Config)
    ensures Truthy(Str(WebhookUrl(cfg)))
  {
    var u := WebhookUrl(cfg);
    assert u[|u| - 1] == 's';
  }

  lemma NullsAreSkipped(a: string, b: string)
    ensures Selected(ByTruthiness, [(a, Null), (b, Null)]) == []
  {
    var cs := [(a, Null), (b, Null)];
    assert cs[1..] == [(b, Null)];
    assert [(b, Null)][1..] == [];
    assert Selected(ByTruthiness, [(b, Null)]) == [] + Selected(ByTruthiness, []);
    assert Selected(ByTruthiness, cs) == [] + Selected(ByTruthiness, [(b, Null)]);
  }

  /** With only a callback URL and a truthy event given, `create` sends
      exactly those two. */
  lemma CallbackAndEventOnly(cfg: Config, callback: Value, event: Value)
    requires Truthy(event)
    ensures CreateParams(callback, event, Null, Null, Null, WebhookUrl(cfg))
         == [(StrKey("url"), callback), (StrKey("events"), event)]
  {
    EndpointIsTruthy(cfg);
    var rest := TrailingCandidates(event, Null, Null);
    assert rest[1..] == [("secret_key", Null), ("metadata", Null)];
    NullsAreSkipped("secret_key", "metadata");
    assert Selected(ByTruthiness, rest) == [(StrKey("events"), event)];
    assert [("id", Null)][1..] == [];
    assert Selected(ByTruthiness, [("id", Null)]) == [];
  }

  /** The parameters a `create<E>Webhook` helper sends once the route has
      produced the callback URL: that URL and the event name E, nothing else. */
  lemma EventWebhookParams(cfg: Config, callback: string, k: EventKind)
    ensures CreateParams(Str(callback), Str(EventName(k)), Null, Null, Null, WebhookUrl(cfg))
         == [(StrKey("url"), Str(callback)), (StrKey("events"), Str(EventName(k)))]
  {
    CallbackAndEventOnly(cfg, Str(callback), Str(EventName(k)));
  }

  /** `createEmployeeCreatedWebhook()` and its eight siblings: `create` with
      `route('gigapay.webhooks', ['event' => mapping[E]])` and the event
      name E. The route is a parameter from the mapped name to either the
      callback URL or the message of the exception URL generation throws
      (as it does when the required `{event}` part gets null); that
      exception leaves before any request. */
  method CreateEventWebhook(cfg: Config, mapping: map<string, string>, route: Value -> Result<string, string>,
                            k: EventKind, outcome: Outcome)
    returns (r: Result<Webhook, Failure>, sent: Option<Request>)
    ensures route(Mapped(mapping, k)).Err? ==>
      sent.None? && r == Err(Thrown(route(Mapped(mapping, k)).error))
    ensures route(Mapped(mapping, k)).Ok? ==>
      sent == Sent(cfg, POST, WebhookUrl(cfg),
        FormParams([(StrKey("url"), Str(route(Mapped(mapping, k)).value)), (StrKey("events"), Str(EventName(k)))])) &&
      Made(r, Response(cfg, outcome))
    ensures r.Ok? ==> fresh(r.value)
  {
    var callback := route(Mapped(mapping, k));
    if callback.Err? {
      r, sent := Err(Thrown(callback.error)), None;
    } else {
      EventWebhookParams(cfg, callback.value, k);
      r, sent := Create(cfg, Str(callback.value), Str(EventName(k)), Null, Null, Null, outcome);
    }
  }
}
