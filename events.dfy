/** `EventFactory::create`: the webhook callback's event name, compared in
    the switch's order with the names the events mapping gives the nine
    Gigapay events, picks the event and the resource it wraps. */
module Events {
  import opened Php
  import Employees
  import Payouts
  import Invoices

  datatype EventKind =
    | EmployeeCreated | EmployeeNotified | EmployeeClaimed | EmployeeVerified
    | PayoutCreated | PayoutNotified | PayoutAccepted
    | InvoiceCreated | InvoicePaid

  /** The position of each case in the switch. */
  function Rank(k: EventKind): (n: nat)
    ensures n < 9
  {
    match k
    case EmployeeCreated => 0
    case EmployeeNotified => 1
    case EmployeeClaimed => 2
    case EmployeeVerified => 3
    case PayoutCreated => 4
    case PayoutNotified => 5
    case PayoutAccepted => 6
    case InvoiceCreated => 7
    case InvoicePaid => 8
  }

  datatype ResourceType = EmployeeType | PayoutType | InvoiceType

  function ResourceName(t: ResourceType): string
  {
    match t
    case EmployeeType => "Employee"
    case PayoutType => "Payout"
    case InvoiceType => "Invoice"
  }

  /** The resource each case of the switch wraps. */
  function ResourceOf(k: EventKind): ResourceType
  {
    if Rank(k) < 4 then EmployeeType else if Rank(k) < 7 then PayoutType else InvoiceType
  }

  function Action(k: EventKind): string
  {
    match k
    case EmployeeCreated => "created"
    case EmployeeNotified => "notified"
    case EmployeeClaimed => "claimed"
    case EmployeeVerified => "verified"
    case PayoutCreated => "created"
    case PayoutNotified => "notified"
    case PayoutAccepted => "accepted"
    case InvoiceCreated => "created"
    case InvoicePaid => "paid"
  }

  /** Gigapay's name for each event, "<Resource>.<action>", never falsy. */
  function EventName(k: EventKind): (n: string)
    ensures Truthy(Str(n))
  {
    ResourceName(ResourceOf(k)) + "." + Action(k)
  }

  /** The resource an event wraps is the one its Gigapay name starts with. */
  lemma ResourceNamesEvent(k: EventKind)
    ensures ResourceName(ResourceOf(k)) + "." <= EventName(k)
  {
    assert ResourceName(ResourceOf(k)) + "." <= ResourceName(ResourceOf(k)) + "." + Action(k);
  }

  /** The fields the wrapped resource's constructor reads. */
  function FieldNames(t: ResourceType): seq<string>
  {
    match t
    case EmployeeType => Employees.EmployeeKeys
    case PayoutType => Payouts.PayoutKeys
    case InvoiceType => Invoices.InvoiceKeys
  }

  /** An event as the factory builds it: its kind, the type of the resource
      it wraps, and that resource's fields, read from the request payload
      as `new Employee($payload)` (or Payout, Invoice) reads them. */
  datatype Event = Event(kind: EventKind, resource: ResourceType, fields: seq<Value>)

  function Wrap(k: EventKind, payload: Value): (e: Event)
    ensures e.kind == k && e.resource == ResourceOf(k)
    ensures e.fields == ReadAll(FieldNames(ResourceOf(k)), payload)
  {
    Event(k, ResourceOf(k), ReadAll(FieldNames(ResourceOf(k)), payload))
  }

  /** `config('gigapay.events_mapping')[E]`: null when there is no entry. */
  function Mapped(mapping: map<string, string>, k: EventKind): (v: Value)
    ensures v.Null? <==> EventName(k) !in mapping
    ensures v.Str? ==> v.s == mapping[EventName(k)]
  {
    if EventName(k) in mapping then Str(mapping[EventName(k)]) else Null
  }

  /** `$event_name == <case>` for a string name: equal strings, and a null
      case only matches the empty name. */
  predicate Matches(name: string, mapping: map<string, string>, k: EventKind)
  {
    match Mapped(mapping, k)
    case Str(s) => name == s
    case _ => name == ""
  }

  /** The switch of `EventFactory::create`: the first case, in order, whose
      mapped name equals the event name; none when no case matches. */
  function Dispatch(name: string, mapping: map<string, string>): (r: Option<EventKind>)
    ensures r.Some? ==> Matches(name, mapping, r.value)
  {
    if Matches(name, mapping, EmployeeCreated) then Some(EmployeeCreated)
    else if Matches(name, mapping, EmployeeNotified) then Some(EmployeeNotified)
    else if Matches(name, mapping, EmployeeClaimed) then Some(EmployeeClaimed)
    else if Matches(name, mapping, EmployeeVerified) then Some(EmployeeVerified)
    else if Matches(name, mapping, PayoutCreated) then Some(PayoutCreated)
    else if Matches(name, mapping, PayoutNotified) then Some(PayoutNotified)
    else if Matches(name, mapping, PayoutAccepted) then Some(PayoutAccepted)
    else if Matches(name, mapping, InvoiceCreated) then Some(InvoiceCreated)
    else if Matches(name, mapping, InvoicePaid) then Some(InvoicePaid)
    else None
  }

  /** `EventFactory::create($event_name, $payload)`: the selected case wraps
      the payload in its resource; null when no case matches. */
  function Create(name: string, mapping: map<string, string>, payload: Value): (r: Option<Event>)
    ensures r.None? <==> Dispatch(name, mapping).None?
    ensures r.Some? ==> r.value == Wrap(Dispatch(name, mapping).value, payload)
  {
    match Dispatch(name, mapping)
    case None => None
    case Some(k) => Some(Wrap(k, payload))
  }

  /** The case the switch stops at matches, and no case before it does; when
      it stops at none, no case matches. */
  lemma DispatchStops(name: string, mapping: map<string, string>)
    ensures Dispatch(name, mapping).Some? ==>
      forall j :: Rank(j) < Rank(Dispatch(name, mapping).value) ==> !Matches(name, mapping, j)
    ensures Dispatch(name, mapping).None? ==> forall k :: !Matches(name, mapping, k)
  {
    if Dispatch(name, mapping).Some? {
      forall j | Rank(j) < Rank(Dispatch(name, mapping).value) ensures !Matches(name, mapping, j) {
        SkippedCase(name, mapping, j);
      }
    } else {
      forall k ensures !Matches(name, mapping, k) {
        SkippedCase(name, mapping, k);
      }
    }
  }

  /** A case before the one the switch stops at, or any case when it stops
      at none, does not match. */
  lemma SkippedCase(name: string, mapping: map<string, string>, j: EventKind)
    requires Dispatch(name, mapping).None? || Rank(j) < Rank(Dispatch(name, mapping).value)
    ensures !Matches(name, mapping, j)
  {
    match j
    case EmployeeCreated =>
    case EmployeeNotified =>
    case EmployeeClaimed =>
    case EmployeeVerified =>
    case PayoutCreated =>
    case PayoutNotified =>
    case PayoutAccepted =>
    case InvoiceCreated =>
    case InvoicePaid =>
  }

  /** With no earlier case matching, the switch reaches case `k`. */
  lemma DispatchReaches(name: string, mapping: map<string, string>, k: EventKind)
    requires Matches(name, mapping, k)
    requires forall j :: Rank(j) < Rank(k) ==> !Matches(name, mapping, j)
    ensures Dispatch(name, mapping) == Some(k)
  {
    assert Rank(EmployeeCreated) == 0 && Rank(EmployeeNotified) == 1 && Rank(EmployeeClaimed) == 2;
    assert Rank(EmployeeVerified) == 3 && Rank(PayoutCreated) == 4 && Rank(PayoutNotified) == 5;
    assert Rank(PayoutAccepted) == 6 && Rank(InvoiceCreated) == 7;
  }

  /** The event the factory builds is the first case, in switch order, that
      matches the name. */
  lemma FirstMatchWins(name: string, mapping: map<string, string>, payload: Value, k: EventKind)
    ensures Create(name, mapping, payload) == Some(Wrap(k, payload)) <==>
      Matches(name, mapping, k) && forall j :: Rank(j) < Rank(k) ==> !Matches(name, mapping, j)
  {
    DispatchStops(name, mapping);
    if Matches(name, mapping, k) && forall j :: Rank(j) < Rank(k) ==> !Matches(name, mapping, j) {
      DispatchReaches(name, mapping, k);
    }
  }

  /** The factory returns null exactly when no case matches. */
  lemma UnmatchedIsNull(name: string, mapping: map<string, string>, payload: Value)
    ensures Create(name, mapping, payload).None? <==> forall k :: !Matches(name, mapping, k)
  {
    DispatchStops(name, mapping);
  }

  /** The mapping gives every event a callback name of its own. */
  predicate Separates(mapping: map<string, string>)
  {
    (forall k :: EventName(k) in mapping) &&
    (forall k1, k2 :: (EventName(k1) in mapping && EventName(k2) in mapping &&
                       mapping[EventName(k1)] == mapping[EventName(k2)]) ==> k1 == k2)
  }

  /** A webhook registered by `create<E>Webhook` calls back on the name
      `mapping[E]`; when the mapping separates the events, the factory turns
      that callback into event E, whatever the order of the cases. */
  lemma CallbackNameSelectsEvent(mapping: map<string, string>, payload: Value, k: EventKind)
    requires Separates(mapping)
    ensures Create(mapping[EventName(k)], mapping, payload) == Some(Wrap(k, payload))
  {
    var name := mapping[EventName(k)];
    forall j | Rank(j) < Rank(k) ensures !Matches(name, mapping, j) {
      OnlyOwnNameMatches(mapping, k, j);
    }
    DispatchReaches(name, mapping, k);
  }

  /** Under a separating mapping, event `k`'s callback name matches only
      case `k`. */
  lemma OnlyOwnNameMatches(mapping: map<string, string>, k: EventKind, j: EventKind)
    requires Separates(mapping)
    ensures Matches(mapping[EventName(k)], mapping, j) <==> j == k
  {
    assert EventName(j) in mapping && EventName(k) in mapping;
    assert Mapped(mapping, j) == Str(mapping[EventName(j)]);
  }

  /** The shipped configuration has no `events_mapping`: every case is null,
      so only an empty name would give an event, always EmployeeCreated. */
  lemma WithoutMapping(name: string, payload: Value)
    ensures Create(name, map[], payload) == if name == "" then Some(Wrap(EmployeeCreated, payload)) else None
  {
    if name != "" {
      UnmatchedIsNull(name, map[], payload);
    }
  }
}
