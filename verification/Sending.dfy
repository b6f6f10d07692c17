/** The API side: composing a notification from a request, publishing it, and
    sending a batch. */
module Sending {
  import opened Prelude
  import opened Notification
  import opened Provider
  import opened Repository

  datatype Request = Request(
    typ: string,
    priority: string,
    recipient: Recipient,
    templateId: string,
    data: map<string, Json>,
    metadata: map<string, string>)

  datatype SendError = Invalid(field: string) | NoTemplate(why: LookupError) | PublishFailed

  /** The recipient carries a well-formed address for the channel. */
  predicate RecipientOk(tables: Tables, typ: string, r: Recipient) {
    || (typ == EMAIL && EmailOk(tables, r.email))
    || (typ == SMS && Phone(tables, r.phoneNumber).Some?)
    || (typ == PUSH && DeviceTokenOk(r.deviceToken))
  }

  /** The field at fault, if any. */
  function ValidateRecipient(tables: Tables, typ: string, r: Recipient): Option<string> {
    if typ == EMAIL then
      if r.email == "" || !EmailOk(tables, r.email) then Some("recipient.email") else None
    else if typ == SMS then
      if r.phoneNumber == "" || Phone(tables, r.phoneNumber).None? then Some("recipient.phone_number") else None
    else if typ == PUSH then
      if r.deviceToken == "" || !DeviceTokenOk(r.deviceToken) then Some("recipient.device_token") else None
    else Some("type")
  }

  function Defaulted(priority: string): string {
    if priority == "" then TRANSACTIONAL else priority
  }

  /** The message a request is published as: validated, stamped with the ID of the
      template it resolves to, and with no retries behind it. */
  function Compose(tables: Tables, index: Index, req: Request, id: string, at: int): Result<Message, SendError> {
    var priority := Defaulted(req.priority);
    if !ValidType(req.typ) then Failure(Invalid("type"))
    else if !ValidPriority(priority) then Failure(Invalid("priority"))
    else
      var fault := ValidateRecipient(tables, req.typ, req.recipient);
      if fault.Some? then Failure(Invalid(fault.value))
      else
        match Resolve(index, req.templateId, req.typ)
        case Failure(why) => Failure(NoTemplate(why))
        case Success(t) =>
          Success(Message(id, req.typ, priority, req.recipient, t.id, req.data, req.metadata, at, 0))
  }

  /** What a worker relies on in a composed message. */
  ghost predicate Deliverable(tables: Tables, index: Index, m: Message) {
    && ValidType(m.typ) && ValidPriority(m.priority)
    && RecipientOk(tables, m.typ, m.recipient)
    && m.templateId != ""
    && Resolve(index, m.templateId, m.typ).Success?
  }

  /** A request is composed exactly when its parts are acceptable. */
  lemma ComposedWhenAcceptable(tables: Tables, index: Index, req: Request, id: string, at: int)
    ensures Compose(tables, index, req, id, at).Success? <==>
      && (req.priority in {"", "transactional", "bulk"})
      && (|| (req.typ == "email" && req.recipient.email != "" && ' ' !in req.recipient.email
              && tables.mailbox(req.recipient.email))
          || (req.typ == "sms" && Phone(tables, req.recipient.phoneNumber).Some?)
          || (req.typ == "push" && DeviceTokenOk(req.recipient.deviceToken)))
      && (var wanted := if req.templateId == "" then "default" else req.templateId;
          req.typ in index && wanted in index[req.typ])
  {
    assert Phone(tables, "").None?;
    assert !DeviceTokenOk("");
    ResolvedByIndex(index, req.templateId, req.typ);
  }

  /** The message carries what the request says, field by field, under the ID and the time
      drawn for it, and with no retries behind it. */
  ghost predicate Carries(m: Message, req: Request, id: string, at: int) {
    && m.id == id && m.createdAt == at && m.retryCount == 0
    && m.typ == req.typ && m.recipient == req.recipient && m.data == req.data && m.metadata == req.metadata
    && m.priority == (if req.priority == "" then "transactional" else req.priority)
    && m.templateId == (if req.templateId == "" then "default" else req.templateId)
  }

  /** A composed message carries its request, and is deliverable: it names a template that
      is filed under its type. */
  lemma ComposedIsDeliverable(tables: Tables, index: Index, req: Request, id: string, at: int)
    requires WellFiled(index) && Compose(tables, index, req, id, at).Success?
    ensures var m := Compose(tables, index, req, id, at).value;
      && Carries(m, req, id, at) && Deliverable(tables, index, m)
      && m.typ in index && m.templateId in index[m.typ]
      && Resolve(index, m.templateId, m.typ) == Success(index[m.typ][m.templateId])
      && Resolve(index, req.templateId, req.typ) == Success(index[m.typ][m.templateId])
      && (m.priority == BULK <==> req.priority == BULK)
  {
    ResolvedByIndex(index, req.templateId, req.typ);
    ResolvedIdPins(index, req.templateId, req.typ);
    var wanted := if req.templateId == "" then "default" else req.templateId;
    assert TypeFiled(index[req.typ], req.typ) && FiledAs(index[req.typ][wanted], req.typ, wanted);
  }

  // ------------------------------------------------------------- publishing

  /** A call on the publisher port and its answer. */
  datatype Publish = Publish(msg: Message, ok: bool)

  /** What the publisher will answer, given everything asked of it before. */
  type Behaviour = (seq<Publish>, Message) -> bool

  datatype Accepted = Accepted(id: string, createdAt: int)

  /** What the API runs on: tables, templates, and the publisher's behaviour. */
  datatype Backend = Backend(tables: Tables, index: Index, answer: Behaviour)

  /** A send: the calls made on the publisher so far, and the outcome. */
  datatype Sent = Sent(calls: seq<Publish>, outcome: Result<Accepted, SendError>)

  function SendOne(api: Backend, calls: seq<Publish>, req: Request, id: string, at: int): Sent {
    match Compose(api.tables, api.index, req, id, at)
    case Failure(e) => Sent(calls, Failure(e))
    case Success(m) =>
      var ok := api.answer(calls, m);
      Sent(calls + [Publish(m, ok)], if ok then Success(Accepted(id, at)) else Failure(PublishFailed))
  }

  /** At most one call was added, for this ID, and the send succeeded exactly when
      that call was confirmed. */
  ghost predicate SentFor(before: seq<Publish>, s: Sent, id: string) {
    || (s.calls == before && s.outcome.Failure?)
    || (|s.calls| == |before| + 1 && s.calls[..|before|] == before
        && s.calls[|before|].msg.id == id
        && (s.calls[|before|].ok <==> s.outcome.Success?)
        && (s.outcome.Success? ==> s.outcome.value.id == id))
  }

  lemma SendPublishesOnce(api: Backend, calls: seq<Publish>, req: Request, id: string, at: int)
    ensures SentFor(calls, SendOne(api, calls, req, id, at), id)
  {
  }

  /** What the API answers to a request it does not accept: the first thing wrong with it,
      and a publish that failed last of all. */
  function Refusal(tables: Tables, index: Index, req: Request): ErrorResponse {
    if req.typ !in {"email", "sms", "push"} then ErrorResponse("validation_error", Some("type"))
    else if req.priority !in {"", "transactional", "bulk"} then ErrorResponse("validation_error", Some("priority"))
    else if req.typ == "email" && !EmailOk(tables, req.recipient.email) then
      ErrorResponse("validation_error", Some("recipient.email"))
    else if req.typ == "sms" && Phone(tables, req.recipient.phoneNumber).None? then
      ErrorResponse("validation_error", Some("recipient.phone_number"))
    else if req.typ == "push" && !DeviceTokenOk(req.recipient.deviceToken) then
      ErrorResponse("validation_error", Some("recipient.device_token"))
    else if Resolve(index, req.templateId, req.typ).Failure? then ErrorResponse("template_not_found", None)
    else ErrorResponse("internal_error", None)
  }

  lemma RefusedAsSaid(api: Backend, calls: seq<Publish>, req: Request, id: string, at: int)
    ensures var outcome := SendOne(api, calls, req, id, at).outcome;
      outcome.Failure? ==> MapError(outcome.error) == Refusal(api.tables, api.index, req)
  {
    assert Phone(api.tables, "").None?;
    assert !DeviceTokenOk("");
  }

  /** The message a send publishes, if it publishes one. */
  ghost predicate PublishesRequest(before: seq<Publish>, calls: seq<Publish>, req: Request, id: string, at: int) {
    calls != before ==> |calls| == |before| + 1 && Carries(calls[|before|].msg, req, id, at)
  }

  lemma SentCarriesRequest(api: Backend, calls: seq<Publish>, req: Request, id: string, at: int)
    requires WellFiled(api.index)
    ensures PublishesRequest(calls, SendOne(api, calls, req, id, at).calls, req, id, at)
    ensures var s := SendOne(api, calls, req, id, at);
      s.outcome.Success? ==> s.outcome.value == Accepted(id, at) && s.calls != calls
  {
    if Compose(api.tables, api.index, req, id, at).Success? {
      ComposedIsDeliverable(api.tables, api.index, req, id, at);
    }
  }

  class Service {
    const tables: Tables
    const answer: Behaviour
    const repo: FileRepository
    var calls: seq<Publish>

    constructor (tables: Tables, answer: Behaviour, repo: FileRepository)
      ensures this.tables == tables && this.answer == answer && this.repo == repo && calls == []
    {
      this.tables, this.answer, this.repo, calls := tables, answer, repo, [];
    }

    method Send(req: Request, id: string, at: int) returns (r: Result<Accepted, SendError>)
      modifies this
      ensures Sent(calls, r) == SendOne(Backend(tables, repo.templates, answer), old(calls), req, id, at)
      ensures WellFiled(repo.templates) ==> PublishesRequest(old(calls), calls, req, id, at)
      ensures WellFiled(repo.templates) && r.Success? ==> calls != old(calls) && r.value == Accepted(id, at)
    {
      if WellFiled(repo.templates) {
        SentCarriesRequest(Backend(tables, repo.templates, answer), calls, req, id, at);
      }
      var priority := req.priority;
      if priority == "" { priority := TRANSACTIONAL; }
      if !ValidType(req.typ) { return Failure(Invalid("type")); }
      if !ValidPriority(priority) { return Failure(Invalid("priority")); }
      var fault := ValidateRecipient(tables, req.typ, req.recipient);
      if fault.Some? { return Failure(Invalid(fault.value)); }
      var templateId := req.templateId;
      var resolved := Resolve(repo.templates, templateId, req.typ);
      if resolved.Failure? { return Failure(NoTemplate(resolved.error)); }
      templateId := resolved.value.id;
      var msg := Message(id, req.typ, priority, req.recipient, templateId, req.data, req.metadata, at, 0);
      var ok := answer(calls, msg);
      calls := calls + [Publish(msg, ok)];
      if !ok { return Failure(PublishFailed); }
      return Success(Accepted(id, at));
    }

    /** Items are handled one after another and independently. */
    method SendNotificationBatch(items: seq<Item>) returns (results: seq<ItemResult>)
      modifies this
      ensures Batch(calls, results) == SendAll(ItemSender(Backend(tables, repo.templates, answer)), old(calls), items)
    {
      results := [];
      for i := 0 to |items|
        invariant Batch(calls, results) ==
          SendAll(ItemSender(Backend(tables, repo.templates, answer)), old(calls), items[..i])
      {
        var result := ItemResult(i, None, None);
        var accepted := Send(ToSendRequest(items[i].req), items[i].id, items[i].at);
        if accepted.Failure? {
          result := result.(error := Some(MapError(accepted.error)));
        } else {
          result := result.(notification := Some(accepted.value));
        }
        results := results + [result];
        assert items[..i + 1][..i] == items[..i];
      }
      assert items[..|items|] == items;
    }
  }

  // ------------------------------------------------------------------ batch

  datatype ApiRecipient = ApiRecipient(
    email: Option<string>, phoneNumber: Option<string>, deviceToken: Option<string>, userId: Option<string>)

  datatype ApiRequest = ApiRequest(
    typ: string,
    priority: Option<string>,
    recipient: ApiRecipient,
    templateId: Option<string>,
    data: Option<map<string, Json>>,
    metadata: Option<map<string, string>>)

  function Deref<T>(x: Option<T>, zero: T): T {
    if x.Some? then x.value else zero
  }

  function ToSendRequest(req: ApiRequest): Request {
    Request(
      req.typ,
      Deref(req.priority, ""),
      Recipient(Deref(req.recipient.email, ""), Deref(req.recipient.phoneNumber, ""),
                Deref(req.recipient.deviceToken, ""), Deref(req.recipient.userId, "")),
      Deref(req.templateId, ""),
      Deref(req.data, map[]),
      Deref(req.metadata, map[]))
  }

  /** An optional field of the API means its value, or `zero` if it is absent. */
  ghost predicate Means<T(!new)>(field: Option<T>, value: T, zero: T) {
    field == Some(value) || (field.None? && value == zero)
  }

  /** A request reaches the service as it was made. */
  lemma RequestAsMade(req: ApiRequest)
    ensures var r := ToSendRequest(req);
      && r.typ == req.typ && Means(req.priority, r.priority, "") && Means(req.templateId, r.templateId, "")
      && Means(req.recipient.email, r.recipient.email, "")
      && Means(req.recipient.phoneNumber, r.recipient.phoneNumber, "")
      && Means(req.recipient.deviceToken, r.recipient.deviceToken, "")
      && Means(req.recipient.userId, r.recipient.userId, "")
      && Means(req.data, r.data, map[]) && Means(req.metadata, r.metadata, map[])
  {
  }

  datatype ErrorResponse = ErrorResponse(code: string, field: Option<string>)

  function MapError(e: SendError): ErrorResponse {
    match e
    case Invalid(field) => ErrorResponse("validation_error", Some(field))
    case NoTemplate(_) => ErrorResponse("template_not_found", None)
    case PublishFailed => ErrorResponse("internal_error", None)
  }

  datatype ItemResult = ItemResult(index: nat, notification: Option<Accepted>, error: Option<ErrorResponse>)

  /** A batch item, with the ID and the time drawn for it. */
  datatype Item = Item(req: ApiRequest, id: string, at: int)

  datatype Batch = Batch(calls: seq<Publish>, results: seq<ItemResult>)

  function Report(i: nat, outcome: Result<Accepted, SendError>): ItemResult {
    match outcome
    case Success(a) => ItemResult(i, Some(a), None)
    case Failure(e) => ItemResult(i, None, Some(MapError(e)))
  }

  /** How one item is sent, given the calls made before it. */
  type Sender = (seq<Publish>, Item) -> Sent

  function ItemSender(api: Backend): Sender {
    (calls: seq<Publish>, item: Item) => SendOne(api, calls, ToSendRequest(item.req), item.id, item.at)
  }

  function SendAll(send: Sender, calls: seq<Publish>, items: seq<Item>): Batch {
    if items == [] then Batch(calls, [])
    else
      var n := |items| - 1;
      var before := SendAll(send, calls, items[..n]);
      var last := send(before.calls, items[n]);
      Batch(last.calls, before.results + [Report(n, last.outcome)])
  }

  lemma {:induction false} BatchLength(send: Sender, calls: seq<Publish>, items: seq<Item>)
    ensures |SendAll(send, calls, items).results| == |items|
  {
    if items != [] { BatchLength(send, calls, items[..|items| - 1]); }
  }

  /** The results line up with the items, and each is what sending that item alone
      gives once the items before it have been sent. */
  lemma {:induction false} BatchIsSequential(send: Sender, calls: seq<Publish>, items: seq<Item>, k: nat)
    requires k < |items|
    ensures |SendAll(send, calls, items).results| == |items|
    ensures SendAll(send, calls, items).results[k]
      == Report(k, send(SendAll(send, calls, items[..k]).calls, items[k]).outcome)
  {
    BatchLength(send, calls, items);
    BatchLength(send, calls, items[..|items| - 1]);
    if k < |items| - 1 {
      BatchIsSequential(send, calls, items[..|items| - 1], k);
      assert items[..|items| - 1][..k] == items[..k];
    }
  }

  /** Each send of this sender adds at most its own call and tells the truth. */
  ghost predicate Honest(send: Sender) {
    forall calls, item :: SentFor(calls, send(calls, item), item.id)
  }

  lemma ServiceIsHonest(api: Backend)
    ensures Honest(ItemSender(api))
  {
    forall calls, item: Item ensures SentFor(calls, ItemSender(api)(calls, item), item.id) {
      SendPublishesOnce(api, calls, ToSendRequest(item.req), item.id, item.at);
    }
  }

  /** IDs of the items a batch reports as accepted. */
  function AcceptedIds(results: seq<ItemResult>): seq<string> {
    if results == [] then []
    else
      var last := results[|results| - 1];
      AcceptedIds(results[..|results| - 1]) + (if last.notification.Some? then [last.notification.value.id] else [])
  }

  /** IDs of the messages the publisher confirmed. */
  function ConfirmedIds(calls: seq<Publish>): seq<string> {
    if calls == [] then []
    else
      var last := calls[|calls| - 1];
      ConfirmedIds(calls[..|calls| - 1]) + (if last.ok then [last.msg.id] else [])
  }

  lemma AcceptedGrows(results: seq<ItemResult>, r: ItemResult)
    ensures AcceptedIds(results + [r]) ==
      AcceptedIds(results) + (if r.notification.Some? then [r.notification.value.id] else [])
  {
    assert (results + [r])[..|results|] == results;
  }

  lemma ConfirmedGrows(before: seq<Publish>, s: Sent, id: string)
    requires SentFor(before, s, id)
    ensures ConfirmedIds(s.calls) == ConfirmedIds(before) + (if s.outcome.Success? then [id] else [])
  {
  }

  /** The accepted IDs of a batch are, in order, those of the publishes the
      publisher confirmed during it, whatever the publisher does. */
  lemma {:induction false} BatchReportsConfirmedPublishes(send: Sender, calls: seq<Publish>, items: seq<Item>)
    requires Honest(send)
    ensures var b := SendAll(send, calls, items); ConfirmedIds(b.calls) == ConfirmedIds(calls) + AcceptedIds(b.results)
  {
    if items != [] {
      var n := |items| - 1;
      BatchReportsConfirmedPublishes(send, calls, items[..n]);
      BatchLength(send, calls, items[..n]);
      var before := SendAll(send, calls, items[..n]);
      var last := send(before.calls, items[n]);
      ConfirmedGrows(before.calls, last, items[n].id);
      AcceptedGrows(before.results, Report(n, last.outcome));
    }
  }

  /** What is published for an item says what the item says. */
  lemma BatchCarriesItems(api: Backend, calls: seq<Publish>, items: seq<Item>, k: nat)
    requires WellFiled(api.index) && k < |items|
    ensures var send := ItemSender(api);
      var item := items[k];
      PublishesRequest(SendAll(send, calls, items[..k]).calls, SendAll(send, calls, items[..k + 1]).calls,
                       ToSendRequest(item.req), item.id, item.at)
  {
    var before := SendAll(ItemSender(api), calls, items[..k]);
    assert items[..k + 1][..k] == items[..k];
    SentCarriesRequest(api, before.calls, ToSendRequest(items[k].req), items[k].id, items[k].at);
  }

  /** What the API promises of a batch, for any publisher: aligned results, each
      either a notification under the item's ID or an error, and the accepted IDs
      those of the confirmed publishes. */
  lemma BatchKeepsItsPromise(api: Backend, calls: seq<Publish>, items: seq<Item>, k: nat)
    requires k < |items|
    ensures var b := SendAll(ItemSender(api), calls, items);
      && |b.results| == |items| && b.results[k].index == k
      && (b.results[k].notification.Some? <==> b.results[k].error.None?)
      && (b.results[k].notification.Some? ==> b.results[k].notification.value == Accepted(items[k].id, items[k].at))
      && (b.results[k].error.Some? ==>
            b.results[k].error.value == Refusal(api.tables, api.index, ToSendRequest(items[k].req)))
      && ConfirmedIds(b.calls) == ConfirmedIds(calls) + AcceptedIds(b.results)
  {
    var send := ItemSender(api);
    ServiceIsHonest(api);
    BatchReportsConfirmedPublishes(send, calls, items);
    BatchIsSequential(send, calls, items, k);
    RefusedAsSaid(api, SendAll(send, calls, items[..k]).calls, ToSendRequest(items[k].req), items[k].id, items[k].at);
    var before := SendAll(send, calls, items[..k]).calls;
    assert SentFor(before, send(before, items[k]), items[k].id);
  }
}
