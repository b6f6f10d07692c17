/** The worker side of one delivery attempt: rendering, building the provider
    message, limiting and sending, and which failures are permanent. */
module Processing {
  import opened Prelude
  import opened Notification
  import opened Provider
  import opened Repository
  import opened Sending
  import opened Topology

  datatype Content = Content(subject: string, body: string)

  /** One deployment: provider tables, the templates loaded by both sides, the
      template engine, and the retry limit of each lane. */
  datatype Config = Config(
    tables: Tables,
    index: Index,
    render: (Template, map<string, Json>) -> Option<Content>,
    maxRetries: Lane -> int)
  {
    function Limit(lane: Lane): int {
      maxRetries(lane)
    }
  }

  /** Errors as chains of wrappers. */
  datatype Err = Plain | Wrapped(inner: Err) | Permanent(inner: Err)

  /** Some error of the chain is a permanent one. */
  predicate IsPermanent(e: Err) {
    match e
    case Plain => false
    case Wrapped(inner) => IsPermanent(inner)
    case Permanent(_) => true
  }

  datatype Stage = Resolving | Rendering | Addressing | Building | Limiting | Delivering

  /** A failed attempt: where it failed and with what error. */
  datatype Fault = Fault(stage: Stage, err: Err)

  function Render(cfg: Config, m: Message): Result<Content, Fault> {
    match Resolve(cfg.index, m.templateId, m.typ)
    case Failure(_) => Failure(Fault(Resolving, Permanent(Wrapped(Plain))))
    case Success(t) =>
      match cfg.render(t, m.data)
      case None => Failure(Fault(Rendering, Permanent(Wrapped(Plain))))
      case Some(content) => Success(content)
  }

  /** The address the channel's processor reads, validated again. */
  predicate Addressable(cfg: Config, channel: string, m: Message) {
    if channel == EMAIL then EmailOk(cfg.tables, m.recipient.email)
    else if channel == SMS then Phone(cfg.tables, m.recipient.phoneNumber).Some?
    else DeviceTokenOk(m.recipient.deviceToken)
  }

  /** One attempt by the processor of a channel; `limited` and `sendErr` are what
      the rate limiter and the provider answer. */
  function Process(cfg: Config, channel: string, m: Message, limited: bool, sendErr: Option<Err>): Option<Fault> {
    match Render(cfg, m)
    case Failure(f) => Some(f)
    case Success(content) =>
      if !Addressable(cfg, channel, m) then Some(Fault(Addressing, Permanent(Wrapped(Plain))))
      else if content.body == "" then Some(Fault(Building, Permanent(Wrapped(Plain))))
      else if limited then Some(Fault(Limiting, Wrapped(Plain)))
      else if sendErr.Some? then Some(Fault(Delivering, Wrapped(sendErr.value)))
      else None
  }

  /** The error `n` unwrappings down the chain, if the chain is that long. */
  function Unwrapped(e: Err, n: nat): Option<Err> {
    if n == 0 then Some(e) else if e.Plain? then None else Unwrapped(e.inner, n - 1)
  }

  ghost predicate PermanentAt(e: Err, n: nat) {
    Unwrapped(e, n).Some? && Unwrapped(e, n).value.Permanent?
  }

  /** An error is permanent if a permanent one is found by unwrapping it. */
  lemma {:induction false} PermanentByUnwrapping(e: Err)
    ensures IsPermanent(e) <==> exists n: nat :: PermanentAt(e, n)
  {
    match e
    case Plain =>
    case Permanent(_) => assert PermanentAt(e, 0);
    case Wrapped(inner) =>
      PermanentByUnwrapping(inner);
      if n: nat :| PermanentAt(inner, n) {
        assert PermanentAt(e, n + 1);
      }
      if n: nat :| PermanentAt(e, n) {
        assert PermanentAt(inner, n - 1);
      }
  }

  /** The processors read the address that was validated. */
  lemma AddressableAsValidated(cfg: Config, channel: string, m: Message)
    requires ValidType(channel)
    ensures Addressable(cfg, channel, m) <==> RecipientOk(cfg.tables, channel, m.recipient)
  {
  }

  /** What the message renders to, if its template is there and renders. */
  function Rendered(cfg: Config, m: Message): Option<Content> {
    if m.typ in cfg.index && m.templateId in cfg.index[m.typ] then cfg.render(cfg.index[m.typ][m.templateId], m.data)
    else None
  }

  /** The outcome of an attempt on a message that names its template, by a processor that
      can address it, case by case: what goes wrong first, and whether for good. */
  lemma AttemptDecides(cfg: Config, channel: string, m: Message, limited: bool, sendErr: Option<Err>)
    requires m.templateId != "" && m.typ in cfg.index && m.templateId in cfg.index[m.typ]
    requires Addressable(cfg, channel, m)
    ensures var f := Process(cfg, channel, m, limited, sendErr);
      var content := Rendered(cfg, m);
      if content.None? then f.Some? && f.value.stage == Rendering && IsPermanent(f.value.err)
      else if content.value.body == "" then f.Some? && f.value.stage == Building && IsPermanent(f.value.err)
      else if limited then f.Some? && f.value.stage == Limiting && !IsPermanent(f.value.err)
      else if sendErr.Some? then
        f.Some? && f.value.stage == Delivering && (IsPermanent(f.value.err) <==> IsPermanent(sendErr.value))
      else f.None?
  {
    ResolvedByIndex(cfg.index, m.templateId, m.typ);
  }

  /** A template that is not there, and an address that is not good, end an attempt before
      anything is sent, and for good. */
  lemma UnaddressedIsGivenUp(cfg: Config, channel: string, m: Message, limited: bool, sendErr: Option<Err>)
    requires m.templateId != ""
    ensures var f := Process(cfg, channel, m, limited, sendErr);
      && (m.typ !in cfg.index || m.templateId !in cfg.index[m.typ] ==>
            f.Some? && f.value.stage == Resolving && IsPermanent(f.value.err))
      && (Rendered(cfg, m).Some? && !Addressable(cfg, channel, m) ==>
            f.Some? && f.value.stage == Addressing && IsPermanent(f.value.err))
  {
    ResolvedByIndex(cfg.index, m.templateId, m.typ);
  }

  /** An attempt on a message the API composed, by the processor of the message's
      own channel, never fails on the template reference or on the recipient; and
      it is given up for good exactly when rendering yields nothing to send or the
      provider itself says so. */
  lemma ComposedNeverMisaddressed(cfg: Config, m: Message, limited: bool, sendErr: Option<Err>)
    requires Deliverable(cfg.tables, cfg.index, m)
    ensures var f := Process(cfg, m.typ, m, limited, sendErr);
      var content := cfg.render(Resolve(cfg.index, m.templateId, m.typ).value, m.data);
      && (f.Some? ==> f.value.stage != Resolving && f.value.stage != Addressing)
      && (f.Some? && IsPermanent(f.value.err) <==>
            content.None? || content.value.body == "" || (!limited && sendErr.Some? && IsPermanent(sendErr.value)))
      && (f.None? <==> content.Some? && content.value.body != "" && !limited && sendErr.None?)
  {
  }
}
