/** The worker's consumer: its handling of one delivery and its loop, as they act on
    the outside world call by call while everyone else goes on acting too. */
module Consumer {
  import opened Prelude
  import opened Notification
  import opened Topology
  import opened Processing
  import opened Runs
  import opened Delivery

  /** The consumer's own decoded copy of a message. */
  class LiveMessage {
    var value: Message

    constructor (m: Message)
      ensures value == m
    {
      value := m;
    }

    method IncrementRetry()
      modifies this
      ensures value == old(value).Retried()
    {
      value := value.(retryCount := value.retryCount + 1);
    }
  }

  /** A call the consumer makes on its processor, its publisher or a delivery. */
  datatype Call =
    | ProcessCall(m: Message)
    | PublishCall(m: Message)
    | DeadLetterCall(m: Message)
    | AckCall
    | NackCall

  /** What the outside answers while one delivery is handled: the rate limiter, the
      provider, and the broker on the one publish there may be. */
  datatype Reply = Reply(limited: bool, sendErr: Option<Err>, took: bool, ok: bool) {
    ghost predicate Honest() { ok ==> took }
  }

  /** The publish that follows a transient failure. */
  function AnnouncedAs(cfg: Config, lane: Lane, m: Message): Call {
    if m.CanRetry(cfg.Limit(lane)) then PublishCall(m.Retried()) else DeadLetterCall(m)
  }

  /** The calls that follow an attempt with the given outcome. */
  function Concluding(cfg: Config, lane: Lane, m: Message, f: Option<Fault>, ok: bool): seq<Call> {
    if f.None? || IsPermanent(f.value.err) then [AckCall]
    else [AnnouncedAs(cfg, lane, m), if ok then AckCall else NackCall]
  }

  /** The calls the handling of a delivery amounts to. */
  function HandleCalls(cfg: Config, lane: Lane, body: Body, reply: Reply): seq<Call> {
    match body
    case Garbled => [AckCall]
    case Encoded(m) =>
      var f := Process(cfg, lane.typ, m, reply.limited, reply.sendErr);
      [ProcessCall(m)] + Concluding(cfg, lane, m, f, reply.ok)
  }

  predicate Settles(c: Call) {
    c == AckCall || c == NackCall
  }

  /** The policy in full: one settlement, last; a nack exactly when a publish was
      needed and failed; a retry exactly when the failure was transient and a retry
      is left, as the same message with one retry more; a dead letter exactly when
      none is left, unchanged; at most one publish, before the settlement. */
  lemma PolicyOfHandle(cfg: Config, lane: Lane, body: Body, reply: Reply)
    ensures var calls := HandleCalls(cfg, lane, body, reply);
      var n := |calls| - 1;
      && n >= 0 && (forall k :: 0 <= k <= n ==> (Settles(calls[k]) <==> k == n))
      && (body.Encoded? ==>
            var m := body.msg;
            var f := Process(cfg, lane.typ, m, reply.limited, reply.sendErr);
            var transient := f.Some? && !IsPermanent(f.value.err);
            && (calls[n] == NackCall <==> transient && !reply.ok)
            && (forall r :: PublishCall(r) in calls <==>
                  transient && m.retryCount < cfg.Limit(lane) && r.SameAs(m) && r.retryCount == m.retryCount + 1)
            && (forall r :: DeadLetterCall(r) in calls <==> transient && m.retryCount >= cfg.Limit(lane) && r == m)
            && (calls[0] == ProcessCall(m)))
  {
    var calls := HandleCalls(cfg, lane, body, reply);
    if body.Encoded? {
      var m := body.msg;
      forall r: Message ensures r.SameAs(m) && r.retryCount == m.retryCount + 1 <==> r == m.Retried() {}
    }
  }

  /** A job of the worker, and the only one it has begun. */
  ghost predicate Mine(s: State, site: Site, job: Orphan) {
    && HasJob(s, site) && JobAt(s, site) == job
    && forall other :: HasJob(s, other) && other != site && JobAt(s, other).worker == job.worker ==>
         JobAt(s, other).phase == Waiting
  }

  /** After a turn of the job nothing about it changes but its phase. */
  lemma TurnKeepsMine(s: State, site: Site, job: Orphan, ch: Change, phase: Phase)
    requires Mine(s, site, job)
    requires ch == Turn(s, site, phase).(added := ch.added, event := ch.event, fault := ch.fault)
    requires forall c :: c in ch.added ==> c.hold.Ready?
    ensures Fits(s, ch.site) && Mine(Apply(s, ch), site, job.(phase := phase))
  {
    var t := Apply(s, ch);
    forall k | |s.store| <= k < |t.store| ensures t.store[k].hold.Ready? {
      assert t.store[k] == ch.added[k - |s.store|];
    }
    forall other | HasJob(t, other) && other != site
      ensures HasJob(s, other) && JobAt(t, other) == JobAt(s, other)
    {
    }
  }

  /** Where an element of a spliced sequence was before. */
  lemma SplicedIndex<T>(s: seq<T>, i: nat, put: Option<T>, k: nat)
    requires i < |s| && k < |Splice(s, i, put)|
    ensures put.Some? ==> |Splice(s, i, put)| == |s| && Splice(s, i, put)[k] == if k == i then put.value else s[k]
    ensures put.None? ==> |Splice(s, i, put)| == |s| - 1 && Splice(s, i, put)[k] == if k < i then s[k] else s[k + 1]
  {
  }

  /** Where a change leaves a job it does not deal with. */
  function Shifted(ch: Change, site: Site): Site {
    match (ch.site, site)
    case (Some(InStore(i)), InStore(k)) => if ch.copy.None? && i < k then InStore(k - 1) else site
    case (Some(InOrphans(i)), InOrphans(k)) => if ch.orphan.None? && i < k then InOrphans(k - 1) else site
    case _ => site
  }

  lemma ApplyKeepsStored(s: State, ch: Change, k: nat)
    requires Fits(s, ch.site) && HasJob(s, InStore(k)) && ch.site != Some(InStore(k))
    ensures var now := Shifted(ch, InStore(k));
      now.InStore? && now.i < |Apply(s, ch).store| && Apply(s, ch).store[now.i] == s.store[k]
  {
    if ch.site.Some? && ch.site.value.InStore? {
      SplicedIndex(s.store, ch.site.value.i, ch.copy, Shifted(ch, InStore(k)).i);
    }
  }

  lemma ApplyKeepsOrphan(s: State, ch: Change, k: nat)
    requires Fits(s, ch.site) && HasJob(s, InOrphans(k)) && ch.site != Some(InOrphans(k))
    ensures var now := Shifted(ch, InOrphans(k));
      now.InOrphans? && now.i < |Apply(s, ch).orphans| && Apply(s, ch).orphans[now.i] == s.orphans[k]
  {
    if ch.site.Some? && ch.site.value.InOrphans? {
      SplicedIndex(s.orphans, ch.site.value.i, ch.orphan, Shifted(ch, InOrphans(k)).i);
    }
  }

  lemma ApplyKeepsJob(s: State, ch: Change, site: Site)
    requires Fits(s, ch.site) && HasJob(s, site) && ch.site != Some(site)
    ensures HasJob(Apply(s, ch), Shifted(ch, site)) && JobAt(Apply(s, ch), Shifted(ch, site)) == JobAt(s, site)
  {
    match site
    case InStore(k) => ApplyKeepsStored(s, ch, k);
    case InOrphans(k) => ApplyKeepsOrphan(s, ch, k);
  }

  /** A job found after a change was there before, or is one the change puts. */
  ghost predicate ComesFrom(s: State, ch: Change, site: Site, before: Site)
    requires Fits(s, ch.site) && HasJob(Apply(s, ch), site)
  {
    var job := JobAt(Apply(s, ch), site);
    || (HasJob(s, before) && ch.site != Some(before) && JobAt(s, before) == job && Shifted(ch, before) == site)
    || (ch.site == Some(site) && site.InStore? && ch.copy == Some(Apply(s, ch).store[site.i]))
    || (ch.site == Some(site) && ch.orphan == Some(job))
    || (ch.stray == Some(job) && site == InOrphans(|Apply(s, ch).orphans| - 1))
  }

  lemma AddedAreReady(s: State, ch: Change, k: nat)
    requires Fits(s, ch.site) && forall c :: c in ch.added ==> c.hold.Ready?
    requires |Apply(s, ch).store| - |ch.added| <= k < |Apply(s, ch).store|
    ensures Apply(s, ch).store[k].hold.Ready?
  {
    assert Apply(s, ch).store[k] == ch.added[k - (|Apply(s, ch).store| - |ch.added|)];
  }

  lemma StoreJobsComeFrom(s: State, ch: Change, i: nat) returns (before: Site)
    requires Fits(s, ch.site) && HasJob(Apply(s, ch), InStore(i))
    requires i < |Apply(s, ch).store| - |ch.added|
    ensures ComesFrom(s, ch, InStore(i), before)
  {
    before := InStore(i);
    if ch.site.Some? && ch.site.value.InStore? {
      SplicedIndex(s.store, ch.site.value.i, ch.copy, i);
      if ch.copy.None? && i >= ch.site.value.i { before := InStore(i + 1); }
    }
  }

  lemma OrphansComeFrom(s: State, ch: Change, i: nat) returns (before: Site)
    requires Fits(s, ch.site) && HasJob(Apply(s, ch), InOrphans(i))
    ensures ComesFrom(s, ch, InOrphans(i), before)
  {
    before := InOrphans(i);
    if i < |Apply(s, ch).orphans| - |Singleton(ch.stray)| && ch.site.Some? && ch.site.value.InOrphans? {
      SplicedIndex(s.orphans, ch.site.value.i, ch.orphan, i);
      if ch.orphan.None? && i >= ch.site.value.i { before := InOrphans(i + 1); }
    }
  }

  lemma JobsComeFrom(s: State, ch: Change, site: Site) returns (before: Site)
    requires Fits(s, ch.site) && HasJob(Apply(s, ch), site)
    requires forall c :: c in ch.added ==> c.hold.Ready?
    ensures ComesFrom(s, ch, site, before)
  {
    if site.InStore? {
      forall k: nat | |Apply(s, ch).store| - |ch.added| <= k < |Apply(s, ch).store|
        ensures Apply(s, ch).store[k].hold.Ready?
      {
        AddedAreReady(s, ch, k);
      }
      before := StoreJobsComeFrom(s, ch, site.i);
    } else {
      before := OrphansComeFrom(s, ch, site.i);
    }
  }

  /** Once the job is settled the worker has nothing begun. */
  lemma SettledIsFree(s: State, site: Site, job: Orphan)
    requires Mine(s, site, job)
    ensures Fits(s, Some(site)) && Free(Apply(s, Settling(s, site)), job.worker)
  {
    var t := Apply(s, Settling(s, site));
    forall other | HasJob(t, other) && JobAt(t, other).worker == job.worker ensures JobAt(t, other).phase == Waiting {
      var before := JobsComeFrom(s, Settling(s, site), other);
    }
  }

  // ------------------------------------------------------------ interference

  predicate Owned(s: State, site: Site, w: Worker) {
    HasJob(s, site) && JobAt(s, site).worker == w
  }

  /** Steps other than the worker's own: not its handling, and not its crash. Its
      connection may break, and more may be delivered to it. */
  predicate Foreign(s: State, a: Action, w: Worker) {
    match a
    case Begin(site) => !Owned(s, site, w)
    case Finish(site, _, _) => !Owned(s, site, w)
    case Republish(site, _, _) => !Owned(s, site, w)
    case Settle(site) => !Owned(s, site, w)
    case Lose(i, survives) => survives || !Owned(s, InStore(i), w)
    case Vanish(i) => !Owned(s, InOrphans(i), w)
    case _ => true
  }

  /** Where another's step leaves a job of the worker. */
  function Followed(cfg: Config, s: State, a: Action, site: Site): Site
    requires Enabled(cfg, s, a)
  {
    if a.Lose? && a.survives && site == InStore(a.i) then InOrphans(|s.orphans|) else Shifted(Effect(cfg, s, a), site)
  }

  /** What a foreign step puts is not a job the worker has begun, unless it is the
      delivery the broker took back from it. */
  lemma ForeignPuts(cfg: Config, s: State, a: Action, w: Worker)
    requires Enabled(cfg, s, a) && Foreign(s, a, w)
    ensures var ch := Effect(cfg, s, a);
      && (forall c :: c in ch.added ==> c.hold.Ready?)
      && (ch.copy.Some? && ch.copy.value.hold.Held? ==>
            ch.copy.value.hold.worker != w || ch.copy.value.hold.phase == Waiting)
      && (ch.orphan.Some? ==> ch.orphan.value.worker != w)
      && (ch.stray.Some? ==> a.Lose? && a.survives && ch.stray.value == JobAt(s, InStore(a.i)))
      && (ch.site.Some? && Owned(s, ch.site.value, w) ==> a.Lose? && a.survives)
  {
  }

  lemma ForeignKeepsJob(cfg: Config, s: State, a: Action, site: Site, w: Worker)
    requires Enabled(cfg, s, a) && Foreign(s, a, w) && Owned(s, site, w)
    ensures var t, now := Next(cfg, s, a), Followed(cfg, s, a, site);
      HasJob(t, now) && JobAt(t, now) == JobAt(s, site)
  {
    ForeignPuts(cfg, s, a, w);
    var ch := Effect(cfg, s, a);
    if ch.site != Some(site) { ApplyKeepsJob(s, ch, site); }
  }

  lemma ForeignJobsComeFrom(cfg: Config, s: State, a: Action, site: Site, w: Worker) returns (before: Site)
    requires Enabled(cfg, s, a) && Foreign(s, a, w)
    requires Owned(Next(cfg, s, a), site, w) && JobAt(Next(cfg, s, a), site).phase != Waiting
    ensures HasJob(s, before) && JobAt(s, before) == JobAt(Next(cfg, s, a), site) && Followed(cfg, s, a, before) == site
  {
    ForeignPuts(cfg, s, a, w);
    before := JobsComeFrom(s, Effect(cfg, s, a), site);
    if a.Lose? && a.survives && site == InOrphans(|s.orphans|) { before := InStore(a.i); }
  }

  /** Whatever another party does, the worker's job is still its job and still the
      only one it has begun. */
  lemma OthersKeepMine(cfg: Config, s: State, a: Action, site: Site, job: Orphan)
    requires Mine(s, site, job) && Enabled(cfg, s, a) && Foreign(s, a, job.worker)
    ensures Mine(Next(cfg, s, a), Followed(cfg, s, a, site), job)
  {
    var t := Next(cfg, s, a);
    ForeignKeepsJob(cfg, s, a, site, job.worker);
    forall other | HasJob(t, other) && other != Followed(cfg, s, a, site) && JobAt(t, other).worker == job.worker
      ensures JobAt(t, other).phase == Waiting
    {
      if JobAt(t, other).phase != Waiting { var before := ForeignJobsComeFrom(cfg, s, a, other, job.worker); }
    }
  }

  lemma OthersKeepFree(cfg: Config, s: State, a: Action, w: Worker)
    requires Free(s, w) && Enabled(cfg, s, a) && Foreign(s, a, w)
    ensures Free(Next(cfg, s, a), w)
  {
    var t := Next(cfg, s, a);
    forall other | Owned(t, other, w) ensures JobAt(t, other).phase == Waiting {
      if JobAt(t, other).phase != Waiting { var before := ForeignJobsComeFrom(cfg, s, a, other, w); }
    }
  }

  /** Nothing of the worker is begun, by inspection. */
  predicate SeenIdle(s: State, w: Worker) {
    && (forall i :: 0 <= i < |s.store| ==>
          s.store[i].hold.Ready? || s.store[i].hold.worker != w || s.store[i].hold.phase == Waiting)
    && (forall i :: 0 <= i < |s.orphans| ==> s.orphans[i].worker != w || s.orphans[i].phase == Waiting)
  }

  /** Whether a step is possible, by inspection. */
  predicate SeenEnabled(cfg: Config, s: State, a: Action) {
    && Admissible(cfg, s, a)
    && (a.Begin? ==> SeenIdle(s, JobAt(s, a.site).worker))
    && (a.Redeclare? ==> exists n :: 0 <= n < STEPS && Planned(n) == Bind(a.b))
  }

  lemma SeenIsEnabled(cfg: Config, s: State, a: Action)
    ensures SeenEnabled(cfg, s, a) <==> Enabled(cfg, s, a)
  {
    if a.Redeclare? { PlanBinds(a.b); }
    if a.Begin? && HasJob(s, a.site) {
      var w := JobAt(s, a.site).worker;
      if Free(s, w) {
        forall i | 0 <= i < |s.store| && s.store[i].hold.Held? && s.store[i].hold.worker == w
          ensures s.store[i].hold.phase == Waiting
        {
          assert HasJob(s, InStore(i));
        }
        forall i | 0 <= i < |s.orphans| && s.orphans[i].worker == w ensures s.orphans[i].phase == Waiting {
          assert HasJob(s, InOrphans(i));
        }
      }
    }
  }

  /** The calls a worker makes in a step; another party's step makes none. */
  function CallsOf(cfg: Config, w: Worker, s: State, a: Action): seq<Call> {
    match a
    case Begin(site) =>
      if Owned(s, site, w) && JobAt(s, site).body.Encoded? then [ProcessCall(JobAt(s, site).body.msg)] else []
    case Republish(site, _, _) =>
      if !Owned(s, site, w) || JobAt(s, site).body.Garbled? then []
      else [AnnouncedAs(cfg, w.lane, JobAt(s, site).body.msg)]
    case Settle(site) =>
      if Owned(s, site, w) then [if JobAt(s, site).phase == Acking then AckCall else NackCall] else []
    case _ => []
  }

  /** A run as the worker's processor, publisher and deliveries see it. */
  ghost function Projected(cfg: Config, w: Worker, s: State, run: seq<Action>): seq<Call>
    requires Legal(System(cfg), s, run)
    decreases |run|
  {
    if run == [] then []
    else CallsOf(cfg, w, s, run[0]) + Projected(cfg, w, System(cfg)(s, run[0]).value, run[1..])
  }

  lemma {:induction false} ProjectedNext(cfg: Config, w: Worker, s: State, run: seq<Action>, a: Action)
    requires Legal(System(cfg), s, run) && Legal(System(cfg), s, run + [a])
    ensures Projected(cfg, w, s, run + [a]) ==
      Projected(cfg, w, s, run) + CallsOf(cfg, w, After(System(cfg), s, run), a)
    decreases |run|
  {
    if run == [] {
      assert ([] + [a])[1..] == [];
    } else {
      var t := System(cfg)(s, run[0]).value;
      assert (run + [a])[1..] == run[1..] + [a];
      ProjectedNext(cfg, w, t, run[1..], a);
    }
  }

  /** A turn of the consumer's select: its context is cancelled, the channel is closed
      and empty, or it takes a delivery and the outside answers as given. */
  datatype Wakeup = Cancelled | Closed | Taken(reply: Reply)

  /** How a run of the loop is left: it returned for one of the two reasons, or it is
      waiting for a delivery, or it has been watched long enough. */
  datatype Ending = Stopped | Ended | StillWaiting | Watched

  datatype Handled = Handled(body: Body, reply: Reply)

  function AllCalls(cfg: Config, lane: Lane, handled: seq<Handled>): seq<Call> {
    if handled == [] then []
    else
      var n := |handled| - 1;
      AllCalls(cfg, lane, handled[..n]) + HandleCalls(cfg, lane, handled[n].body, handled[n].reply)
  }

  lemma AllCallsGrow(cfg: Config, lane: Lane, before: seq<Call>, handled: seq<Handled>, h: Handled, did: seq<Call>)
    requires did == HandleCalls(cfg, lane, h.body, h.reply)
    ensures before + AllCalls(cfg, lane, handled + [h]) == before + AllCalls(cfg, lane, handled) + did
  {
    assert (handled + [h])[..|handled|] == handled;
    assert before + (AllCalls(cfg, lane, handled) + did) == before + AllCalls(cfg, lane, handled) + did;
  }

  /** The deliveries handled are those taken at the first turns. */
  ghost predicate TakenInTurn(script: seq<Wakeup>, handled: seq<Handled>) {
    |handled| <= |script| && forall k :: 0 <= k < |handled| ==> script[k] == Taken(handled[k].reply)
  }

  lemma TakenNext(script: seq<Wakeup>, handled: seq<Handled>, h: Handled)
    requires TakenInTurn(script, handled) && |handled| < |script| && script[|handled|] == Taken(h.reply)
    ensures TakenInTurn(script, handled + [h])
  {
  }

  /** A worker process in a world it shares with the API, the broker and other
      workers. `trace` is everything that has happened since `start`, by anyone;
      `others` is what the rest of the world tries to do, each time it gets the
      chance to, and may be anything. */
  class Consumer {
    const cfg: Config
    const worker: Worker
    ghost const start: State
    ghost var trace: seq<Action>
    var world: State
    var calls: seq<Call>
    var others: seq<seq<Action>>

    constructor (cfg: Config, worker: Worker, s: State, others: seq<seq<Action>>)
      ensures Valid() && this.cfg == cfg && this.worker == worker
      ensures start == s && trace == [] && world == s && calls == []
    {
      this.cfg, this.worker, this.others := cfg, worker, others;
      start, trace, world, calls := s, [], s, [];
    }

    /** The world is where the trace leads: all that was done were steps of the system.
        The calls made are the worker's part in them. */
    ghost predicate Valid()
      reads this
    {
      && Legal(System(cfg), start, trace) && world == After(System(cfg), start, trace)
      && calls == Projected(cfg, worker, start, trace)
    }

    method Do(a: Action)
      requires Valid() && Enabled(cfg, world, a)
      modifies this
      ensures Valid() && trace == old(trace) + [a] && world == Next(cfg, old(world), a)
      ensures calls == old(calls) + CallsOf(cfg, worker, old(world), a)
    {
      AfterOne(System(cfg), world, a);
      AfterConcat(System(cfg), start, trace, [a]);
      ProjectedNext(cfg, worker, start, trace, a);
      trace := trace + [a];
      calls := calls + CallsOf(cfg, worker, world, a);
      world := Next(cfg, world, a);
    }

    /** What the others do next. */
    method NextMoves() returns (moves: seq<Action>)
      modifies this`others
    {
      moves := [];
      if others != [] {
        moves, others := others[0], others[1..];
      }
    }

    /** Anyone else acts here, any number of times; the worker's own job may be found
        elsewhere afterwards, even orphaned, but it is still the same job. */
    method Interfere(site: Site, ghost job: Orphan) returns (now: Site)
      requires Valid() && Mine(world, site, job) && job.worker == worker
      modifies this
      ensures Valid() && old(trace) <= trace && Mine(world, now, job) && calls == old(calls)
    {
      now := site;
      var moves := NextMoves();
      for n := 0 to |moves|
        invariant Valid() && old(trace) <= trace && Mine(world, now, job) && calls == old(calls)
      {
        SeenIsEnabled(cfg, world, moves[n]);
        if SeenEnabled(cfg, world, moves[n]) && Foreign(world, moves[n], worker) {
          OthersKeepMine(cfg, world, moves[n], now, job);
          now := Followed(cfg, world, moves[n], now);
          Do(moves[n]);
        }
      }
    }

    method InterfereIdle()
      requires Valid() && Free(world, worker)
      modifies this
      ensures Valid() && old(trace) <= trace && Free(world, worker) && calls == old(calls)
    {
      var moves := NextMoves();
      for n := 0 to |moves|
        invariant Valid() && old(trace) <= trace && Free(world, worker) && calls == old(calls)
      {
        SeenIsEnabled(cfg, world, moves[n]);
        if SeenEnabled(cfg, world, moves[n]) && Foreign(world, moves[n], worker) {
          OthersKeepFree(cfg, world, moves[n], worker);
          Do(moves[n]);
        }
      }
    }

    /** Settles the delivery, as the phase of the job demands. */
    method SettleDelivery(site: Site, ghost job: Orphan, call: Call)
      requires Valid() && Mine(world, site, job) && job.worker == worker
      requires (call == AckCall && job.phase == Acking) || (call == NackCall && job.phase == Nacking)
      modifies this
      ensures Valid() && old(trace) <= trace && Free(world, worker)
      ensures calls == old(calls) + [call]
    {
      var now := Interfere(site, job);
      SettledIsFree(world, now, job);
      Do(Settle(now));
    }

    /** Publishes the retry or the dead letter the job's phase calls for. */
    method Announce(site: Site, ghost job: Orphan, call: Call, reply: Reply) returns (now: Site)
      requires Valid() && Mine(world, site, job) && job.worker == worker && job.phase == Publishing && job.body.Encoded?
      requires reply.Honest()
      requires call == AnnouncedAs(cfg, worker.lane, job.body.msg)
      modifies this
      ensures Valid() && old(trace) <= trace && Mine(world, now, job.(phase := if reply.ok then Acking else Nacking))
      ensures calls == old(calls) + [call]
    {
      now := Interfere(site, job);
      ghost var ch := Republishing(cfg, world, now, reply.took, reply.ok);
      TurnKeepsMine(world, now, job, ch, if reply.ok then Acking else Nacking);
      Do(Republish(now, reply.took, reply.ok));
    }

    /** Starts the processor on a decoded message. */
    method Start(site: Site, ghost job: Orphan) returns (now: Site)
      requires Valid() && Mine(world, site, job) && job.worker == worker && job.phase == Waiting && job.body.Encoded?
      modifies this
      ensures Valid() && old(trace) <= trace && Mine(world, now, job.(phase := Trying))
      ensures calls == old(calls) + [ProcessCall(job.body.msg)]
    {
      now := Interfere(site, job);
      TurnKeepsMine(world, now, job, Beginning(world, now), Trying);
      Do(Begin(now));
    }

    /** The processor returns. */
    method Return(site: Site, ghost job: Orphan, reply: Reply) returns (now: Site)
      requires Valid() && Mine(world, site, job) && job.worker == worker && job.phase == Trying && job.body.Encoded?
      modifies this
      ensures Valid() && old(trace) <= trace && calls == old(calls)
      ensures var outcome := Attempted(cfg, job, reply.limited, reply.sendErr);
        Mine(world, now, job.(phase := if outcome.Some? then Acking else Publishing))
    {
      now := Interfere(site, job);
      ghost var outcome := Attempted(cfg, job, reply.limited, reply.sendErr);
      TurnKeepsMine(world, now, job, Finishing(world, now, outcome), if outcome.Some? then Acking else Publishing);
      Do(Finish(now, reply.limited, reply.sendErr));
    }

    /** A body that does not decode is dropped. */
    method Drop(site: Site, ghost job: Orphan)
      requires Valid() && Mine(world, site, job) && job.worker == worker && job.phase == Waiting && job.body.Garbled?
      modifies this
      ensures Valid() && old(trace) <= trace && Free(world, worker)
      ensures calls == old(calls) + [AckCall]
    {
      var now := Interfere(site, job);
      TurnKeepsMine(world, now, job, Beginning(world, now), Acking);
      Do(Begin(now));
      SettleDelivery(now, job.(phase := Acking), AckCall);
    }

    /** After a transient failure: publish first, settle afterwards. */
    method RetryOrBury(site: Site, ghost job: Orphan, msg: LiveMessage, reply: Reply)
      requires Valid() && Mine(world, site, job) && job.worker == worker && job.phase == Publishing
      requires job.body == Encoded(msg.value) && reply.Honest()
      modifies this, msg
      ensures Valid() && old(trace) <= trace && Free(world, worker)
      ensures calls == old(calls)
        + [AnnouncedAs(cfg, worker.lane, old(msg.value)), if reply.ok then AckCall else NackCall]
    {
      var call;
      if msg.value.CanRetry(cfg.Limit(worker.lane)) {
        msg.IncrementRetry();
        call := PublishCall(msg.value);
      } else {
        call := DeadLetterCall(msg.value);
      }
      var now := Announce(site, job, call, reply);
      if !reply.ok {
        SettleDelivery(now, job.(phase := Nacking), NackCall);
        return;
      }
      SettleDelivery(now, job.(phase := Acking), AckCall);
    }

    /** After an attempt that ended as `err` says: settle, or publish and settle. */
    method Conclude(site: Site, ghost job: Orphan, msg: LiveMessage, err: Option<Fault>, reply: Reply)
      requires Valid() && job.worker == worker && job.body == Encoded(msg.value) && reply.Honest()
      requires Mine(world, site, job)
      requires job.phase == if err.None? || IsPermanent(err.value.err) then Acking else Publishing
      modifies this, msg
      ensures Valid() && old(trace) <= trace && Free(world, worker)
      ensures calls == old(calls) + Concluding(cfg, worker.lane, old(msg.value), err, reply.ok)
    {
      if err.None? || IsPermanent(err.value.err) {
        SettleDelivery(site, job, AckCall);
      } else {
        RetryOrBury(site, job, msg, reply);
      }
    }

    /** Handles one delivery of this worker. Whatever the others do meanwhile, its
        calls are the policy's, in order, and each of them is a step of the system. */
    method Handle(site: Site, body: Body, reply: Reply)
      requires Valid() && Mine(world, site, Orphan(worker, body, Waiting)) && reply.Honest()
      modifies this
      ensures Valid() && old(trace) <= trace && Free(world, worker)
      ensures calls == old(calls) + HandleCalls(cfg, worker.lane, body, reply)
    {
      ghost var job := Orphan(worker, body, Waiting);
      if body.Garbled? {
        Drop(site, job);
        return;
      }
      var msg := new LiveMessage(body.msg);
      var now := Start(site, job);
      var err := Process(cfg, worker.lane.typ, msg.value, reply.limited, reply.sendErr);
      now := Return(now, job.(phase := Trying), reply);
      ghost var phase := if err.None? || IsPermanent(err.value.err) then Acking else Publishing;
      Conclude(now, job.(phase := phase), msg, err, reply);
    }

    /** A delivery of this worker, if it has one. */
    method Find() returns (found: bool, site: Site)
      ensures found ==> Owned(world, site, worker)
      ensures !found ==> forall other :: !Owned(world, other, worker)
    {
      found, site := false, InStore(0);
      for i := 0 to |world.store|
        invariant forall k: nat :: k < i ==> !Owned(world, InStore(k), worker)
      {
        if Owned(world, InStore(i), worker) { return true, InStore(i); }
      }
      for i := 0 to |world.orphans|
        invariant forall k: nat :: k < i ==> !Owned(world, InOrphans(k), worker)
      {
        if Owned(world, InOrphans(i), worker) { return true, InOrphans(i); }
      }
    }

    /** The worker has no delivery, begun or not. */
    ghost predicate Idle()
      reads this
    {
      forall site :: !Owned(world, site, worker)
    }

    /** The next delivery the channel yields: any of this worker's that it has not
        begun, if there is one. */
    method Receive() returns (found: bool, site: Site, body: Body)
      requires Valid() && Free(world, worker)
      modifies this
      ensures Valid() && old(trace) <= trace && Free(world, worker) && calls == old(calls)
      ensures found ==> Mine(world, site, Orphan(worker, body, Waiting))
      ensures !found ==> Idle()
    {
      InterfereIdle();
      body := Garbled;
      found, site := Find();
      if found { body := JobAt(world, site).body; }
    }

    /** The calls made since `before` are those of handling `handled`, in order, and
        the worker is between deliveries. */
    ghost predicate Served(before: seq<Call>, handled: seq<Handled>)
      reads this
    {
      Valid() && Free(world, worker) && calls == before + AllCalls(cfg, worker.lane, handled)
    }

    /** Handles the delivery at `site` and adds it to those handled. */
    method HandleNext(site: Site, body: Body, reply: Reply, ghost before: seq<Call>, handled: seq<Handled>)
      returns (now: seq<Handled>)
      requires Served(before, handled) && reply.Honest() && Mine(world, site, Orphan(worker, body, Waiting))
      modifies this
      ensures Served(before, now) && old(trace) <= trace
      ensures now == handled + [Handled(body, reply)]
    {
      ghost var did := HandleCalls(cfg, worker.lane, body, reply);
      AllCallsGrow(cfg, worker.lane, before, handled, Handled(body, reply), did);
      Handle(site, body, reply);
      now := handled + [Handled(body, reply)];
    }

    /** Takes the next delivery, if there is one, and handles it to its end. */
    method Serve(reply: Reply, ghost before: seq<Call>, handled: seq<Handled>)
      returns (now: seq<Handled>, body: Option<Body>)
      requires Served(before, handled) && reply.Honest()
      modifies this
      ensures Served(before, now) && old(trace) <= trace
      ensures match body
        case None => now == handled && Idle()
        case Some(b) => now == handled + [Handled(b, reply)]
    {
      var more, site, b := Receive();
      now, body := handled, None;
      if more {
        now := HandleNext(site, b, reply, before, handled);
        body := Some(b);
      }
    }

    /** Consumes until the context is cancelled or the channel is closed; one delivery
        at a time, each to its end before the next. A turn at which there is nothing
        to take leaves the loop waiting. */
    method Run(script: seq<Wakeup>) returns (handled: seq<Handled>, ending: Ending)
      requires Valid() && Free(world, worker)
      requires forall k :: 0 <= k < |script| && script[k].Taken? ==> script[k].reply.Honest()
      modifies this
      ensures Served(old(calls), handled) && old(trace) <= trace && TakenInTurn(script, handled)
      ensures match ending
        case Stopped => |handled| < |script| && script[|handled|].Cancelled?
        case Ended => |handled| < |script| && script[|handled|].Closed?
        case StillWaiting => |handled| < |script| && script[|handled|].Taken? && Idle()
        case Watched => |handled| == |script|
    {
      handled := [];
      for n := 0 to |script|
        invariant Served(old(calls), handled) && old(trace) <= trace
        invariant |handled| == n && TakenInTurn(script, handled)
      {
        if script[n].Cancelled? { return handled, Stopped; }
        if script[n].Closed? { return handled, Ended; }
        var now, body := Serve(script[n].reply, old(calls), handled);
        if body.None? { return handled, StillWaiting; }
        TakenNext(script, handled, Handled(body.value, script[n].reply));
        handled := now;
      }
      ending := Watched;
    }
  }

  // ------------------------------------------------------------- what is called

  function Settlements(calls: seq<Call>): nat {
    if calls == [] then 0 else (if Settles(calls[0]) then 1 else 0) + Settlements(calls[1..])
  }

  lemma {:induction false} SettlementsConcat(a: seq<Call>, b: seq<Call>)
    ensures Settlements(a + b) == Settlements(a) + Settlements(b)
  {
    if a == [] {
      assert a + b == b;
    } else {
      assert (a + b)[1..] == a[1..] + b;
      SettlementsConcat(a[1..], b);
    }
  }

  lemma HandleSettlesOnce(cfg: Config, lane: Lane, body: Body, reply: Reply)
    ensures Settlements(HandleCalls(cfg, lane, body, reply)) == 1
  {
    if body.Encoded? {
      var calls := HandleCalls(cfg, lane, body, reply);
      assert calls == [calls[0]] + calls[1..];
      SettlementsConcat([calls[0]], calls[1..]);
      if |calls| == 3 {
        assert calls[1..] == [calls[1]] + [calls[2]];
        SettlementsConcat([calls[1]], [calls[2]]);
      }
    }
  }

  /** A run of the consumer settles exactly the deliveries it handled, each once. */
  lemma {:induction false} RunSettlesEachOnce(cfg: Config, lane: Lane, handled: seq<Handled>)
    ensures Settlements(AllCalls(cfg, lane, handled)) == |handled|
  {
    if handled != [] {
      var n := |handled| - 1;
      RunSettlesEachOnce(cfg, lane, handled[..n]);
      HandleSettlesOnce(cfg, lane, handled[n].body, handled[n].reply);
      SettlementsConcat(AllCalls(cfg, lane, handled[..n]), HandleCalls(cfg, lane, handled[n].body, handled[n].reply));
    }
  }
}
