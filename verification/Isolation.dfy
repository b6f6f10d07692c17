/** Lanes do not hold each other up: seen from one lane, a run of the whole deployment is
    a run of that lane alone, and whatever the lane could do alone it can do among the
    others. */
module Isolation {
  import opened Prelude
  import opened Notification
  import opened Topology
  import opened Repository
  import opened Processing
  import opened Runs
  import opened Delivery

  // ------------------------------------------------------------ parts of sequences

  function Keep<T>(s: seq<T>, p: T -> bool): seq<T> {
    if s == [] then [] else (if p(s[0]) then [s[0]] else []) + Keep(s[1..], p)
  }

  /** Where the element at `i` is found among those kept. */
  function Rank<T>(s: seq<T>, p: T -> bool, i: nat): nat
    requires i <= |s|
  {
    |Keep(s[..i], p)|
  }

  lemma ConcatAssociates<T>(a: seq<T>, b: seq<T>, c: seq<T>)
    ensures a + (b + c) == a + b + c
  {
  }

  lemma {:induction false} KeepConcat<T>(a: seq<T>, b: seq<T>, p: T -> bool)
    ensures Keep(a + b, p) == Keep(a, p) + Keep(b, p)
  {
    if a == [] {
      assert a + b == b;
    } else {
      assert (a + b)[0] == a[0] && (a + b)[1..] == a[1..] + b;
      KeepConcat(a[1..], b, p);
      var first := if p(a[0]) then [a[0]] else [];
      assert first + (Keep(a[1..], p) + Keep(b, p)) == first + Keep(a[1..], p) + Keep(b, p);
    }
  }

  lemma {:induction false} KeepMembers<T>(s: seq<T>, p: T -> bool, x: T)
    ensures x in Keep(s, p) <==> x in s && p(x)
  {
    if s != [] {
      KeepMembers(s[1..], p, x);
      assert x in s <==> x == s[0] || x in s[1..];
    }
  }

  lemma KeepOne<T>(x: T, p: T -> bool)
    ensures Keep([x], p) == if p(x) then [x] else []
  {
    assert [x][1..] == [];
  }

  lemma KeepAround<T>(s: seq<T>, i: nat, p: T -> bool)
    requires i < |s|
    ensures Keep(s, p) == Keep(s[..i], p) + (if p(s[i]) then [s[i]] else []) + Keep(s[i + 1..], p)
  {
    SplitAt(s, i);
    KeepConcat(s[..i] + [s[i]], s[i + 1..], p);
    KeepConcat(s[..i], [s[i]], p);
    KeepOne(s[i], p);
  }

  lemma KeptAt<T>(s: seq<T>, i: nat, p: T -> bool)
    requires i < |s| && p(s[i])
    ensures var r := Rank(s, p, i);
      r < |Keep(s, p)| && Keep(s, p)[r] == s[i] && Keep(s, p)[..r] == Keep(s[..i], p)
      && Keep(s, p)[r + 1..] == Keep(s[i + 1..], p)
  {
    KeepAround(s, i, p);
  }

  lemma KeepSingleton<T>(x: Option<T>, p: T -> bool)
    ensures Keep(Singleton(x), p) == if x.Some? && p(x.value) then [x.value] else []
  {
    if x.Some? { KeepOne(x.value, p); }
  }

  lemma KeepSplice<T>(s: seq<T>, i: nat, put: Option<T>, p: T -> bool)
    requires i < |s| && (put.Some? ==> p(put.value) == p(s[i]))
    ensures p(s[i]) ==> Rank(s, p, i) < |Keep(s, p)|
    ensures Keep(Splice(s, i, put), p) == if p(s[i]) then Splice(Keep(s, p), Rank(s, p, i), put) else Keep(s, p)
  {
    KeepConcat(s[..i] + Singleton(put), s[i + 1..], p);
    KeepConcat(s[..i], Singleton(put), p);
    KeepSingleton(put, p);
    KeepAround(s, i, p);
    if p(s[i]) { KeptAt(s, i, p); }
  }

  lemma {:induction false} KeepAllOrNone<T>(s: seq<T>, p: T -> bool, all: bool)
    requires forall x :: x in s ==> p(x) == all
    ensures Keep(s, p) == if all then s else []
  {
    if s != [] {
      assert s[0] in s;
      assert forall x :: x in s[1..] ==> x in s;
      KeepAllOrNone(s[1..], p, all);
    }
  }

  /** A splice at one place, or nowhere, and an addition at the end. */
  function Edited<T>(s: seq<T>, at: Option<nat>, put: Option<T>, added: seq<T>): seq<T>
    requires at.Some? ==> at.value < |s|
  {
    (if at.Some? then Splice(s, at.value, put) else s) + added
  }

  lemma KeepEdited<T>(s: seq<T>, at: Option<nat>, put: Option<T>, added: seq<T>, p: T -> bool, mine: bool)
    requires at.Some? ==> at.value < |s| && p(s[at.value]) == mine && (put.Some? ==> p(put.value) == mine)
    requires forall x :: x in added ==> p(x) == mine
    ensures mine && at.Some? ==> Rank(s, p, at.value) < |Keep(s, p)|
    ensures Keep(Edited(s, at, put, added), p) ==
      if !mine then Keep(s, p)
      else Edited(Keep(s, p), if at.Some? then Some(Rank(s, p, at.value)) else None, put, added)
  {
    if at.Some? { KeepSplice(s, at.value, put, p); }
    KeepConcat(if at.Some? then Splice(s, at.value, put) else s, added, p);
    KeepAllOrNone(added, p, mine);
  }

  /** The place of the kept element numbered `j`. */
  lemma {:induction false} Unrank<T>(s: seq<T>, p: T -> bool, j: nat) returns (i: nat)
    requires j < |Keep(s, p)|
    ensures i < |s| && p(s[i]) && Rank(s, p, i) == j && Keep(s, p)[j] == s[i]
  {
    if p(s[0]) && j == 0 {
      i := 0;
    } else {
      var k := Unrank(s[1..], p, if p(s[0]) then j - 1 else j);
      i := k + 1;
      assert s[..i] == [s[0]] + s[1..][..k];
      KeepConcat([s[0]], s[1..][..k], p);
      KeepOne(s[0], p);
    }
  }

  // ------------------------------------------------------------ one lane's view

  predicate Concerns(lane: Lane, body: Body) {
    body.Encoded? && LaneOf(body.msg) == lane
  }

  ghost function LaneCopy(lane: Lane): Copy -> bool { (c: Copy) => Concerns(lane, c.body) }

  ghost function LaneOrphan(lane: Lane): Orphan -> bool { (o: Orphan) => Concerns(lane, o.body) }

  ghost function LaneEvent(lane: Lane): Event -> bool { (e: Event) => LaneOf(e.msg) == lane }

  ghost predicate LaneId(lane: Lane, originals: map<string, Message>, id: string) {
    id in originals && LaneOf(originals[id]) == lane
  }

  /** What a state holds of one lane: its copies, also the dead-lettered ones, the
      deliveries in hand, and the records. */
  ghost function View(lane: Lane, s: State): State {
    State(
      s.bindings,
      Keep(s.store, LaneCopy(lane)),
      Keep(s.orphans, LaneOrphan(lane)),
      (map id | id in s.originals && LaneOf(s.originals[id]) == lane :: s.originals[id]),
      (set id | id in s.accepted && LaneId(lane, s.originals, id)),
      Keep(s.log, LaneEvent(lane)))
  }

  predicate OfLane(lane: Lane, m: Message) {
    m.typ == lane.typ && m.priority == lane.priority
  }

  /** The view holds all that is about a notification of the lane and nothing else. */
  lemma ViewHolds(lane: Lane, s: State)
    ensures forall c :: c in View(lane, s).store <==> c in s.store && c.body.Encoded? && OfLane(lane, c.body.msg)
    ensures forall o :: o in View(lane, s).orphans <==> o in s.orphans && o.body.Encoded? && OfLane(lane, o.body.msg)
    ensures forall e :: e in View(lane, s).log <==> e in s.log && OfLane(lane, e.msg)
    ensures forall id :: id in View(lane, s).originals <==> id in s.originals && OfLane(lane, s.originals[id])
    ensures forall id :: id in View(lane, s).accepted <==>
      id in s.accepted && id in s.originals && OfLane(lane, s.originals[id])
  {
    forall c ensures c in View(lane, s).store <==> c in s.store && LaneCopy(lane)(c) {
      KeepMembers(s.store, LaneCopy(lane), c);
    }
    forall o ensures o in View(lane, s).orphans <==> o in s.orphans && LaneOrphan(lane)(o) {
      KeepMembers(s.orphans, LaneOrphan(lane), o);
    }
    forall e ensures e in View(lane, s).log <==> e in s.log && LaneEvent(lane)(e) {
      KeepMembers(s.log, LaneEvent(lane), e);
    }
  }

  ghost function ViewSite(lane: Lane, s: State, site: Site): Site
    requires Fits(s, Some(site))
  {
    match site
    case InStore(i) => InStore(Rank(s.store, LaneCopy(lane), i))
    case InOrphans(i) => InOrphans(Rank(s.orphans, LaneOrphan(lane), i))
  }

  /** The copy or orphan a step deals with. */
  function SiteOf(a: Action): Option<Site> {
    match a
    case Submit(_, _, _, _, _) => None
    case Redeclare(_) => None
    case Deliver(i, _) => Some(InStore(i))
    case Begin(site) => Some(site)
    case Finish(site, _, _) => Some(site)
    case Republish(site, _, _) => Some(site)
    case Settle(site) => Some(site)
    case Lose(i, _) => Some(InStore(i))
    case Vanish(i) => Some(InOrphans(i))
  }

  function BodyAt(s: State, site: Site): Body
    requires Fits(s, Some(site))
  {
    match site
    case InStore(i) => s.store[i].body
    case InOrphans(i) => s.orphans[i].body
  }

  /** The steps of a lane: those that deal with a message of it. Declarations are
      everybody's. */
  ghost predicate Touches(cfg: Config, lane: Lane, s: State, a: Action)
    requires Enabled(cfg, s, a)
  {
    match SiteOf(a)
    case Some(site) => Concerns(lane, BodyAt(s, site))
    case None => a.Submit? ==> LaneOf(Composed(cfg, a).value) == lane
  }

  /** A step with its site elsewhere. */
  function Relocated(a: Action, site: Site): Action
    requires SiteOf(a).Some? && SiteOf(a).value.InStore? == site.InStore?
  {
    match a
    case Deliver(_, w) => Deliver(site.i, w)
    case Begin(_) => Begin(site)
    case Finish(_, limited, sendErr) => Finish(site, limited, sendErr)
    case Republish(_, took, ok) => Republish(site, took, ok)
    case Settle(_) => Settle(site)
    case Lose(_, survives) => Lose(site.i, survives)
    case Vanish(_) => Vanish(site.i)
  }

  /** The step as the lane sees it. */
  ghost function ViewAction(lane: Lane, s: State, a: Action): Action
    requires Fits(s, SiteOf(a))
  {
    match SiteOf(a)
    case Some(site) => Relocated(a, ViewSite(lane, s, site))
    case None => a
  }

  // ------------------------------------------------------------------- changes

  /** Everything a change deals with is of one lane or none of it is. */
  ghost predicate OneLane(lane: Lane, s: State, ch: Change, mine: bool)
    requires Fits(s, ch.site)
  {
    && (ch.site.Some? ==> Concerns(lane, BodyAt(s, ch.site.value)) == mine)
    && (ch.copy.Some? ==> Concerns(lane, ch.copy.value.body) == mine)
    && (ch.orphan.Some? ==> Concerns(lane, ch.orphan.value.body) == mine)
    && (forall c :: c in ch.added ==> Concerns(lane, c.body) == mine)
    && (ch.stray.Some? ==> Concerns(lane, ch.stray.value.body) == mine)
    && (ch.event.Some? ==> (LaneOf(ch.event.value.msg) == lane) == mine)
    && (ch.fault.Some? ==> (LaneOf(ch.fault.value.msg) == lane) == mine)
  }

  ghost function ViewChange(lane: Lane, s: State, ch: Change): Change
    requires Fits(s, ch.site)
  {
    ch.(site := if ch.site.Some? then Some(ViewSite(lane, s, ch.site.value)) else None)
  }

  lemma ViewOfSite(lane: Lane, s: State, site: Site)
    requires Fits(s, Some(site)) && Concerns(lane, BodyAt(s, site))
    ensures Fits(View(lane, s), Some(ViewSite(lane, s, site)))
    ensures match site
      case InStore(i) => View(lane, s).store[ViewSite(lane, s, site).i] == s.store[i]
      case InOrphans(i) => View(lane, s).orphans[ViewSite(lane, s, site).i] == s.orphans[i]
  {
    match site
    case InStore(i) => KeptAt(s.store, i, LaneCopy(lane));
    case InOrphans(i) => KeptAt(s.orphans, i, LaneOrphan(lane));
  }

  function StorePlace(ch: Change): Option<nat> {
    if ch.site.Some? && ch.site.value.InStore? then Some(ch.site.value.i) else None
  }

  function OrphanPlace(ch: Change): Option<nat> {
    if ch.site.Some? && ch.site.value.InOrphans? then Some(ch.site.value.i) else None
  }

  lemma AppliedAsEdits(s: State, ch: Change)
    requires Fits(s, ch.site)
    ensures Apply(s, ch).store == Edited(s.store, StorePlace(ch), ch.copy, ch.added)
    ensures Apply(s, ch).orphans == Edited(s.orphans, OrphanPlace(ch), ch.orphan, Singleton(ch.stray))
  {
  }

  lemma ViewOfStore(lane: Lane, s: State, ch: Change, mine: bool)
    requires Fits(s, ch.site) && OneLane(lane, s, ch, mine)
    requires mine ==> Fits(View(lane, s), ViewChange(lane, s, ch).site)
    ensures View(lane, Apply(s, ch)).store ==
      if mine then Apply(View(lane, s), ViewChange(lane, s, ch)).store else View(lane, s).store
  {
    AppliedAsEdits(s, ch);
    KeepEdited(s.store, StorePlace(ch), ch.copy, ch.added, LaneCopy(lane), mine);
    if mine { AppliedAsEdits(View(lane, s), ViewChange(lane, s, ch)); }
  }

  lemma ViewOfOrphans(lane: Lane, s: State, ch: Change, mine: bool)
    requires Fits(s, ch.site) && OneLane(lane, s, ch, mine)
    requires mine ==> Fits(View(lane, s), ViewChange(lane, s, ch).site)
    ensures View(lane, Apply(s, ch)).orphans ==
      if mine then Apply(View(lane, s), ViewChange(lane, s, ch)).orphans else View(lane, s).orphans
  {
    AppliedAsEdits(s, ch);
    KeepEdited(s.orphans, OrphanPlace(ch), ch.orphan, Singleton(ch.stray), LaneOrphan(lane), mine);
    if mine { AppliedAsEdits(View(lane, s), ViewChange(lane, s, ch)); }
  }

  lemma ViewOfLog(lane: Lane, s: State, ch: Change, mine: bool)
    requires Fits(s, ch.site) && OneLane(lane, s, ch, mine)
    ensures View(lane, Apply(s, ch)).log ==
      if mine then View(lane, s).log + Singleton(ch.event) + Singleton(ch.fault) else View(lane, s).log
  {
    var added := Singleton(ch.event) + Singleton(ch.fault);
    ConcatAssociates(s.log, Singleton(ch.event), Singleton(ch.fault));
    KeepConcat(s.log, added, LaneEvent(lane));
    KeepAllOrNone(added, LaneEvent(lane), mine);
    ConcatAssociates(View(lane, s).log, Singleton(ch.event), Singleton(ch.fault));
  }

  lemma ViewOfOthersChange(lane: Lane, s: State, ch: Change)
    requires Fits(s, ch.site) && OneLane(lane, s, ch, false)
    ensures View(lane, Apply(s, ch)) == View(lane, s)
  {
    ViewOfStore(lane, s, ch, false);
    ViewOfOrphans(lane, s, ch, false);
    ViewOfLog(lane, s, ch, false);
  }

  lemma ViewOfOwnChange(lane: Lane, s: State, ch: Change)
    requires Fits(s, ch.site) && OneLane(lane, s, ch, true)
    ensures Fits(View(lane, s), ViewChange(lane, s, ch).site)
    ensures View(lane, Apply(s, ch)) == Apply(View(lane, s), ViewChange(lane, s, ch))
  {
    if ch.site.Some? { ViewOfSite(lane, s, ch.site.value); }
    ViewOfStore(lane, s, ch, true);
    ViewOfOrphans(lane, s, ch, true);
    ViewOfLog(lane, s, ch, true);
  }

  /** A change of the lane is the same change of its view; another change is none. */
  lemma ViewOfChange(lane: Lane, s: State, ch: Change, mine: bool)
    requires Fits(s, ch.site) && OneLane(lane, s, ch, mine)
    ensures mine ==> Fits(View(lane, s), ViewChange(lane, s, ch).site)
    ensures View(lane, Apply(s, ch)) == if mine then Apply(View(lane, s), ViewChange(lane, s, ch)) else View(lane, s)
  {
    if mine { ViewOfOwnChange(lane, s, ch); } else { ViewOfOthersChange(lane, s, ch); }
  }

  // --------------------------------------------------------------------- steps

  lemma ViewOfJob(lane: Lane, s: State, site: Site)
    requires HasJob(s, site) && Concerns(lane, JobAt(s, site).body)
    ensures HasJob(View(lane, s), ViewSite(lane, s, site))
    ensures JobAt(View(lane, s), ViewSite(lane, s, site)) == JobAt(s, site)
  {
    ViewOfSite(lane, s, site);
  }

  /** A job the lane sees is a job. */
  lemma SeenJob(lane: Lane, s: State, seen: Site) returns (site: Site)
    requires HasJob(View(lane, s), seen)
    ensures HasJob(s, site) && JobAt(s, site) == JobAt(View(lane, s), seen)
    ensures Concerns(lane, JobAt(s, site).body) && ViewSite(lane, s, site) == seen
  {
    match seen
    case InStore(j) =>
      var i := Unrank(s.store, LaneCopy(lane), j);
      site := InStore(i);
    case InOrphans(j) =>
      var i := Unrank(s.orphans, LaneOrphan(lane), j);
      site := InOrphans(i);
  }

  lemma ViewOfFree(lane: Lane, s: State, w: Worker)
    requires Free(s, w)
    ensures Free(View(lane, s), w)
  {
    forall seen | HasJob(View(lane, s), seen) && JobAt(View(lane, s), seen).worker == w
      ensures JobAt(View(lane, s), seen).phase == Waiting
    {
      var site := SeenJob(lane, s, seen);
    }
  }

  lemma ViewOfDeliver(cfg: Config, lane: Lane, s: State, i: nat, w: Worker)
    requires Enabled(cfg, s, Deliver(i, w)) && Concerns(lane, s.store[i].body)
    ensures Enabled(cfg, View(lane, s), Deliver(Rank(s.store, LaneCopy(lane), i), w))
  {
    var p := LaneCopy(lane);
    var r := Rank(s.store, p, i);
    KeptAt(s.store, i, p);
    var seen := View(lane, s).store;
    forall k | 0 <= k < r && seen[k].queue == seen[r].queue ensures !seen[k].hold.Ready? {
      assert seen[k] == seen[..r][k] && seen[k] in Keep(s.store[..i], p);
      KeepMembers(s.store[..i], p, seen[k]);
      var j :| 0 <= j < i && s.store[j] == seen[k];
    }
  }

  lemma ViewOfTurn(lane: Lane, s: State, site: Site, phase: Phase)
    requires HasJob(s, site) && Concerns(lane, JobAt(s, site).body)
    ensures HasJob(View(lane, s), ViewSite(lane, s, site))
    ensures Turn(View(lane, s), ViewSite(lane, s, site), phase) == ViewChange(lane, s, Turn(s, site, phase))
  {
    ViewOfSite(lane, s, site);
  }

  /** A lane's step is possible in its view. */
  lemma ViewIsEnabled(cfg: Config, lane: Lane, s: State, a: Action)
    requires Enabled(cfg, s, a) && Touches(cfg, lane, s, a)
    ensures Enabled(cfg, View(lane, s), ViewAction(lane, s, a))
  {
    match a
    case Submit(_, _, _, _, _) =>
    case Redeclare(_) =>
    case Deliver(i, w) => ViewOfDeliver(cfg, lane, s, i, w);
    case Begin(site) =>
      ViewOfJob(lane, s, site);
      ViewOfFree(lane, s, JobAt(s, site).worker);
    case Finish(site, _, _) => ViewOfJob(lane, s, site);
    case Republish(site, _, _) => ViewOfJob(lane, s, site);
    case Settle(site) => ViewOfJob(lane, s, site);
    case Lose(i, _) => ViewOfJob(lane, s, InStore(i));
    case Vanish(i) => ViewOfJob(lane, s, InOrphans(i));
  }

  lemma ViewOfBeginning(lane: Lane, s: State, site: Site)
    requires HasJob(s, site) && Concerns(lane, JobAt(s, site).body)
    ensures HasJob(View(lane, s), ViewSite(lane, s, site))
    ensures Beginning(View(lane, s), ViewSite(lane, s, site)) == ViewChange(lane, s, Beginning(s, site))
  {
    ViewOfJob(lane, s, site);
    ViewOfTurn(lane, s, site, Trying);
  }

  lemma ViewOfFinishing(lane: Lane, s: State, site: Site, outcome: Option<Event>)
    requires HasJob(s, site) && Concerns(lane, JobAt(s, site).body)
    ensures HasJob(View(lane, s), ViewSite(lane, s, site))
    ensures Finishing(View(lane, s), ViewSite(lane, s, site), outcome) ==
      ViewChange(lane, s, Finishing(s, site, outcome))
  {
    ViewOfTurn(lane, s, site, if outcome.Some? then Acking else Publishing);
  }

  lemma ViewOfRepublishing(cfg: Config, lane: Lane, s: State, site: Site, took: bool, ok: bool)
    requires HasJob(s, site) && Concerns(lane, JobAt(s, site).body)
    ensures HasJob(View(lane, s), ViewSite(lane, s, site))
    ensures JobAt(View(lane, s), ViewSite(lane, s, site)).body.Encoded?
    ensures Republishing(cfg, View(lane, s), ViewSite(lane, s, site), took, ok) ==
      ViewChange(lane, s, Republishing(cfg, s, site, took, ok))
  {
    ViewOfJob(lane, s, site);
    ViewOfTurn(lane, s, site, if ok then Acking else Nacking);
  }

  /** And it does there what it does here. */
  lemma ViewOfEffect(cfg: Config, lane: Lane, s: State, a: Action)
    requires Enabled(cfg, s, a) && SiteOf(a).Some? && Touches(cfg, lane, s, a)
    requires Enabled(cfg, View(lane, s), ViewAction(lane, s, a))
    ensures Effect(cfg, View(lane, s), ViewAction(lane, s, a)) == ViewChange(lane, s, Effect(cfg, s, a))
  {
    match a
    case Begin(site) => ViewOfBeginning(lane, s, site);
    case Finish(site, limited, sendErr) =>
      ViewOfJob(lane, s, site);
      ViewOfFinishing(lane, s, site, Attempted(cfg, JobAt(s, site), limited, sendErr));
    case Republish(site, took, ok) => ViewOfRepublishing(cfg, lane, s, site, took, ok);
    case Deliver(i, _) => ViewOfSite(lane, s, InStore(i));
    case Settle(site) => ViewOfSite(lane, s, site);
    case Lose(i, _) => ViewOfSite(lane, s, InStore(i));
    case Vanish(i) => ViewOfSite(lane, s, InOrphans(i));
    case _ =>
  }

  lemma FanoutIsOneLane(lane: Lane, bindings: seq<Binding>, key: string, m: Message)
    ensures forall c :: c in Fanout(bindings, key, m) ==> c.body == Encoded(m)
  {
  }

  lemma EffectIsOneLane(cfg: Config, lane: Lane, s: State, a: Action)
    requires Enabled(cfg, s, a) && SiteOf(a).Some?
    ensures OneLane(lane, s, Effect(cfg, s, a), Touches(cfg, lane, s, a))
  {
    if a.Republish? {
      var job := JobAt(s, a.site);
      var (m, key) := Retry(cfg, job.worker.lane, job.body.msg);
      FanoutIsOneLane(lane, s.bindings, key, m);
    }
  }

  lemma ViewOfSubmit(cfg: Config, lane: Lane, s: State, a: Action)
    requires Enabled(cfg, s, a) && a.Submit? && s.accepted <= s.originals.Keys
    ensures Enabled(cfg, View(lane, s), a)
    ensures View(lane, Next(cfg, s, a)) ==
      if Touches(cfg, lane, s, a) then Next(cfg, View(lane, s), a) else View(lane, s)
  {
    var m := Composed(cfg, a).value;
    var ch := Entering(s, m, a.took);
    var mine := LaneOf(m) == lane;
    FanoutIsOneLane(lane, s.bindings, RoutingKey(m.typ, m.priority), m);
    ViewOfChange(lane, s, ch, mine);
    ViewOfRegistered(lane, Apply(s, ch), a.id, m, a.ok);
  }

  lemma ViewOfRegistered(lane: Lane, s: State, id: string, m: Message, ok: bool)
    requires id !in s.originals && id !in s.accepted
    ensures View(lane, Registered(s, id, m, ok)) ==
      if LaneOf(m) == lane then Registered(View(lane, s), id, m, ok) else View(lane, s)
  {
    var t := View(lane, Registered(s, id, m, ok));
    assert t.originals == if LaneOf(m) == lane then View(lane, s).originals[id := m] else View(lane, s).originals;
    forall x ensures x in t.accepted <==> x in View(lane, s).accepted || (ok && x == id && LaneOf(m) == lane) {
    }
  }

  /** A step that touches the lane is a step of its view; any other leaves its view as
      it is. */
  lemma ViewOfStep(cfg: Config, lane: Lane, s: State, a: Action)
    requires Inv(cfg, s) && Enabled(cfg, s, a)
    ensures Touches(cfg, lane, s, a) ==>
      System(cfg)(View(lane, s), ViewAction(lane, s, a)) == Some(View(lane, Next(cfg, s, a)))
    ensures !Touches(cfg, lane, s, a) ==> View(lane, Next(cfg, s, a)) == View(lane, s)
  {
    if a.Submit? {
      ViewOfSubmit(cfg, lane, s, a);
    } else if a.Redeclare? {
      ViewOfChange(lane, s, UNCHANGED, true);
    } else {
      EffectIsOneLane(cfg, lane, s, a);
      ViewOfChange(lane, s, Effect(cfg, s, a), Touches(cfg, lane, s, a));
      if Touches(cfg, lane, s, a) {
        ViewIsEnabled(cfg, lane, s, a);
        ViewOfEffect(cfg, lane, s, a);
      }
    }
  }

  // ---------------------------------------------------------------------- runs

  ghost function Viewing(lane: Lane): State -> State {
    (s: State) => View(lane, s)
  }

  /** A lane sees the steps that touch it. */
  ghost function LaneSees(cfg: Config, lane: Lane): (State, Action) -> Option<Action> {
    (s: State, a: Action) =>
      if Enabled(cfg, s, a) && Touches(cfg, lane, s, a) then Some(ViewAction(lane, s, a)) else None
  }

  lemma LaneObserves(cfg: Config, lane: Lane)
    ensures Observes(System(cfg), Invariant(cfg), Viewing(lane), LaneSees(cfg, lane))
  {
    forall s, a | Inv(cfg, s) && Enabled(cfg, s, a)
      ensures Touches(cfg, lane, s, a) ==>
        System(cfg)(View(lane, s), ViewAction(lane, s, a)) == Some(View(lane, Next(cfg, s, a)))
      ensures !Touches(cfg, lane, s, a) ==> View(lane, Next(cfg, s, a)) == View(lane, s)
    {
      ViewOfStep(cfg, lane, s, a);
    }
  }

  /** The steps of a run that touch the lane, as the lane sees them. */
  ghost function LaneRun(cfg: Config, lane: Lane, s: State, run: seq<Action>): seq<Action>
    requires Legal(System(cfg), s, run)
  {
    Seen(System(cfg), LaneSees(cfg, lane), s, run)
  }

  /** Non-interference: whatever the other lanes do, the steps of one lane are, in their
      order, a run of that lane alone, and leave it in the same state. */
  lemma LaneRunsAlone(cfg: Config, lane: Lane, s: State, run: seq<Action>)
    requires WellFiled(cfg.index) && Inv(cfg, s) && Legal(System(cfg), s, run)
    ensures Legal(System(cfg), View(lane, s), LaneRun(cfg, lane, s, run))
    ensures After(System(cfg), View(lane, s), LaneRun(cfg, lane, s, run)) == View(lane, After(System(cfg), s, run))
  {
    SystemKeepsInv(cfg);
    LaneObserves(cfg, lane);
    SeenIsRun(System(cfg), Invariant(cfg), Viewing(lane), LaneSees(cfg, lane), s, run);
  }

  /** So what a deployment can hold of a lane, the lane alone can come to hold. */
  lemma ViewIsReachable(cfg: Config, lane: Lane, s: State)
    requires WellFiled(cfg.index) && Reachable(cfg, s)
    ensures Reachable(cfg, View(lane, s))
  {
    ReachableAfterRuns(cfg, s);
    var s0, run :| Leads(System(cfg), Starting(), s0, run, s);
    InitialIsGood(cfg);
    assert Invariant(cfg)(s0);
    LaneRunsAlone(cfg, lane, s0, run);
    assert View(lane, s0) == s0;
    assert Leads(System(cfg), Starting(), s0, LaneRun(cfg, lane, s0, run), View(lane, s));
    ReachableAfterRuns(cfg, View(lane, s));
  }

  lemma RankBelow<T>(s: seq<T>, p: T -> bool, k: nat, i: nat)
    requires k < i <= |s| && p(s[k])
    ensures Rank(s, p, k) < Rank(s, p, i) && Keep(s[..i], p)[Rank(s, p, k)] == s[k]
  {
    assert s[..i][..k] == s[..k];
    KeptAt(s[..i], k, p);
  }

  lemma LaneOfQueue(cfg: Config, s: State, i: nat, lane: Lane)
    requires Inv(cfg, s) && i < |s.store| && lane.Valid() && s.store[i].queue == lane.Queue()
    ensures Concerns(lane, s.store[i].body)
  {
    assert s.store[i] in s.store && GoodCopy(cfg, s.originals, s.store[i]);
    var m := s.store[i].body.msg;
    assert GoodOriginal(cfg, m.id, s.originals[m.id]);
    LanesAreDistinct(lane, LaneOf(m));
  }

  /** The head of a lane's queue is the head among the lane's own copies. */
  lemma DeliverFromView(cfg: Config, lane: Lane, s: State, j: nat, w: Worker) returns (i: nat)
    requires Inv(cfg, s) && Enabled(cfg, View(lane, s), Deliver(j, w))
    ensures Enabled(cfg, s, Deliver(i, w)) && Concerns(lane, s.store[i].body) && Rank(s.store, LaneCopy(lane), i) == j
  {
    var p := LaneCopy(lane);
    i := Unrank(s.store, p, j);
    LaneOfQueue(cfg, s, i, w.lane);
    forall k | 0 <= k < i && s.store[k].queue == s.store[i].queue ensures !s.store[k].hold.Ready? {
      LaneOfQueue(cfg, s, k, w.lane);
      RankBelow(s.store, p, k, i);
      KeptAt(s.store, i, p);
      KeptAt(s.store, k, p);
    }
  }

  /** A worker busy with one lane is busy with no other. */
  lemma FreeFromView(cfg: Config, lane: Lane, s: State, site: Site)
    requires Inv(cfg, s) && HasJob(s, site) && Concerns(lane, JobAt(s, site).body)
    requires Free(View(lane, s), JobAt(s, site).worker)
    ensures Free(s, JobAt(s, site).worker)
  {
    JobIsGood(cfg, s, site);
    forall other | HasJob(s, other) && JobAt(s, other).worker == JobAt(s, site).worker
      ensures JobAt(s, other).phase == Waiting
    {
      JobIsGood(cfg, s, other);
      ViewOfJob(lane, s, other);
    }
  }

  /** A send that goes to the lane, under an ID no other lane has. */
  ghost predicate OwnSend(cfg: Config, lane: Lane, others: set<string>, b: Action) {
    b.Submit? ==> b.id !in others && (Composed(cfg, b).Success? ==> LaneOf(Composed(cfg, b).value) == lane)
  }

  /** Every notification is the lane's or one of those others. */
  ghost predicate OthersWithin(lane: Lane, others: set<string>, s: State) {
    forall id :: id in s.originals ==> LaneOf(s.originals[id]) == lane || id in others
  }

  /** A step that is possible on the lane alone. */
  lemma StepFromView(cfg: Config, lane: Lane, others: set<string>, s: State, b: Action) returns (a: Action)
    requires Inv(cfg, s) && OthersWithin(lane, others, s)
    requires Enabled(cfg, View(lane, s), b) && OwnSend(cfg, lane, others, b)
    ensures Enabled(cfg, s, a) && Touches(cfg, lane, s, a) && ViewAction(lane, s, a) == b
  {
    match b
    case Submit(_, _, _, _, _) => a := b;
    case Redeclare(_) => a := b;
    case Deliver(j, w) =>
      var i := DeliverFromView(cfg, lane, s, j, w);
      a := Deliver(i, w);
    case Begin(seen) =>
      var site := SeenJob(lane, s, seen);
      FreeFromView(cfg, lane, s, site);
      a := Begin(site);
    case Finish(seen, limited, sendErr) =>
      var site := SeenJob(lane, s, seen);
      a := Finish(site, limited, sendErr);
    case Republish(seen, took, ok) =>
      var site := SeenJob(lane, s, seen);
      a := Republish(site, took, ok);
    case Settle(seen) =>
      var site := SeenJob(lane, s, seen);
      a := Settle(site);
    case Lose(j, survives) =>
      var site := SeenJob(lane, s, InStore(j));
      a := Lose(site.i, survives);
    case Vanish(j) =>
      var site := SeenJob(lane, s, InOrphans(j));
      a := Vanish(site.i);
  }

  ghost function OwnSends(cfg: Config, lane: Lane, others: set<string>): Action -> bool {
    (a: Action) => OwnSend(cfg, lane, others, a)
  }

  ghost predicate Undisturbed(cfg: Config, lane: Lane, others: set<string>, s: State) {
    Inv(cfg, s) && OthersWithin(lane, others, s)
  }

  ghost function StaysUndisturbed(cfg: Config, lane: Lane, others: set<string>): State -> bool {
    (s: State) => Undisturbed(cfg, lane, others, s)
  }

  lemma StepIsSeen(cfg: Config, lane: Lane, others: set<string>, s: State, b: Action)
    requires Undisturbed(cfg, lane, others, s) && Enabled(cfg, View(lane, s), b) && OwnSend(cfg, lane, others, b)
    ensures IsSeen(System(cfg), LaneSees(cfg, lane), s, b)
  {
    var a := StepFromView(cfg, lane, others, s, b);
    assert IsSeenAs(System(cfg), LaneSees(cfg, lane), s, a, b);
  }

  lemma LaneReflects(cfg: Config, lane: Lane, others: set<string>)
    ensures Reflects(System(cfg), StaysUndisturbed(cfg, lane, others), Viewing(lane), LaneSees(cfg, lane),
                     OwnSends(cfg, lane, others))
  {
    forall s: State, b: Action
      | Undisturbed(cfg, lane, others, s) && OwnSend(cfg, lane, others, b) && Enabled(cfg, View(lane, s), b)
      ensures IsSeen(System(cfg), LaneSees(cfg, lane), s, b)
    {
      StepIsSeen(cfg, lane, others, s, b);
    }
  }

  /** The lane's own steps add no notification of another. */
  lemma OwnStepKeepsOthers(cfg: Config, lane: Lane, others: set<string>, s: State, a: Action)
    requires OthersWithin(lane, others, s) && Enabled(cfg, s, a) && Touches(cfg, lane, s, a)
    ensures OthersWithin(lane, others, Next(cfg, s, a))
  {
    var t := Next(cfg, s, a);
    if a.Submit? {
      assert t.originals == s.originals[a.id := Composed(cfg, a).value];
    } else {
      assert t.originals == s.originals;
    }
  }

  lemma LaneStaysUndisturbed(cfg: Config, lane: Lane, others: set<string>)
    requires WellFiled(cfg.index)
    ensures KeepsSeen(System(cfg), StaysUndisturbed(cfg, lane, others), LaneSees(cfg, lane))
  {
    forall s, a | Undisturbed(cfg, lane, others, s) && Enabled(cfg, s, a) && Touches(cfg, lane, s, a)
      ensures Undisturbed(cfg, lane, others, Next(cfg, s, a))
    {
      StepKeepsInv(cfg, s, a);
      OwnStepKeepsOthers(cfg, lane, others, s, a);
    }
  }

  lemma LaneObservesUndisturbed(cfg: Config, lane: Lane, others: set<string>)
    ensures Observes(System(cfg), StaysUndisturbed(cfg, lane, others), Viewing(lane), LaneSees(cfg, lane))
  {
    LaneObserves(cfg, lane);
    forall s | StaysUndisturbed(cfg, lane, others)(s) ensures Invariant(cfg)(s) {
    }
  }

  /** No lane is held up: whatever the senders and workers of a lane and their broker
      could do if the lane were alone, they can do at once, step for step, among all
      the others. The IDs of new sends are to be fresh. */
  lemma LaneIsNotHeldUp(cfg: Config, lane: Lane, s: State, others: set<string>, alone: seq<Action>)
    returns (run: seq<Action>)
    requires WellFiled(cfg.index) && Inv(cfg, s) && OthersWithin(lane, others, s)
    requires Legal(System(cfg), View(lane, s), alone)
    requires forall k :: 0 <= k < |alone| ==> OwnSend(cfg, lane, others, alone[k])
    ensures Legal(System(cfg), s, run) && |run| == |alone| && LaneRun(cfg, lane, s, run) == alone
    ensures View(lane, After(System(cfg), s, run)) == After(System(cfg), View(lane, s), alone)
  {
    LaneStaysUndisturbed(cfg, lane, others);
    LaneObservesUndisturbed(cfg, lane, others);
    LaneReflects(cfg, lane, others);
    run := ViewRunIsSeen(System(cfg), StaysUndisturbed(cfg, lane, others), Viewing(lane), LaneSees(cfg, lane),
                         OwnSends(cfg, lane, others), s, alone);
  }
}
