/** Which steps of a check and of a request may change places, and in what sense the tables then agree. */
module Commute {
  import opened Common
  import opened Monitors
  import opened Store
  import opened CheckRun
  import opened World
  import Service = ServiceSpec

  /** How far tables agree: in the health of each monitor, in all rows but for the order of the log, or also in
      the order of the logged state changes. */
  datatype Level = Health | Rows | Log

  // ---- logs ----

  predicate ByService(kind: EventKind) {
    kind.Created? || kind.Updated? || kind.Deleted? || kind.Enabled? || kind.Disabled?
  }

  /** The events of lifecycle operations, and those of checks. */
  function OfService(): Event -> bool { (e: Event) => ByService(e.kind) }
  function OfCheck(): Event -> bool { (e: Event) => !ByService(e.kind) }

  /** Everything but the events of creations, updates and deletes, which do not concern the state. */
  function Unedited(): Event -> bool { (e: Event) => !e.kind.Created? && !e.kind.Updated? && !e.kind.Deleted? }

  /** The logs agree on the events of checks and on those of lifecycle operations, and at level `Log` on the
      order of all that concern the state. */
  ghost predicate LogsAlike(a: seq<Event>, b: seq<Event>, l: Level) {
    && Filter(a, OfCheck()) == Filter(b, OfCheck()) && Filter(a, OfService()) == Filter(b, OfService())
    && (l.Log? ==> Filter(a, Unedited()) == Filter(b, Unedited()))
  }

  lemma LogsExtend(a: seq<Event>, b: seq<Event>, n: seq<Event>, l: Level)
    requires LogsAlike(a, b, l)
    ensures LogsAlike(a + n, b + n, l)
  {
    FilterConcat(a, n, OfCheck());
    FilterConcat(b, n, OfCheck());
    FilterConcat(a, n, OfService());
    FilterConcat(b, n, OfService());
    FilterConcat(a, n, Unedited());
    FilterConcat(b, n, Unedited());
  }

  lemma {:induction false} FilterNone<T>(xs: seq<T>, p: T -> bool)
    requires forall x | x in xs :: !p(x)
    ensures Filter(xs, p) == []
  {
    if xs == [] {
    } else {
      assert xs[0] in xs && forall x | x in xs[1..] :: x in xs;
      FilterNone(xs[1..], p);
    }
  }

  lemma FilterThree<T>(a: seq<T>, b: seq<T>, c: seq<T>, p: T -> bool)
    ensures Filter((a + b) + c, p) == (Filter(a, p) + Filter(b, p)) + Filter(c, p)
  {
    FilterConcat(a + b, c, p);
    FilterConcat(a, b, p);
  }

  lemma SwapFiltered<T>(log: seq<T>, xs: seq<T>, ys: seq<T>, p: T -> bool)
    requires Filter(xs, p) == [] || Filter(ys, p) == []
    ensures Filter((log + xs) + ys, p) == Filter((log + ys) + xs, p)
  {
    FilterThree(log, xs, ys, p);
    FilterThree(log, ys, xs, p);
    EmptySwap(Filter(log, p), Filter(xs, p), Filter(ys, p));
  }

  lemma EmptySwap<T>(l: seq<T>, x: seq<T>, y: seq<T>)
    requires x == [] || y == []
    ensures (l + x) + y == (l + y) + x
  {}

  /** Events of an operation and of a check may change places. */
  lemma LogsSwap(log: seq<Event>, service: seq<Event>, checks: seq<Event>, l: Level)
    requires forall e | e in service :: OfService()(e)
    requires forall e | e in checks :: OfCheck()(e)
    requires l.Log? ==> forall e | e in service :: !Unedited()(e)
    ensures LogsAlike((log + service) + checks, (log + checks) + service, l)
  {
    FilterNone(service, OfCheck());
    FilterNone(checks, OfService());
    SwapFiltered(log, service, checks, OfCheck());
    SwapFiltered(log, service, checks, OfService());
    if l.Log? {
      FilterNone(service, Unedited());
      SwapFiltered(log, service, checks, Unedited());
    }
  }

  // ---- rows ----

  predicate SameStatus(s: Status, t: Status, l: Level) { s.state == t.state && (!l.Health? ==> s == t) }

  ghost predicate SameStates(a: map<Id, Status>, b: map<Id, Status>, l: Level) {
    a.Keys == b.Keys && forall id | id in a :: SameStatus(a[id], b[id], l)
  }

  ghost predicate Alike(a: Tables, b: Tables, l: Level) {
    && a.(states := map[], events := []) == b.(states := map[], events := [])
    && SameStates(a.states, b.states, l) && LogsAlike(a.events, b.events, l)
  }

  /** The two runs have got equally far, with local status values that agree. */
  ghost predicate StagesAlike(s: Stage, t: Stage, l: Level) {
    match (s, t)
    case (Getting, Getting) => true
    case (Recording(x), Recording(y)) => SameStatus(x, y, l)
    case (Changing(x), Changing(y)) => SameStatus(x, y, l)
    case (Announcing(x), Announcing(y)) => SameStatus(x, y, l)
    case (Opening(x), Opening(y)) => SameStatus(x, y, l)
    case (Finding(x), Finding(y)) => SameStatus(x, y, l)
    case (Concluding(x, f), Concluding(y, g)) => SameStatus(x, y, l) && f == g
    case (Resolving(x, f), Resolving(y, g)) => SameStatus(x, y, l) && f == g
    case (Saving(x), Saving(y)) => SameStatus(x, y, l)
    case (Finished(x), Finished(y)) => x == y
    case _ => false
  }

  ghost predicate ChecksAlike(c: Check, d: Check, l: Level) {
    c.monitor == d.monitor && c.probe == d.probe && StagesAlike(c.stage, d.stage, l)
  }

  /** The event that a call logs, if any. */
  function EventOf(c: Check): seq<Event> {
    var p := c.probe;
    match c.stage
    case Changing(s) => [Event(p.changeId, StateChanged(s.state, TransitionOf(s, p).to), c.monitor, p.at)]
    case Announcing(_) => [Event(p.incidentEventId, IncidentOpened, c.monitor, p.at)]
    case Concluding(_, _) => [Event(p.incidentEventId, IncidentResolved, c.monitor, p.at)]
    case _ => []
  }

  lemma EffectLogs(db: Tables, c: Check)
    requires !c.stage.Finished?
    ensures Effect(db, c).events == db.events + EventOf(c)
  {
    assert db.events + [] == db.events;
  }

  lemma NextAlike(s: Status, t: Status, p: Probe, l: Level)
    requires SameStatus(s, t, l)
    ensures SameStatus(NextStatus(s, p), NextStatus(t, p), l)
  {}

  /** Only the last call writes the state row. */
  lemma StatesUntouched(db: Tables, c: Check)
    requires !c.stage.Saving? && !c.stage.Finished?
    ensures Effect(db, c).states == db.states
  {}

  lemma EffectStates(a: Tables, b: Tables, c: Check, d: Check, l: Level)
    requires SameStates(a.states, b.states, l) && ChecksAlike(c, d, l) && !c.stage.Finished?
    ensures SameStates(Effect(a, c).states, Effect(b, d).states, l)
  {
    if c.stage.Saving? {
      NextAlike(c.stage.status, d.stage.status, c.probe, l);
    } else {
      StatesUntouched(a, c);
      StatesUntouched(b, d);
    }
  }

  lemma EffectRows(a: Tables, b: Tables, c: Check, d: Check, l: Level)
    requires Alike(a, b, l) && ChecksAlike(c, d, l) && !c.stage.Finished?
    ensures Effect(a, c).(states := map[], events := []) == Effect(b, d).(states := map[], events := [])
  {
    match c.stage
    case Recording(_) => assert Effect(a, c).checks == Effect(b, d).checks;
    case Opening(_) => assert Effect(a, c).outbox == Effect(b, d).outbox;
    case Resolving(_, _) => assert Effect(a, c).outbox == Effect(b, d).outbox;
    case _ =>
  }

  lemma EffectAlike(a: Tables, b: Tables, c: Check, d: Check, l: Level)
    requires Alike(a, b, l) && ChecksAlike(c, d, l) && !c.stage.Finished?
    ensures Alike(Effect(a, c), Effect(b, d), l)
  {
    EffectLogs(a, c);
    EffectLogs(b, d);
    LogsExtend(a.events, b.events, EventOf(c), l);
    EffectStates(a, b, c, d, l);
    EffectRows(a, b, c, d, l);
    assert EventOf(c) == EventOf(d);
  }

  lemma FollowingAlike(a: Tables, b: Tables, c: Check, d: Check, l: Level)
    requires Alike(a, b, l) && ChecksAlike(c, d, l) && !c.stage.Finished?
    ensures StagesAlike(Following(a, c), Following(b, d), l)
  {
    assert a.incidents == b.incidents;
  }

  lemma CallAlike(a: Tables, b: Tables, c: Check, d: Check, l: Level)
    requires Alike(a, b, l) && ChecksAlike(c, d, l) && !c.stage.Finished?
    ensures Alike(Advance(a, c).0, Advance(b, d).0, l) && ChecksAlike(Advance(a, c).1, Advance(b, d).1, l)
  {
    if !Fails(c) {
      EffectAlike(a, b, c, d, l);
      FollowingAlike(a, b, c, d, l);
    }
  }

  lemma {:induction false} CompleteAlike(a: Tables, b: Tables, c: Check, d: Check, l: Level)
    requires Alike(a, b, l) && ChecksAlike(c, d, l)
    ensures Alike(Complete((a, c)), Complete((b, d)), l)
    decreases CallsLeft(c.stage)
  {
    if c.stage.Finished? {
    } else {
      CallAlike(a, b, c, d, l);
      var x, y := Advance(a, c), Advance(b, d);
      CompleteAlike(x.0, y.0, x.1, y.1, l);
    }
  }

  // ---- what a check does not read ----

  /** The tables that a check reads, or writes other than by logging, are equal. */
  ghost predicate SameRows(a: Tables, b: Tables) {
    a.(monitors := map[], events := []) == b.(monitors := map[], events := [])
  }

  /** `x` and `y` come from `a` and `b` by the same changes to those tables and the same new events. */
  ghost predicate Moved(a: Tables, b: Tables, x: Tables, y: Tables, n: seq<Event>) {
    && SameRows(x, y) && x.monitors == a.monitors && y.monitors == b.monitors
    && x.events == a.events + n && y.events == b.events + n
  }

  lemma EffectSame(a: Tables, b: Tables, c: Check)
    requires SameRows(a, b) && !c.stage.Finished?
    ensures SameRows(Effect(a, c), Effect(b, c)) && Effect(a, c).monitors == a.monitors && Effect(b, c).monitors == b.monitors
    ensures Following(a, c) == Following(b, c)
    ensures forall e | e in EventOf(c) :: OfCheck()(e)
  {}

  lemma CallFrame(a: Tables, b: Tables, c: Check) returns (n: seq<Event>)
    requires SameRows(a, b) && !c.stage.Finished?
    ensures Advance(a, c).1 == Advance(b, c).1
    ensures Moved(a, b, Advance(a, c).0, Advance(b, c).0, n)
    ensures forall e | e in n :: OfCheck()(e)
  {
    if Fails(c) {
      n := [];
    } else {
      EffectLogs(a, c);
      EffectLogs(b, c);
      n := EventOf(c);
      EffectSame(a, b, c);
    }
  }

  /** The rest of a run does the same to tables that differ only in monitors and events. */
  lemma {:induction false} CompleteFrame(a: Tables, b: Tables, c: Check) returns (n: seq<Event>)
    requires SameRows(a, b)
    ensures Moved(a, b, Complete((a, c)), Complete((b, c)), n)
    ensures forall e | e in n :: OfCheck()(e)
    decreases CallsLeft(c.stage)
  {
    if c.stage.Finished? {
      n := [];
    } else {
      var first := CallFrame(a, b, c);
      var x, y := Advance(a, c), Advance(b, c);
      var rest := CompleteFrame(x.0, y.0, x.1);
      n := first + rest;
      assert (a.events + first) + rest == a.events + n && (b.events + first) + rest == b.events + n;
    }
  }

  // ---- lifecycle operations ----

  /** With these monitors the operation reads and writes no rows but those of monitors: updates, deletes, and the
      creations and toggles that do not get as far as the state row. */
  predicate Aside(monitors: map<Id, Monitor>, op: Op) {
    match op
    case CheckOp(_, _) => false
    case CreateOp(_, id, _, _) => id in monitors
    case ToggleOp(id, enabled, ctx) =>
      || Service.GetMonitor in ctx.fails || !Live(monitors, id) || monitors[id].enabled == enabled
      || Service.UpdateMonitor in ctx.fails || Service.ReadState in ctx.fails
    case _ => true
  }

  lemma EditFrame(a: Tables, b: Tables, op: Op) returns (n: seq<Event>)
    requires (op.UpdateOp? || op.DeleteOp?) && a.monitors == b.monitors
    ensures Apply(a, op) == a.(monitors := Apply(b, op).monitors, events := a.events + n)
    ensures Apply(b, op) == b.(monitors := Apply(b, op).monitors, events := b.events + n)
    ensures forall e | e in n :: OfService()(e) && !Unedited()(e)
  {
    n := if Apply(a, op).events == a.events then [] else [Apply(a, op).events[|a.events|]];
  }

  lemma AsideFrame(a: Tables, b: Tables, op: Op) returns (n: seq<Event>)
    requires Aside(a.monitors, op) && a.monitors == b.monitors
    ensures Apply(a, op) == a.(monitors := Apply(b, op).monitors, events := a.events + n)
    ensures Apply(b, op) == b.(monitors := Apply(b, op).monitors, events := b.events + n)
    ensures forall e | e in n :: OfService()(e) && !Unedited()(e)
  {
    if op.UpdateOp? || op.DeleteOp? {
      n := EditFrame(a, b, op);
    } else {
      n := [];
      assert a.events + n == a.events && b.events + n == b.events;
    }
  }

  /** Such an operation in the middle of a check leaves what it would leave after the check, but for the place of
      its event. */
  lemma AsideCommutes(db: Tables, c: Check, op: Op, l: Level)
    requires Aside(db.monitors, op)
    ensures Alike(Complete((Apply(db, op), c)), Apply(Complete((db, c)), op), l)
  {
    var m := CompleteFrame(db, db, c);
    var x := AsideFrame(db, Complete((db, c)), op);
    var n := CompleteFrame(Apply(db, op), db, c);
    LogsSwap(db.events, x, n, l);
  }

  lemma RecordAlike(a: Tables, b: Tables, kind: EventKind, m: Monitor, ctx: Service.Context, l: Level)
    requires Alike(a, b, l)
    ensures Alike(Service.Record(a, kind, m, ctx).0, Service.Record(b, kind, m, ctx).0, l)
  {
    LogsExtend(a.events, b.events, [Event(ctx.eventId, kind, m.id, ctx.at)], l);
  }

  lemma CreateAlike(a: Tables, b: Tables, op: Op, l: Level)
    requires Alike(a, b, l) && op.CreateOp?
    ensures Alike(Apply(a, op), Apply(b, op), l)
  {
    var ctx, m := op.ctx, op.input.(id := op.id, deleted := false);
    if !Service.Valid(op.input, op.restValid) || Service.InsertMonitor in ctx.fails || op.id in a.monitors { return; }
    var a1, b1 := a.(monitors := a.monitors[op.id := Stored(m)]), b.(monitors := b.monitors[op.id := Stored(m)]);
    if Service.WriteState in ctx.fails { return; }
    var s := Service.InitialStatus(m.enabled, ctx.at);
    RecordAlike(a1.(states := a1.states[op.id := s]), b1.(states := b1.states[op.id := s]), Created, m, ctx, l);
  }

  lemma ToggleAlike(a: Tables, b: Tables, op: Op, l: Level)
    requires Alike(a, b, l) && op.ToggleOp?
    ensures Alike(Apply(a, op), Apply(b, op), l)
  {
    if !TogglesMonitor(a, op) { return; }
    var m := a.monitors[op.id].(enabled := op.enabled);
    var a1, b1 := a.(monitors := a.monitors[op.id := Stored(m)]), b.(monitors := b.monitors[op.id := Stored(m)]);
    if !TogglesState(a, op) { return; }
    var s := a.states[op.id].(state := Service.InitialState(op.enabled), updatedAt := op.ctx.at);
    var t := b.states[op.id].(state := Service.InitialState(op.enabled), updatedAt := op.ctx.at);
    RecordAlike(a1.(states := a1.states[op.id := s]), b1.(states := b1.states[op.id := t]),
                if op.enabled then Enabled else Disabled, m, op.ctx, l);
  }

  lemma EditAlike(a: Tables, b: Tables, op: Op, l: Level)
    requires Alike(a, b, l) && (op.UpdateOp? || op.DeleteOp?)
    ensures Alike(Apply(a, op), Apply(b, op), l)
  {
    var n := EditFrame(a, b, op);
    LogsExtend(a.events, b.events, n, l);
  }

  lemma ApplyAlike(a: Tables, b: Tables, op: Op, l: Level)
    requires Alike(a, b, l)
    ensures Alike(Apply(a, op), Apply(b, op), l)
  {
    match op
    case CheckOp(id, p) => CompleteAlike(a, b, Begin(id, p), Begin(id, p), l);
    case CreateOp(_, _, _, _) => CreateAlike(a, b, op, l);
    case ToggleOp(_, _, _) => ToggleAlike(a, b, op, l);
    case _ => EditAlike(a, b, op, l);
  }

  /** Runs of the same operations keep tables alike: none reads the log, and what a check or a toggle decides
      depends on the state in a status row only. */
  lemma {:induction false} RunAlike(a: Tables, b: Tables, ops: seq<Op>, l: Level)
    requires Alike(a, b, l)
    ensures Alike(Run(a, ops), Run(b, ops), l)
    decreases |ops|
  {
    if ops == [] {
    } else {
      ApplyAlike(a, b, ops[0], l);
      RunAlike(Apply(a, ops[0]), Apply(b, ops[0]), ops[1..], l);
    }
  }

  lemma {:induction false} FreshAlike(a: Tables, b: Tables, ops: seq<Op>, l: Level)
    requires Alike(a, b, l) && FreshRun(a, ops)
    ensures FreshRun(b, ops)
    decreases |ops|
  {
    if ops == [] {
    } else {
      ApplyAlike(a, b, ops[0], l);
      FreshAlike(Apply(a, ops[0]), Apply(b, ops[0]), ops[1..], l);
    }
  }
}
