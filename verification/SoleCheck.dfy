/** What a step of the engine does to the rows of one monitor and to its check in progress, as long as no second
    check of it starts. Nothing is asked of requests. */
module SoleCheck {
  import opened Common
  import opened Store
  import opened CheckRun
  import opened Projection
  import opened Requests
  import opened Interleaving
  import opened Serial

  /** The stage of a run fits the transition it makes. */
  predicate Coherent(c: Check) {
    match c.stage
    case Changing(s) => TransitionOf(s, c.probe).emitStateChange
    case Announcing(s) => TransitionOf(s, c.probe).openIncident
    case Opening(s) => TransitionOf(s, c.probe).openIncident
    case Finding(s) => TransitionOf(s, c.probe).resolveIncident
    case Concluding(s, _) => TransitionOf(s, c.probe).resolveIncident
    case Resolving(s, _) => TransitionOf(s, c.probe).resolveIncident
    case _ => true
  }

  lemma StaysCoherent(db: Tables, c: Check)
    requires !c.stage.Finished? && Coherent(c)
    ensures var d := Advance(db, c).1; Coherent(d) && d.monitor == c.monitor && d.probe == c.probe && !d.stage.Getting?
  {}

  ghost predicate Sole(e: Engine, id: Id) {
    Tracked(e) && SingleCheck(e, id) && forall w :: Checking(e, w, id) ==> Coherent(e.runs[w])
  }

  /** No second check of `id` starts in the run. */
  ghost predicate OneAtATime(e: Engine, acts: seq<Act>, id: Id)
    requires Schedule(e, acts)
    decreases |acts|
  {
    acts == [] || (!ChecksTwice(e, acts[0], id) && OneAtATime(Do(e, acts[0]), acts[1..], id))
  }

  lemma DoStaysSole(e: Engine, a: Act, id: Id)
    requires Sole(e, id) && Allowed(e, a) && !ChecksTwice(e, a, id)
    ensures Sole(Do(e, a), id)
  {
    var f := Do(e, a);
    DoTracked(e, a);
    match a
    case StartCheck(w, jd, _) =>
      assert forall v :: Checking(f, v, id) ==> Checking(e, v, id) || (v == w && jd == id);
    case NextCall(w) =>
      if Coherent(e.runs[w]) { StaysCoherent(e.db, e.runs[w]); }
      CallKeepsRows(e.db, e.runs[w]);
      assert forall v :: Checking(f, v, id) ==> Checking(e, v, id);
    case StartRequest(_, _) => assert forall v :: Checking(f, v, id) <==> Checking(e, v, id);
    case NextStep(_) => assert forall v :: Checking(f, v, id) <==> Checking(e, v, id);
  }

  /** The check of the monitor in progress, when it is there. */
  lemma SoleShape(e: Engine, id: Id)
    requires Sole(e, id)
    ensures CheckOf(e, id).Some? ==>
      var c := CheckOf(e, id).value;
      && Coherent(c) && c.monitor == id && !c.stage.Finished? && (c.stage.Getting? ==> c == Begin(id, c.probe))
      && FoundRow(e.db, c) && (MayOpen(c) ==> !HasId(e.db.incidents, c.probe.incidentId))
  {}

  // ---- the view of one monitor ----

  lemma OwnCall(e: Engine, w: nat, id: Id)
    requires Sole(e, id) && Allowed(e, NextCall(w)) && Checking(e, w, id)
    ensures CheckOf(e, id) == Some(e.runs[w])
    ensures var f, next := Do(e, NextCall(w)), Advance(Project(e.db, id), e.runs[w]);
      && Project(f.db, id) == next.0 && CheckOf(f, id) == (if next.1.stage.Finished? then None else Some(next.1))
      && next.1 == Advance(e.db, e.runs[w]).1
  {
    var c, f := e.runs[w], Do(e, NextCall(w));
    DoStaysSole(e, NextCall(w), id);
    FoundRowOwned(e.db, c);
    CallProjects(e.db, c, id);
    CallKeepsRows(e.db, c);
    CheckIs(e, w, id);
    if Advance(e.db, c).1.stage.Finished? {
      assert forall v :: Checking(f, v, id) ==> Checking(e, v, id) && v != w;
      assert forall v :: !Checking(f, v, id);
    } else {
      CheckIs(f, w, id);
    }
  }

  lemma OtherCall(e: Engine, w: nat, id: Id)
    requires Sole(e, id) && Allowed(e, NextCall(w)) && !Checking(e, w, id)
    ensures Project(Do(e, NextCall(w)).db, id) == Project(e.db, id) && CheckOf(Do(e, NextCall(w)), id) == CheckOf(e, id)
  {
    var c, f := e.runs[w], Do(e, NextCall(w));
    DoStaysSole(e, NextCall(w), id);
    FoundRowOwned(e.db, c);
    CallProjects(e.db, c, id);
    CallKeepsRows(e.db, c);
    SameCheck(e, f, id);
  }

  lemma AnyStep(e: Engine, k: nat, id: Id)
    requires Sole(e, id) && Allowed(e, NextStep(k))
    ensures var f := Do(e, NextStep(k));
      && CheckOf(f, id) == CheckOf(e, id)
      && Project(f.db, id) == (if Asking(e, k, id) then Step(Project(e.db, id), e.requests[k]).0 else Project(e.db, id))
      && (Asking(e, k, id) ==> Step(e.db, e.requests[k]).1 == Step(Project(e.db, id), e.requests[k]).1)
  {
    var f := Do(e, NextStep(k));
    DoStaysSole(e, NextStep(k), id);
    StepProjects(e.db, e.requests[k], id);
    SameCheck(e, f, id);
  }

  lemma AnyStart(e: Engine, a: Act, id: Id)
    requires Sole(e, id) && Allowed(e, a) && !ChecksTwice(e, a, id) && (a.StartCheck? || a.StartRequest?)
    ensures var f := Do(e, a);
      && Project(f.db, id) == Project(e.db, id)
      && (if a.StartCheck? && a.id == id then CheckOf(e, id) == None && CheckOf(f, id) == Some(Begin(id, a.probe))
          else CheckOf(f, id) == CheckOf(e, id))
  {
    var f := Do(e, a);
    DoStaysSole(e, a, id);
    if a.StartCheck? && a.id == id {
      CheckIs(f, a.w, id);
    } else {
      assert forall w :: Checking(e, w, id) <==> Checking(f, w, id);
      SameCheck(e, f, id);
    }
  }
}
