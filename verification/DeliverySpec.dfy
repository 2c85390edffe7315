/** The delivery pipeline as a state machine: a bounded queue, workers that take a job, claim its key under
    the lock and deliver it, and a stop that abandons what is still queued. */
module DeliverySpec {
  import opened Common

  /** A job as the delivery pipeline sees it; an empty incident is never suppressed. */
  datatype Notice = Notice(incident: string, eventType: string, event: string)

  const QUEUE_SIZE := 256

  /** The text under which a job is remembered. */
  function KeyText(n: Notice): string { n.incident + ":" + n.eventType }

  /** None of the event types contains the separator. */
  predicate Typed(n: Notice) { ':' !in n.eventType }

  datatype Slot = Idle | Claiming(job: Notice) | Sending(job: Notice) | Exited

  /** `accepted`, `passed`, `suppressed` and `finished` record, in order, the jobs that entered the queue,
      passed claim, were rejected by it, and were delivered. */
  datatype State = State(
    queue: seq<Notice>, slots: seq<Slot>, seen: set<string>, stopped: bool,
    accepted: seq<Notice>, passed: seq<Notice>, suppressed: seq<Notice>, finished: seq<Notice>)

  function Init(workers: nat): State { State([], seq(workers, _ => Idle), {}, false, [], [], [], []) }

  datatype Action = Enqueue(job: Notice) | Take(w: nat) | Claim(w: nat) | Deliver(w: nat) | Exit(w: nat) | Stop

  predicate Enabled(s: State, a: Action) {
    match a
    case Enqueue(_) => |s.queue| < QUEUE_SIZE
    case Take(w) => w < |s.slots| && s.slots[w].Idle? && s.queue != []
    case Claim(w) => w < |s.slots| && s.slots[w].Claiming?
    case Deliver(w) => w < |s.slots| && s.slots[w].Sending?
    case Exit(w) => w < |s.slots| && s.slots[w].Idle?
    case Stop => true
  }

  predicate Claimable(s: State, n: Notice) { n.incident == "" || KeyText(n) !in s.seen }

  function Step(s: State, a: Action): State
    requires Enabled(s, a)
  {
    match a
    case Enqueue(n) => s.(queue := s.queue + [n], accepted := s.accepted + [n])
    case Take(w) => s.(slots := s.slots[w := Claiming(s.queue[0])], queue := s.queue[1..])
    case Claim(w) =>
      var n := s.slots[w].job;
      if Claimable(s, n) then
        s.(slots := s.slots[w := Sending(n)], passed := s.passed + [n],
           seen := if n.incident == "" then s.seen else s.seen + {KeyText(n)})
      else s.(slots := s.slots[w := Idle], suppressed := s.suppressed + [n])
    case Deliver(w) => s.(slots := s.slots[w := Idle], finished := s.finished + [s.slots[w].job])
    case Exit(w) => s.(slots := s.slots[w := Exited])
    case Stop => s.(stopped := true)
  }

  ghost predicate Legal(s: State, acts: seq<Action>)
    decreases |acts|
  {
    acts == [] || (Enabled(s, acts[0]) && Legal(Step(s, acts[0]), acts[1..]))
  }

  ghost function Run(s: State, acts: seq<Action>): State
    requires Legal(s, acts)
    decreases |acts|
  {
    if acts == [] then s else Run(Step(s, acts[0]), acts[1..])
  }

  // ---- keys ----

  lemma LastSeparator(n: Notice)
    requires Typed(n)
    ensures KeyText(n)[|n.incident|] == ':' && forall k | |n.incident| < k < |KeyText(n)| :: KeyText(n)[k] != ':'
  {
    forall k | |n.incident| < k < |KeyText(n)| ensures KeyText(n)[k] != ':' {
      assert KeyText(n)[k] == n.eventType[k - |n.incident| - 1];
    }
  }

  /** The text determines incident and event type: the last separator is where the type begins. */
  lemma KeyTextInjective(m: Notice, n: Notice)
    requires Typed(m) && Typed(n) && KeyText(m) == KeyText(n)
    ensures m.incident == n.incident && m.eventType == n.eventType
  {
    LastSeparator(m);
    LastSeparator(n);
    var i := |m.incident|;
    assert i == |n.incident|;
    assert m.incident == KeyText(m)[..i] && n.incident == KeyText(n)[..i];
    assert m.eventType == KeyText(m)[i + 1..] && n.eventType == KeyText(n)[i + 1..];
  }

  // ---- every job is in one place ----

  function Held(p: Notice -> bool): Slot -> bool { (s: Slot) => (s.Claiming? || s.Sending?) && p(s.job) }
  function BeingSent(p: Notice -> bool): Slot -> bool { (s: Slot) => s.Sending? && p(s.job) }

  /** Among the jobs that satisfy `p`: each accepted one is queued, in a worker's hands, suppressed or
      delivered; each one that passed claim is being sent or delivered. */
  ghost predicate Accounted(s: State, p: Notice -> bool) {
    && Count(s.accepted, p)
       == Count(s.queue, p) + Count(s.slots, Held(p)) + Count(s.suppressed, p) + Count(s.finished, p)
    && Count(s.passed, p) == Count(s.slots, BeingSent(p)) + Count(s.finished, p)
  }

  lemma StepAccounts(s: State, a: Action, p: Notice -> bool)
    requires Enabled(s, a) && Accounted(s, p)
    ensures Accounted(Step(s, a), p)
  {
    match a
    case Enqueue(n) =>
      CountAppend(s.queue, n, p);
      CountAppend(s.accepted, n, p);
    case Take(w) =>
      CountUpdate(s.slots, w, Claiming(s.queue[0]), Held(p));
      CountUpdate(s.slots, w, Claiming(s.queue[0]), BeingSent(p));
    case Claim(w) => ClaimAccounts(s, w, p);
    case Deliver(w) =>
      CountUpdate(s.slots, w, Idle, Held(p));
      CountUpdate(s.slots, w, Idle, BeingSent(p));
      CountAppend(s.finished, s.slots[w].job, p);
    case Exit(w) =>
      CountUpdate(s.slots, w, Exited, Held(p));
      CountUpdate(s.slots, w, Exited, BeingSent(p));
    case Stop =>
  }

  lemma ClaimAccounts(s: State, w: nat, p: Notice -> bool)
    requires Enabled(s, Claim(w)) && Accounted(s, p)
    ensures Accounted(Step(s, Claim(w)), p)
  {
    var n := s.slots[w].job;
    var slot := if Claimable(s, n) then Sending(n) else Idle;
    CountUpdate(s.slots, w, slot, Held(p));
    CountUpdate(s.slots, w, slot, BeingSent(p));
    CountAppend(s.passed, n, p);
    CountAppend(s.suppressed, n, p);
  }

  lemma {:induction false} RunAccounts(s: State, acts: seq<Action>, p: Notice -> bool)
    requires Legal(s, acts) && Accounted(s, p)
    ensures Accounted(Run(s, acts), p)
    decreases |acts|
  {
    if acts == [] {
    } else {
      StepAccounts(s, acts[0], p);
      RunAccounts(Step(s, acts[0]), acts[1..], p);
    }
  }

  /** No job is lost or duplicated, whatever class of jobs `p` one counts. */
  lemma JobsAreConserved(workers: nat, acts: seq<Action>, p: Notice -> bool)
    requires Legal(Init(workers), acts)
    ensures Accounted(Run(Init(workers), acts), p)
  {
    CountZero(Init(workers).slots, Held(p));
    CountZero(Init(workers).slots, BeingSent(p));
    RunAccounts(Init(workers), acts, p);
  }

  // ---- at most one delivery per key ----

  function WithKey(key: string): Notice -> bool { (n: Notice) => n.incident != "" && KeyText(n) == key }

  /** Per key: one job has passed claim if the key is remembered, and none otherwise; a suppressed job's key
      is remembered. */
  ghost predicate ClaimedOnce(s: State, key: string) {
    && Count(s.passed, WithKey(key)) == (if key in s.seen then 1 else 0)
    && (Count(s.suppressed, WithKey(key)) > 0 ==> key in s.seen)
  }

  lemma StepClaimsOnce(s: State, a: Action, key: string)
    requires Enabled(s, a) && ClaimedOnce(s, key)
    ensures ClaimedOnce(Step(s, a), key)
  {
    if a.Claim? {
      CountAppend(s.passed, s.slots[a.w].job, WithKey(key));
      CountAppend(s.suppressed, s.slots[a.w].job, WithKey(key));
    }
  }

  lemma {:induction false} RunClaimsOnce(s: State, acts: seq<Action>, key: string)
    requires Legal(s, acts) && ClaimedOnce(s, key)
    ensures ClaimedOnce(Run(s, acts), key)
    decreases |acts|
  {
    if acts == [] {
    } else {
      StepClaimsOnce(s, acts[0], key);
      RunClaimsOnce(Step(s, acts[0]), acts[1..], key);
    }
  }

  /** Every accepted job has been through claim. */
  ghost predicate AllClaimed(s: State) { s.queue == [] && forall x | x in s.slots :: !x.Claiming? }

  /** For any jobs, duplicates included, and any interleaving: at most one job of a key passes claim, and once
      all accepted jobs have been through it, exactly one of each key that was accepted has passed. */
  lemma DeliveredAtMostOnce(workers: nat, acts: seq<Action>, key: string)
    requires Legal(Init(workers), acts)
    ensures var s := Run(Init(workers), acts);
      && Count(s.passed, WithKey(key)) <= 1
      && (AllClaimed(s) && Count(s.accepted, WithKey(key)) > 0 ==> Count(s.passed, WithKey(key)) == 1)
  {
    var s := Run(Init(workers), acts);
    RunClaimsOnce(Init(workers), acts, key);
    JobsAreConserved(workers, acts, WithKey(key));
    if AllClaimed(s) { SameCount(s.slots, WithKey(key)); }
  }

  lemma {:induction false} SameCount(slots: seq<Slot>, p: Notice -> bool)
    requires forall x | x in slots :: !x.Claiming?
    ensures Count(slots, Held(p)) == Count(slots, BeingSent(p))
  {
    if slots == [] {
    } else {
      assert slots[0] in slots && forall x | x in slots[1..] :: x in slots;
      SameCount(slots[1..], p);
    }
  }

  // ---- jobs with distinct keys ----

  ghost predicate DistinctTexts(jobs: seq<Notice>) {
    forall i, j | 0 <= i < j < |jobs| :: jobs[i].incident == "" || KeyText(jobs[i]) != KeyText(jobs[j])
  }

  lemma {:induction false} DistinctCount(jobs: seq<Notice>, key: string)
    requires DistinctTexts(jobs)
    ensures Count(jobs, WithKey(key)) <= 1
  {
    if jobs == [] { return; }
    assert forall i | 0 <= i < |jobs[1..]| :: jobs[1..][i] == jobs[i + 1];
    DistinctCount(jobs[1..], key);
    if WithKey(key)(jobs[0]) { CountZero(jobs[1..], WithKey(key)); }
  }

  /** If no two accepted jobs share a key, claim rejects none of them, in whatever order workers take them. */
  lemma DistinctNeverSuppressed(workers: nat, acts: seq<Action>)
    requires Legal(Init(workers), acts) && DistinctTexts(Run(Init(workers), acts).accepted)
    ensures Run(Init(workers), acts).suppressed == []
  {
    var s := Run(Init(workers), acts);
    SuppressedHaveIncidents(Init(workers), acts);
    if s.suppressed != [] {
      var key := KeyText(s.suppressed[0]);
      assert s.suppressed[0] in s.suppressed;
      CountHas(s.suppressed, 0, WithKey(key));
      RunClaimsOnce(Init(workers), acts, key);
      JobsAreConserved(workers, acts, WithKey(key));
      HeldAtLeastSent(s.slots, WithKey(key));
      DistinctCount(s.accepted, key);
    }
  }

  lemma {:induction false} HeldAtLeastSent(slots: seq<Slot>, p: Notice -> bool)
    ensures Count(slots, Held(p)) >= Count(slots, BeingSent(p))
  {
    if slots == [] {
    } else {
      HeldAtLeastSent(slots[1..], p);
    }
  }

  lemma {:induction false} SuppressedHaveIncidents(s: State, acts: seq<Action>)
    requires Legal(s, acts) && forall n | n in s.suppressed :: n.incident != ""
    ensures forall n | n in Run(s, acts).suppressed :: n.incident != ""
    decreases |acts|
  {
    if acts == [] {
    } else {
      SuppressedHaveIncidents(Step(s, acts[0]), acts[1..]);
    }
  }

  // ---- first in, first out ----

  function AcceptedBy(a: Action): seq<Notice> { if a.Enqueue? then [a.job] else [] }

  /** The job that a step hands to a worker, if any. */
  function TakenBy(s: State, a: Action): seq<Notice>
    requires Enabled(s, a)
  {
    if a.Take? && Step(s, a).slots[a.w].Claiming? then [Step(s, a).slots[a.w].job] else []
  }

  /** The job that a step lets pass or suppresses, if any. */
  function DecidedBy(s: State, a: Action): seq<Notice>
    requires Enabled(s, a)
  {
    if a.Claim? then [s.slots[a.w].job] else []
  }

  ghost function Taken(s: State, acts: seq<Action>): seq<Notice>
    requires Legal(s, acts)
    decreases |acts|
  {
    if acts == [] then [] else TakenBy(s, acts[0]) + Taken(Step(s, acts[0]), acts[1..])
  }

  ghost function Decided(s: State, acts: seq<Action>): seq<Notice>
    requires Legal(s, acts)
    decreases |acts|
  {
    if acts == [] then [] else DecidedBy(s, acts[0]) + Decided(Step(s, acts[0]), acts[1..])
  }

  /** The step that hands a job to a worker hands it the first of the queue. */
  lemma TakeIsFirst(s: State, a: Action)
    requires Enabled(s, a)
    ensures s.queue + AcceptedBy(a) == TakenBy(s, a) + Step(s, a).queue
    ensures Step(s, a).accepted == s.accepted + AcceptedBy(a)
  {
    if a.Take? { assert s.queue == [s.queue[0]] + s.queue[1..]; }
    assert s.accepted + [] == s.accepted;
  }

  lemma {:induction false} RunInOrder(s: State, acts: seq<Action>, before: seq<Notice>)
    requires Legal(s, acts) && s.accepted == before + s.queue
    ensures Run(s, acts).accepted == (before + Taken(s, acts)) + Run(s, acts).queue
    decreases |acts|
  {
    if acts == [] {
      assert before + [] == before;
    } else {
      var t, x := Step(s, acts[0]), TakenBy(s, acts[0]);
      TakeIsFirst(s, acts[0]);
      assert t.accepted == (before + x) + t.queue by {
        assert t.accepted == before + (s.queue + AcceptedBy(acts[0]));
        assert before + (x + t.queue) == (before + x) + t.queue;
      }
      RunInOrder(t, acts[1..], before + x);
      assert (before + x) + Taken(t, acts[1..]) == before + (x + Taken(t, acts[1..]));
    }
  }

  /** Over every run the jobs accepted are, in order, those handed to workers and then those still queued. */
  lemma TakenInOrder(workers: nat, acts: seq<Action>)
    requires Legal(Init(workers), acts)
    ensures Run(Init(workers), acts).accepted == Taken(Init(workers), acts) + Run(Init(workers), acts).queue
  {
    RunInOrder(Init(workers), acts, []);
    assert [] + Taken(Init(workers), acts) == Taken(Init(workers), acts);
  }

  /** The job that the only worker has taken and not yet claimed. */
  function Undecided(s: State): seq<Notice>
    requires |s.slots| == 1
  {
    if s.slots[0].Claiming? then [s.slots[0].job] else []
  }

  lemma DecidesTaken(s: State, a: Action)
    requires |s.slots| == 1 && Enabled(s, a)
    ensures |Step(s, a).slots| == 1
    ensures Undecided(s) + TakenBy(s, a) == DecidedBy(s, a) + Undecided(Step(s, a))
  {}

  lemma Chained<T>(held: seq<T>, into: seq<T>, out: seq<T>, between: seq<T>, later: seq<T>, outLater: seq<T>, left: seq<T>)
    requires held + into == out + between && between + later == outLater + left
    ensures held + (into + later) == (out + outLater) + left
  {
    assert held + (into + later) == (held + into) + later;
    assert (out + between) + later == out + (between + later);
    assert out + (outLater + left) == (out + outLater) + left;
  }

  lemma {:induction false} OneWorkerDecides(s: State, acts: seq<Action>)
    requires |s.slots| == 1 && Legal(s, acts)
    ensures |Run(s, acts).slots| == 1
    ensures Undecided(s) + Taken(s, acts) == Decided(s, acts) + Undecided(Run(s, acts))
    decreases |acts|
  {
    if acts == [] {
    } else {
      var t := Step(s, acts[0]);
      DecidesTaken(s, acts[0]);
      OneWorkerDecides(t, acts[1..]);
      Chained(Undecided(s), TakenBy(s, acts[0]), DecidedBy(s, acts[0]), Undecided(t), Taken(t, acts[1..]),
              Decided(t, acts[1..]), Undecided(Run(t, acts[1..])));
    }
  }

  /** With one worker the jobs passed or suppressed are, in order, the first of those accepted: a recovery accepted
      after its outage is never claimed before it. */
  lemma OneWorkerInOrder(acts: seq<Action>)
    requires Legal(Init(1), acts)
    ensures Decided(Init(1), acts) <= Run(Init(1), acts).accepted
  {
    TakenInOrder(1, acts);
    OneWorkerDecides(Init(1), acts);
    assert [] + Taken(Init(1), acts) == Taken(Init(1), acts);
  }

  /** The queue holds up to 256 jobs, and a job is accepted exactly while it holds fewer. */
  lemma {:induction false} QueueIsBounded(s: State, acts: seq<Action>, n: Notice)
    requires Legal(s, acts) && |s.queue| <= 256
    ensures var t := Run(s, acts); |t.queue| <= 256 && (Enabled(t, Enqueue(n)) <==> |t.queue| < 256)
    decreases |acts|
  {
    if acts == [] {
    } else {
      QueueIsBounded(Step(s, acts[0]), acts[1..], n);
    }
  }
}
