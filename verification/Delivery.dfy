/** The delivery pipeline object and its connection to the jobs that checks enqueue. */
module Delivery {
  import Spec = DeliverySpec
  import Store
  import Serial
  import Run = Interleaving
  import Notifications

  class DeliveryPipeline {
    var jobs: seq<Spec.Notice>
    var slots: seq<Spec.Slot>
    var seen: set<string>
    var stopped: bool
    ghost var accepted: seq<Spec.Notice>
    ghost var passed: seq<Spec.Notice>
    ghost var suppressed: seq<Spec.Notice>
    ghost var finished: seq<Spec.Notice>

    ghost function View(): Spec.State
      reads this
    {
      Spec.State(jobs, slots, seen, stopped, accepted, passed, suppressed, finished)
    }

    constructor (workers: nat)
      ensures View() == Spec.Init(workers)
    {
      jobs, slots, seen, stopped := [], seq(workers, _ => Spec.Idle), {}, false;
      accepted, passed, suppressed, finished := [], [], [], [];
    }

    /** The send arm is ready while the queue has room; after Stop a job may be dropped instead. */
    method Enqueue(job: Spec.Notice, dropIfStopped: bool) returns (ok: bool)
      requires |jobs| < Spec.QUEUE_SIZE || stopped
      modifies this
      ensures ok ==> |old(jobs)| < Spec.QUEUE_SIZE && View() == Spec.Step(old(View()), Spec.Enqueue(job))
      ensures !ok ==> stopped && View() == old(View())
      ensures !old(stopped) ==> ok
    {
      ok := !(stopped && (dropIfStopped || |jobs| >= Spec.QUEUE_SIZE));
      if ok {
        jobs, accepted := jobs + [job], accepted + [job];
      }
    }

    method Take(w: nat)
      requires Spec.Enabled(View(), Spec.Take(w))
      modifies this
      ensures View() == Spec.Step(old(View()), Spec.Take(w))
      ensures jobs == old(jobs[1..]) && slots[w] == Spec.Claiming(old(jobs[0]))
    {
      slots := slots[w := Spec.Claiming(jobs[0])];
      jobs := jobs[1..];
    }

    /** claim, under the lock, for the job that worker `w` has taken. */
    method Claim(w: nat) returns (claimed: bool)
      requires Spec.Enabled(View(), Spec.Claim(w))
      modifies this
      ensures View() == Spec.Step(old(View()), Spec.Claim(w))
      ensures var job := old(slots[w].job);
        && (claimed <==> job.incident == "" || job.incident + ":" + job.eventType !in old(seen))
        && seen == (if job.incident == "" then old(seen) else old(seen) + {job.incident + ":" + job.eventType})
    {
      var job := slots[w].job;
      claimed := true;
      if job.incident != "" {
        var key := job.incident + ":" + job.eventType;
        if key in seen {
          claimed := false;
        } else {
          seen := seen + {key};
        }
      }
      if claimed {
        slots, passed := slots[w := Spec.Sending(job)], passed + [job];
      } else {
        slots, suppressed := slots[w := Spec.Idle], suppressed + [job];
      }
    }

    method Delivered(w: nat)
      requires Spec.Enabled(View(), Spec.Deliver(w))
      modifies this
      ensures View() == Spec.Step(old(View()), Spec.Deliver(w))
    {
      finished := finished + [slots[w].job];
      slots := slots[w := Spec.Idle];
    }

    method Stop()
      modifies this
      ensures View() == Spec.Step(old(View()), Spec.Stop)
    {
      stopped := true;
    }
  }

  // ---- jobs of the check pipeline ----

  function EventType(kind: Store.JobKind): string {
    match kind
    case MonitorDown => "monitor_down"
    case MonitorRecovered => "monitor_recovered"
  }

  function NoticeOf(j: Store.NotifyJob): Spec.Notice { Spec.Notice(j.incident, EventType(j.kind), j.event) }

  function NoticesOf(jobs: seq<Store.NotifyJob>): (r: seq<Spec.Notice>)
    ensures |r| == |jobs| && forall i | 0 <= i < |r| :: r[i] == NoticeOf(jobs[i])
  {
    if jobs == [] then [] else [NoticeOf(jobs[0])] + NoticesOf(jobs[1..])
  }

  lemma TextsDiffer(a: Store.NotifyJob, b: Store.NotifyJob)
    requires Notifications.KeyOf(a) != Notifications.KeyOf(b)
    ensures Spec.KeyText(NoticeOf(a)) != Spec.KeyText(NoticeOf(b))
  {
    if Spec.KeyText(NoticeOf(a)) == Spec.KeyText(NoticeOf(b)) {
      Spec.KeyTextInjective(NoticeOf(a), NoticeOf(b));
      TypesDiffer(a.kind, b.kind);
    }
  }

  lemma NoticesDistinct(jobs: seq<Store.NotifyJob>, a: nat, b: nat)
    requires Notifications.DistinctKeys(jobs) && a < |jobs| && b < |jobs| && a != b
    ensures Spec.KeyText(NoticesOf(jobs)[a]) != Spec.KeyText(NoticesOf(jobs)[b])
  {
    if a < b { TextsDiffer(jobs[a], jobs[b]); } else { TextsDiffer(jobs[b], jobs[a]); }
  }

  lemma TwiceIn<T>(xs: seq<T>, i: nat, j: nat)
    requires i < j < |xs| && xs[i] == xs[j]
    ensures multiset(xs)[xs[i]] >= 2
  {
    assert xs == xs[..j] + xs[j..];
    assert xs[i] in xs[..j] && xs[j] in xs[j..];
  }

  lemma OnceIn<T>(xs: seq<T>, k: nat)
    requires k < |xs| && forall i | 0 <= i < |xs| && i != k :: xs[i] != xs[k]
    ensures multiset(xs)[xs[k]] == 1
  {
    assert xs == xs[..k] + [xs[k]] + xs[k + 1..];
    assert xs[k] !in xs[..k] && xs[k] !in xs[k + 1..];
  }

  /** Jobs drawn from a list without equal keys, in any order, have no equal keys. */
  lemma DrawnDistinct(jobs: seq<Store.NotifyJob>, drawn: seq<Spec.Notice>)
    requires Notifications.DistinctKeys(jobs) && multiset(drawn) <= multiset(NoticesOf(jobs))
    ensures Spec.DistinctTexts(drawn)
  {
    var all := NoticesOf(jobs);
    forall i, j | 0 <= i < j < |drawn| ensures Spec.KeyText(drawn[i]) != Spec.KeyText(drawn[j]) {
      assert drawn[i] in multiset(all) && drawn[j] in multiset(all);
      var a :| 0 <= a < |all| && all[a] == drawn[i];
      var b :| 0 <= b < |all| && all[b] == drawn[j];
      if a != b {
        NoticesDistinct(jobs, a, b);
      } else {
        TwiceIn(drawn, i, j);
        forall k | 0 <= k < |all| && k != a ensures all[k] != all[a] { NoticesDistinct(jobs, k, a); }
        OnceIn(all, a);
        assert false;
      }
    }
  }

  /** From any stored tables, however checks interleave, side by side on one monitor if need be, and whichever of
      their store calls fail, the delivery pipeline never suppresses a job that came from a check, whichever of
      them it has accepted, in whatever order they reached it and in whatever order its workers take them. */
  lemma CheckJobsAlwaysPass(db: Store.Tables, checks: seq<Run.Act>, workers: nat, acts: seq<Spec.Action>)
    requires Serial.Calm(db) && db.outbox == [] && Run.Schedule(Run.Engine(db, map[], map[]), checks)
    requires Spec.Legal(Spec.Init(workers), acts)
    requires multiset(Spec.Run(Spec.Init(workers), acts).accepted)
          <= multiset(NoticesOf(Run.After(Run.Engine(db, map[], map[]), checks).db.outbox))
    ensures Spec.Run(Spec.Init(workers), acts).suppressed == []
  {
    Notifications.EnqueuedKeysDistinct(db, checks);
    DrawnDistinct(Run.After(Run.Engine(db, map[], map[]), checks).db.outbox, Spec.Run(Spec.Init(workers), acts).accepted);
    Spec.DistinctNeverSuppressed(workers, acts);
  }

  lemma TypesDiffer(a: Store.JobKind, b: Store.JobKind)
    ensures EventType(a) == EventType(b) <==> a == b
  {
    assert |EventType(Store.MonitorDown)| != |EventType(Store.MonitorRecovered)|;
  }

  /** The jobs of a check on the wire: the event types of the messages, and the text keys made of them. */
  lemma NoticesInFull(j: Store.NotifyJob)
    ensures var n := NoticeOf(j);
      && n.incident == j.incident && n.event == j.event
      && n.eventType == (if j.kind == Store.MonitorDown then "monitor_down" else "monitor_recovered")
      && Spec.KeyText(n) == j.incident + (if j.kind == Store.MonitorDown then ":monitor_down" else ":monitor_recovered")
  {
    if j.kind == Store.MonitorDown {
      assert j.incident + ":" + "monitor_down" == j.incident + ":monitor_down";
    } else {
      assert j.incident + ":" + "monitor_recovered" == j.incident + ":monitor_recovered";
    }
  }
}
