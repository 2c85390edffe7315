/** The scheduler object. Each method is one critical section or channel operation of the source
    and is proved to perform the step of the same name of the transition system. */
module Scheduler {
  import opened Common
  import opened Monitors
  import Spec = SchedulerSpec

  class Entry {
    const monitor: Monitor
    ghost const gen: nat
    var running: bool
    var ticker: Option<nat>

    constructor (monitor: Monitor, running: bool, ticker: Option<nat>, ghost gen: nat)
      ensures this.monitor == monitor && this.gen == gen
      ensures this.running == running && this.ticker == ticker
    {
      this.monitor, this.running, this.ticker := monitor, running, ticker;
      this.gen := gen;
    }
  }

  /** A call of `fire` past its critical section; it keeps the pointer to the entry it locked. */
  datatype PendingFire = PendingFire(entry: Entry, job: Spec.Job, polled: bool)

  class Scheduler {
    const size: nat
    var entries: map<Id, Entry>
    var fires: seq<PendingFire>
    var jobs: seq<Spec.Job>
    var workers: seq<Spec.Worker>
    var tickers: seq<Spec.Ticker>
    var started: bool
    var stopped: bool
    var done: bool
    ghost var made: seq<Entry>

    ghost predicate Valid()
      reads `entries, `fires, `made
    {
      && (forall id | id in entries :: entries[id].monitor.id == id && Known(entries[id]))
      && (forall i | 0 <= i < |fires| :: fires[i].entry.monitor == fires[i].job.monitor && Known(fires[i].entry))
    }

    /** An entry's `gen` is its position among the entries made so far, so it identifies the object. */
    ghost predicate Known(e: Entry)
      reads `made
    {
      e.gen < |made| && made[e.gen] == e
    }

    ghost function ViewEntries(): map<Id, Spec.Entry>
      reads `entries, entries.Values
    {
      map id | id in entries ::
        Spec.Entry(entries[id].gen, entries[id].monitor, entries[id].running, entries[id].ticker)
    }

    ghost function View(): Spec.State
      reads this, entries.Values
    {
      Spec.State(size, ViewEntries(), ViewFires(fires), jobs, workers, tickers, |made|, started, stopped, done)
    }

    static ghost function ViewFires(fs: seq<PendingFire>): seq<Spec.Fire> {
      seq(|fs|, i requires 0 <= i < |fs| => Spec.Fire(fs[i].entry.gen, fs[i].job, fs[i].polled))
    }

    constructor (workers: int)
      ensures Valid() && View() == Spec.Init(workers)
      ensures size == (if workers < 1 then 1 else workers) && entries == map[] && !started && !stopped && !done
    {
      size := if workers < 1 then 1 else workers;
      entries, fires, jobs, this.workers, tickers := map[], [], [], [], [];
      started, stopped, done, made := false, false, false, [];
    }

    method Start()
      requires Valid()
      modifies this
      ensures Valid() && View() == Spec.Start(old(View()))
    {
      if started { return; }
      started := true;
      workers := seq(size, _ => Spec.Idle);
    }

    method CancelTicker(ticker: Option<nat>)
      modifies this`tickers
      ensures tickers == Spec.Cancelled(old(tickers), ticker)
    {
      if ticker.Some? && ticker.value < |tickers| {
        tickers := tickers[ticker.value := tickers[ticker.value].(cancelled := true)];
      }
    }

    /** A new entry object becomes the registration of `m`. */
    method Install(m: Monitor, running: bool, ticker: Option<nat>)
      requires Valid()
      modifies `entries, `made
      ensures Valid() && m.id in entries && fresh(entries[m.id])
      ensures View() == Spec.Install(old(View()), m, running, ticker)
    {
      var e := new Entry(m, running, ticker, |made|);
      made := made + [e];
      entries := entries[m.id := e];
      assert ViewEntries() == old(ViewEntries())[m.id := Spec.Entry(e.gen, m, running, ticker)];
    }

    /** Starts a ticker for `m` if it is eligible. */
    method StartTicker(m: Monitor) returns (ticker: Option<nat>)
      requires Valid()
      modifies `tickers
      ensures Valid() && ticker == (if Spec.Ticks(old(View()), m) then Some(old(|tickers|)) else None)
      ensures View() == Spec.StartTicker(old(View()), m)
    {
      ticker := None;
      if started && !stopped && Spec.ShouldSchedule(m) {
        ticker := Some(|tickers|);
        tickers := tickers + [Spec.Ticker(m.id, m.interval, false)];
      }
    }

    /** Cancels the ticker of the entry about to be replaced and reads its running flag. */
    method CancelPrior(id: Id) returns (running: bool)
      requires Valid()
      modifies `tickers
      ensures Valid() && running == Spec.PriorRunning(old(View()), id)
      ensures View() == Spec.CancelTicker(old(View()), Spec.PriorTicker(old(View()), id))
    {
      running := false;
      if id in entries {
        running := entries[id].running;
        CancelTicker(entries[id].ticker);
      }
    }

    method Upsert(m: Monitor)
      requires Valid()
      modifies this
      ensures Valid() && m.id in entries && fresh(entries[m.id])
      ensures View() == Spec.Upsert(old(View()), m)
      ensures entries[m.id].monitor == m && entries[m.id].running == old(m.id in entries && entries[m.id].running)
      ensures entries[m.id].ticker.Some? <==> started && !stopped && m.enabled && !m.deleted && m.interval > 0
    {
      var running := CancelPrior(m.id);
      var ticker := StartTicker(m);
      Install(m, running, ticker);
      assert ViewEntries()[m.id] == Spec.Upsert(old(View()), m).entries[m.id];
    }

    method Remove(id: Id)
      requires Valid()
      modifies this
      ensures Valid()
      ensures View() == Spec.CancelTicker(Spec.Forget(old(View()), id), Spec.PriorTicker(old(View()), id))
    {
      var ticker := if id in entries then entries[id].ticker else None;
      entries := entries - {id};
      CancelTicker(ticker);
    }

    /** The part of `fire` that holds the mutex. */
    method FireLock(id: Id, manual: bool) returns (locked: bool)
      requires Valid()
      modifies this, entries.Values
      ensures Valid()
      ensures locked == Spec.FireAccepts(old(View()), id, manual)
      ensures locked <==>
        && id in old(entries) && !old(entries[id].running)
        && (manual || (old(entries[id].monitor).enabled && !old(entries[id].monitor).deleted
                       && old(entries[id].monitor).interval > 0))
      ensures View() == Spec.FireLock(old(View()), id, manual)
    {
      if id !in entries { return false; }
      var e := entries[id];
      if !manual && !Spec.ShouldSchedule(e.monitor) { return false; }
      if e.running { return false; }
      e.running := true;
      fires := fires + [PendingFire(e, Spec.Job(e.monitor, manual), false)];
      return true;
    }

    method Release(e: Entry, ghost f: Spec.Fire)
      requires Valid() && Known(e) && f.gen == e.gen && f.job.monitor == e.monitor
      modifies e`running
      ensures Valid()
      ensures View() == Spec.Unlock(old(View()), f)
    {
      e.running := false;
      assert ViewEntries() == Spec.Unlock(old(View()), f).entries;
    }

    method DropFire(i: nat)
      requires Valid() && i < |fires|
      modifies this`fires
      ensures Valid()
      ensures View() == Spec.DropFire(old(View()), i)
    {
      fires := fires[..i] + fires[i + 1..];
      assert ViewFires(fires) == Spec.DropFire(old(View()), i).fires;
    }

    /** Shutdown was seen by a call of `fire`: the flag of the entry it locked is stored false. */
    method Abort(i: nat)
      requires Valid() && i < |fires|
      modifies this, fires[i].entry
      ensures Valid()
      ensures View() == Spec.Abort(old(View()), i)
    {
      Release(fires[i].entry, View().fires[i]);
      DropFire(i);
    }

    /** The first, non-blocking select of `fire`. */
    method Poll(i: nat)
      requires Valid() && i < |fires|
      modifies this, fires[i].entry
      ensures Valid()
      ensures View() == Spec.Poll(old(View()), i)
    {
      if done {
        Abort(i);
      } else {
        fires := fires[i := fires[i].(polled := true)];
      }
    }

    /** The send arm of the blocking select, ready only while the channel has room. */
    method Send(i: nat)
      requires Valid() && i < |fires| && |jobs| < 2 * size
      modifies this
      ensures Valid()
      ensures View() == Spec.Send(old(View()), i) && |jobs| <= 2 * size
    {
      jobs := jobs + [fires[i].job];
      DropFire(i);
    }

    method Take(w: nat)
      requires Valid() && w < |workers| && workers[w].Idle? && jobs != []
      modifies this
      ensures Valid()
      ensures View() == Spec.Take(old(View()), w)
    {
      workers := workers[w := Spec.Busy(jobs[0])];
      jobs := jobs[1..];
    }

    method ClearRunning(id: Id)
      requires Valid()
      modifies entries.Values
      ensures Valid() && View() == Spec.Clear(old(View()), id)
    {
      if id in entries { entries[id].running := false; }
    }

    /** The check of worker `w` has returned. */
    method Finish(w: nat)
      requires Valid() && w < |workers| && workers[w].Busy?
      modifies this, entries.Values
      ensures Valid()
      ensures View() == Spec.Finish(old(View()), w)
    {
      ClearRunning(workers[w].job.monitor.id);
      workers := workers[w := Spec.Idle];
    }

    /** Stop up to its two waits: no effect unless the scheduler runs. */
    method Stop()
      requires Valid()
      modifies this
      ensures Valid()
      ensures View() == if old(started && !stopped)
                        then Spec.Step(old(View()), Spec.DoStop) else old(View())
    {
      if !started || stopped { return; }
      stopped := true;
      done := true;
    }

    /** The end of Stop, when every worker has exited and no ticker is inside `fire`. */
    method Stopped()
      requires Valid() && stopped
      requires (forall f | f in fires :: f.job.manual) && forall w | w in workers :: w.Exited?
      modifies this
      ensures Valid()
      ensures View() == Spec.Step(old(View()), Spec.DoStopped)
    {
      entries := map[];
    }
  }
}
