/** The three services as they run: RetryQueue, Reconciler and the part of
    MeshOrchestrator that drives a task, all acting on one TaskClaimMachine.
    Each method is proved to take exactly one step of MeshSpec. */
module Mesh {
  import opened Wrappers
  import opened TaskClaims
  import opened MeshSpec

  class RetryQueue {
    const env: Env
    const claims: TaskClaimMachine
    var pending: map<Hash, Pending>

    constructor (env: Env, claims: TaskClaimMachine)
      ensures this.env == env && this.claims == claims && pending == map[]
    {
      this.env, this.claims, this.pending := env, claims, map[];
    }

    method EnqueueFailure(ghost w: World, h: Hash, goal: Goal, now: Time) returns (outcome: Outcome)
      requires w.claims == claims.State() && w.pending == pending && w.now == now
      modifies this, claims
      ensures var (w', o) := Enqueued(env, w, h, goal);
              w' == w.(claims := claims.State(), pending := pending) && outcome == o
    {
      if h !in claims.ledger {
        return Exhausted;
      }
      var attempt := claims.ledger[h].attempt;
      if attempt + 1 > env.maxAttempts {
        var _ := claims.Release(h, now);
        return Exhausted;
      }
      var backoff := Backoff(env, attempt);
      var queued := claims.QueueRetry(h, backoff, now);
      if !queued {
        return Exhausted;
      }
      pending := pending[h := Pending(goal, attempt + 1, backoff, now + backoff)];
      return Retry;
    }

    /** The sweep's first loop: forget goals whose claim is no longer waiting. */
    method ForgetSettled()
      modifies this
      ensures pending == CleanPending(old(pending), claims.ledger)
    {
      var todo := pending.Keys;
      ghost var before := pending;
      while todo != {}
        invariant todo <= pending.Keys <= before.Keys
        invariant forall h :: h in pending ==> pending[h] == before[h]
        invariant forall h :: h in before && h !in todo ==>
                    (h in pending <==> h in claims.ledger && claims.ledger[h].state == RetryQueued)
      {
        var h :| h in todo;
        todo := todo - {h};
        if h !in claims.ledger || claims.ledger[h].state != RetryQueued {
          pending := pending - {h};
        }
      }
    }

    /** One sweep; the bound dispatcher is `mesh.InjectTask`. Returns the order in
        which due claims were taken. */
    method Sweep(mesh: MeshOrchestrator, now: Time) returns (order: seq<Hash>)
      requires mesh.Wired() && mesh.retryQueue == this
      modifies this, claims, mesh
      ensures Enumerates(order, Due(old(claims.ledger), now))
      ensures mesh.Snapshot(now) == RetrySweep(env, old(mesh.Snapshot(now)), order)
    {
      ForgetSettled();
      order := claims.DueForRetry(now);
      ghost var w0 := mesh.Snapshot(now);
      for i := 0 to |order|
        invariant mesh.Snapshot(now) == DispatchDue(env, w0, order[..i])
      {
        assert order[..i + 1][..i] == order[..i];
        var h := order[i];
        if h in pending {
          var goal := pending[h].goal;
          pending := pending - {h};
          var _ := mesh.InjectTask(goal, now);
        } else {
          var _ := claims.Release(h, now);
        }
      }
      assert order[..|order|] == order;
    }
  }

  class Reconciler {
    const env: Env
    const claims: TaskClaimMachine
    var sweepCount: nat

    constructor (env: Env, claims: TaskClaimMachine)
      ensures this.env == env && this.claims == claims && sweepCount == 0
    {
      this.env, this.claims, this.sweepCount := env, claims, 0;
    }

    method Sweep(now: Time) returns (order: seq<Hash>)
      modifies this, claims
      ensures Enumerates(order, old(claims.ledger).Keys)
      ensures claims.State() == ReconcileAll(env, old(claims.State()), order, now)
      ensures sweepCount == old(sweepCount) + 1
    {
      sweepCount := sweepCount + 1;
      var snapshot := claims.ledger;
      order := Enumerate(snapshot.Keys);
      ghost var c0 := claims.State();
      for i := 0 to |order|
        invariant claims.State() == ReconcileAll(env, c0, order[..i], now)
        invariant sweepCount == old(sweepCount) + 1
      {
        assert order[..i + 1][..i] == order[..i];
        var h := order[i];
        var r := snapshot[h];
        var age := now - r.updatedAt;
        if (r.state == Claimed || r.state == Running) && age >= env.stallTimeoutMs {
          var _ := claims.Release(h, now);
          continue;
        }
        if r.state == Released && age >= env.cleanupAfterMs {
          var _ := claims.Prune(h);
        }
      }
      assert order[..|order|] == order;
    }
  }

  class MeshOrchestrator {
    const env: Env
    const claims: TaskClaimMachine
    const retryQueue: RetryQueue
    const reconciler: Reconciler
    var runs: map<CycleId, Run>
    var workspaces: set<CycleId>
    var nextCycle: CycleId

    /** All services share one ledger and one configuration. */
    ghost predicate Wired() {
      && retryQueue.claims == claims && retryQueue.env == env
      && reconciler.claims == claims && reconciler.env == env
    }

    function Snapshot(now: Time): World
      reads this, claims, retryQueue
    {
      World(now, claims.State(), retryQueue.pending, runs, workspaces, nextCycle)
    }

    constructor (env: Env)
      ensures this.env == env && Wired()
      ensures forall now :: Snapshot(now) == Init(now)
    {
      this.env := env;
      var machine := new TaskClaimMachine();
      var queue := new RetryQueue(env, machine);
      var sweeper := new Reconciler(env, machine);
      claims, retryQueue, reconciler := machine, queue, sweeper;
      runs, workspaces, nextCycle := map[], {}, 0;
    }

    /** `injectTask` up to its first await; false is the duplicate-dispatch error. */
    method InjectTask(goal: Goal, now: Time) returns (started: bool)
      requires Wired()
      modifies this, claims
      ensures Snapshot(now) == Inject(env, old(Snapshot(now)), goal)
      ensures started == Claimable(old(claims.State()), env.hashOf(goal))
    {
      var h := env.hashOf(goal);
      var cycle := nextCycle;
      nextCycle := nextCycle + 1;
      claims.RegisterTask(h, now);
      started := claims.TryClaimTask(h, cycle, now);
      if !started {
        return;
      }
      var _ := claims.MarkRunning(h, cycle, now);
      var acquired := env.acquireOk(cycle);
      if acquired {
        workspaces := workspaces + {cycle};
      }
      runs := runs[cycle := Run(goal, h, now, acquired, AfterCreate)];
    }

    method SetRunPhase(cycle: CycleId, phase: Phase)
      requires cycle in runs
      modifies this
      ensures forall now :: Snapshot(now) == SetPhase(old(Snapshot(now)), cycle, phase)
    {
      runs := runs[cycle := runs[cycle].(phase := phase)];
    }

    method EndRun(cycle: CycleId)
      requires cycle in runs
      modifies this
      ensures forall now :: Snapshot(now) == End(old(Snapshot(now)), cycle)
    {
      if runs[cycle].hasWorkspace {
        workspaces := workspaces - {cycle};
      }
      runs := runs[cycle := runs[cycle].(phase := Ended)];
    }

    /** `injectTask` from the await that `reply` answers to the next one. */
    method ResumeTask(cycle: CycleId, reply: Reply, now: Time)
      requires Wired()
      requires cycle in runs && Answers(runs[cycle].phase, reply)
      modifies this, claims, retryQueue
      ensures Snapshot(now) == Resume(env, old(Snapshot(now)), cycle, reply)
    {
      var r := runs[cycle];
      match r.phase {
        case AfterCreate =>
          if reply.ok {
            SetRunPhase(cycle, BeforeRun);
          } else {
            var _ := claims.Release(r.hash, now);
            EndRun(cycle);
          }
        case BeforeRun =>
          if reply.ok {
            SetRunPhase(cycle, Executing);
          } else {
            var _ := claims.Release(r.hash, now);
            EndRun(cycle);
          }
        case Executing =>
          if reply.Threw? {
            var _ := retryQueue.EnqueueFailure(Snapshot(now), r.hash, r.goal, now);
            EndRun(cycle);
          } else {
            SetRunPhase(cycle, AfterRun(reply.verified));
          }
        case AfterRun(verified) =>
          if verified {
            var _ := claims.Release(r.hash, now);
          } else {
            var _ := retryQueue.EnqueueFailure(Snapshot(now), r.hash, r.goal, now);
          }
          if r.hasWorkspace {
            SetRunPhase(cycle, BeforeRemove);
          } else {
            EndRun(cycle);
          }
        case BeforeRemove =>
          EndRun(cycle);
      }
    }
  }
}
