/** The coroutines side by side: a step of one leaves what every other remembers about its task true, so that each of
    their methods can be called next. */
module Interleaving {
  import opened Wrappers
  import opened Lifecycle
  import opened StateFiles
  import opened Store = StateStore
  import opened ResourceRoutes
  import opened CreateRoute
  import opened StepRoute
  import Items = ItemProtocol
  import Pool = WorkerPool
  import P = ResourceProtocol
  import Runs = ResourceRuns

  /** The step is not about task t and opens no task of that number. */
  predicate Elsewhere(a: P.Action, t: nat) {
    !(P.AboutTask(a) && a.t == t) && Runs.NotReused([a], t)
  }

  lemma RetiredStay(s: P.State, a: P.Action, retention: nat)
    ensures s.retired <= P.Next(s, a, retention).retired
  {
    if P.Can(s, a) {
      if P.AboutTask(a) {
        P.Parts(s, a, retention);
      } else {
        P.OtherParts(s, a, retention);
      }
    }
    hide P.Can, P.TasksAfter, P.Stepped, P.ItemStep, P.ScratchAfter, P.LeftBy, P.MarksAfter, P.LostBy, P.RaisedAfter;
  }

  /** What create_one remembers stays true. */
  lemma CreateKeeps(c: CreateOne, s: P.State, a: P.Action, retention: nat)
    requires c.Mine(s) && Elsewhere(a, c.id)
    ensures c.Mine(P.Next(s, a, retention))
  {
    Runs.Untouched(s, a, retention, c.id);
    hide P.Next, SavedOk, ScratchFiles.FilesIn, Elsewhere;
  }

  /** What a lane remembers stays true. */
  lemma LaneKeeps(d: Lane, s: P.State, a: P.Action, retention: nat)
    requires d.Mine(s) && Elsewhere(a, d.id)
    ensures d.Mine(P.Next(s, a, retention))
  {
    Runs.Untouched(s, a, retention, d.id);
    RetiredStay(s, a, retention);
    hide P.Next, ResultsOk, ScratchFiles.FilesIn, ScratchFiles.PathsOf, Elsewhere;
  }

  /** After any step but its own, create_one is resumed in the state that step ended in. */
  lemma CreateResumes(c: CreateOne, s: P.State, a: P.Action, n: P.State, reg: ItemLifecycleRegistry, store: StateStore,
                      pool: Pool.PantographManager, now: int)
    requires c.Mine(s) && Elsewhere(a, c.id) && Did(s, a, n, reg.retention)
    requires P.Inv(n) && Shows(n, reg, store, pool) && now == n.items.now
    ensures c.At(n, reg, store, pool, now)
  {
    hide P.Inv, P.Can, P.Next, Shows;
    CreateKeeps(c, s, a, reg.retention);
  }

  /** After any step but its own, a lane is resumed in the state that step ended in. */
  lemma LaneResumes(d: Lane, s: P.State, a: P.Action, n: P.State, reg: ItemLifecycleRegistry, store: StateStore,
                    pool: Pool.PantographManager, now: int)
    requires d.Placed() && d.Mine(s) && Elsewhere(a, d.id) && Did(s, a, n, reg.retention)
    requires P.Inv(n) && Shows(n, reg, store, pool) && now == n.items.now
    ensures d.At(n, reg, store, pool, now)
  {
    hide P.Inv, P.Can, P.Next, Shows;
    LaneKeeps(d, s, a, reg.retention);
  }

  /** Two coroutines waiting for a worker: one takes its turn, even two steps of the protocol long, and both can go
      on. */
  method TakeTurns(c: CreateOne, d: Lane, reg: ItemLifecycleRegistry, store: StateStore, pool: Pool.PantographManager,
                   ghost s: P.State, now: int) returns (ghost n: P.State)
    requires c.at == CreateRoute.Waiting && c.At(s, reg, store, pool, now)
    requires d.Placed() && d.Mine(s) && c.id != d.id
    modifies c, reg, pool`free, pool`busy, pool`starting, pool`startingBy, pool`calls
    ensures c.At(n, reg, store, pool, now) && d.At(n, reg, store, pool, now)
  {
    hide P.Inv, P.Can, P.Next, Shows;
    var decision;
    decision, n := c.TryWorker(reg, store, pool, s, now);
    if decision.Reuse? {
      LaneKeeps(d, s, P.Lease(c.id, decision.lease), reg.retention);
      ghost var m := P.Next(s, P.Lease(c.id, decision.lease), reg.retention);
      LaneKeeps(d, m, if ShouldCancel(s.items.reg, c.item) then P.Leave(c.id) else P.Call(c.id, 0), reg.retention);
    } else if !decision.Wait? {
      LaneKeeps(d, s, P.Start(c.id, c.envProfile, decision.Evict?), reg.retention);
    }
  }
}
