/**
 The cancel hand-off between HTTP handlers, the pool registry and the store, as interleaved steps.

 Each critical section of the registry and each store transaction is one step. A finished execution's store
 update and the deferred deregistration of the same worker are one step. Cancel functions are called outside
 the lock: `doomed` holds the contexts somebody is about to cancel, `fired` those that have been cancelled.
 */
module CancelHandoff {
  import opened Common
  import opened CancelRegistry

  /** Clock ticks per second; a scheduled retry waits at least one second. */
  const SECOND: int := 1000

  /** A run row, reduced to what the hand-off can see; `claimed` is whether `claimed_at` is set. */
  datatype Row = Waiting(due: int) | Active | Ended(claimed: bool) | Gone(claimed: bool)

  datatype Worker =
    | Idle
    | Holding(run: Id)
    | Registered(run: Id, context: Context, cancelPending: bool)
    | Executing(run: Id, context: Context)
    | Panicked(run: Id)

  /** `Asked` has got false from the registry; `Refused` has been told that the run is over. */
  datatype Handler = Ready | Asked(run: Id) | Refused(run: Id) | Forgetting(run: Id)

  datatype World = World(
    rows: map<Id, Row>,
    workers: map<nat, Worker>,
    handlers: map<nat, Handler>,
    registry: Registry,
    contexts: nat,
    doomed: set<Context>,
    fired: set<Context>,
    rootCancelled: bool,
    clock: int)

  datatype Step =
    | Claim(worker: nat, claimed: Id)
    | PrepareFails(worker: nat)
    | RegisterRun(worker: nat, beating: bool)
    | Begin(worker: nat)
    | FinishRetry(worker: nat, delay: int)
    | FinishEnd(worker: nat)
    | FinishLeave(worker: nat)
    | Panic(worker: nat)
    | FailPanicked(worker: nat)
    | Call(handler: nat, asked: Id)
    | Commit(handler: nat)
    | Recheck(handler: nat)
    | ForgetPending(handler: nat)
    | Tick(ticks: nat)
    | EnqueueRow(run: Id)
    | EndRow(run: Id)
    | DeleteRow(run: Id)
    | ChainCall(asked: Id)
    | Heartbeat(run: Id)
    | ScanStale(staleAfter: int)
    | FireContext(context: Context)
    | ShutdownClear
    | ShutdownRoot

  // ---------------------------------------------------------------- the steps

  function WorkerOf(workers: map<nat, Worker>, k: nat): Worker { if k in workers then workers[k] else Idle }

  function HandlerOf(handlers: map<nat, Handler>, h: nat): Handler { if h in handlers then handlers[h] else Ready }

  function RowOf(rows: map<Id, Row>, id: Id): Row { if id in rows then rows[id] else Gone(false) }

  function Over(row: Row): Row {
    match row
    case Waiting(_) => Ended(false)
    case Active => Ended(true)
    case Ended(_) => row
    case Gone(_) => row
  }

  /** A status update guarded by "still queued or running". */
  function EndRowIn(rows: map<Id, Row>, id: Id): map<Id, Row> {
    if id in rows then rows[id := Over(rows[id])] else rows
  }

  function DeleteRowIn(rows: map<Id, Row>, id: Id): map<Id, Row> {
    if id in rows && rows[id].Ended? then rows[id := Gone(rows[id].claimed)] else rows
  }

  function SetWorker(w: World, k: nat, state: Worker): World { w.(workers := w.workers[k := state]) }

  function SetHandler(w: World, h: nat, state: Handler): World { w.(handlers := w.handlers[h := state]) }

  predicate Claimable(w: World, k: nat, id: Id) {
    WorkerOf(w.workers, k).Idle? && id in w.rows && w.rows[id].Waiting? && w.rows[id].due <= w.clock
  }

  predicate Retries(w: World, st: Step) {
    && st.FinishRetry? && st.delay >= 1 && WorkerOf(w.workers, st.worker).Executing?
    && RowOf(w.rows, WorkerOf(w.workers, st.worker).run).Active?
  }

  predicate IsWorkerStep(st: Step) {
    st.Claim? || st.PrepareFails? || st.RegisterRun? || st.Begin? || st.FinishRetry? || st.FinishEnd? || st.FinishLeave?
    || st.Panic? || st.FailPanicked?
  }

  predicate IsHandlerStep(st: Step) { st.Call? || st.Commit? || st.Recheck? || st.ForgetPending? }

  function LeavePool(w: World, k: nat, run: Id, state: Worker): World {
    SetWorker(w, k, state).(registry := Deregister(w.registry, run))
  }

  /** A step of a worker; a step its state does not allow changes nothing. */
  function WorkerStep(w: World, st: Step): World
    requires IsWorkerStep(st)
  {
    var k := st.worker;
    var me := WorkerOf(w.workers, k);
    match st
    case Claim(_, id) => if Claimable(w, k, id) then SetWorker(w, k, Holding(id)).(rows := w.rows[id := Active]) else w
    case PrepareFails(_) => if me.Holding? then SetWorker(w, k, Idle).(rows := EndRowIn(w.rows, me.run)) else w
    case RegisterRun(_, beating) =>
      if me.Holding?
      then SetWorker(w, k, Registered(me.run, w.contexts, me.run in w.registry.pending))
           .(registry := Register(w.registry, me.run, w.contexts, beating, w.clock), contexts := w.contexts + 1)
      else w
    case Begin(_) =>
      if me.Registered?
      then SetWorker(w, k, Executing(me.run, me.context)).(fired := w.fired + if me.cancelPending then {me.context} else {})
      else w
    case FinishRetry(_, delay) =>
      if Retries(w, st)
      then LeavePool(w, k, me.run, Idle).(rows := w.rows[me.run := Waiting(w.clock + delay * SECOND)])
      else w
    case FinishEnd(_) => if me.Executing? then LeavePool(w, k, me.run, Idle).(rows := EndRowIn(w.rows, me.run)) else w
    case FinishLeave(_) => if me.Executing? then LeavePool(w, k, me.run, Idle) else w
    case Panic(_) => if me.Executing? || me.Registered? then LeavePool(w, k, me.run, Panicked(me.run)) else w
    case FailPanicked(_) => if me.Panicked? then SetWorker(w, k, Idle).(rows := EndRowIn(w.rows, me.run)) else w
  }

  /** The registry's answer is false: nobody executes the run. */
  function AskWorld(w: World, id: Id): World {
    w.(registry := Ask(w.registry, id),
       doomed := w.doomed + if id in w.registry.cancels then {w.registry.cancels[id]} else {})
  }

  /** A handler asks about a run it has found in the store. */
  predicate Calls(w: World, st: Step) {
    st.Call? && HandlerOf(w.handlers, st.handler).Ready? && st.asked in w.rows
  }

  /** The store's cancel finds the run still queued or running. */
  predicate Commits(w: World, st: Step) {
    && st.Commit? && HandlerOf(w.handlers, st.handler).Asked?
    && (var row := RowOf(w.rows, HandlerOf(w.handlers, st.handler).run); row.Waiting? || row.Active?)
  }

  function HandlerStep(w: World, st: Step): World
    requires IsHandlerStep(st)
  {
    var h := st.handler;
    var me := HandlerOf(w.handlers, h);
    match st
    case Call(_, id) =>
      if Calls(w, st) then SetHandler(AskWorld(w, id), h, if id in w.registry.cancels then Ready else Asked(id)) else w
    case Commit(_) =>
      if !me.Asked? then w
      else if Commits(w, st)
      then SetHandler(w, h, if RowOf(w.rows, me.run).Waiting? then Forgetting(me.run) else Ready).(rows := EndRowIn(w.rows, me.run))
      else SetHandler(w, h, Refused(me.run))
    case Recheck(_) =>
      if me.Refused? then SetHandler(w, h, if RowOf(w.rows, me.run) == Ended(false) then Forgetting(me.run) else Ready) else w
    case ForgetPending(_) =>
      if me.Forgetting? then SetHandler(w, h, Ready).(registry := Forget(w.registry, me.run)) else w
  }

  function OtherStep(w: World, st: Step): World
    requires !IsWorkerStep(st) && !IsHandlerStep(st)
  {
    match st
    case Tick(ticks) => w.(clock := w.clock + ticks)
    case EnqueueRow(id) => if id in w.rows then w else w.(rows := w.rows[id := Waiting(w.clock)])
    case EndRow(id) => w.(rows := EndRowIn(w.rows, id))
    case DeleteRow(id) => w.(rows := DeleteRowIn(w.rows, id))
    case ChainCall(id) => if id in w.rows then AskWorld(w, id) else w
    case Heartbeat(id) => w.(registry := Beat(w.registry, id, w.clock))
    case ScanStale(staleAfter) => w.(doomed := w.doomed + StaleContexts(w.registry, w.clock, staleAfter))
    case FireContext(context) => if context in w.doomed then w.(fired := w.fired + {context}) else w
    case ShutdownClear => w.(registry := DropPending(w.registry), doomed := w.doomed + w.registry.cancels.Values)
    case ShutdownRoot => w.(rootCancelled := true)
  }

  function Next(w: World, st: Step): World {
    if IsWorkerStep(st) then WorkerStep(w, st)
    else if IsHandlerStep(st) then HandlerStep(w, st)
    else OtherStep(w, st)
  }

  const Initial: World := World(map[], map[], map[], Registry(map[], map[], map[]), 0, {}, {}, false, 0)

  ghost predicate IsRun(ws: seq<World>, steps: seq<Step>) {
    |ws| == |steps| + 1 && ws[0] == Initial && forall i :: 0 <= i < |steps| ==> ws[i + 1] == Next(ws[i], steps[i])
  }

  // ---------------------------------------------------------------- invariant

  /** The row of a run that some worker still has in hand. */
  predicate InHand(row: Row) { row == Active || row == Ended(true) || row == Gone(true) }

  predicate Final(row: Row) { row.Ended? || row.Gone? }

  ghost predicate WorkersOK(workers: map<nat, Worker>, rows: map<Id, Row>) {
    && (forall k :: k in workers && !workers[k].Idle? ==> InHand(RowOf(rows, workers[k].run)))
    && (forall k, l :: k in workers && l in workers && !workers[k].Idle? && !workers[l].Idle? && workers[k].run == workers[l].run
                       ==> k == l)
  }

  /** Every registered or executing run has its context in the registry. */
  ghost predicate ContextsOK(workers: map<nat, Worker>, registry: Registry) {
    forall k :: k in workers && (workers[k].Registered? || workers[k].Executing?)
                ==> workers[k].run in registry.cancels && registry.cancels[workers[k].run] == workers[k].context
  }

  /** A handler that was refused deals with a run that is over; one that is about to forget, with one that is over unclaimed. */
  ghost predicate HandlerOK(state: Handler, rows: map<Id, Row>) {
    && (!state.Ready? ==> state.run in rows)
    && (state.Refused? ==> Final(RowOf(rows, state.run)))
    && (state.Forgetting? ==> RowOf(rows, state.run) == Ended(false) || RowOf(rows, state.run) == Gone(false))
  }

  ghost predicate HandlersOK(handlers: map<nat, Handler>, rows: map<Id, Row>) {
    forall h :: h in handlers ==> HandlerOK(handlers[h], rows)
  }

  ghost predicate WorldOK(w: World) {
    && RegistryOK(w.registry)
    && WorkersOK(w.workers, w.rows)
    && ContextsOK(w.workers, w.registry)
    && HandlersOK(w.handlers, w.rows)
  }

  // ---------------------------------------------------------------- every step keeps it

  /** Rows that are over stay over, with the same claim mark, and no row disappears. */
  ghost predicate FinalsAge(rows: map<Id, Row>, rows': map<Id, Row>) {
    forall id :: id in rows ==>
                   && id in rows'
                   && (Final(rows[id]) ==> Final(rows'[id]) && rows'[id].claimed == rows[id].claimed)
  }

  /** Rows in hand stay in hand. */
  ghost predicate HandsAge(rows: map<Id, Row>, rows': map<Id, Row>) {
    forall id :: id in rows && InHand(rows[id]) ==> id in rows' && InHand(rows'[id])
  }

  lemma FinalsKeepHandlers(handlers: map<nat, Handler>, rows: map<Id, Row>, rows': map<Id, Row>)
    requires HandlersOK(handlers, rows) && FinalsAge(rows, rows')
    ensures HandlersOK(handlers, rows')
  {
    forall h | h in handlers
      ensures HandlerOK(handlers[h], rows')
    {
      assert HandlerOK(handlers[h], rows);
    }
  }

  lemma HandsKeepWorkers(workers: map<nat, Worker>, rows: map<Id, Row>, rows': map<Id, Row>)
    requires WorkersOK(workers, rows) && HandsAge(rows, rows')
    ensures WorkersOK(workers, rows')
  {
  }

  lemma WorkerRowsAge(w: World, st: Step)
    requires IsWorkerStep(st)
    ensures FinalsAge(w.rows, WorkerStep(w, st).rows)
    ensures !Retries(w, st) ==> HandsAge(w.rows, WorkerStep(w, st).rows)
  {
    hide Register, Deregister;
  }

  lemma HandlerRowsAge(w: World, st: Step)
    requires IsHandlerStep(st)
    ensures FinalsAge(w.rows, HandlerStep(w, st).rows)
    ensures HandsAge(w.rows, HandlerStep(w, st).rows)
  {
    hide Ask, Forget;
  }

  lemma OtherRowsAge(w: World, st: Step)
    requires !IsWorkerStep(st) && !IsHandlerStep(st)
    ensures FinalsAge(w.rows, OtherStep(w, st).rows)
    ensures HandsAge(w.rows, OtherStep(w, st).rows)
  {
    hide Ask, StaleContexts;
  }

  /** No step but a scheduled retry takes a row out of a worker's hands, and none revives a row that is over. */
  lemma RowsAge(w: World, st: Step)
    ensures FinalsAge(w.rows, Next(w, st).rows)
    ensures !Retries(w, st) ==> HandsAge(w.rows, Next(w, st).rows)
  {
    hide WorkerStep, HandlerStep, OtherStep, FinalsAge, HandsAge;
    if IsWorkerStep(st) {
      WorkerRowsAge(w, st);
    } else if IsHandlerStep(st) {
      HandlerRowsAge(w, st);
    } else {
      OtherRowsAge(w, st);
    }
  }

  /** A worker that ends where it holds nothing, or goes on with the run it had. */
  lemma WorkerMoves(workers: map<nat, Worker>, rows: map<Id, Row>, k: nat, state: Worker)
    requires WorkersOK(workers, rows)
    requires !state.Idle? ==> k in workers && !workers[k].Idle? && workers[k].run == state.run
    ensures WorkersOK(workers[k := state], rows)
  {
  }

  lemma ClaimKeepsWorkers(w: World, k: nat, id: Id)
    requires WorkersOK(w.workers, w.rows) && Claimable(w, k, id)
    ensures WorkersOK(w.workers[k := Holding(id)], w.rows[id := Active])
  {
  }

  lemma RetryKeepsWorkers(w: World, k: nat, due: int)
    requires WorkersOK(w.workers, w.rows) && WorkerOf(w.workers, k).Executing?
    ensures WorkersOK(w.workers[k := Idle], w.rows[w.workers[k].run := Waiting(due)])
  {
  }

  lemma StepKeepsWorkers(w: World, st: Step)
    requires WorkersOK(w.workers, w.rows)
    ensures WorkersOK(Next(w, st).workers, Next(w, st).rows)
  {
    hide WorkersOK, HandsAge, FinalsAge, Register, Deregister, Ask, Forget, StaleContexts, EndRowIn, DeleteRowIn;
    var w' := Next(w, st);
    RowsAge(w, st);
    if Retries(w, st) {
      RetryKeepsWorkers(w, st.worker, w.clock + st.delay * SECOND);
    } else if st.Claim? && Claimable(w, st.worker, st.claimed) {
      ClaimKeepsWorkers(w, st.worker, st.claimed);
    } else {
      HandsKeepWorkers(w.workers, w.rows, w'.rows);
      if w'.workers != w.workers {
        WorkerMoves(w.workers, w'.rows, st.worker, WorkerOf(w'.workers, st.worker));
      }
    }
  }

  lemma StepKeepsHandlers(w: World, st: Step)
    requires HandlersOK(w.handlers, w.rows)
    ensures HandlersOK(Next(w, st).handlers, Next(w, st).rows)
  {
    hide HandlersOK, HandsAge, FinalsAge, Register, Deregister, Ask, Forget, StaleContexts, DeleteRowIn;
    var w' := Next(w, st);
    RowsAge(w, st);
    FinalsKeepHandlers(w.handlers, w.rows, w'.rows);
    if IsHandlerStep(st) && w'.handlers != w.handlers {
      var h := st.handler;
      KnownHandler(w.handlers, w.rows, h);
      HandlerMoves(w.handlers, w'.rows, h, w'.handlers[h]);
    }
  }

  lemma KnownHandler(handlers: map<nat, Handler>, rows: map<Id, Row>, h: nat)
    requires HandlersOK(handlers, rows)
    ensures HandlerOK(HandlerOf(handlers, h), rows)
  {
  }

  lemma HandlerMoves(handlers: map<nat, Handler>, rows: map<Id, Row>, h: nat, state: Handler)
    requires HandlersOK(handlers, rows) && HandlerOK(state, rows)
    ensures HandlersOK(handlers[h := state], rows)
  {
  }

  lemma StepKeepsRegistry(w: World, st: Step)
    requires RegistryOK(w.registry)
    ensures RegistryOK(Next(w, st).registry)
  {
    hide RegistryOK, EndRowIn, DeleteRowIn, StaleContexts, Register, Deregister, Ask, Forget, Beat, DropPending;
  }

  /** The registry still has the context of every run but `id`. */
  ghost predicate KeepsContexts(g: Registry, g': Registry, id: Option<Id>) {
    forall x :: x in g.cancels && Some(x) != id ==> x in g'.cancels && g'.cancels[x] == g.cancels[x]
  }

  lemma WorkerMovesContext(workers: map<nat, Worker>, rows: map<Id, Row>, g: Registry, g': Registry, k: nat, state: Worker)
    requires WorkersOK(workers, rows) && ContextsOK(workers, g)
    requires k in workers && !workers[k].Idle? && KeepsContexts(g, g', Some(workers[k].run))
    requires (state.Registered? || state.Executing?) ==> state.run in g'.cancels && g'.cancels[state.run] == state.context
    ensures ContextsOK(workers[k := state], g')
  {
  }

  lemma RegistryKeepsContexts(workers: map<nat, Worker>, g: Registry, g': Registry)
    requires ContextsOK(workers, g) && KeepsContexts(g, g', None)
    ensures ContextsOK(workers, g')
  {
  }

  lemma KnownWorker(w: World, k: nat)
    requires WorldOK(w)
    ensures var me := WorkerOf(w.workers, k);
            && (me.Registered? || me.Executing? ==> me.run in w.registry.cancels && w.registry.cancels[me.run] == me.context)
            && (!me.Idle? ==> me.run in w.rows && InHand(w.rows[me.run]))
  {
    hide HandlersOK;
  }

  lemma StepKeepsContexts(w: World, st: Step)
    requires WorldOK(w)
    ensures ContextsOK(Next(w, st).workers, Next(w, st).registry)
  {
    hide WorkersOK, ContextsOK, HandlersOK, RegistryOK, StaleContexts, EndRowIn, DeleteRowIn;
    var w' := Next(w, st);
    if IsWorkerStep(st) && w'.workers != w.workers {
      var k := st.worker;
      KnownWorker(w, k);
      if st.Claim? {
        ClaimKeepsContexts(w.workers, w.registry, k, st.claimed);
      } else {
        WorkerMovesContext(w.workers, w.rows, w.registry, w'.registry, k, w'.workers[k]);
      }
    } else {
      RegistryKeepsContexts(w.workers, w.registry, w'.registry);
    }
  }

  lemma ClaimKeepsContexts(workers: map<nat, Worker>, g: Registry, k: nat, id: Id)
    requires ContextsOK(workers, g)
    ensures ContextsOK(workers[k := Holding(id)], g)
  {
  }

  lemma StepKeeps(w: World, st: Step)
    requires WorldOK(w)
    ensures WorldOK(Next(w, st))
  {
    hide WorkersOK, ContextsOK, HandlersOK, RegistryOK, Next;
    StepKeepsRegistry(w, st);
    StepKeepsWorkers(w, st);
    StepKeepsContexts(w, st);
    StepKeepsHandlers(w, st);
  }

  /** In every reachable state no run has both a live context and a waiting cancel, and heartbeats belong to live contexts. */
  lemma {:induction false} RunOK(ws: seq<World>, steps: seq<Step>, i: nat)
    requires IsRun(ws, steps) && i < |ws|
    ensures WorldOK(ws[i])
    ensures ws[i].registry.cancels.Keys !! ws[i].registry.pending.Keys && ws[i].registry.beats.Keys <= ws[i].registry.cancels.Keys
  {
    hide Next;
    if i > 0 {
      RunOK(ws, steps, i - 1);
      StepKeeps(ws[i - 1], steps[i - 1]);
    }
  }

  // ---------------------------------------------------------------- the fate of a waiting cancel

  /** Worker `k` is about to register the run `id`. */
  predicate Registers(w: World, st: Step, id: Id) {
    st.RegisterRun? && WorkerOf(w.workers, st.worker) == Holding(id)
  }

  /** Somebody asks to cancel `id` and is told that no execution of it is registered. */
  predicate AsksInVain(w: World, st: Step, id: Id) {
    ((Calls(w, st) && st.asked == id) || (st == ChainCall(id) && id in w.rows)) && id !in w.registry.cancels
  }

  predicate Asks(st: Step, id: Id) { (st.Call? || st.ChainCall?) && st.asked == id }

  predicate RetriesRun(w: World, st: Step, id: Id) { Retries(w, st) && WorkerOf(w.workers, st.worker).run == id }

  /** Without another retry, no worker can ever register `id` again. */
  ghost predicate Spent(rows: map<Id, Row>, workers: map<nat, Worker>, id: Id) {
    id in rows && !rows[id].Waiting? && forall k :: WorkerOf(workers, k) != Holding(id)
  }

  /** Only a retry makes an existing row wait. */
  lemma OnlyRetriesWait(w: World, st: Step, id: Id)
    requires id in w.rows && !w.rows[id].Waiting? && !RetriesRun(w, st, id)
    ensures id in Next(w, st).rows && !Next(w, st).rows[id].Waiting?
  {
    hide Register, Deregister, Ask, Forget, StaleContexts;
  }

  /** Only a claim puts a run in a worker's hands. */
  lemma OnlyClaimsHold(w: World, st: Step, id: Id, k: nat)
    requires WorkerOf(w.workers, k) != Holding(id) && !(st.Claim? && Claimable(w, st.worker, id) && st.claimed == id)
    ensures WorkerOf(Next(w, st).workers, k) != Holding(id)
  {
    hide Register, Deregister, Ask, Forget, StaleContexts, EndRowIn, DeleteRowIn;
  }

  lemma SpentStays(w: World, st: Step, id: Id)
    requires Spent(w.rows, w.workers, id) && !RetriesRun(w, st, id)
    ensures Spent(Next(w, st).rows, Next(w, st).workers, id)
  {
    hide Next;
    OnlyRetriesWait(w, st, id);
    forall k
      ensures WorkerOf(Next(w, st).workers, k) != Holding(id)
    {
      OnlyClaimsHold(w, st, id, k);
    }
  }

  /** A waiting cancel leaves the registry only when its run is registered, or can no longer be, or at shutdown. */
  lemma PendingStaysOrSpent(w: World, st: Step, id: Id)
    requires WorldOK(w) && id in w.rows && id in w.registry.pending && !st.ShutdownClear?
    ensures id in Next(w, st).registry.pending || Spent(Next(w, st).rows, Next(w, st).workers, id)
  {
    hide StaleContexts, DeleteRowIn, EndRowIn;
    var w' := Next(w, st);
    if IsWorkerStep(st) {
      KnownWorker(w, st.worker);
      if Registers(w, st, id) {
      } else {
      }
    } else if st.ForgetPending? {
      KnownHandler(w.handlers, w.rows, st.handler);
    }
  }

  ghost predicate NoRetryBetween(ws: seq<World>, steps: seq<Step>, id: Id, i: nat, j: nat)
    requires i <= j <= |steps| < |ws|
  {
    forall k :: i <= k < j ==> !RetriesRun(ws[k], steps[k], id)
  }

  ghost predicate NoClearBetween(steps: seq<Step>, i: nat, j: nat)
    requires i <= j <= |steps|
  {
    forall k :: i <= k < j ==> !steps[k].ShutdownClear?
  }

  ghost predicate NobodyAsksBetween(steps: seq<Step>, id: Id, i: nat, j: nat)
    requires i <= j <= |steps|
  {
    forall k :: i <= k < j ==> !Asks(steps[k], id)
  }

  lemma AskIsPending(w: World, st: Step, id: Id)
    requires AsksInVain(w, st, id)
    ensures id in Next(w, st).rows && id in Next(w, st).registry.pending
  {
  }

  lemma {:induction false} PendingOrSpent(ws: seq<World>, steps: seq<Step>, id: Id, c: nat, j: nat)
    requires IsRun(ws, steps) && c < j < |ws| && AsksInVain(ws[c], steps[c], id)
    requires NoRetryBetween(ws, steps, id, c + 1, j) && NoClearBetween(steps, c + 1, j)
    ensures id in ws[j].rows
    ensures id in ws[j].registry.pending || Spent(ws[j].rows, ws[j].workers, id)
    decreases j
  {
    hide Spent, RetriesRun, Next, AsksInVain;
    if j == c + 1 {
      AskIsPending(ws[c], steps[c], id);
    } else {
      PendingOrSpent(ws, steps, id, c, j - 1);
      RunOK(ws, steps, j - 1);
      RowsAge(ws[j - 1], steps[j - 1]);
      if id in ws[j - 1].registry.pending {
        PendingStaysOrSpent(ws[j - 1], steps[j - 1], id);
      } else {
        SpentStays(ws[j - 1], steps[j - 1], id);
      }
    }
  }

  lemma NotPendingStays(w: World, st: Step, id: Id)
    requires id !in w.registry.pending && !Asks(st, id)
    ensures id !in Next(w, st).registry.pending
  {
    hide StaleContexts, EndRowIn, DeleteRowIn;
  }

  lemma {:induction false} NotPendingWhileNobodyAsks(ws: seq<World>, steps: seq<Step>, id: Id, i: nat, j: nat)
    requires IsRun(ws, steps) && i <= j < |ws| && id !in ws[i].registry.pending && NobodyAsksBetween(steps, id, i, j)
    ensures id !in ws[j].registry.pending
    decreases j
  {
    hide Next;
    if i < j {
      NotPendingWhileNobodyAsks(ws, steps, id, i, j - 1);
      NotPendingStays(ws[j - 1], steps[j - 1], id);
    }
  }

  /**
   The exact condition. After a cancel request that found no registered execution, and while nobody asks again, a
   registration of the run takes the waiting cancel over if and only if no retry of the run was scheduled and the
   pool did not begin to shut down in between.
   */
  lemma RegistrationSeesCancel(ws: seq<World>, steps: seq<Step>, id: Id, c: nat, j: nat)
    requires IsRun(ws, steps) && c < j < |steps| && AsksInVain(ws[c], steps[c], id) && Registers(ws[j], steps[j], id)
    requires NobodyAsksBetween(steps, id, c + 1, j)
    ensures id in ws[j].registry.pending <==> NoRetryBetween(ws, steps, id, c + 1, j) && NoClearBetween(steps, c + 1, j)
  {
    hide Next, RetriesRun;
    if NoRetryBetween(ws, steps, id, c + 1, j) && NoClearBetween(steps, c + 1, j) {
      PendingOrSpent(ws, steps, id, c, j);
    } else if !NoClearBetween(steps, c + 1, j) {
      var k :| c + 1 <= k < j && steps[k].ShutdownClear?;
      ClearDrops(ws[k], steps[k], id);
      NotPendingWhileNobodyAsks(ws, steps, id, k + 1, j);
    } else {
      var k :| c + 1 <= k < j && RetriesRun(ws[k], steps[k], id);
      ClearDrops(ws[k], steps[k], id);
      NotPendingWhileNobodyAsks(ws, steps, id, k + 1, j);
    }
  }

  lemma ClearDrops(w: World, st: Step, id: Id)
    requires st.ShutdownClear? || RetriesRun(w, st, id)
    ensures id !in Next(w, st).registry.pending
  {
  }

  // ---------------------------------------------------------------- what the execution sees

  /** Every registered worker that carries the context `x` is `k`, with the given run and cancel mark. */
  ghost predicate Carries(w: World, x: Context, k: nat, id: Id, pending: bool) {
    && x < w.contexts
    && forall l :: WorkerOf(w.workers, l).Registered? && WorkerOf(w.workers, l).context == x
                   ==> l == k && WorkerOf(w.workers, l) == Registered(id, x, pending)
  }

  /** A worker's registration is new, under the next context number, or the one it had. */
  lemma OnlyRegistrationsRegister(w: World, st: Step, l: nat)
    ensures var me, me' := WorkerOf(w.workers, l), WorkerOf(Next(w, st).workers, l);
            me'.Registered? ==>
              || me' == me
              || (me.Holding? && Registers(w, st, me.run) && st.worker == l && me' == Registered(me.run, w.contexts, me.run in w.registry.pending))
    ensures Next(w, st).contexts == w.contexts + if st.RegisterRun? && WorkerOf(w.workers, st.worker).Holding? then 1 else 0
  {
    hide Register, Deregister, Ask, Forget, StaleContexts, EndRowIn, DeleteRowIn;
  }

  lemma CarriesStays(w: World, st: Step, x: Context, k: nat, id: Id, pending: bool)
    requires Carries(w, x, k, id, pending)
    ensures Carries(Next(w, st), x, k, id, pending)
  {
    hide Next;
    forall l
      ensures var me, me' := WorkerOf(w.workers, l), WorkerOf(Next(w, st).workers, l);
              me'.Registered? && me'.context == x ==> l == k && me' == Registered(id, x, pending)
    {
      OnlyRegistrationsRegister(w, st, l);
    }
    OnlyRegistrationsRegister(w, st, k);
  }

  ghost predicate NumbersOK(w: World) {
    forall l :: WorkerOf(w.workers, l).Registered? ==> WorkerOf(w.workers, l).context < w.contexts
  }

  lemma StepKeepsNumbers(w: World, st: Step)
    requires NumbersOK(w)
    ensures NumbersOK(Next(w, st))
  {
    hide Next;
    forall l
      ensures WorkerOf(Next(w, st).workers, l).Registered? ==> WorkerOf(Next(w, st).workers, l).context < Next(w, st).contexts
    {
      OnlyRegistrationsRegister(w, st, l);
    }
  }

  lemma RegistrationStartsCarried(w: World, st: Step, id: Id)
    requires NumbersOK(w) && Registers(w, st, id)
    ensures Carries(Next(w, st), w.contexts, st.worker, id, id in w.registry.pending)
  {
    hide Next;
    forall l
      ensures var me' := WorkerOf(Next(w, st).workers, l);
              me'.Registered? && me'.context == w.contexts ==> l == st.worker && me' == Registered(id, w.contexts, id in w.registry.pending)
    {
      OnlyRegistrationsRegister(w, st, l);
    }
    OnlyRegistrationsRegister(w, st, st.worker);
  }

  lemma {:induction false} RunNumbersOK(ws: seq<World>, steps: seq<Step>, i: nat)
    requires IsRun(ws, steps) && i < |ws|
    ensures NumbersOK(ws[i])
  {
    hide Next;
    if i > 0 {
      RunNumbersOK(ws, steps, i - 1);
      StepKeepsNumbers(ws[i - 1], steps[i - 1]);
    }
  }

  lemma {:induction false} RegistrationIsCarried(ws: seq<World>, steps: seq<Step>, id: Id, j: nat, b: nat)
    requires IsRun(ws, steps) && j < b < |ws| && Registers(ws[j], steps[j], id)
    ensures Carries(ws[b], ws[j].contexts, steps[j].worker, id, id in ws[j].registry.pending)
    decreases b
  {
    hide Next, Carries;
    if b == j + 1 {
      RunNumbersOK(ws, steps, j);
      RegistrationStartsCarried(ws[j], steps[j], id);
    } else {
      RegistrationIsCarried(ws, steps, id, j, b - 1);
      CarriesStays(ws[b - 1], steps[b - 1], ws[j].contexts, steps[j].worker, id, id in ws[j].registry.pending);
    }
  }

  /** The execution registered at step `j` starts at step `b`. */
  predicate Begins(ws: seq<World>, steps: seq<Step>, j: nat, b: nat)
    requires j < b < |steps| < |ws|
  {
    steps[b].Begin? && WorkerOf(ws[b].workers, steps[b].worker).Registered? && WorkerOf(ws[b].workers, steps[b].worker).context == ws[j].contexts
  }

  /** A cancel that waited at the registration has cancelled the context by the time the execution starts. */
  lemma PendingCancelFires(ws: seq<World>, steps: seq<Step>, id: Id, j: nat, b: nat)
    requires IsRun(ws, steps) && j < b < |steps| && Registers(ws[j], steps[j], id) && Begins(ws, steps, j, b)
    requires id in ws[j].registry.pending
    ensures ws[j].contexts in ws[b + 1].fired
  {
    RegistrationIsCarried(ws, steps, id, j, b);
  }

  // ---------------------------------------------------------------- who is doomed

  /** Contexts are numbered in the order of registration, and no two runs share one. */
  ghost predicate ContextsDistinct(cancels: map<Id, Context>, contexts: nat, doomed: set<Context>) {
    && (forall x :: x in cancels ==> cancels[x] < contexts)
    && (forall x, y :: x in cancels && y in cancels && cancels[x] == cancels[y] ==> x == y)
    && (forall c :: c in doomed ==> c < contexts)
  }

  ghost predicate DistinctIn(w: World) { ContextsDistinct(w.registry.cancels, w.contexts, w.doomed) }

  lemma WorkerStepDistinct(w: World, st: Step)
    requires DistinctIn(w) && IsWorkerStep(st)
    ensures DistinctIn(WorkerStep(w, st)) && WorkerStep(w, st).doomed == w.doomed
  {
    hide EndRowIn;
  }

  lemma HandlerStepDistinct(w: World, st: Step)
    requires DistinctIn(w) && IsHandlerStep(st)
    ensures DistinctIn(HandlerStep(w, st))
  {
    hide EndRowIn;
  }

  lemma OtherStepDistinct(w: World, st: Step)
    requires DistinctIn(w) && !IsWorkerStep(st) && !IsHandlerStep(st)
    ensures DistinctIn(OtherStep(w, st))
  {
    hide EndRowIn, DeleteRowIn;
  }

  lemma {:induction false} RunDistinct(ws: seq<World>, steps: seq<Step>, i: nat)
    requires IsRun(ws, steps) && i < |ws|
    ensures DistinctIn(ws[i])
  {
    hide WorkerStep, HandlerStep, OtherStep, DistinctIn;
    if i == 0 {
      InitialDistinct();
    } else {
      RunDistinct(ws, steps, i - 1);
      if IsWorkerStep(steps[i - 1]) {
        WorkerStepDistinct(ws[i - 1], steps[i - 1]);
      } else if IsHandlerStep(steps[i - 1]) {
        HandlerStepDistinct(ws[i - 1], steps[i - 1]);
      } else {
        OtherStepDistinct(ws[i - 1], steps[i - 1]);
      }
    }
  }

  lemma InitialDistinct()
    ensures DistinctIn(Initial)
  {
  }

  /** The run has been silent for `staleAfter` when a scan looks at it. */
  ghost predicate ScannedSilent(w: World, st: Step, id: Id) {
    st.ScanStale? && id in w.registry.beats && w.clock - w.registry.beats[id] >= st.staleAfter
  }

  /**
   What picks a live context for cancelling: a request for its run, a scan that finds the run silent for at least the limit,
   or the shutdown; and nothing else.
   */
  lemma StepDooms(w: World, st: Step, id: Id)
    requires DistinctIn(w) && id in w.registry.cancels
    ensures var c := w.registry.cancels[id];
            c in Next(w, st).doomed
            <==> c in w.doomed || (Calls(w, st) && st.asked == id) || (st == ChainCall(id) && id in w.rows) || ScannedSilent(w, st, id)
                 || st.ShutdownClear?
  {
    hide EndRowIn, DeleteRowIn, WorkerStep;
    if IsWorkerStep(st) {
      WorkerStepDistinct(w, st);
    }
  }

  /** A context that is no longer registered is picked by nothing. */
  lemma GoneIsNotDoomed(w: World, st: Step, c: Context)
    requires DistinctIn(w) && c !in w.doomed && c !in w.registry.cancels.Values
    ensures c !in Next(w, st).doomed
  {
    hide EndRowIn, DeleteRowIn, WorkerStep;
    if IsWorkerStep(st) {
      WorkerStepDistinct(w, st);
    }
  }

  /** The context `c` is not picked, has been handed out, and is nobody's but the run's. */
  ghost predicate Spared(w: World, id: Id, c: Context) {
    c !in w.doomed && c < w.contexts && forall x :: x in w.registry.cancels && w.registry.cancels[x] == c ==> x == id
  }

  lemma OwnershipStays(w: World, st: Step, id: Id, c: Context)
    requires c < w.contexts && forall x :: x in w.registry.cancels && w.registry.cancels[x] == c ==> x == id
    ensures c < Next(w, st).contexts && forall x :: x in Next(w, st).registry.cancels && Next(w, st).registry.cancels[x] == c ==> x == id
  {
    hide EndRowIn, DeleteRowIn, StaleContexts;
  }

  /**
   An execution whose last heartbeat is younger than the limit at every scan, whose run nobody asks to cancel and which meets
   no shutdown is never picked for cancelling.
   */
  lemma {:induction false} AnsweringExecutionIsSpared(ws: seq<World>, steps: seq<Step>, id: Id, j: nat, b: nat)
    requires IsRun(ws, steps) && j < b < |ws| && Registers(ws[j], steps[j], id)
    requires NoClearBetween(steps, j + 1, b) && NobodyAsksBetween(steps, id, j + 1, b)
    requires forall k :: j < k < b ==> !ScannedSilent(ws[k], steps[k], id)
    ensures Spared(ws[b], id, ws[j].contexts)
    decreases b
  {
    hide Next, DistinctIn;
    var c := ws[j].contexts;
    if b == j + 1 {
      RunDistinct(ws, steps, j);
      FreshIsSpared(ws[j], steps[j], id);
    } else {
      AnsweringExecutionIsSpared(ws, steps, id, j, b - 1);
      RunDistinct(ws, steps, b - 1);
      OwnershipStays(ws[b - 1], steps[b - 1], id, c);
      if id in ws[b - 1].registry.cancels && ws[b - 1].registry.cancels[id] == c {
        StepDooms(ws[b - 1], steps[b - 1], id);
      } else {
        GoneIsNotDoomed(ws[b - 1], steps[b - 1], c);
      }
    }
  }

  lemma FreshIsSpared(w: World, st: Step, id: Id)
    requires DistinctIn(w) && Registers(w, st, id)
    ensures Spared(Next(w, st), id, w.contexts)
  {
  }

  /** A scan that finds a live run silent for at least the limit picks its context. */
  lemma SilentExecutionIsDoomed(ws: seq<World>, steps: seq<Step>, id: Id, k: nat)
    requires IsRun(ws, steps) && k < |steps| && id in ws[k].registry.cancels && ScannedSilent(ws[k], steps[k], id)
    ensures ws[k].registry.cancels[id] in ws[k + 1].doomed
  {
    hide Next, DistinctIn;
    RunDistinct(ws, steps, k);
    StepDooms(ws[k], steps[k], id);
  }

  // ---------------------------------------------------------------- the timing condition

  /** Nobody has the run in hand, and it is over or rests at least until `limit`. */
  ghost predicate Parked(rows: map<Id, Row>, workers: map<nat, Worker>, id: Id, limit: int) {
    && id in rows && !rows[id].Active? && (rows[id].Waiting? ==> rows[id].due >= limit)
    && forall k :: WorkerOf(workers, k) != Holding(id)
  }

  lemma ParkedRowStays(w: World, st: Step, id: Id, limit: int)
    requires id in w.rows && !w.rows[id].Active? && (w.rows[id].Waiting? ==> w.rows[id].due >= limit)
    requires w.clock < limit || Final(w.rows[id])
    ensures var rows := Next(w, st).rows;
            id in rows && !rows[id].Active? && (rows[id].Waiting? ==> rows[id].due >= limit)
  {
    hide Register, Deregister, Ask, Forget, StaleContexts;
  }

  lemma ParkedStays(w: World, st: Step, id: Id, limit: int)
    requires Parked(w.rows, w.workers, id, limit) && (w.clock < limit || Final(w.rows[id]))
    ensures Parked(Next(w, st).rows, Next(w, st).workers, id, limit)
  {
    hide Next;
    ParkedRowStays(w, st, id, limit);
    forall k
      ensures WorkerOf(Next(w, st).workers, k) != Holding(id)
    {
      OnlyClaimsHold(w, st, id, k);
    }
  }

  lemma RetryParks(w: World, st: Step, id: Id)
    requires WorldOK(w) && RetriesRun(w, st, id)
    ensures Parked(Next(w, st).rows, Next(w, st).workers, id, w.clock + SECOND)
  {
    hide HandlersOK, ContextsOK, RegistryOK, Deregister;
  }

  lemma ClockMoves(w: World, st: Step)
    ensures w.clock <= Next(w, st).clock
  {
    hide Register, Deregister, Ask, Forget, StaleContexts, EndRowIn, DeleteRowIn;
  }

  lemma {:induction false} ClockGrows(ws: seq<World>, steps: seq<Step>, i: nat, j: nat)
    requires IsRun(ws, steps) && i <= j < |ws|
    ensures ws[i].clock <= ws[j].clock
    decreases j
  {
    hide Next;
    if i < j {
      ClockGrows(ws, steps, i, j - 1);
      ClockMoves(ws[j - 1], steps[j - 1]);
    }
  }

  lemma {:induction false} FinalStays(ws: seq<World>, steps: seq<Step>, id: Id, i: nat, j: nat)
    requires IsRun(ws, steps) && i <= j < |ws| && id in ws[i].rows && Final(ws[i].rows[id])
    ensures id in ws[j].rows && Final(ws[j].rows[id])
    decreases j
  {
    hide Next;
    if i < j {
      FinalStays(ws, steps, id, i, j - 1);
      RowsAge(ws[j - 1], steps[j - 1]);
    }
  }

  /** The run `id` is cancelled in the store by step `d`. */
  predicate CommitsRun(w: World, st: Step, id: Id) { Commits(w, st) && HandlerOf(w.handlers, st.handler).run == id }

  /** Once step `st` has committed, the run `id` is over. */
  predicate IsOverAfter(w: World, st: Step, id: Id) { id in Next(w, st).rows && Final(Next(w, st).rows[id]) }

  /** A handler's cancel and any other transaction that ends the row, such as the sweep of a chain cancel, are such steps. */
  lemma CancelEnds(w: World, st: Step, id: Id)
    requires CommitsRun(w, st, id) || (st == EndRow(id) && id in w.rows)
    ensures IsOverAfter(w, st, id)
  {
  }

  /** A run parked before it is over, while the clock is short of its limit, is parked for good. */
  lemma {:induction false} ParkedUntilCommit(ws: seq<World>, steps: seq<Step>, id: Id, limit: int, i: nat, d: nat, j: nat)
    requires IsRun(ws, steps) && i <= j < |ws| && d < |steps| && IsOverAfter(ws[d], steps[d], id) && ws[d].clock < limit
    requires Parked(ws[i].rows, ws[i].workers, id, limit)
    ensures Parked(ws[j].rows, ws[j].workers, id, limit)
    decreases j
  {
    hide Next, Parked;
    if i < j {
      ParkedUntilCommit(ws, steps, id, limit, i, d, j - 1);
      if j - 1 <= d {
        ClockGrows(ws, steps, j - 1, d);
      } else {
        FinalStays(ws, steps, id, d + 1, j - 1);
      }
      ParkedStays(ws[j - 1], steps[j - 1], id, limit);
    }
  }

  /**
   If the transaction that ends the run commits less than a second after the registry answered false, be it the handler's
   cancel or the sweep of a chain cancel, no retry can put the run back into a worker's hands: unless the pool begins to shut
   down, every later registration finds the waiting cancel, and its execution starts cancelled.
   */
  lemma PromptCancelReachesEveryExecution(ws: seq<World>, steps: seq<Step>, id: Id, c: nat, d: nat, j: nat, b: nat)
    requires IsRun(ws, steps) && c < d < |steps| && c < j < b < |steps|
    requires AsksInVain(ws[c], steps[c], id) && IsOverAfter(ws[d], steps[d], id) && NoClearBetween(steps, c + 1, j)
    requires ws[d].clock < ws[c].clock + SECOND
    requires Registers(ws[j], steps[j], id) && Begins(ws, steps, j, b)
    ensures ws[j].contexts in ws[b + 1].fired
  {
    hide Next, RetriesRun, IsOverAfter, Begins;
    if !NoRetryBetween(ws, steps, id, c + 1, j) {
      var k :| c + 1 <= k < j && RetriesRun(ws[k], steps[k], id);
      RunOK(ws, steps, k);
      RetryParks(ws[k], steps[k], id);
      ClockGrows(ws, steps, c, k);
      ParkedUntilCommit(ws, steps, id, ws[k].clock + SECOND, k + 1, d, j);
    } else {
      PendingOrSpent(ws, steps, id, c, j);
      PendingCancelFires(ws, steps, id, j, b);
    }
  }

  // ---------------------------------------------------------------- and it is exact

  /** The run is claimed, asked about, registered and retried, and claimed again before the store's cancel commits. */
  function SlowSteps(gap: nat): seq<Step> {
    [EnqueueRow(1), Claim(0, 1), Call(0, 1), RegisterRun(0, true), Begin(0), FinishRetry(0, 1),
     Tick(gap), Claim(0, 1), RegisterRun(0, true), Begin(0), Commit(0)]
  }

  function Replay(w: World, steps: seq<Step>): seq<World>
    decreases |steps|
  {
    if steps == [] then [w] else [w] + Replay(Next(w, steps[0]), steps[1..])
  }

  lemma {:induction false} ReplayIsRun(w: World, steps: seq<Step>)
    ensures |Replay(w, steps)| == |steps| + 1 && Replay(w, steps)[0] == w
    ensures forall i :: 0 <= i < |steps| ==> Replay(w, steps)[i + 1] == Next(Replay(w, steps)[i], steps[i])
    decreases |steps|
  {
    hide Next;
    if steps != [] {
      ReplayIsRun(Next(w, steps[0]), steps[1..]);
    }
  }

  lemma FirstClaim(ws: seq<World>, gap: nat)
    requires IsRun(ws, SlowSteps(gap))
    ensures ws[2] == Initial.(rows := map[1 := Active], workers := map[0 := Holding(1)])
    ensures AsksInVain(ws[2], SlowSteps(gap)[2], 1)
  {
    assert ws[1] == Next(ws[0], EnqueueRow(1));
    assert ws[2] == Next(ws[1], Claim(0, 1));
    assert ws[2].rows == map[1 := Active];
  }

  lemma FirstCall(ws: seq<World>, gap: nat)
    requires IsRun(ws, SlowSteps(gap))
    ensures ws[3].rows == map[1 := Active] && ws[3].workers == map[0 := Holding(1)] && ws[3].handlers == map[0 := Asked(1)]
    ensures ws[3].registry == Registry(map[], map[1 := UserCancel], map[])
    ensures ws[3].contexts == 0 && ws[3].fired == {} && !ws[3].rootCancelled && ws[3].clock == 0
  {
    FirstClaim(ws, gap);
    assert ws[3] == Next(ws[2], Call(0, 1));
  }

  lemma FirstRegistration(ws: seq<World>, gap: nat)
    requires IsRun(ws, SlowSteps(gap))
    ensures ws[4].rows == map[1 := Active] && ws[4].handlers == map[0 := Asked(1)] && ws[4].workers == map[0 := Registered(1, 0, true)]
    ensures ws[4].registry.pending == map[] && ws[4].contexts == 1 && ws[4].fired == {} && !ws[4].rootCancelled && ws[4].clock == 0
  {
    FirstCall(ws, gap);
    assert ws[4] == Next(ws[3], RegisterRun(0, true));
  }

  /** The state after the retry of the first execution has been scheduled. */
  lemma FirstExecution(ws: seq<World>, gap: nat)
    requires IsRun(ws, SlowSteps(gap))
    ensures ws[6].rows == map[1 := Waiting(SECOND)] && ws[6].workers == map[0 := Idle] && ws[6].handlers == map[0 := Asked(1)]
    ensures ws[6].registry.pending == map[] && ws[6].contexts == 1 && ws[6].fired == {0} && !ws[6].rootCancelled && ws[6].clock == 0
  {
    FirstRegistration(ws, gap);
    assert ws[5] == Next(ws[4], Begin(0));
    assert ws[6] == Next(ws[5], FinishRetry(0, 1));
  }

  lemma SecondClaim(ws: seq<World>, gap: nat)
    requires IsRun(ws, SlowSteps(gap)) && gap >= SECOND
    ensures ws[8].rows == map[1 := Active] && ws[8].workers == map[0 := Holding(1)] && ws[8].handlers == map[0 := Asked(1)]
    ensures ws[8].registry.pending == map[] && ws[8].contexts == 1 && ws[8].fired == {0} && !ws[8].rootCancelled && ws[8].clock == gap
  {
    FirstExecution(ws, gap);
    assert ws[7] == Next(ws[6], Tick(gap));
    assert ws[8] == Next(ws[7], Claim(0, 1));
  }

  lemma SecondExecution(ws: seq<World>, gap: nat)
    requires IsRun(ws, SlowSteps(gap)) && gap >= SECOND
    ensures Registers(ws[8], SlowSteps(gap)[8], 1) && Begins(ws, SlowSteps(gap), 8, 9)
    ensures CommitsRun(ws[10], SlowSteps(gap)[10], 1) && ws[10].clock == gap
    ensures ws[8].contexts !in ws[10].fired && !ws[10].rootCancelled
  {
    SecondClaim(ws, gap);
    assert ws[9] == Next(ws[8], RegisterRun(0, true));
    assert ws[10] == Next(ws[9], Begin(0));
  }

  /**
   A second is the exact bound: for every gap of a second or more there is a run in which the execution registered
   at step 8, after the request at step 2, starts uncancelled although the store's cancel at step 10 commits.
   */
  lemma SlowCancelMissesExecution(gap: nat)
    requires gap >= SECOND
    ensures var steps := SlowSteps(gap);
            var ws := Replay(Initial, steps);
            && IsRun(ws, steps)
            && AsksInVain(ws[2], steps[2], 1) && NoClearBetween(steps, 3, 8)
            && CommitsRun(ws[10], steps[10], 1) && ws[10].clock == ws[2].clock + gap
            && Registers(ws[8], steps[8], 1) && Begins(ws, steps, 8, 9)
            && ws[8].contexts !in ws[10].fired && !ws[10].rootCancelled
  {
    hide Next, Registers, Begins, CommitsRun, AsksInVain;
    var ws := Replay(Initial, SlowSteps(gap));
    ReplayIsRun(Initial, SlowSteps(gap));
    FirstClaim(ws, gap);
    SecondExecution(ws, gap);
  }

  // ---------------------------------------------------------------- running rows have a worker

  /** Some worker has the run in hand. */
  ghost predicate HasWorker(workers: map<nat, Worker>, id: Id) {
    exists k :: !WorkerOf(workers, k).Idle? && WorkerOf(workers, k).run == id
  }

  ghost predicate Owned(w: World, id: Id) { id in w.rows && w.rows[id].Active? ==> HasWorker(w.workers, id) }

  /** The worker's report leaves its running row as it is: the store refused its retry. */
  predicate Abandons(w: World, st: Step, id: Id) {
    st.FinishLeave? && WorkerOf(w.workers, st.worker).Executing? && WorkerOf(w.workers, st.worker).run == id
  }

  /** A worker drops a run only when the row is over or waits again, or by abandoning it. */
  lemma WorkerKeepsActive(w: World, st: Step, id: Id, k: nat)
    requires !WorkerOf(w.workers, k).Idle? && WorkerOf(w.workers, k).run == id && id in w.rows && !Abandons(w, st, id)
    requires id in Next(w, st).rows && Next(w, st).rows[id].Active?
    ensures !WorkerOf(Next(w, st).workers, k).Idle? && WorkerOf(Next(w, st).workers, k).run == id
  {
    hide Register, Deregister, Ask, Forget, StaleContexts, DeleteRowIn;
  }

  lemma BecomesActive(w: World, st: Step, id: Id)
    requires id in Next(w, st).rows && Next(w, st).rows[id].Active? && !(id in w.rows && w.rows[id].Active?)
    ensures st.Claim? && st.claimed == id && WorkerOf(Next(w, st).workers, st.worker) == Holding(id)
  {
    hide Register, Deregister, Ask, Forget, StaleContexts;
  }

  lemma StepKeepsOwned(w: World, st: Step, id: Id)
    requires Owned(w, id) && !Abandons(w, st, id)
    ensures Owned(Next(w, st), id)
  {
    hide Next, Abandons;
    var w' := Next(w, st);
    if id in w'.rows && w'.rows[id].Active? {
      if id in w.rows && w.rows[id].Active? {
        var k :| !WorkerOf(w.workers, k).Idle? && WorkerOf(w.workers, k).run == id;
        WorkerKeepsActive(w, st, id, k);
        assert !WorkerOf(w'.workers, k).Idle? && WorkerOf(w'.workers, k).run == id;
      } else {
        BecomesActive(w, st, id);
        assert !WorkerOf(w'.workers, st.worker).Idle? && WorkerOf(w'.workers, st.worker).run == id;
      }
    }
  }

  /** In every interleaving a row that is running is in a worker's hands, unless a worker has abandoned it to a refused retry. */
  lemma {:induction false} RunningRowHasWorker(ws: seq<World>, steps: seq<Step>, id: Id, i: nat)
    requires IsRun(ws, steps) && i < |ws| && forall k :: 0 <= k < i ==> !Abandons(ws[k], steps[k], id)
    ensures Owned(ws[i], id)
  {
    hide Next, Abandons, HasWorker;
    if i > 0 {
      RunningRowHasWorker(ws, steps, id, i - 1);
      StepKeepsOwned(ws[i - 1], steps[i - 1], id);
    }
  }

  // ---------------------------------------------------------------- waiting cancels do not leak

  /** The handler has asked about the run and is not done with it. */
  ghost predicate BusyWith(handlers: map<nat, Handler>, id: Id) {
    exists h :: !HandlerOf(handlers, h).Ready? && HandlerOf(handlers, h).run == id
  }

  /** The run may still start, or was ended without ever being claimed. */
  predicate Unsettled(row: Row) { row.Waiting? || row.Active? || row == Ended(false) }

  ghost predicate Cared(w: World, id: Id) {
    id in w.registry.pending && id in w.rows && Unsettled(w.rows[id]) ==> BusyWith(w.handlers, id)
  }

  lemma PendingComesFrom(w: World, st: Step, id: Id)
    requires id in Next(w, st).registry.pending && id !in w.registry.pending && st != ChainCall(id)
    ensures st.Call? && st.asked == id && HandlerOf(Next(w, st).handlers, st.handler) == Asked(id)
  {
    hide StaleContexts, EndRowIn, DeleteRowIn;
  }

  lemma HandlerStaysBusy(w: World, st: Step, id: Id, h: nat)
    requires RegistryOK(w.registry) && !HandlerOf(w.handlers, h).Ready? && HandlerOf(w.handlers, h).run == id && id in w.rows
    requires HandlerOK(HandlerOf(w.handlers, h), w.rows)
    requires id in Next(w, st).registry.pending && id in w.registry.pending
    requires id in Next(w, st).rows && Unsettled(Next(w, st).rows[id])
    ensures !HandlerOf(Next(w, st).handlers, h).Ready? && HandlerOf(Next(w, st).handlers, h).run == id
  {
    hide WorkerStep, OtherStep;
    if !IsHandlerStep(st) {
      HandlersUntouched(w, st);
    }
  }

  lemma HandlersUntouched(w: World, st: Step)
    requires !IsHandlerStep(st)
    ensures Next(w, st).handlers == w.handlers
  {
    hide Register, Deregister, Ask, StaleContexts, EndRowIn, DeleteRowIn;
  }

  /** A row that is unsettled after a step was so before it, or is new, or was running and is retried, which drops its pending cancel. */
  lemma UnsettledBefore(w: World, st: Step, id: Id)
    requires WorldOK(w) && id in w.rows && id in w.registry.pending && id in Next(w, st).registry.pending
    requires id in Next(w, st).rows && Unsettled(Next(w, st).rows[id])
    ensures Unsettled(w.rows[id])
  {
    hide StaleContexts, ContextsOK, WorkersOK, HandlersOK;
  }

  lemma StepKeepsCared(w: World, st: Step, id: Id)
    requires WorldOK(w) && Cared(w, id) && st != ChainCall(id) && (id in w.registry.pending ==> id in w.rows)
    ensures Cared(Next(w, st), id) && (id in Next(w, st).registry.pending ==> id in Next(w, st).rows)
  {
    hide Next, WorkersOK, ContextsOK;
    var w' := Next(w, st);
    RowsAge(w, st);
    if id in w'.registry.pending {
      if id !in w.registry.pending {
        PendingComesFrom(w, st, id);
        CallFindsRow(w, st, id);
        assert !HandlerOf(w'.handlers, st.handler).Ready? && HandlerOf(w'.handlers, st.handler).run == id;
      } else if Unsettled(w'.rows[id]) {
        UnsettledBefore(w, st, id);
        var h :| !HandlerOf(w.handlers, h).Ready? && HandlerOf(w.handlers, h).run == id;
        KnownHandler(w.handlers, w.rows, h);
        HandlerStaysBusy(w, st, id, h);
        assert !HandlerOf(w'.handlers, h).Ready? && HandlerOf(w'.handlers, h).run == id;
      }
    }
  }

  lemma CallFindsRow(w: World, st: Step, id: Id)
    requires id in Next(w, st).registry.pending && id !in w.registry.pending && st.Call? && st.asked == id
    ensures id in w.rows
  {
  }

  /**
   In every interleaving without a chain cancel of the run: once no handler deals with the run any more, a cancel that still
   waits for it belongs to a run that a worker had claimed and that is over, or that is deleted. So nothing is left behind
   for a run that was cancelled before it was claimed, nor for one that could still start.
   */
  lemma {:induction false} WaitingCancelIsCaredFor(ws: seq<World>, steps: seq<Step>, id: Id, i: nat)
    requires IsRun(ws, steps) && i < |ws| && forall k :: 0 <= k < i ==> steps[k] != ChainCall(id)
    ensures id in ws[i].registry.pending ==> id in ws[i].rows
    ensures id in ws[i].registry.pending && Unsettled(ws[i].rows[id]) ==> BusyWith(ws[i].handlers, id)
  {
    hide Next, BusyWith;
    if i > 0 {
      WaitingCancelIsCaredFor(ws, steps, id, i - 1);
      RunOK(ws, steps, i - 1);
      StepKeepsCared(ws[i - 1], steps[i - 1], id);
    }
  }
}
