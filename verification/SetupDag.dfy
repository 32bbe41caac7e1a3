/** Resolution of setup dependencies and the chain that runs them. */
module SetupDag {
  import opened Basics

  type Id = string

  datatype Spec = Spec(
    needs: seq<Id>,          // the spec's `requires`
    provided: seq<string>,   // the keys it `provides`
    hasVerify: bool,
    idempotent: bool,
    hasHandler: bool,
    hasReclaim: bool,
    tcScope: bool)

  type Specs = map<Id, Spec>

  datatype ResolveError = Unknown(id: Id) | Cycle

  // ----- reachability --------------------------------------------------------------------------

  ghost predicate Edge(all: Specs, a: Id, b: Id) {
    a in all && b in all[a].needs
  }

  ghost predicate Walk(all: Specs, path: seq<Id>) {
    path != [] && forall i :: 0 <= i < |path| - 1 ==> Edge(all, path[i], path[i + 1])
  }

  ghost predicate Reachable(all: Specs, wanted: seq<Id>, id: Id) {
    exists path :: Walk(all, path) && path[0] in wanted && path[|path| - 1] == id
  }

  ghost predicate IsCycle(all: Specs, path: seq<Id>) {
    |path| >= 2 && Walk(all, path) && path[0] == path[|path| - 1]
  }

  ghost predicate ReachableCycle(all: Specs, wanted: seq<Id>) {
    exists path :: IsCycle(all, path) && Reachable(all, wanted, path[0])
  }

  lemma {:induction false} WantedReachable(all: Specs, wanted: seq<Id>, id: Id)
    requires id in wanted
    ensures Reachable(all, wanted, id)
  {
    assert Walk(all, [id]);
  }

  lemma {:induction false} NeedReachable(all: Specs, wanted: seq<Id>, a: Id, b: Id)
    requires Reachable(all, wanted, a) && Edge(all, a, b)
    ensures Reachable(all, wanted, b)
  {
    var path :| Walk(all, path) && path[0] in wanted && path[|path| - 1] == a;
    var longer := path + [b];
    forall i | 0 <= i < |longer| - 1 ensures Edge(all, longer[i], longer[i + 1]) {
      if i < |path| - 1 { assert Edge(all, path[i], path[i + 1]); }
    }
    assert Walk(all, longer) && longer[|longer| - 1] == b;
  }

  lemma {:induction false} NeedsReachable(all: Specs, wanted: seq<Id>, a: Id)
    requires Reachable(all, wanted, a) && a in all
    ensures forall b :: b in all[a].needs ==> Reachable(all, wanted, b)
  {
    forall b | b in all[a].needs ensures Reachable(all, wanted, b) {
      NeedReachable(all, wanted, a, b);
    }
  }

  lemma {:induction false} ClosedHoldsReachable(all: Specs, wanted: seq<Id>, ids: set<Id>, id: Id)
    requires Closed(all, wanted, ids) && Reachable(all, wanted, id)
    ensures id in ids
  {
    var path :| Walk(all, path) && path[0] in wanted && path[|path| - 1] == id;
    WalkStaysInside(all, wanted, ids, path);
  }

  /** A set that contains the wanted ids and every need of its members. */
  ghost predicate Closed(all: Specs, wanted: seq<Id>, ids: set<Id>) {
    && (forall id :: id in wanted ==> id in ids)
    && (forall a, b :: a in ids && Edge(all, a, b) ==> b in ids)
  }

  lemma {:induction false} WalkStaysInside(all: Specs, wanted: seq<Id>, ids: set<Id>, path: seq<Id>)
    requires Closed(all, wanted, ids) && Walk(all, path) && path[0] in ids
    ensures forall i :: 0 <= i < |path| ==> path[i] in ids
    decreases |path|
  {
    if |path| > 1 {
      var init := path[..|path| - 1];
      forall i | 0 <= i < |init| - 1 ensures Edge(all, init[i], init[i + 1]) {
        assert Edge(all, path[i], path[i + 1]);
      }
      WalkStaysInside(all, wanted, ids, init);
      assert Edge(all, path[|path| - 2], path[|path| - 2 + 1]);
      assert init[|path| - 2] in ids;
    }
  }

  /** The worklist: pops an id, and pushes the needs of one it has not met before. */
  method CollectNeeded(wanted: seq<Id>, all: Specs) returns (r: Result<set<Id>, ResolveError>)
    ensures r.Err? ==> r.error.Unknown? && Reachable(all, wanted, r.error.id) && r.error.id !in all
    ensures r.Ok? ==> forall id :: id in r.value <==> Reachable(all, wanted, id)
    ensures r.Ok? ==> Closed(all, wanted, r.value) && r.value <= all.Keys
  {
    var needed: set<Id> := {};
    var stack := wanted;
    forall id | id in wanted ensures Reachable(all, wanted, id) { WantedReachable(all, wanted, id); }
    while stack != []
      invariant needed <= all.Keys
      invariant forall id :: id in needed || id in stack ==> Reachable(all, wanted, id)
      invariant forall id :: id in wanted ==> id in needed || id in stack
      invariant forall a, b :: a in needed && Edge(all, a, b) ==> b in needed || b in stack
      decreases all.Keys - needed, |stack|
    {
      var sid := stack[|stack| - 1];
      ghost var before := stack;
      stack := stack[..|stack| - 1];
      assert before == stack + [sid];
      if sid in needed {
        continue;
      }
      if sid !in all {
        return Err(Unknown(sid));
      }
      needed := needed + {sid};
      NeedsReachable(all, wanted, sid);
      stack := stack + all[sid].needs;
    }
    forall id | Reachable(all, wanted, id) ensures id in needed {
      ClosedHoldsReachable(all, wanted, needed, id);
    }
    r := Ok(needed);
  }

  // ----- topological order --------------------------------------------------------------------------

  type Graph = map<Id, set<Id>>

  ghost predicate GraphWalk(graph: Graph, path: seq<Id>) {
    path != [] && forall i :: 0 <= i < |path| - 1 ==> path[i] in graph && path[i + 1] in graph[path[i]]
  }

  ghost predicate GraphCycle(graph: Graph, path: seq<Id>) {
    |path| >= 2 && GraphWalk(graph, path) && path[0] == path[|path| - 1]
  }

  /** Every node once, each after all it depends on. */
  ghost predicate Topological(graph: Graph, order: seq<Id>) {
    && NoDup(order)
    && (forall id :: id in order <==> id in graph)
    && (forall i, dep :: 0 <= i < |order| && order[i] in graph && dep in graph[order[i]] ==> dep in order[..i])
  }

  predicate Stuck(graph: Graph, rest: set<Id>) {
    rest != {} && forall id :: id in rest ==> id in graph && graph[id] * rest != {}
  }

  /** From a stuck set one can walk forever. */
  lemma {:induction false} StuckWalk(graph: Graph, rest: set<Id>, start: Id, n: nat) returns (path: seq<Id>)
    requires Stuck(graph, rest) && start in rest
    ensures |path| == n + 1 && path[0] == start && GraphWalk(graph, path) && forall x :: x in path ==> x in rest
    decreases n
  {
    if n == 0 {
      path := [start];
    } else {
      assert graph[start] * rest != {};
      var next :| next in graph[start] * rest;
      var more := StuckWalk(graph, rest, next, n - 1);
      path := [start] + more;
      forall i | 0 <= i < |path| - 1 ensures path[i] in graph && path[i + 1] in graph[path[i]] {
        if i > 0 { assert path[i] == more[i - 1] && path[i + 1] == more[i]; }
      }
    }
  }

  lemma {:induction false} StuckHasCycle(graph: Graph, rest: set<Id>) returns (cycle: seq<Id>)
    requires Stuck(graph, rest)
    ensures GraphCycle(graph, cycle) && cycle[0] in rest
  {
    var start :| start in rest;
    var path := StuckWalk(graph, rest, start, |rest|);
    Pigeonhole(path, rest);
    var i, j :| 0 <= i < j < |path| && path[i] == path[j];
    cycle := path[i..j + 1];
    assert cycle[0] == path[i] && cycle[|cycle| - 1] == path[j];
    forall k | 0 <= k < |cycle| - 1 ensures cycle[k] in graph && cycle[k + 1] in graph[cycle[k]] {
      assert cycle[k] == path[i + k] && cycle[k + 1] == path[i + k + 1];
    }
  }

  /** Along a walk positions in a topological order strictly decrease, so no walk returns. */
  lemma {:induction false} WalkDescends(graph: Graph, order: seq<Id>, path: seq<Id>, a: nat, b: nat)
    requires Topological(graph, order) && GraphWalk(graph, path) && |path| >= 2
    requires a < |order| && b < |order| && order[a] == path[0] && order[b] == path[|path| - 1]
    ensures b < a
    decreases |path|
  {
    assert path[0] in graph && path[0 + 1] in graph[path[0]];
    var c :| 0 <= c < a && order[c] == path[1];
    if |path| == 2 {
      assert b == c;
    } else {
      var tail := path[1..];
      forall i | 0 <= i < |tail| - 1 ensures tail[i] in graph && tail[i + 1] in graph[tail[i]] {
        assert tail[i] == path[i + 1] && tail[i + 1] == path[i + 1 + 1];
      }
      WalkDescends(graph, order, tail, c, b);
    }
  }

  lemma {:induction false} TopologicalHasNoCycle(graph: Graph, order: seq<Id>, cycle: seq<Id>)
    requires Topological(graph, order)
    ensures !GraphCycle(graph, cycle)
  {
    if GraphCycle(graph, cycle) {
      assert cycle[0] in graph && cycle[0 + 1] in graph[cycle[0]];
      var a :| 0 <= a < |order| && order[a] == cycle[0];
      WalkDescends(graph, order, cycle, a, a);
    }
  }

  /** The sorter hands out all nodes whose dependencies are done, in any order, batch by batch. */
  method StaticOrder(graph: Graph) returns (r: Result<seq<Id>, ResolveError>)
    requires forall id, dep :: id in graph && dep in graph[id] ==> dep in graph
    ensures r.Ok? ==> Topological(graph, r.value)
    ensures r.Err? ==> r.error == Cycle && exists cycle :: GraphCycle(graph, cycle)
    ensures r.Ok? <==> !exists cycle :: GraphCycle(graph, cycle)
  {
    var order: seq<Id> := [];
    var rest := graph.Keys;
    while rest != {}
      invariant rest <= graph.Keys && NoDup(order)
      invariant forall id :: id in order <==> id in graph && id !in rest
      invariant forall i, dep :: 0 <= i < |order| && order[i] in graph && dep in graph[order[i]] ==> dep in order[..i]
      decreases rest
    {
      var ready := set id | id in rest && graph[id] * rest == {};
      if ready == {} {
        forall id | id in rest ensures graph[id] * rest != {} {
          assert id !in ready;
        }
        var cycle := StuckHasCycle(graph, rest);
        return Err(Cycle);
      }
      order, rest := AppendBatch(graph, order, rest, ready);
    }
    forall cycle ensures !GraphCycle(graph, cycle) {
      TopologicalHasNoCycle(graph, order, cycle);
    }
    r := Ok(order);
  }

  method AppendBatch(graph: Graph, order: seq<Id>, rest: set<Id>, ready: set<Id>)
    returns (order': seq<Id>, rest': set<Id>)
    requires rest <= graph.Keys && NoDup(order) && ready <= rest && ready != {}
    requires forall id, dep :: id in graph && dep in graph[id] ==> dep in graph
    requires forall id :: id in order <==> id in graph && id !in rest
    requires forall i, dep :: 0 <= i < |order| && order[i] in graph && dep in graph[order[i]] ==> dep in order[..i]
    requires forall id :: id in ready ==> graph[id] * rest == {}
    ensures rest' == rest - ready && NoDup(order')
    ensures forall id :: id in order' <==> id in graph && id !in rest'
    ensures forall i, dep :: 0 <= i < |order'| && order'[i] in graph && dep in graph[order'[i]] ==> dep in order'[..i]
  {
    order', rest' := order, rest;
    var batch := ready;
    while batch != {}
      invariant batch <= ready && rest' == rest - (ready - batch)
      invariant order <= order' && NoDup(order')
      invariant forall id :: id in order' <==> id in graph && id !in rest'
      invariant forall i, dep :: 0 <= i < |order'| && order'[i] in graph && dep in graph[order'[i]] ==>
                  dep in order'[..i]
      decreases batch
    {
      var id :| id in batch;
      var longer := order' + [id];
      forall i, dep | 0 <= i < |longer| && longer[i] in graph && dep in graph[longer[i]]
        ensures dep in longer[..i]
      {
        if i < |order'| {
          assert longer[..i] == order'[..i];
        } else {
          assert dep in graph[id] && dep !in graph[id] * rest;
          assert dep in order && longer[..i] == order';
        }
      }
      order', rest', batch := longer, rest' - {id}, batch - {id};
    }
  }

  // ----- resolution ----------------------------------------------------------------------------------

  /** `order` lists exactly the reachable ids, each once and after everything it needs. */
  ghost predicate IsResolution(all: Specs, wanted: seq<Id>, order: seq<Id>) {
    && NoDup(order)
    && (forall id :: id in order <==> Reachable(all, wanted, id))
    && (forall i :: 0 <= i < |order| ==> order[i] in all)
    && (forall i, dep :: 0 <= i < |order| && Edge(all, order[i], dep) ==> dep in order[..i])
  }

  function NeedGraph(all: Specs, needed: set<Id>): Graph
    requires needed <= all.Keys
  {
    map id | id in needed :: set dep | dep in all[id].needs
  }

  lemma {:induction false} GraphCycles(all: Specs, wanted: seq<Id>, needed: set<Id>)
    requires needed <= all.Keys && Closed(all, wanted, needed)
    requires forall id :: id in needed <==> Reachable(all, wanted, id)
    ensures (exists cycle :: GraphCycle(NeedGraph(all, needed), cycle)) <==> ReachableCycle(all, wanted)
  {
    var graph := NeedGraph(all, needed);
    if cycle :| GraphCycle(graph, cycle) {
      forall i | 0 <= i < |cycle| - 1 ensures Edge(all, cycle[i], cycle[i + 1]) {
        assert cycle[i] in graph && cycle[i + 1] in graph[cycle[i]];
      }
      assert cycle[0] in graph && cycle[0 + 1] in graph[cycle[0]];
      assert IsCycle(all, cycle) && Reachable(all, wanted, cycle[0]);
    }
    if path :| IsCycle(all, path) && Reachable(all, wanted, path[0]) {
      WalkStaysInside(all, wanted, needed, path);
      forall i | 0 <= i < |path| - 1 ensures path[i] in graph && path[i + 1] in graph[path[i]] {
        assert Edge(all, path[i], path[i + 1]) && path[i] in needed;
      }
      assert GraphCycle(graph, path);
    }
  }

  /** Raises for an unknown id exactly when one is reachable, otherwise for a cycle exactly when
      one is reachable, and otherwise lists the reachable ids in a dependency order. */
  method ResolveSetupDag(wanted: seq<Id>, all: Specs) returns (r: Result<seq<Id>, ResolveError>)
    ensures r.Err? && r.error.Unknown? ==> Reachable(all, wanted, r.error.id) && r.error.id !in all
    ensures (r.Err? && r.error.Unknown?) <==> exists id :: Reachable(all, wanted, id) && id !in all
    ensures r == Err(Cycle) ==> ReachableCycle(all, wanted)
    ensures r.Ok? ==> IsResolution(all, wanted, r.value) && !ReachableCycle(all, wanted)
  {
    var collected := CollectNeeded(wanted, all);
    if collected.Err? {
      return Err(collected.error);
    }
    var needed := collected.value;
    var graph := NeedGraph(all, needed);
    forall id, dep | id in graph && dep in graph[id] ensures dep in graph {
      assert Edge(all, id, dep);
    }
    GraphCycles(all, wanted, needed);
    r := StaticOrder(graph);
    if r.Ok? {
      forall i, dep | 0 <= i < |r.value| && Edge(all, r.value[i], dep) ensures dep in r.value[..i] {
        assert r.value[i] in graph && dep in graph[r.value[i]];
      }
    }
  }

  // ----- running one setup ----------------------------------------------------------------------------

  /** The parts of the run state the runner looks at: present keys, and keys verified recently. */
  datatype Store = Store(run: set<string>, tc: map<string, set<string>>, recent: set<string>)

  /** What the world answers while one setup runs: verify, reclaim and handler. */
  datatype World = World(verifyPasses: bool, reclaimCode: int, handler: HandlerRun)

  datatype HandlerRun = Raised | Exited(code: int, reloaded: Store)

  datatype Outcome = Ran | Skipped | Reclaimed | Blocked

  datatype Execution = NotExecuted | Succeeded | Failed

  /** The reported outcome, and what became of the handler. */
  datatype Report = Report(outcome: Outcome, execution: Execution)

  predicate HasProvide(store: Store, key: string, tcId: Option<string>) {
    || (tcId.Some? && tcId.value in store.tc && key in store.tc[tcId.value])
    || key in store.run
  }

  function Keys(spec: Spec): set<string> {
    set key | key in spec.provided
  }

  predicate AllPresent(spec: Spec, store: Store, tcId: Option<string>) {
    forall key :: key in spec.provided ==> HasProvide(store, key, if spec.tcScope then tcId else None)
  }

  predicate AnyStale(spec: Spec, store: Store) {
    exists key :: key in spec.provided && key !in store.recent
  }

  /** The one case in which a failed execution is reported as something else than blocked. */
  predicate Relabels(spec: Spec, store: Store, tcId: Option<string>, w: World) {
    spec.provided != [] && !AllPresent(spec, store, tcId) && spec.hasReclaim && w.reclaimCode == 0
  }

  /** Whether verify is asked: always without provided keys, else only when all are there and
      one is stale. */
  predicate AsksVerify(spec: Spec, store: Store, tcId: Option<string>) {
    spec.hasVerify && (spec.provided == [] || (AllPresent(spec, store, tcId) && AnyStale(spec, store)))
  }

  predicate HandlerSucceeds(spec: Spec, w: World) {
    spec.hasHandler && w.handler.Exited? && w.handler.code == 0
  }

  /** What one setup reports, and the store it leaves. */
  datatype Step = Step(report: Report, store: Store)

  function Executed(spec: Spec, store: Store, w: World): Step {
    if HandlerSucceeds(spec, w)
    then Step(Report(Ran, Succeeded), Verified(w.handler.reloaded, spec))
    else Step(Report(Blocked, Failed), store)
  }

  function Verified(store: Store, spec: Spec): Store {
    store.(recent := store.recent + Keys(spec))
  }

  /** One setup, by its guards. */
  function Setup(spec: Spec, store: Store, tcId: Option<string>, w: World): Step {
    if AsksVerify(spec, store, tcId) && w.verifyPasses then Step(Report(Skipped, NotExecuted), Verified(store, spec))
    else if AsksVerify(spec, store, tcId) && !spec.idempotent then Step(Report(Blocked, NotExecuted), store)
    else if !AsksVerify(spec, store, tcId) && spec.provided != [] && AllPresent(spec, store, tcId)
    then Step(Report(Skipped, NotExecuted), store)
    else
      var step := Executed(spec, store, w);
      if Relabels(spec, store, tcId, w) then step.(report := step.report.(outcome := Reclaimed)) else step
  }

  class State {
    var store: Store

    constructor (store: Store)
      ensures this.store == store
    {
      this.store := store;
    }

    method MarkVerified(keys: set<string>)
      modifies this
      ensures store == old(store).(recent := old(store).recent + keys)
    {
      store := store.(recent := store.recent + keys);
    }
  }

  method Execute(spec: Spec, state: State, w: World) returns (report: Report)
    modifies state
    ensures report == if HandlerSucceeds(spec, w) then Report(Ran, Succeeded) else Report(Blocked, Failed)
    ensures state.store == if HandlerSucceeds(spec, w)
                           then w.handler.reloaded.(recent := w.handler.reloaded.recent + Keys(spec))
                           else old(state.store)
  {
    if !spec.hasHandler {
      return Report(Blocked, Failed);
    }
    if w.handler.Raised? {
      return Report(Blocked, Failed);
    }
    if w.handler.code == 0 {
      state.store := w.handler.reloaded;
    }
    if w.handler.code != 0 {
      return Report(Blocked, Failed);
    }
    state.MarkVerified(Keys(spec));
    report := Report(Ran, Succeeded);
  }

  /** The branches of the source compute `Setup`.

      Skipped: nothing was executed and either verify passed or the provided keys are present
      and need no check.  Blocked: the handler failed, unless relabelled, or verify failed on a
      setup that must not run twice. */
  method RunSetup(spec: Spec, state: State, tcId: Option<string>, w: World) returns (report: Report)
    modifies state
    ensures Step(report, state.store) == Setup(spec, old(state.store), tcId, w)
    ensures report.execution == Failed ==>
              (report.outcome == if Relabels(spec, old(state.store), tcId, w) then Reclaimed else Blocked)
    ensures report.execution == Succeeded ==>
              (report.outcome == if Relabels(spec, old(state.store), tcId, w) then Reclaimed else Ran)
    ensures report.execution == Succeeded ==> HandlerSucceeds(spec, w)
    ensures report.execution == Failed ==> !HandlerSucceeds(spec, w)
    ensures report.execution == NotExecuted ==>
              var present := spec.provided != [] && AllPresent(spec, old(state.store), tcId);
              if present && (!spec.hasVerify || !AnyStale(spec, old(state.store))) then report.outcome == Skipped
              else spec.hasVerify && (spec.provided == [] || present)
                   && report.outcome == if w.verifyPasses then Skipped else Blocked
    ensures report.execution == NotExecuted && report.outcome == Blocked ==> !spec.idempotent
    ensures report.execution != NotExecuted ==>
              || !(spec.provided == [] || AllPresent(spec, old(state.store), tcId))
              || (spec.provided == [] && !spec.hasVerify)
              || (spec.hasVerify && !w.verifyPasses && spec.idempotent)
    ensures state.store ==
            if report.execution == Succeeded then w.handler.reloaded.(recent := w.handler.reloaded.recent + Keys(spec))
            else if report.execution == NotExecuted && spec.provided != [] && spec.hasVerify
                    && AnyStale(spec, old(state.store)) && w.verifyPasses
            then old(state.store).(recent := old(state.store).recent + Keys(spec))
            else old(state.store)
  {
    if spec.provided == [] {
      if !spec.hasVerify {
        report := Execute(spec, state, w);
        return;
      }
      if w.verifyPasses {
        return Report(Skipped, NotExecuted);
      }
      if spec.idempotent {
        report := Execute(spec, state, w);
        return;
      }
      return Report(Blocked, NotExecuted);
    }
    if AllPresent(spec, state.store, tcId) {
      if spec.hasVerify && AnyStale(spec, state.store) {
        if w.verifyPasses {
          state.MarkVerified(Keys(spec));
          return Report(Skipped, NotExecuted);
        }
        if spec.idempotent {
          report := Execute(spec, state, w);
          return;
        }
        return Report(Blocked, NotExecuted);
      }
      return Report(Skipped, NotExecuted);
    }
    var reclaimed := spec.hasReclaim && w.reclaimCode == 0;
    report := Execute(spec, state, w);
    if reclaimed {
      report := report.(outcome := Reclaimed);
    }
  }

  // ----- one setup, case by case ----------------------------------------------------------------------

  /** What a handler leaves: its own store with the provided keys verified when it exits with 0,
      otherwise the store it found. */
  ghost predicate LeftByHandler(spec: Spec, store: Store, w: World, step: Step) {
    if spec.hasHandler && w.handler.Exited? && w.handler.code == 0 then
      && step.report.execution == Succeeded
      && step.store.run == w.handler.reloaded.run && step.store.tc == w.handler.reloaded.tc
      && forall key :: key in step.store.recent <==> key in w.handler.reloaded.recent || key in spec.provided
    else
      step.report.execution == Failed && step.store == store
  }

  /** Keys that are there and need no check: nothing is asked, executed or changed. */
  lemma {:induction false} FreshSetupIsSkipped(spec: Spec, store: Store, tcId: Option<string>, w: World)
    requires spec.provided != []
    requires forall key :: key in spec.provided ==>
               || key in store.run
               || (spec.tcScope && tcId.Some? && tcId.value in store.tc && key in store.tc[tcId.value])
    requires !spec.hasVerify || forall key :: key in spec.provided ==> key in store.recent
    ensures Setup(spec, store, tcId, w) == Step(Report(Skipped, NotExecuted), store)
  {
  }

  /** Keys that are there, one of them stale: verify decides, and then `idempotent`. */
  lemma {:induction false} StaleSetupIsVerified(spec: Spec, store: Store, tcId: Option<string>, w: World, stale: string)
    requires spec.hasVerify && stale in spec.provided && stale !in store.recent
    requires forall key :: key in spec.provided ==>
               || key in store.run
               || (spec.tcScope && tcId.Some? && tcId.value in store.tc && key in store.tc[tcId.value])
    ensures var step := Setup(spec, store, tcId, w);
            if w.verifyPasses then
              && step.report == Report(Skipped, NotExecuted)
              && step.store.run == store.run && step.store.tc == store.tc
              && forall key :: key in step.store.recent <==> key in store.recent || key in spec.provided
            else if !spec.idempotent then step == Step(Report(Blocked, NotExecuted), store)
            else && LeftByHandler(spec, store, w, step)
                 && step.report.outcome == if step.report.execution == Succeeded then Ran else Blocked
  {
    assert AnyStale(spec, store);
  }

  /** A key that is missing: the handler runs, and a successful reclaim before it names the
      outcome. */
  lemma {:induction false} MissingKeyRunsHandler(spec: Spec, store: Store, tcId: Option<string>, w: World,
                                                 missing: string)
    requires missing in spec.provided && missing !in store.run
    requires !(spec.tcScope && tcId.Some? && tcId.value in store.tc && missing in store.tc[tcId.value])
    ensures var step := Setup(spec, store, tcId, w);
            && LeftByHandler(spec, store, w, step)
            && step.report.outcome == if spec.hasReclaim && w.reclaimCode == 0 then Reclaimed
                                      else if step.report.execution == Succeeded then Ran else Blocked
  {
    assert !HasProvide(store, missing, if spec.tcScope then tcId else None);
  }

  /** Without provided keys: verify, when there is one, is always asked. */
  lemma {:induction false} KeylessSetup(spec: Spec, store: Store, tcId: Option<string>, w: World)
    requires spec.provided == []
    ensures var step := Setup(spec, store, tcId, w);
            if spec.hasVerify && w.verifyPasses then step == Step(Report(Skipped, NotExecuted), store)
            else if spec.hasVerify && !spec.idempotent then step == Step(Report(Blocked, NotExecuted), store)
            else && LeftByHandler(spec, store, w, step)
                 && step.report.outcome == if step.report.execution == Succeeded then Ran else Blocked
  {
    assert Keys(spec) == {} && store.recent + {} == store.recent;
  }

  /** A setup that succeeded or was skipped is skipped the next time, in every world, while the
      keys it provides are there. */
  lemma {:induction false} SecondRunIsSkipped(spec: Spec, store: Store, tcId: Option<string>, w: World, later: World)
    requires spec.provided != []
    requires var report := Setup(spec, store, tcId, w).report;
             report.execution == Succeeded || report.outcome == Skipped
    requires var left := Setup(spec, store, tcId, w).store;
             forall key :: key in spec.provided ==>
               || key in left.run
               || (spec.tcScope && tcId.Some? && tcId.value in left.tc && key in left.tc[tcId.value])
    ensures var left := Setup(spec, store, tcId, w).store;
            Setup(spec, left, tcId, later) == Step(Report(Skipped, NotExecuted), left)
  {
  }

  // ----- the chain -----------------------------------------------------------------------------------

  datatype Attempt = Attempt(id: Id, report: Report)

  datatype Chain = Chain(attempts: seq<Attempt>, store: Store)

  /** The setups of `order` one after the other, each from the store the one before it left, up
      to the first that is reported as blocked. */
  function RunChain(all: Specs, order: seq<Id>, store: Store, tcId: Option<string>, world: Id -> World): Chain
    requires forall id :: id in order ==> id in all
  {
    if order == [] then Chain([], store)
    else
      var step := Setup(all[order[0]], store, tcId, world(order[0]));
      var attempt := Attempt(order[0], step.report);
      if step.report.outcome == Blocked then Chain([attempt], step.store)
      else Prefixed([attempt], RunChain(all, order[1..], step.store, tcId, world))
  }

  function Prefixed(attempts: seq<Attempt>, rest: Chain): Chain {
    Chain(attempts + rest.attempts, rest.store)
  }

  /** The store when the setup at `i` has its turn, if nothing before it is blocked. */
  function StoreBefore(all: Specs, order: seq<Id>, i: nat, store: Store, tcId: Option<string>,
                       world: Id -> World): Store
    requires i <= |order| && forall id :: id in order ==> id in all
  {
    if i == 0 then store
    else StoreBefore(all, order[1..], i - 1, Setup(all[order[0]], store, tcId, world(order[0])).store, tcId, world)
  }

  /** Where the chain is after `n` setups, none of them blocked. */
  lemma {:induction false} ChainStep(all: Specs, order: seq<Id>, i: nat, store: Store, tcId: Option<string>,
                                     world: Id -> World, done: seq<Attempt>)
    requires i < |order| && forall id :: id in order ==> id in all
    ensures (forall id :: id in order[i..] ==> id in all) && (forall id :: id in order[i + 1..] ==> id in all)
    ensures var step := Setup(all[order[i]], store, tcId, world(order[i]));
            var done' := done + [Attempt(order[i], step.report)];
            Prefixed(done, RunChain(all, order[i..], store, tcId, world)) ==
            if step.report.outcome == Blocked then Chain(done', step.store)
            else Prefixed(done', RunChain(all, order[i + 1..], step.store, tcId, world))
  {
    assert order[i..][0] == order[i] && order[i..][1..] == order[i + 1..];
    var step := Setup(all[order[i]], store, tcId, world(order[i]));
    if step.report.outcome != Blocked {
      Assoc(done, [Attempt(order[i], step.report)], RunChain(all, order[i + 1..], step.store, tcId, world).attempts);
    }
  }

  method RunRequiredSetups(wanted: seq<Id>, all: Specs, state: State, tcId: Option<string>, world: Id -> World)
    returns (r: Result<seq<Attempt>, ResolveError>, ghost order: seq<Id>)
    modifies state
    ensures r.Err? ==> unchanged(state)
    ensures r.Err? <==> (exists id :: Reachable(all, wanted, id) && id !in all) || ReachableCycle(all, wanted)
    ensures r.Ok? ==> IsResolution(all, wanted, order) && (forall id :: id in order ==> id in all)
                      && Chain(r.value, state.store) == RunChain(all, order, old(state.store), tcId, world)
  {
    order := [];
    var resolved := ResolveSetupDag(wanted, all);
    if resolved.Err? {
      return Err(resolved.error), order;
    }
    forall id | Reachable(all, wanted, id) ensures id in all {
      var k :| 0 <= k < |resolved.value| && resolved.value[k] == id;
    }
    order := resolved.value;
    ghost var chain := RunChain(all, order, state.store, tcId, world);
    var attempts: seq<Attempt> := [];
    var i := 0;
    assert order[0..] == order && Prefixed([], chain) == chain;
    while i < |resolved.value|
      invariant 0 <= i <= |order|
      invariant chain == Prefixed(attempts, RunChain(all, order[i..], state.store, tcId, world))
    {
      var id := resolved.value[i];
      ChainStep(all, order, i, state.store, tcId, world, attempts);
      var report := RunSetup(all[id], state, tcId, world(id));
      attempts := attempts + [Attempt(id, report)];
      if report.outcome == Blocked {
        return Ok(attempts), order;
      }
      i := i + 1;
    }
    r := Ok(attempts);
  }

  /** Each attempt is the setup in its place, run from the store left by those before it; the
      next one is attempted exactly when this one is not reported as blocked. */
  lemma {:induction false} ChainAt(all: Specs, order: seq<Id>, store: Store, tcId: Option<string>, world: Id -> World,
                                   i: nat)
    requires (forall id :: id in order ==> id in all) && i < |RunChain(all, order, store, tcId, world).attempts|
    ensures var c := RunChain(all, order, store, tcId, world);
            && |c.attempts| <= |order|
            && c.attempts[i] == Attempt(order[i], SetupAt(all, order, i, store, tcId, world).report)
            && (i + 1 < |c.attempts| <==> i + 1 < |order| && c.attempts[i].report.outcome != Blocked)
            && c.store == StoreBefore(all, order, |c.attempts|, store, tcId, world)
    decreases |order|
  {
    var step := Setup(all[order[0]], store, tcId, world(order[0]));
    if step.report.outcome != Blocked {
      var rest := RunChain(all, order[1..], step.store, tcId, world);
      if rest.attempts != [] {
        ChainAt(all, order[1..], step.store, tcId, world, if i == 0 then 0 else i - 1);
      } else {
        assert order[1..] == [];
      }
    }
  }

  /** What the setup at `i` does on its turn. */
  function SetupAt(all: Specs, order: seq<Id>, i: nat, store: Store, tcId: Option<string>, world: Id -> World): Step
    requires i < |order| && forall id :: id in order ==> id in all
  {
    Setup(all[order[i]], StoreBefore(all, order, i, store, tcId, world), tcId, world(order[i]))
  }

  /** The guard that hides a failure: on its turn the setup at `i` misses a key it provides, its
      reclaim succeeds and its handler does not. */
  predicate HidesFailure(all: Specs, order: seq<Id>, i: nat, store: Store, tcId: Option<string>, world: Id -> World)
    requires i < |order| && forall id :: id in order ==> id in all
  {
    var spec := all[order[i]];
    && Relabels(spec, StoreBefore(all, order, i, store, tcId, world), tcId, world(order[i]))
    && !HandlerSucceeds(spec, world(order[i]))
  }

  /** The chain runs on past a failed execution exactly when it is hidden. */
  lemma {:induction false} ContinuesPastFailure(all: Specs, order: seq<Id>, store: Store, tcId: Option<string>,
                                                world: Id -> World, i: nat)
    requires (forall id :: id in order ==> id in all) && i < |RunChain(all, order, store, tcId, world).attempts|
    ensures var attempts := RunChain(all, order, store, tcId, world).attempts;
            && |attempts| <= |order|
            && (attempts[i].report.execution == Failed && i + 1 < |order| ==>
                  (i + 1 < |attempts| <==> HidesFailure(all, order, i, store, tcId, world)))
            && (HidesFailure(all, order, i, store, tcId, world) ==> attempts[i].report == Report(Reclaimed, Failed))
  {
    ChainAt(all, order, store, tcId, world, i);
  }

  /** Nothing is attempted although an execution it needs failed. */
  ghost predicate DependentsStop(all: Specs, order: seq<Id>, attempts: seq<Attempt>)
    requires |attempts| <= |order|
  {
    forall j, i :: 0 <= j < i < |attempts| && Edge(all, order[i], order[j]) ==> attempts[j].report.execution != Failed
  }

  /** One run keeps dependents from running after a failure if and only if no failure of a
      dependency of an attempted setup is hidden. */
  lemma {:induction false} DependentsStopExactly(all: Specs, order: seq<Id>, store: Store, tcId: Option<string>,
                                                 world: Id -> World)
    requires forall id :: id in order ==> id in all
    ensures var attempts := RunChain(all, order, store, tcId, world).attempts;
            |attempts| <= |order| &&
            (DependentsStop(all, order, attempts) <==>
             forall j, i :: 0 <= j < i < |attempts| && Edge(all, order[i], order[j]) ==>
               !HidesFailure(all, order, j, store, tcId, world))
  {
    var attempts := RunChain(all, order, store, tcId, world).attempts;
    if attempts != [] { ChainAt(all, order, store, tcId, world, 0); }
    forall j | 0 <= j < |attempts| - 1
      ensures attempts[j].report.execution == Failed <==> HidesFailure(all, order, j, store, tcId, world)
    {
      ContinuesPastFailure(all, order, store, tcId, world, j);
    }
  }

  /** Whatever was attempted, everything it needs was attempted before it and not reported as
      blocked; a need whose execution failed all the same is one whose failure is hidden. */
  lemma {:induction false} AttemptsAreClosed(all: Specs, wanted: seq<Id>, order: seq<Id>, store: Store,
                                             tcId: Option<string>, world: Id -> World, i: nat, dep: Id)
    requires IsResolution(all, wanted, order) && forall id :: id in order ==> id in all
    requires i < |RunChain(all, order, store, tcId, world).attempts|
    ensures |RunChain(all, order, store, tcId, world).attempts| <= |order|
    ensures Edge(all, order[i], dep) ==>
              var attempts := RunChain(all, order, store, tcId, world).attempts;
              exists j :: && 0 <= j < i && order[j] == attempts[j].id == dep && attempts[j].report.outcome != Blocked
                          && (attempts[j].report.execution == Failed <==>
                              HidesFailure(all, order, j, store, tcId, world))
  {
    ChainAt(all, order, store, tcId, world, i);
    if Edge(all, order[i], dep) {
      assert dep in order[..i];
      var j :| 0 <= j < i && order[j] == dep;
      ChainAt(all, order, store, tcId, world, j);
    }
  }

  // ----- which resolutions are safe in every run ---------------------------------------------------------

  const EMPTY := Store({}, map[], {})

  /** A setup others in the order need, and whose failures a reclaim can hide. */
  ghost predicate Risky(all: Specs, order: seq<Id>, j: nat, i: nat)
    requires j < |order| && i < |order| && forall id :: id in order ==> id in all
  {
    Edge(all, order[i], order[j]) && all[order[j]].provided != [] && all[order[j]].hasReclaim
  }

  /** Reclaims succeed; every handler succeeds without providing anything, but for one. */
  function FailOnly(bad: Id): Id -> World {
    id => World(true, 0, Exited(if id == bad then 1 else 0, EMPTY))
  }

  predicate Bare(store: Store) {
    store.run == {} && store.tc == map[]
  }

  lemma {:induction false} BareStep(spec: Spec, store: Store, bad: Id, id: Id)
    requires Bare(store) && spec.hasHandler && (id == bad ==> spec.provided != [] && spec.hasReclaim)
    ensures var step := Setup(spec, store, None, FailOnly(bad)(id));
            && Bare(step.store) && step.report.outcome != Blocked
            && (id == bad ==> step.report.execution == Failed)
  {
    if spec.provided != [] {
      var key := spec.provided[0];
      assert key in spec.provided && !HasProvide(store, key, None);
    }
  }

  /** From a store without keys the whole order is attempted, a failure of `bad` included. */
  lemma {:induction false} BareRun(all: Specs, order: seq<Id>, store: Store, bad: Id)
    requires (forall id :: id in order ==> id in all && all[id].hasHandler) && Bare(store)
    requires bad in order ==> all[bad].provided != [] && all[bad].hasReclaim
    ensures var attempts := RunChain(all, order, store, None, FailOnly(bad)).attempts;
            && |attempts| == |order|
            && forall i :: 0 <= i < |order| && order[i] == bad ==> attempts[i].report.execution == Failed
    decreases |order|
  {
    if order != [] {
      BareStep(all[order[0]], store, bad, order[0]);
      var step := Setup(all[order[0]], store, None, FailOnly(bad)(order[0]));
      BareRun(all, order[1..], step.store, bad);
      forall i | 0 < i < |order| && order[i] == bad
        ensures RunChain(all, order, store, None, FailOnly(bad)).attempts[i].report.execution == Failed
      {
        assert order[1..][i - 1] == bad;
      }
    }
  }

  ghost predicate SafeRun(all: Specs, order: seq<Id>, store: Store, tcId: Option<string>, world: Id -> World)
    requires forall id :: id in order ==> id in all
  {
    var attempts := RunChain(all, order, store, tcId, world).attempts;
    |attempts| <= |order| && DependentsStop(all, order, attempts)
  }

  /** Without a risky dependency every run is safe. */
  lemma {:induction false} SafeWithoutRisk(all: Specs, order: seq<Id>, store: Store, tcId: Option<string>,
                                           world: Id -> World)
    requires forall id :: id in order ==> id in all
    requires forall j, i :: 0 <= j < |order| && 0 <= i < |order| ==> !Risky(all, order, j, i)
    ensures SafeRun(all, order, store, tcId, world)
  {
    DependentsStopExactly(all, order, store, tcId, world);
    var attempts := RunChain(all, order, store, tcId, world).attempts;
    forall j, i | 0 <= j < i < |attempts| && Edge(all, order[i], order[j])
      ensures !HidesFailure(all, order, j, store, tcId, world)
    {
      assert !Risky(all, order, j, i);
    }
  }

  /** Every run of a resolution, from any store in any world, keeps dependents from running after
      a failure if and only if no setup that another one needs both provides keys and has a
      reclaim.  Setups without a handler are blocked whenever they are executed. */
  lemma {:induction false} SafeInEveryRun(all: Specs, wanted: seq<Id>, order: seq<Id>)
    requires IsResolution(all, wanted, order) && forall id :: id in order ==> id in all && all[id].hasHandler
    ensures (forall store, tcId, world :: SafeRun(all, order, store, tcId, world)) <==>
            (forall j, i :: 0 <= j < |order| && 0 <= i < |order| ==> !Risky(all, order, j, i))
  {
    if forall j, i :: 0 <= j < |order| && 0 <= i < |order| ==> !Risky(all, order, j, i) {
      forall store, tcId, world ensures SafeRun(all, order, store, tcId, world) {
        SafeWithoutRisk(all, order, store, tcId, world);
      }
    } else {
      var j, i :| 0 <= j < |order| && 0 <= i < |order| && Risky(all, order, j, i);
      BareRun(all, order, EMPTY, order[j]);
      assert order[j] in order[..i];
      var k :| 0 <= k < i && order[k] == order[j];
      var attempts := RunChain(all, order, EMPTY, None, FailOnly(order[j])).attempts;
      assert attempts[k].report.execution == Failed && Edge(all, order[i], order[k]);
      assert !DependentsStop(all, order, attempts);
      assert !SafeRun(all, order, EMPTY, None, FailOnly(order[j]));
    }
  }

  // ----- a concrete run ---------------------------------------------------------------------------------------

  const BASE: Id := "base"
  const APP: Id := "app"

  /** `app` needs `base`, which provides a key and has a reclaim. */
  const TwoSetups: Specs := map[
    BASE := Spec([], ["key"], false, false, true, true, false),
    APP := Spec([BASE], [], false, false, true, false, false)]

  lemma {:induction false} TwoSetupsResolve(order: seq<Id>)
    requires IsResolution(TwoSetups, [APP], order)
    ensures order == [BASE, APP]
  {
    var ids := {BASE, APP};
    WantedReachable(TwoSetups, [APP], APP);
    assert Edge(TwoSetups, APP, BASE);
    NeedReachable(TwoSetups, [APP], APP, BASE);
    forall id | id in order ensures id in ids {
      ClosedHoldsReachable(TwoSetups, [APP], ids, id);
    }
    if |order| > 2 { Pigeonhole(order, ids); }
    var i :| 0 <= i < |order| && order[i] == APP;
    assert BASE in order[..i];
  }

  lemma {:induction false} TwoSetupsAcyclic(id: Id)
    ensures Reachable(TwoSetups, [APP], id) ==> id in TwoSetups
    ensures !ReachableCycle(TwoSetups, [APP])
  {
    if Reachable(TwoSetups, [APP], id) { ClosedHoldsReachable(TwoSetups, [APP], {BASE, APP}, id); }
    forall path ensures !IsCycle(TwoSetups, path) {
      if Walk(TwoSetups, path) {
        assert |path| >= 2 ==> Edge(TwoSetups, path[0], path[0 + 1]);
        assert |path| > 2 ==> Edge(TwoSetups, path[1], path[1 + 1]);
      }
    }
  }

  lemma {:induction false} TwoSetupsRun()
    ensures RunChain(TwoSetups, [BASE, APP], EMPTY, None, FailOnly(BASE)).attempts ==
            [Attempt(BASE, Report(Reclaimed, Failed)), Attempt(APP, Report(Ran, Succeeded))]
  {
    var base, app, w := TwoSetups[BASE], TwoSetups[APP], FailOnly(BASE);
    var key := base.provided[0];
    assert key in base.provided && !HasProvide(EMPTY, key, None);
    var first := Setup(base, EMPTY, None, w(BASE));
    assert first == Step(Report(Reclaimed, Failed), EMPTY);
    var second := Setup(app, EMPTY, None, w(APP));
    assert second.report == Report(Ran, Succeeded);
    assert [BASE, APP][1..] == [APP] && [APP][1..] == [];
    assert RunChain(TwoSetups, [], second.store, None, w).attempts == [];
    assert RunChain(TwoSetups, [APP], EMPTY, None, w).attempts == [Attempt(APP, second.report)];
  }

  /** So a dependent can run although its dependency's execution failed: the key of `base` is
      missing, its reclaim succeeds and its handler then fails. */
  method FailedDependencyDoesNotStopDependent(state: State) returns (r: Result<seq<Attempt>, ResolveError>)
    requires state.store == EMPTY
    modifies state
    ensures r == Ok([Attempt(BASE, Report(Reclaimed, Failed)), Attempt(APP, Report(Ran, Succeeded))])
  {
    ghost var order;
    r, order := RunRequiredSetups([APP], TwoSetups, state, None, FailOnly(BASE));
    forall id ensures Reachable(TwoSetups, [APP], id) ==> id in TwoSetups {
      TwoSetupsAcyclic(id);
    }
    TwoSetupsAcyclic(APP);
    TwoSetupsResolve(order);
    TwoSetupsRun();
  }
}
