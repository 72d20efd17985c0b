/**
 Several scans at once (internal/engine/runner.go, Scan): the gate lets one scan of a source in at a time;
 between its steps other sources' scans, failures and purges come in any order.
 */
module Scans {
  import opened Results
  import opened Store
  import opened Resolve
  import Hosts
  import Services
  import Ports
  import Engine
  import Pipeline

  /** How far a scan is: past the gate, its proxies row written, its routes settled, its snapshot applied. */
  datatype Stage = Entered | Placed | Settled(snapshot: Engine.Snapshot) | Landed

  datatype Job = Job(connector: int, report: Pipeline.Report, stage: Stage)

  /** The store, the connectors in `running`, and each caller's scan. */
  datatype State = State(world: Pipeline.World, running: set<int>, jobs: map<int, Job>)

  /** What one caller does next, a caller's scan dying wherever it is, or a purge. */
  datatype Event =
    | Enter(caller: int, connector: int, report: Pipeline.Report)
    | Place(caller: int)
    | Settle(caller: int)
    | Land(caller: int, run: int, now: int)
    | Reconcile(caller: int)
    | Fail(caller: int)
    | Purge(cutoff: int)

  // ---------------------------------------------------------------------------
  // The steps

  predicate At(st: State, caller: int, stage: Stage) {
    caller in st.jobs && st.jobs[caller].stage == stage
  }

  function Moved(st: State, caller: int, world: Pipeline.World, stage: Stage): State
    requires caller in st.jobs
  {
    State(world, st.running, st.jobs[caller := st.jobs[caller].(stage := stage)])
  }

  /** However a scan ends, it gives its place in `running` back. */
  function Left(st: State, caller: int, world: Pipeline.World): State
    requires caller in st.jobs
  {
    State(world, st.running - {st.jobs[caller].connector}, st.jobs - {caller})
  }

  function EnterStep(st: State, caller: int, connector: int, report: Pipeline.Report): State {
    if caller in st.jobs || connector in st.running then st
    else State(st.world, st.running + {connector}, st.jobs[caller := Job(connector, report, Entered)])
  }

  ghost function PlaceStep(nm: Names, st: State, caller: int): State {
    if !At(st, caller, Entered) then st
    else
      var j := st.jobs[caller];
      Moved(st, caller, Pipeline.WithProxy(nm, st.world, j.connector, j.report.hostname), Placed)
  }

  ghost function SettleStep(nm: Names, st: State, caller: int): State
    requires Unique(st.world.db.hosts)
  {
    if !At(st, caller, Placed) then st
    else
      var j := st.jobs[caller];
      Moved(st, caller, st.world, Settled(Pipeline.Prepared(nm, st.world, Pipeline.ProxyOf(j.connector, j.report), j.report.snapshot)))
  }

  ghost function LandStep(order: RowOrder, st: State, caller: int, run: int, now: int): State
    requires Lists(order)
  {
    if caller !in st.jobs || !st.jobs[caller].stage.Settled? then st
    else
      var j, scan := st.jobs[caller], Scan(st.jobs[caller].connector, run, now);
      match Engine.Apply(order, st.world.db, scan, j.stage.snapshot)
      case Err(_) => Left(st, caller, st.world)
      case Ok(db) =>
        var ids := Engine.ServicesOf(order, st.world.db, scan, j.stage.snapshot).ids;
        Moved(st, caller, Pipeline.World(db, Pipeline.WithNetworks(st.world.networks, ids, j.report.networks), st.world.proxies), Landed)
  }

  ghost function ReconcileStep(nm: Names, st: State, caller: int): State
    requires Unique(st.world.db.hosts)
  {
    if !At(st, caller, Landed) then st else Left(st, caller, Pipeline.Reconciled(nm, st.world))
  }

  function FailStep(st: State, caller: int): State {
    if caller !in st.jobs then st else Left(st, caller, st.world)
  }

  ghost function Step(nm: Names, order: RowOrder, st: State, e: Event): State
    requires Lists(order) && Unique(st.world.db.hosts)
  {
    match e
    case Enter(caller, connector, report) => EnterStep(st, caller, connector, report)
    case Place(caller) => PlaceStep(nm, st, caller)
    case Settle(caller) => SettleStep(nm, st, caller)
    case Land(caller, run, now) => LandStep(order, st, caller, run, now)
    case Reconcile(caller) => ReconcileStep(nm, st, caller)
    case Fail(caller) => FailStep(st, caller)
    case Purge(cutoff) => st.(world := Pipeline.PurgedWorld(st.world, cutoff))
  }

  // ---------------------------------------------------------------------------
  // Safety

  /** `running` is exactly the connectors being scanned, each by one caller. */
  ghost predicate Exclusive(running: set<int>, jobs: map<int, Job>) {
    && (forall t <- jobs :: jobs[t].connector in running)
    && (forall c <- running :: exists t :: t in jobs && jobs[t].connector == c)
    && (forall t, u | t in jobs && u in jobs && jobs[t].connector == jobs[u].connector :: t == u)
  }

  ghost predicate Sound(j: Job) {
    Engine.WellFormed(j.report.snapshot) && (j.stage.Settled? ==> Engine.WellFormed(j.stage.snapshot))
  }

  ghost predicate Safe(st: State) {
    && Engine.Valid(st.world.db)
    && Exclusive(st.running, st.jobs)
    && forall t <- st.jobs :: Sound(st.jobs[t])
  }

  lemma SafeIsUnique(st: State)
    requires Safe(st)
    ensures Unique(st.world.db.hosts)
  {
  }

  lemma MovedIsSafe(st: State, caller: int, world: Pipeline.World, stage: Stage)
    requires Safe(st) && caller in st.jobs && Engine.Valid(world.db) && (stage.Settled? ==> Engine.WellFormed(stage.snapshot))
    ensures Safe(Moved(st, caller, world, stage))
  {
    hide Engine.Valid, Engine.WellFormed;
    var jobs := st.jobs[caller := st.jobs[caller].(stage := stage)];
    forall c <- st.running ensures exists t :: t in jobs && jobs[t].connector == c {
      var t :| t in st.jobs && st.jobs[t].connector == c;
      assert jobs[t].connector == c;
    }
  }

  lemma LeftIsSafe(st: State, caller: int, world: Pipeline.World)
    requires Safe(st) && caller in st.jobs && Engine.Valid(world.db)
    ensures Safe(Left(st, caller, world))
  {
    hide Engine.Valid, Engine.WellFormed;
    var jobs := st.jobs - {caller};
    forall c | c in st.running && c != st.jobs[caller].connector ensures exists t :: t in jobs && jobs[t].connector == c {
      var t :| t in st.jobs && st.jobs[t].connector == c;
      assert t in jobs;
    }
  }

  lemma EnterIsSafe(st: State, caller: int, connector: int, report: Pipeline.Report)
    requires Safe(st) && Engine.WellFormed(report.snapshot)
    ensures Safe(EnterStep(st, caller, connector, report))
  {
    hide Engine.Valid, Engine.WellFormed;
    if caller !in st.jobs && connector !in st.running {
      var next := EnterStep(st, caller, connector, report);
      forall c <- next.running ensures exists t :: t in next.jobs && next.jobs[t].connector == c {
        if c == connector {
          assert next.jobs[caller].connector == c;
        } else {
          var t :| t in st.jobs && st.jobs[t].connector == c;
          assert next.jobs[t].connector == c;
        }
      }
    }
  }

  lemma LandIsSafe(order: RowOrder, st: State, caller: int, run: int, now: int)
    requires Lists(order) && Safe(st)
    ensures Safe(LandStep(order, st, caller, run, now))
  {
    hide Engine.Valid, Engine.WellFormed, Engine.Apply, Exclusive;
    if caller in st.jobs && st.jobs[caller].stage.Settled? {
      var j, scan, next := st.jobs[caller], Scan(st.jobs[caller].connector, run, now), LandStep(order, st, caller, run, now);
      assert Sound(j);
      if Engine.Apply(order, st.world.db, scan, j.stage.snapshot).Ok? {
        Engine.ScanKeepsValid(order, st.world.db, scan, j.stage.snapshot);
        MovedIsSafe(st, caller, next.world, Landed);
      } else {
        LeftIsSafe(st, caller, st.world);
      }
    }
  }

  lemma StepIsSafe(nm: Names, order: RowOrder, st: State, e: Event)
    requires Lists(order) && Safe(st) && (e.Enter? ==> Engine.WellFormed(e.report.snapshot))
    requires Unique(st.world.db.hosts)
    ensures Safe(Step(nm, order, st, e))
  {
    hide Engine.Valid, Engine.WellFormed, Pipeline.Prepared, Pipeline.Reconciled, LandStep, EnterStep, Exclusive, Unique;
    match e
    case Enter(caller, connector, report) => EnterIsSafe(st, caller, connector, report);
    case Place(caller) =>
      if At(st, caller, Entered) {
        var j := st.jobs[caller];
        MovedIsSafe(st, caller, Pipeline.WithProxy(nm, st.world, j.connector, j.report.hostname), Placed);
      }
    case Settle(caller) =>
      if At(st, caller, Placed) {
        var j := st.jobs[caller];
        var proxy := Pipeline.ProxyOf(j.connector, j.report);
        assert Sound(j);
        Pipeline.PreparedWellFormed(nm, st.world, proxy, j.report.snapshot);
        MovedIsSafe(st, caller, st.world, Settled(Pipeline.Prepared(nm, st.world, proxy, j.report.snapshot)));
      }
    case Land(caller, run, now) => LandIsSafe(order, st, caller, run, now);
    case Reconcile(caller) =>
      if At(st, caller, Landed) {
        Pipeline.ReconcileKeepsValid(nm, st.world);
        LeftIsSafe(st, caller, Pipeline.Reconciled(nm, st.world));
      }
    case Fail(caller) =>
      if caller in st.jobs {
        LeftIsSafe(st, caller, st.world);
      }
    case Purge(cutoff) => Engine.PurgeKeepsValid(st.world.db, cutoff);
  }

  /** The reports are what connectors promise. */
  ghost predicate Honest(es: seq<Event>) {
    forall i | 0 <= i < |es| :: es[i].Enter? ==> Engine.WellFormed(es[i].report.snapshot)
  }

  lemma HonestPrefix(es: seq<Event>)
    requires Honest(es) && |es| > 0
    ensures Honest(es[..|es| - 1]) && (es[|es| - 1].Enter? ==> Engine.WellFormed(es[|es| - 1].report.snapshot))
  {
    hide Engine.WellFormed;
  }

  ghost function Run(nm: Names, order: RowOrder, st: State, es: seq<Event>): (out: State)
    requires Lists(order) && Safe(st) && Honest(es)
    ensures Safe(out)
  {
    hide Safe, Honest, Step, Unique;
    if |es| == 0 then st
    else
      HonestPrefix(es);
      var before := Run(nm, order, st, es[..|es| - 1]);
      SafeIsUnique(before);
      StepIsSafe(nm, order, before, es[|es| - 1]);
      Step(nm, order, before, es[|es| - 1])
  }

  ghost function Start(): (st: State)
    ensures Safe(st)
  {
    State(Pipeline.NewWorld(), {}, map[])
  }

  /**
   However scans, failures and purges interleave: the store stays valid, no source is ever scanned by two
   callers at once, and a source is refused exactly while a scan of it is under way.
   */
  lemma EveryInterleavingIsSafe(nm: Names, order: RowOrder, es: seq<Event>, caller: int, connector: int, report: Pipeline.Report)
    requires Lists(order) && Honest(es)
    ensures
      var st := Run(nm, order, Start(), es);
      && Engine.Valid(st.world.db)
      && (forall t, u | t in st.jobs && u in st.jobs && st.jobs[t].connector == st.jobs[u].connector :: t == u)
      && (caller !in st.jobs ==>
            (EnterStep(st, caller, connector, report) == st <==> exists t :: t in st.jobs && st.jobs[t].connector == connector))
  {
    hide Run, Engine.Valid, Sound;
    var st := Run(nm, order, Start(), es);
    if caller !in st.jobs && connector !in st.running {
      assert caller in EnterStep(st, caller, connector, report).jobs;
    }
  }

  // ---------------------------------------------------------------------------
  // What a scan can rely on while it is under way

  ghost predicate SameOwn<D>(a: map<int, Row<D>>, b: map<int, Row<D>>, connector: int) {
    && (forall id <- a :: a[id].connector == connector ==> id in b && b[id] == a[id])
    && (forall id <- b :: b[id].connector == connector ==> id in a && b[id] == a[id])
  }

  ghost predicate SameOwnPorts(a: Ports.Rows, b: Ports.Rows, connector: int) {
    && (forall id <- a :: a[id].connector == connector ==> id in b && b[id] == a[id])
    && (forall id <- b :: b[id].connector == connector ==> id in a && b[id] == a[id])
  }

  /** The connector's hosts, services, ports, certificates and domains are as they were. */
  ghost predicate OwnKept(a: Engine.Db, b: Engine.Db, connector: int) {
    && SameOwn(a.hosts, b.hosts, connector) && SameOwn(a.services, b.services, connector)
    && SameOwnPorts(a.ports, b.ports, connector)
    && SameOwn(a.certs, b.certs, connector) && SameOwn(a.domains, b.domains, connector)
  }

  lemma OthersAreOwn<D>(a: map<int, Row<D>>, b: map<int, Row<D>>, scanned: int, connector: int)
    requires Engine.OthersKept(a, b, scanned) && connector != scanned
    ensures SameOwn(a, b, connector)
  {
  }

  predicate By(e: Event, caller: int) {
    !e.Purge? && e.caller == caller
  }

  lemma LandKeepsOwn(order: RowOrder, st: State, caller: int, run: int, now: int, t: int)
    requires Lists(order) && Safe(st) && t in st.jobs && t != caller
    ensures OwnKept(st.world.db, LandStep(order, st, caller, run, now).world.db, st.jobs[t].connector)
  {
    hide Engine.Valid, Engine.WellFormed, Engine.Apply, Engine.OthersKept, SameOwn;
    var c, next := st.jobs[t].connector, LandStep(order, st, caller, run, now);
    if next.world != st.world {
      var j, scan := st.jobs[caller], Scan(st.jobs[caller].connector, run, now);
      assert Sound(j);
      Engine.ScanKeepsOthers(order, st.world.db, scan, j.stage.snapshot);
      var a, b := st.world.db, next.world.db;
      OthersAreOwn(a.hosts, b.hosts, j.connector, c);
      OthersAreOwn(a.services, b.services, j.connector, c);
      OthersAreOwn(a.certs, b.certs, j.connector, c);
      OthersAreOwn(a.domains, b.domains, j.connector, c);
    } else {
      KeptAsIs(st.world.db, c);
    }
  }

  lemma KeptAsIs(db: Engine.Db, connector: int)
    ensures OwnKept(db, db, connector)
  {
  }

  lemma OthersStepKeepsOwn(nm: Names, order: RowOrder, st: State, e: Event, t: int)
    requires Lists(order) && Safe(st) && Unique(st.world.db.hosts) && t in st.jobs && !By(e, t) && !e.Purge?
    ensures
      var next := Step(nm, order, st, e);
      t in next.jobs && next.jobs[t] == st.jobs[t] && OwnKept(st.world.db, next.world.db, st.jobs[t].connector)
  {
    hide Engine.Valid, Engine.WellFormed, Engine.Apply, Pipeline.Prepared, Pipeline.Reconciled, OwnKept, Safe, Unique;
    KeptAsIs(st.world.db, st.jobs[t].connector);
    match e
    case Land(caller, run, now) => LandKeepsOwn(order, st, caller, run, now, t);
    case Reconcile(caller) =>
      Pipeline.ReconciledOnlyRoutes(nm, st.world);
      ReconcileKeepsOwn(nm, st.world, st.jobs[t].connector);
    case _ =>
  }

  lemma ReconcileKeepsOwn(nm: Names, w: Pipeline.World, connector: int)
    requires Unique(w.db.hosts)
    ensures OwnKept(w.db, Pipeline.Reconciled(nm, w).db, connector)
  {
    hide Pipeline.Rejudged;
  }

  lemma OwnKeptOn(a: Engine.Db, b: Engine.Db, c: Engine.Db, connector: int)
    requires OwnKept(a, b, connector) && OwnKept(b, c, connector)
    ensures OwnKept(a, c, connector)
  {
  }

  /**
   While a scan is under way, nobody else touches what is stored of its source: whatever other sources'
   scans do in the meantime, it is applied to the rows it began with.
   */
  lemma {:induction false} OwnRowsStand(nm: Names, order: RowOrder, st: State, es: seq<Event>, t: int)
    requires Lists(order) && Safe(st) && Honest(es) && t in st.jobs
    requires forall i | 0 <= i < |es| :: !By(es[i], t) && !es[i].Purge?
    ensures
      var out := Run(nm, order, st, es);
      t in out.jobs && out.jobs[t] == st.jobs[t] && OwnKept(st.world.db, out.world.db, st.jobs[t].connector)
  {
    hide Safe, Step, OwnKept, Unique, Honest;
    if |es| == 0 {
      KeptAsIs(st.world.db, st.jobs[t].connector);
    } else {
      HonestPrefix(es);
      var mid, e := Run(nm, order, st, es[..|es| - 1]), es[|es| - 1];
      OwnRowsStand(nm, order, st, es[..|es| - 1], t);
      SafeIsUnique(mid);
      OthersStepKeepsOwn(nm, order, mid, e, t);
      OwnKeptOn(st.world.db, mid.world.db, Step(nm, order, mid, e).world.db, st.jobs[t].connector);
    }
  }

  // ---------------------------------------------------------------------------
  // A scan left alone, and the end of any scan

  /** A caller past the gate, its routes settled, with nobody else in between. */
  ghost function Ready(nm: Names, st: State, caller: int, report: Pipeline.Report, connector: int): State
    requires Unique(st.world.db.hosts)
  {
    SettleStep(nm, PlaceStep(nm, EnterStep(st, caller, connector, report), caller), caller)
  }

  lemma AloneIsReady(nm: Names, order: RowOrder, st: State, caller: int, report: Pipeline.Report, connector: int)
    requires Lists(order) && Safe(st) && Engine.WellFormed(report.snapshot) && Unique(st.world.db.hosts)
    requires caller !in st.jobs && connector !in st.running
    ensures
      var w0 := Pipeline.WithProxy(nm, st.world, connector, report.hostname);
      var s := Pipeline.Prepared(nm, w0, Pipeline.ProxyOf(connector, report), report.snapshot);
      Ready(nm, st, caller, report, connector)
      == State(w0, st.running + {connector}, st.jobs[caller := Job(connector, report, Settled(s))])
    ensures Safe(Ready(nm, st, caller, report, connector))
  {
    hide Engine.Valid, Engine.WellFormed, Pipeline.Prepared, Pipeline.WithProxy, Unique, Exclusive, Safe;
    var st0 := EnterStep(st, caller, connector, report);
    var st1 := PlaceStep(nm, st0, caller);
    EnterIsSafe(st, caller, connector, report);
    StepIsSafe(nm, order, st0, Place(caller));
    SafeIsUnique(st1);
    StepIsSafe(nm, order, st1, Settle(caller));
  }

  /** With nobody in between, the steps are `Pipeline.ScanOnce`, and the gate is as it was. */
  lemma AloneIsScanOnce(nm: Names, order: RowOrder, st: State, caller: int, report: Pipeline.Report, scan: Scan)
    requires Lists(order) && Safe(st) && Engine.WellFormed(report.snapshot) && Unique(st.world.db.hosts)
    requires caller !in st.jobs && scan.connector !in st.running
    ensures
      var landed := LandStep(order, Ready(nm, st, caller, report, scan.connector), caller, scan.run, scan.now);
      Unique(landed.world.db.hosts) &&
      ReconcileStep(nm, landed, caller) == State(
        match Pipeline.ScanOnce(nm, order, st.world, scan, report)
        case Ok(w) => w
        case Err(_) => Pipeline.WithProxy(nm, st.world, scan.connector, report.hostname),
        st.running, st.jobs)
  {
    hide Engine.Valid, Engine.WellFormed, Engine.Apply, Pipeline.Prepared, Pipeline.Reconciled, Pipeline.WithProxy,
      Pipeline.WithNetworks, Unique, Exclusive, Safe, Ready;
    var c, st2 := scan.connector, Ready(nm, st, caller, report, scan.connector);
    AloneIsReady(nm, order, st, caller, report, c);
    WithProxyKeeps(nm, st.world, c, report.hostname);
    LandIsSafe(order, st2, caller, scan.run, scan.now);
    var landed := LandStep(order, st2, caller, scan.run, scan.now);
    SafeIsUnique(landed);
    var j := st2.jobs[caller];
    LeavesAsFound(st.running, st.jobs, caller, c, j, j.(stage := Landed));
  }

  lemma WithProxyKeeps(nm: Names, w: Pipeline.World, connector: int, hostname: Option<string>)
    ensures Pipeline.WithProxy(nm, w, connector, hostname).db == w.db && Pipeline.WithProxy(nm, w, connector, hostname).networks == w.networks
  {
    hide Pipeline.ProxyHost;
  }

  lemma LeavesAsFound(running: set<int>, jobs: map<int, Job>, caller: int, connector: int, j: Job, k: Job)
    requires caller !in jobs && connector !in running
    ensures running + {connector} - {connector} == running
    ensures jobs[caller := j] - {caller} == jobs && jobs[caller := j][caller := k] - {caller} == jobs
  {
  }

  /** Right after any scan's last step every stored route is as settling it now would leave it. */
  lemma ReconcileLeavesSettled(nm: Names, order: RowOrder, st: State, caller: int)
    requires Lists(order) && Safe(st) && Unique(st.world.db.hosts) && At(st, caller, Landed)
    ensures
      var next := ReconcileStep(nm, st, caller);
      Unique(next.world.db.hosts) && Pipeline.Reconciled(nm, next.world) == next.world
  {
    hide Engine.Valid, Unique, Pipeline.Reconciled;
    Pipeline.ReconciledOnlyRoutes(nm, st.world);
    Pipeline.ReconcileTwice(nm, st.world);
  }
}
