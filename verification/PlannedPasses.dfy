/** Planning and carrying out, end to end: what two passes of the data-sources operand leave of the crons. */
module PlannedPasses {
  import opened Kube
  import opened ApiServer
  import opened UpdateFuncs
  import opened Engine
  import opened Convergence
  import Runs = CacheSoundness
  import opened Ssp
  import opened CronPlan
  import opened DataSourcePlan
  import opened HandOverDecision
  import opened ManagerExclusivity
  import opened DataSourceOperand
  import opened GarbageCollection
  import opened StickyHandOver
  import opened CronNames

  function SourceLabels(sspLabels: StringMap): StringMap {
    AppLabels(sspLabels, "data-sources", "templating")
  }

  /** Nothing is said about what builder calls ask for. */
  function NoCatalog(): Runs.Catalog {
    (_: SspSpec) => map[]
  }

  /** What planning asks of a cluster. */
  ghost predicate Plannable(inp: Input) {
    && WellFormedInput(inp)
    && (IsMultiArch(inp.spec) ==> NonColliding(inp.sources, inp.archs))
    && Typed(inp.server)
    && SurvivorsApart(inp)
  }

  lemma NextWorkIsWellFormed(inp: Input, s: Server, next: Work, owner: Owner, app: StringMap)
    requires Plannable(inp) && CRON_LABEL !in app
    requires Planned(inp.(server := s)) == Planned(inp) && Enumerates(inp.(server := s), next, owner)
    ensures WellFormedWork(s, next, owner, app)
  {
    InfosAreWorkable(inp, app);
    PlanIsExclusive(inp);
    OwnNamesIff(inp);
    ListedWorkIsWellFormed(Planned(inp), s, next, owner, app);
  }

  lemma ListedWorkIsWellFormed(plan: Plan, s: Server, next: Work, owner: Owner, app: StringMap)
    requires forall x <- plan.infos :: SourceInfo(x, app) && x.source.key == SourceKey(x.source.key.name)
    requires DistinctNames(plan.infos) && OwnNames(plan.crons) && KeyedByManaged(plan.crons)
    requires Lists(plan, s, next, owner)
    ensures WellFormedWork(s, next, owner, app)
  {
    DistinctIff(plan.crons, next.crons);
    WorkDependsOnCrons(s, next, owner, app);
  }

  /** The plan has a cron of this key that is not in its own way. */
  ghost predicate IsAttainable(inp: Input, c: Cache, key: Key)
    requires Plannable(inp)
  {
    var crons := Planned(inp).crons;
    exists k <- crons :: crons[k].key == key && !Obstructed(State(inp.server, c), crons[k])
  }

  lemma AttainableIsPlanned(st: State, crons: CronMap, listed: seq<Cron>, key: Key)
    requires forall c :: c in listed <==> exists k <- crons :: crons[k] == c
    ensures Attainable(st, listed, key) <==> exists k <- crons :: crons[k].key == key && !Obstructed(st, crons[k])
  {
    if Attainable(st, listed, key) {
      var c :| c in listed && c.key == key && !Obstructed(st, c);
      var k :| k in crons && crons[k] == c;
      assert crons[k].key == key;
    }
    if k :| k in crons && crons[k].key == key && !Obstructed(st, crons[k]) { assert crons[k] in listed; }
  }

  /** From a state whose cache entries were made from stored objects. */
  lemma TwoPlannedPasses(inp: Input, c: Cache, first: Work, second: Work, owner: Owner, app: StringMap, key: Key)
    requires Plannable(inp) && Consistent(inp.server) && CRON_LABEL !in app
    requires forall b: Builder :: RealEntry(c, b)
    requires Enumerates(inp, first, owner)
    requires Enumerates(inp.(server := After(State(inp.server, c), first, owner, app).server), second, owner)
    ensures var mid := After(State(inp.server, c), first, owner, app);
            var after := After(mid, second, owner, app).server;
            key in OwnedCrons(after, owner) && Live(after, key) <==> IsAttainable(inp, c, key)
  {
    var st := State(inp.server, c);
    var mid := After(st, first, owner, app);
    PlannedWorkIsWellFormedIff(inp, first, owner, app);
    QuietPassReplansTheSame(inp, c, first, owner, app);
    NextWorkIsWellFormed(inp, mid.server, second, owner, app);
    OwnedCronsAreExactAfterTwoPasses(st, first, second, owner, app, key);
    AttainableIsPlanned(st, Planned(inp).crons, first.crons, key);
  }

  /**
   After every run of passes, client writes, SSP edits, restarts, stale reads and failed calls:
   two quiet passes, each planned from what it finds, leave as owned live crons exactly those of the plan
   that neither were on their way out nor had to be replaced while held by a finalizer.
   */
  lemma OwnedCronsAreThePlannedOnes(
    inp: Input, events: seq<Runs.Event>, first: Work, second: Work, owner: Owner, sspLabels: StringMap, key: Key)
    requires Runs.LegalRun(NoCatalog(), Runs.START, events)
    requires Plannable(inp) && inp.server == Runs.Run(Runs.START, events).server
    requires Enumerates(inp, first, owner)
    requires var st := State(inp.server, Runs.Run(Runs.START, events).cache);
             Enumerates(inp.(server := After(st, first, owner, SourceLabels(sspLabels)).server), second, owner)
    ensures var app := SourceLabels(sspLabels);
            var mid := After(State(inp.server, Runs.Run(Runs.START, events).cache), first, owner, app);
            var after := After(mid, second, owner, app).server;
            key in OwnedCrons(after, owner) && Live(after, key) <==>
              IsAttainable(inp, Runs.Run(Runs.START, events).cache, key)
  {
    var sys := Runs.Run(Runs.START, events);
    Runs.RunKeepsSound(NoCatalog(), Runs.START, events);
    forall b: Builder ensures RealEntry(sys.cache, b) { SoundIsReal(NoCatalog(), sys, b); }
    AppLabelsLeaveCronLabel(sspLabels, "data-sources", "templating");
    TwoPlannedPasses(inp, sys.cache, first, second, owner, SourceLabels(sspLabels), key);
  }
}
