/** From the text of a configuration to its result: an accepted node list gives a valid job,
    and every run of it, by whatever schedule, ends with each node in the state that the
    dependencies in the text give it. */
module LoadedWorkflow {
  import opened DependencyGraph
  import opened GraphLoading
  import opened SchedulerModel
  import opened SchedulerRuns
  import opened SchedulerOutcome
  import opened SchedulerProgress
  import opened SchedulerTermination
  import opened NodeExecution
  import opened ConfigFile
  import opened WorkflowEngineModel

  /** The acyclicity the scheduler's progress rests on is what `validateDAG` established. */
  lemma LoadedGraphIsRunnable(configs: seq<NodeConfig>, g: Graph, spec: map<NodeId, NodeSpec>, base: Metrics)
    requires LoadAnswer(configs, Loaded(g)) && configs != []
    requires forall n :: n in spec <==> n in Ids(configs)
    ensures ValidJob(Job(g, spec, base))
  {
    hide WellFormed, Acyclic, AllKnown, SameCounts;
  }

  lemma Extend(j: Job, before: State, t: seq<State>, s': State)
    requires IsRun(j, before, t) && Next(j, t[|t| - 1], s')
    ensures IsRun(j, before, t + [s'])
  {
    hide Next, ValidJob, Quiescent, StartRun;
  }

  lemma SomeStep(j: Job, before: State, t: seq<State>) returns (s': State)
    requires IsRun(j, before, t) && !Complete(t[|t| - 1])
    ensures Next(j, t[|t| - 1], s') && Shape(j, s')
  {
    var s := t[|t| - 1];
    assert Reachable(j, s);
    hide IsRun, Reachable;
    Progress(j, s);
    ReachableInv(j, s);
    hide Shape, RunInv, Complete, Enabled;
    var a :| Enabled(s, a);
    StepKeepsRunInv(j, s, a);
    s' := Step(j, s, a);
  }

  ghost predicate CompleteRun(j: Job, before: State, t: seq<State>) {
    IsRun(j, before, t) && Complete(t[|t| - 1])
  }

  /** Every run can be carried on to a complete one, and every way of carrying it on gets
      there, since each step lowers the measure and only complete states have no step. */
  lemma EveryRunCompletes(j: Job, before: State, t: seq<State>) returns (t': seq<State>)
    requires IsRun(j, before, t)
    ensures t <= t' && CompleteRun(j, before, t')
  {
    hide Next, Complete;
    ValidJobTables(j);
    t' := CarryOn(j, before, t);
  }

  lemma {:induction false} CarryOn(j: Job, before: State, t: seq<State>) returns (t': seq<State>)
    requires JobTables(j) && IsRun(j, before, t)
    ensures t <= t' && CompleteRun(j, before, t')
    decreases ScanBound(j) + |j.g.nodes| + 2 - |t|
  {
    hide Next, Complete, ScanBound, Shape, Measure;
    if Complete(t[|t| - 1]) {
      return t;
    }
    var s' := SomeStep(j, before, t);
    Extend(j, before, t, s');
    RunsAreBounded(j, before, t + [s']);
    t' := CarryOn(j, before, t + [s']);
  }

  ghost predicate NobodyEnabled(s: State) {
    forall a :: !Enabled(s, a)
  }

  /** A run that can go no further is complete, and shows the outcome of every node. */
  lemma StuckRunIsOver(j: Job, before: State, t: seq<State>)
    requires IsRun(j, before, t) && NobodyEnabled(t[|t| - 1])
    ensures Complete(t[|t| - 1])
    ensures t[|t| - 1].nodeState.Keys == j.spec.Keys
    ensures forall n :: n in j.spec ==> t[|t| - 1].nodeState[n] == Outcome(j, n)
  {
    var s := t[|t| - 1];
    assert Reachable(j, s);
    Progress(j, s);
    hide IsRun, Reachable, Outcome, Ending;
    Confluence(j, before, t);
  }

  // ------------------------------------------------------------ from the text to the states

  /** What the behaviour and the plugins make of each configured node. */
  type Behaviour = NodeId -> NodeSpec

  function JobOf(g: Graph, behaviour: Behaviour, base: Metrics): Job {
    Job(g, map n | n in g.nodes :: behaviour(n), base)
  }

  predicate SomeDepMissed(deps: seq<string>, states: map<NodeId, NodeState>) {
    exists k :: 0 <= k < |deps| && !(deps[k] in states && states[deps[k]].Success?)
  }

  ghost predicate OwnWork(spec: NodeSpec) {
    spec.creates && Succeeds(spec.body, spec.maxRetries)
  }

  /** The configured node is in the state its listed dependencies give it. */
  ghost predicate ShowsOne(r: NodeRecord, behaviour: Behaviour, states: map<NodeId, NodeState>) {
    && r.id in states
    && states[r.id] == (if SomeDepMissed(r.deps, states) then Cancelled
                        else if OwnWork(behaviour(r.id)) then Success
                        else Failed)
  }

  ghost predicate Shows(records: seq<NodeRecord>, behaviour: Behaviour, states: map<NodeId, NodeState>) {
    forall i :: 0 <= i < |records| ==> ShowsOne(records[i], behaviour, states)
  }

  ghost predicate NodeAtOutcome(j: Job, states: map<NodeId, NodeState>, n: NodeId)
    requires n in j.spec
  {
    n in states && states[n] == Outcome(j, n)
  }

  ghost predicate AtOutcome(j: Job, states: map<NodeId, NodeState>) {
    forall n :: n in j.spec ==> NodeAtOutcome(j, states, n)
  }

  lemma JobIsValid(records: seq<NodeRecord>, g: Graph, behaviour: Behaviour, base: Metrics)
    requires LoadAnswer(ConfigsOf(records), Loaded(g)) && records != []
    ensures ValidJob(JobOf(g, behaviour, base))
  {
    LoadedNodes(records, g);
    LoadedGraphIsRunnable(ConfigsOf(records), g, JobOf(g, behaviour, base).spec, base) by {
      hide LoadAnswer;
    }
  }

  lemma LoadedNodes(records: seq<NodeRecord>, g: Graph)
    requires LoadAnswer(ConfigsOf(records), Loaded(g))
    ensures WellFormed(g) && Acyclic(g) && g.nodes == Ids(ConfigsOf(records))
  {
    hide AllKnown, SameCounts, Acyclic, WellFormed;
  }

  /** The graph at the i-th record. */
  lemma LoadedAt(records: seq<NodeRecord>, g: Graph, i: nat)
    requires LoadAnswer(ConfigsOf(records), Loaded(g)) && i < |records|
    ensures records[i].id in g.nodes && records[i].id in g.deps && g.deps[records[i].id] == records[i].deps
  {
    hide AllKnown, SameCounts, Acyclic, WellFormed, Distinct;
    assert ConfigsOf(records)[i] == NodeConfig(records[i].id, records[i].deps);
    assert g.nodes[i] == records[i].id;
  }

  lemma NodesInTables(g: Graph)
    requires WellFormed(g)
    ensures forall n :: n in g.nodes <==> n in g.deps
    ensures forall n :: n in g.nodes <==> n in g.down
  {
  }

  /** The state of one configured node, given those of its dependencies. */
  lemma OutcomeOfRecord(records: seq<NodeRecord>, g: Graph, behaviour: Behaviour, base: Metrics, i: nat)
    requires LoadAnswer(ConfigsOf(records), Loaded(g)) && i < |records|
    ensures var j := JobOf(g, behaviour, base);
      && records[i].id in j.spec && records[i].id in g.deps && g.deps[records[i].id] == records[i].deps
      && (forall u :: u in records[i].deps ==> u in j.spec)
      && Outcome(j, records[i].id) ==
         if exists u :: u in records[i].deps && Outcome(j, u) != Success then Cancelled
         else if OwnWork(behaviour(records[i].id)) then Success else Failed
  {
    hide LoadAnswer, ValidJob, Outcome, WellFormed, Acyclic;
    var j := JobOf(g, behaviour, base);
    JobIsValid(records, g, behaviour, base);
    LoadedAt(records, g, i);
    OutcomeRecursion(j, records[i].id);
  }

  lemma MissedIff(j: Job, deps: seq<NodeId>, states: map<NodeId, NodeState>)
    requires forall u :: u in deps ==> u in j.spec && NodeAtOutcome(j, states, u)
    ensures SomeDepMissed(deps, states) <==> exists u :: u in deps && Outcome(j, u) != Success
  {
    hide Outcome;
    if SomeDepMissed(deps, states) {
      var k :| 0 <= k < |deps| && !(deps[k] in states && states[deps[k]].Success?);
      assert NodeAtOutcome(j, states, deps[k]);
    }
    if u :| u in deps && Outcome(j, u) != Success {
      var k :| 0 <= k < |deps| && deps[k] == u;
      assert NodeAtOutcome(j, states, u);
    }
  }

  lemma OneIff(records: seq<NodeRecord>, g: Graph, behaviour: Behaviour, base: Metrics,
               states: map<NodeId, NodeState>, i: nat)
    requires LoadAnswer(ConfigsOf(records), Loaded(g)) && i < |records|
    requires var j := JobOf(g, behaviour, base);
      forall u :: u in records[i].deps && u in j.spec ==> NodeAtOutcome(j, states, u)
    ensures var j := JobOf(g, behaviour, base);
      records[i].id in j.spec && (ShowsOne(records[i], behaviour, states) <==> NodeAtOutcome(j, states, records[i].id))
  {
    hide LoadAnswer, Outcome, OwnWork, SomeDepMissed;
    OutcomeOfRecord(records, g, behaviour, base, i);
    MissedIff(JobOf(g, behaviour, base), records[i].deps, states);
  }

  /** The dependency lists of the text determine the states: they are the outcomes. */
  lemma ShowsIff(records: seq<NodeRecord>, g: Graph, behaviour: Behaviour, base: Metrics,
                 states: map<NodeId, NodeState>)
    requires LoadAnswer(ConfigsOf(records), Loaded(g))
    ensures Shows(records, behaviour, states) <==> AtOutcome(JobOf(g, behaviour, base), states)
  {
    hide LoadAnswer, ShowsOne, NodeAtOutcome, WellFormed, Acyclic;
    var j := JobOf(g, behaviour, base);
    LoadedNodes(records, g);
    NodesInTables(g);
    if AtOutcome(j, states) {
      forall i | 0 <= i < |records| ensures ShowsOne(records[i], behaviour, states) {
        OneIff(records, g, behaviour, base, states, i);
      }
    }
    if Shows(records, behaviour, states) {
      var wrong := set n | n in j.spec && !NodeAtOutcome(j, states, n);
      if wrong != {} {
        var v := AcyclicHasSource(g, wrong);
        var i :| 0 <= i < |records| && Ids(ConfigsOf(records))[i] == v;
        LoadedAt(records, g, i);
        forall u | u in records[i].deps && u in j.spec ensures NodeAtOutcome(j, states, u) {
          assert Edge(g, u, v);
        }
        OneIff(records, g, behaviour, base, states, i);
        assert false;
      }
      forall n | n in j.spec ensures NodeAtOutcome(j, states, n) {
        assert n !in wrong;
      }
    }
  }

  /** A run of an accepted node list that can go no further is complete, and every node is
      in the state its listed dependencies give it. */
  lemma AcceptedRunShows(records: seq<NodeRecord>, g: Graph, behaviour: Behaviour, before: State, t: seq<State>)
    requires LoadAnswer(ConfigsOf(records), Loaded(g)) && records != []
    ensures var j := JobOf(g, behaviour, before.metrics);
      && ValidJob(j)
      && (Quiescent(j, before) ==> IsRun(j, before, [StartRun(j, before)]))
      && (IsRun(j, before, t) && NobodyEnabled(t[|t| - 1]) ==>
            Complete(t[|t| - 1]) && Shows(records, behaviour, t[|t| - 1].nodeState))
  {
    hide LoadAnswer, ValidJob, Next, Quiescent, NobodyEnabled, Complete, Shows, Outcome;
    var j := JobOf(g, behaviour, before.metrics);
    JobIsValid(records, g, behaviour, before.metrics);
    if IsRun(j, before, t) && NobodyEnabled(t[|t| - 1]) {
      StuckRunIsOver(j, before, t);
      ShowsIff(records, g, behaviour, before.metrics, t[|t| - 1].nodeState);
    }
  }

  function Tally(states: map<NodeId, NodeState>): Metrics {
    Metrics(|set n | n in states && states[n] == Success|,
            |set n | n in states && states[n] == Failed|,
            |set n | n in states && states[n] == Cancelled|)
  }

  lemma TallyIs(j: Job, states: map<NodeId, NodeState>)
    requires states.Keys == j.spec.Keys && AtOutcome(j, states)
    ensures Tally(states) == Metrics(|Ending(j, Success)|, |Ending(j, Failed)|, |Ending(j, Cancelled)|)
  {
    hide Outcome;
    assert forall n :: n in j.spec ==> NodeAtOutcome(j, states, n);
    assert (set n | n in states && states[n] == Success) == Ending(j, Success);
    assert (set n | n in states && states[n] == Failed) == Ending(j, Failed);
    assert (set n | n in states && states[n] == Cancelled) == Ending(j, Cancelled);
  }

  /** One run of a loaded graph. */
  method RunGraph(g: Graph, behaviour: Behaviour, schedule: seq<seq<Actor>>)
    returns (states: map<NodeId, NodeState>, metrics: Metrics)
    requires WellFormed(g) && Acyclic(g) && g.nodes != []
    ensures AtOutcome(JobOf(g, behaviour, Metrics(0, 0, 0)), states)
    ensures metrics == Tally(states)
    ensures states.Keys == g.down.Keys
  {
    hide WellFormed, Acyclic, Outcome, Ending, Tally;
    var j := JobOf(g, behaviour, Metrics(0, 0, 0));
    NodesInTables(g);
    var engine := new WorkflowEngine(g, j.spec, schedule);
    RunToEnd(engine);
    states, metrics := engine.nodeState, engine.metrics;
    TallyIs(j, states);
  }

  /** Load, run and wait: from the text to the final states, whatever the schedule. */
  method LoadAndRun(text: string, behaviour: Behaviour, schedule: seq<seq<Actor>>)
    returns (o: LoadOutcome, states: map<NodeId, NodeState>, metrics: Metrics)
    ensures match LoadText(text)
      case Rejected(e) => o == ConfigRejected(e)
      case Nodes(records) => o.Built? && o.records == records && LoadAnswer(ConfigsOf(records), o.graph)
    ensures o.Built? && o.graph.Loaded? ==> Shows(o.records, behaviour, states) && metrics == Tally(states)
  {
    hide LoadText, LoadAnswer, ShowsOne, Tally, WellFormed, Acyclic, AtOutcome;
    o := LoadConfig(text);
    states := map[];
    metrics := Tally(states);
    if o.Built? && o.graph.Loaded? && o.records != [] {
      LoadedNodes(o.records, o.graph.g);
      states, metrics := RunGraph(o.graph.g, behaviour, schedule);
      ShowsIff(o.records, o.graph.g, behaviour, Metrics(0, 0, 0), states);
    }
  }
}
