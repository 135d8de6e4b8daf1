/** The supervisor's restart protocol: instances with epochs, the monitor loop and its backoff
    window, manual starts, stops and restarts. */
module Supervisor {
  import opened Collections

  type Id = nat
  type Epoch = nat

  datatype Policy = Never | Always | OnFailure
  datatype Config = Config(policy: Policy, maxRestarts: nat)

  datatype Entry = Entry(config: Config, restarts: nat, epoch: Epoch)
  datatype Exit = Exit(id: Id, epoch: Epoch, success: bool)

  /** The monitor is waiting for an exit, or sleeping before it restarts the instance `epoch`. */
  datatype Monitor =
    | Waiting
    | Backoff(id: Id, config: Config, restarts: nat, epoch: Epoch)

  datatype State = State(
    entries: map<Id, Entry>,
    forced: set<Id>,
    stoppedCounts: map<Id, nat>,
    stoppedEpochs: map<Id, Epoch>,
    nextEpoch: Epoch,
    exits: seq<Exit>,
    monitor: Monitor
  )

  // --- handlers ---

  predicate Running(s: State, id: Id) {
    id in s.entries
  }

  /** A new instance under a fresh epoch; a failed spawn uses the epoch up and leaves no entry. */
  function Spawned(s: State, id: Id, config: Config, restarts: nat, ok: bool): State {
    var t := s.(nextEpoch := s.nextEpoch + 1);
    if ok then t.(entries := s.entries[id := Entry(config, restarts, s.nextEpoch + 1)]) else t
  }

  function Started(s: State, id: Id, config: Config, ok: bool): State {
    if Running(s, id) then s else Spawned(s, id, config, 0, ok)
  }

  function Stopped(s: State, id: Id): State {
    if !Running(s, id) then s
    else s.(entries := s.entries - {id}, forced := s.forced - {id},
            stoppedEpochs := s.stoppedEpochs[id := s.entries[id].epoch])
  }

  function Restarted(s: State, id: Id): State {
    if !Running(s, id) then s else s.(forced := s.forced + {id})
  }

  predicate IsStopped(s: State, id: Id, epoch: Epoch) {
    id in s.stoppedEpochs && s.stoppedEpochs[id] == epoch
  }

  /** The exit is of the registered instance, and nobody stopped it. */
  predicate Actionable(s: State, e: Exit) {
    Running(s, e.id) && s.entries[e.id].epoch == e.epoch && !IsStopped(s, e.id, e.epoch)
  }

  predicate PolicyAllows(entry: Entry, success: bool) {
    match entry.config.policy
    case Never => false
    case Always => entry.restarts < entry.config.maxRestarts
    case OnFailure => !success && entry.restarts < entry.config.maxRestarts
  }

  function GivenUp(s: State, id: Id): State
    requires Running(s, id)
  {
    s.(entries := s.entries - {id}, stoppedCounts := s.stoppedCounts[id := s.entries[id].restarts])
  }

  function SleepBefore(s: State, e: Exit): State
    requires Running(s, e.id)
  {
    var entry := s.entries[e.id];
    s.(monitor := Backoff(e.id, entry.config, entry.restarts + 1, e.epoch))
  }

  /** The monitor takes the next exit. A pending manual restart is used up by any exit of its id. */
  function Taken(s: State): State
    requires s.exits != []
  {
    var e := s.exits[0];
    var t := s.(exits := s.exits[1..], forced := s.forced - {e.id});
    if !Actionable(s, e) then t
    else if e.id in s.forced || PolicyAllows(s.entries[e.id], e.success) then SleepBefore(t, e)
    else GivenUp(t, e.id)
  }

  /** The backoff is over: the restart goes ahead unless this instance was the last one stopped. */
  function Woken(s: State, ok: bool): State
    requires s.monitor.Backoff?
  {
    var m := s.monitor;
    var t := s.(monitor := Waiting);
    if IsStopped(s, m.id, m.epoch) then t else Spawned(t, m.id, m.config, m.restarts, ok)
  }

  // --- runs ---

  datatype Event =
    | Start(id: Id, config: Config, ok: bool)
    | Stop(id: Id)
    | Restart(id: Id)
    | Die(exit: Exit)      // an instance's exit is reported
    | Take
    | Wake(ok: bool)

  /** An exit, and the entry it found. */
  datatype Cause = Cause(exit: Exit, entry: Entry)

  /** Beside the supervisor: what has happened since the last manual start of each plugin, and
      since the current backoff began. */
  datatype Story = Story(
    byPolicy: map<Id, nat>,   // restarts the policy decided and that took place
    limits: map<Id, nat>,     // the restarts its configuration allows
    halted: set<Id>,          // explicitly stopped
    stops: nat,               // stops of the sleeping restart's plugin inside the window
    policyDecided: bool,      // ... and whether the policy decided that restart
    cause: Option<Cause>,     // ... and what it answers
    answered: seq<Cause>      // what the policy's restarts have answered
  )

  datatype World = World(s: State, story: Story)

  predicate Enabled(w: World, e: Event) {
    match e
    case Take => w.s.monitor.Waiting? && w.s.exits != []
    case Wake(_) => w.s.monitor.Backoff?
    case Die(exit) => exit.epoch <= w.s.nextEpoch
    case _ => true
  }

  function Count(byPolicy: map<Id, nat>, id: Id): nat {
    if id in byPolicy then byPolicy[id] else 0
  }

  /** The restart goes ahead. */
  predicate Respawns(s: State) {
    s.monitor.Backoff? && !IsStopped(s, s.monitor.id, s.monitor.epoch)
  }

  function StoryTaken(w: World): Story
    requires w.s.exits != []
  {
    var e := w.s.exits[0];
    w.story.(stops := 0, policyDecided := !(e.id in w.s.forced),
             cause := if Running(w.s, e.id) then Some(Cause(e, w.s.entries[e.id])) else None)
  }

  function StoryWoken(w: World, ok: bool): Story
    requires w.s.monitor.Backoff?
  {
    var id := w.s.monitor.id;
    if ok && Respawns(w.s) && w.story.policyDecided
    then w.story.(byPolicy := w.story.byPolicy[id := Count(w.story.byPolicy, id) + 1],
                  answered := w.story.answered + if w.story.cause.Some? then [w.story.cause.value] else [])
    else w.story
  }

  function StoryStarted(w: World, id: Id, config: Config): Story {
    if Running(w.s, id) then w.story
    else w.story.(byPolicy := w.story.byPolicy[id := 0], limits := w.story.limits[id := config.maxRestarts],
                  halted := w.story.halted - {id})
  }

  function StoryStopped(w: World, id: Id): Story {
    if !Running(w.s, id) then w.story
    else w.story.(halted := w.story.halted + {id},
                  stops := if w.s.monitor.Backoff? && w.s.monitor.id == id then w.story.stops + 1 else w.story.stops)
  }

  function Step(w: World, e: Event): World
    requires Enabled(w, e)
  {
    match e
    case Start(id, config, ok) => World(Started(w.s, id, config, ok), StoryStarted(w, id, config))
    case Stop(id) => World(Stopped(w.s, id), StoryStopped(w, id))
    case Restart(id) => World(Restarted(w.s, id), w.story)
    case Die(exit) => World(w.s.(exits := w.s.exits + [exit]), w.story)
    case Take => World(Taken(w.s), StoryTaken(w))
    case Wake(ok) => World(Woken(w.s, ok), StoryWoken(w, ok))
  }

  predicate IsRun(w: World, es: seq<Event>)
    decreases |es|
  {
    es == [] || (Enabled(w, es[0]) && IsRun(Step(w, es[0]), es[1..]))
  }

  function Run(w: World, es: seq<Event>): World
    requires IsRun(w, es)
    decreases |es|
  {
    if es == [] then w else Run(Step(w, es[0]), es[1..])
  }

  lemma {:induction false} RunAppend(w: World, es: seq<Event>, e: Event)
    requires IsRun(w, es) && Enabled(Run(w, es), e)
    ensures IsRun(w, es + [e]) && Run(w, es + [e]) == Step(Run(w, es), e)
    decreases |es|
  {
    if es != [] {
      assert (es + [e])[1..] == es[1..] + [e];
      RunAppend(Step(w, es[0]), es[1..], e);
    } else {
      assert es + [e] == [e] && [e][1..] == [];
    }
  }

  const FRESH: World :=
    World(State(map[], {}, map[], map[], 0, [], Waiting), Story(map[], map[], {}, 0, false, None, []))

  ghost predicate Reachable(w: World) {
    exists es :: IsRun(FRESH, es) && Run(FRESH, es) == w
  }

  // --- epochs and the backoff window ---

  ghost predicate Epochs(s: State) {
    && (forall id :: id in s.entries ==> s.entries[id].epoch <= s.nextEpoch)
    && (forall id :: id in s.stoppedEpochs ==> s.stoppedEpochs[id] <= s.nextEpoch)
    && (s.monitor.Backoff? ==> s.monitor.epoch <= s.nextEpoch)
    && (forall id :: id in s.entries ==> !IsStopped(s, id, s.entries[id].epoch))
  }

  /** What the number of stops inside the window says about the sleeping restart. */
  ghost predicate Window(w: World) {
    var (s, m) := (w.s, w.s.monitor);
    m.Backoff? ==>
      if w.story.stops == 0 then m.id in s.entries && s.entries[m.id].epoch == m.epoch
      else
        && (m.id in s.entries ==> s.entries[m.id].epoch > m.epoch)
        && m.id in s.stoppedEpochs
        && (if w.story.stops == 1 then s.stoppedEpochs[m.id] == m.epoch else s.stoppedEpochs[m.id] > m.epoch)
  }

  /** Restarts the policy decided stay within the budget. */
  ghost predicate Budget(w: World) {
    var (s, m) := (w.s, w.s.monitor);
    && (forall id :: id in s.entries ==>
          Count(w.story.byPolicy, id) <= s.entries[id].restarts
          && Count(w.story.byPolicy, id) <= s.entries[id].config.maxRestarts)
    && (m.Backoff? ==>
          && Count(w.story.byPolicy, m.id) + 1 <= m.restarts
          && Count(w.story.byPolicy, m.id) <= m.config.maxRestarts
          && (w.story.policyDecided ==> m.restarts <= m.config.maxRestarts))
  }

  ghost predicate Inv(w: World) {
    Epochs(w.s) && Window(w) && Budget(w)
  }

  /** A fresh epoch is above all others. */
  lemma SpawnedEpochs(s: State, id: Id, config: Config, restarts: nat, ok: bool)
    requires Epochs(s)
    ensures Epochs(Spawned(s, id, config, restarts, ok))
  {
  }

  lemma EpochsStep(w: World, e: Event)
    requires Inv(w) && Enabled(w, e)
    ensures Epochs(Step(w, e).s)
  {
    match e {
      case Start(id, config, ok) => SpawnedEpochs(w.s, id, config, 0, ok);
      case Wake(ok) =>
        var m := w.s.monitor;
        SpawnedEpochs(w.s.(monitor := Waiting), m.id, m.config, m.restarts, ok);
      case _ =>
    }
  }

  lemma WindowStep(w: World, e: Event)
    requires Inv(w) && Enabled(w, e)
    ensures Window(Step(w, e))
  {
  }

  lemma TakeBudget(w: World)
    requires Budget(w) && Enabled(w, Take)
    ensures Budget(Step(w, Take))
  {
  }

  lemma WakeBudget(w: World, ok: bool)
    requires Budget(w) && Enabled(w, Wake(ok))
    ensures Budget(Step(w, Wake(ok)))
  {
  }

  lemma BudgetStep(w: World, e: Event)
    requires Inv(w) && Enabled(w, e)
    ensures Budget(Step(w, e))
  {
    match e {
      case Take => TakeBudget(w);
      case Wake(ok) => WakeBudget(w, ok);
      case _ =>
    }
  }

  lemma InvStep(w: World, e: Event)
    requires Inv(w) && Enabled(w, e)
    ensures Inv(Step(w, e))
  {
    EpochsStep(w, e);
    WindowStep(w, e);
    BudgetStep(w, e);
  }

  lemma {:induction false} InvRun(w: World, es: seq<Event>)
    requires Inv(w) && IsRun(w, es)
    ensures Inv(Run(w, es))
    decreases |es|
  {
    if es != [] {
      InvStep(w, es[0]);
      InvRun(Step(w, es[0]), es[1..]);
    }
  }

  lemma ReachableInv(w: World)
    requires Reachable(w)
    ensures Inv(w)
  {
    var es :| IsRun(FRESH, es) && Run(FRESH, es) == w;
    InvRun(FRESH, es);
  }

  // --- restart discipline ---

  /** Since the last manual start the policy has restarted a plugin at most `maxRestarts` times. */
  lemma PolicyBudget(w: World, id: Id)
    requires Reachable(w) && id in w.s.entries
    ensures Count(w.story.byPolicy, id) <= w.s.entries[id].config.maxRestarts
  {
    ReachableInv(w);
  }

  /** Every plugin, running or not, within what its last manual start allowed; a sleeping restart
      that no stop has overtaken still has that configuration. */
  ghost predicate Charter(w: World) {
    && (forall id :: Count(w.story.byPolicy, id) <= Count(w.story.limits, id))
    && (forall id :: id in w.s.entries ==> w.s.entries[id].config.maxRestarts == Count(w.story.limits, id))
    && (w.s.monitor.Backoff? && w.story.stops == 0 ==>
          w.s.monitor.config.maxRestarts == Count(w.story.limits, w.s.monitor.id))
  }

  lemma CharterStep(w: World, e: Event)
    requires Inv(w) && Charter(w) && Enabled(w, e) && (w.s.monitor.Backoff? ==> w.story.stops <= 1)
    ensures Charter(Step(w, e))
  {
    forall id ensures Count(Step(w, e).story.byPolicy, id) <= Count(Step(w, e).story.limits, id) {
      assert Count(w.story.byPolicy, id) <= Count(w.story.limits, id);
    }
  }

  lemma {:induction false} CharterRun(w: World, es: seq<Event>)
    requires Inv(w) && Charter(w) && IsRun(w, es) && OneStop(w, es)
    ensures Charter(Run(w, es))
    decreases |es|
  {
    if es != [] {
      CharterStep(w, es[0]);
      InvStep(w, es[0]);
      CharterRun(Step(w, es[0]), es[1..]);
    }
  }

  /** Over every run with at most one stop per backoff window the policy has restarted no plugin,
      whether it has an entry or not, more often since its last manual start than that start's
      configuration allows. */
  lemma PolicyBudgetRun(es: seq<Event>, id: Id)
    requires IsRun(FRESH, es) && OneStop(FRESH, es)
    ensures var w := Run(FRESH, es);
      Count(w.story.byPolicy, id) <= Count(w.story.limits, id)
  {
    CharterRun(FRESH, es);
  }

  // --- what the policy restarts, and what it does not ---

  /** The exit is of the entry's instance, the configured policy covers it, and a restart is left. */
  predicate Covers(c: Cause) {
    && c.exit.epoch == c.entry.epoch && c.entry.restarts < c.entry.config.maxRestarts
    && (c.entry.config.policy == Always || (c.entry.config.policy == OnFailure && !c.exit.success))
  }

  /** How many of the answered exits are of `id`. */
  function AnsweredOf(answered: seq<Cause>, id: Id): nat {
    if answered == [] then 0
    else AnsweredOf(answered[..|answered| - 1], id) + if answered[|answered| - 1].exit.id == id then 1 else 0
  }

  /** The sleeping restart is the one its cause calls for, and the policy's restarts are covered. */
  ghost predicate Caused(w: World) {
    && (w.s.monitor.Backoff? ==>
          && w.story.cause.Some?
          && var (m, c) := (w.s.monitor, w.story.cause.value);
             && m == Backoff(c.exit.id, c.entry.config, c.entry.restarts + 1, c.exit.epoch)
             && (w.story.policyDecided ==> Covers(c)))
    && (forall c :: c in w.story.answered ==> Covers(c))
    && (forall id :: Count(w.story.byPolicy, id) <= AnsweredOf(w.story.answered, id))
  }

  lemma AnsweredNext(answered: seq<Cause>, c: Cause, id: Id)
    ensures AnsweredOf(answered + [c], id) == AnsweredOf(answered, id) + if c.exit.id == id then 1 else 0
  {
    assert (answered + [c])[..|answered|] == answered;
  }

  lemma TakeCaused(w: World)
    requires Caused(w) && Enabled(w, Take)
    ensures Caused(Step(w, Take))
  {
  }

  lemma WakeCaused(w: World, ok: bool)
    requires Caused(w) && Enabled(w, Wake(ok))
    ensures Caused(Step(w, Wake(ok)))
  {
    var v := Step(w, Wake(ok));
    forall id ensures Count(v.story.byPolicy, id) <= AnsweredOf(v.story.answered, id) {
      AnsweredNext(w.story.answered, w.story.cause.value, id);
      assert Count(w.story.byPolicy, id) <= AnsweredOf(w.story.answered, id);
    }
  }

  lemma CausedStep(w: World, e: Event)
    requires Caused(w) && Enabled(w, e)
    ensures Caused(Step(w, e))
  {
    match e {
      case Take => TakeCaused(w);
      case Wake(ok) => WakeCaused(w, ok);
      case _ =>
        forall id ensures Count(Step(w, e).story.byPolicy, id) <= AnsweredOf(Step(w, e).story.answered, id) {
          assert Count(w.story.byPolicy, id) <= AnsweredOf(w.story.answered, id);
        }
    }
  }

  /** Everything taken, waiting or answered was reported. */
  ghost predicate Reported(w: World, died: seq<Exit>) {
    && (forall e :: e in w.s.exits ==> e in died)
    && (w.story.cause.Some? ==> w.story.cause.value.exit in died)
    && (forall c :: c in w.story.answered ==> c.exit in died)
  }

  function Died(e: Event): seq<Exit> {
    if e.Die? then [e.exit] else []
  }

  lemma ReportedStep(w: World, e: Event, died: seq<Exit>)
    requires Reported(w, died) && Enabled(w, e)
    ensures Reported(Step(w, e), died + Died(e))
  {
  }

  function Deaths(es: seq<Event>): seq<Exit> {
    if es == [] then [] else Died(es[0]) + Deaths(es[1..])
  }

  lemma {:induction false} CausedRun(w: World, es: seq<Event>, died: seq<Exit>)
    requires Caused(w) && Reported(w, died) && IsRun(w, es)
    ensures Caused(Run(w, es)) && Reported(Run(w, es), died + Deaths(es))
    decreases |es|
  {
    if es == [] {
      assert died + Deaths(es) == died;
    } else {
      CausedStep(w, es[0]);
      ReportedStep(w, es[0], died);
      CausedRun(Step(w, es[0]), es[1..], died + Died(es[0]));
      assert died + Died(es[0]) + Deaths(es[1..]) == died + Deaths(es);
    }
  }

  /** Over every run each restart the policy decided answers a reported exit of the instance it found,
      which the configured policy covers and for which a restart was left: after a clean exit none
      under OnFailure, and never one under Never. As many restarts as are counted were so answered. */
  lemma PolicyAnswersCovered(es: seq<Event>, c: Cause)
    requires IsRun(FRESH, es) && c in Run(FRESH, es).story.answered
    ensures c.exit in Deaths(es) && c.exit.epoch == c.entry.epoch && c.entry.restarts < c.entry.config.maxRestarts
    ensures c.entry.config.policy == Always || (c.entry.config.policy == OnFailure && !c.exit.success)
    ensures forall id ::
      Count(Run(FRESH, es).story.byPolicy, id) <= AnsweredOf(Run(FRESH, es).story.answered, id)
  {
    CausedRun(FRESH, es, []);
    assert [] + Deaths(es) == Deaths(es);
  }

  /** An exit of the registered instance that no manual restart claims: covered by the policy, it
      brings the plugin back with one more restart counted; otherwise the plugin loses its entry. */
  lemma CoveredExitRestarts(w: World)
    requires Inv(w) && Enabled(w, Take)
    requires var e := w.s.exits[0];
      e.id !in w.s.forced && e.id in w.s.entries && w.s.entries[e.id].epoch == e.epoch
    ensures var (e, entry) := (w.s.exits[0], w.s.entries[w.s.exits[0].id]);
      var v := Step(w, Take);
      if Covers(Cause(e, entry)) then
        && Enabled(v, Wake(true))
        && Step(v, Wake(true)).s.entries ==
           w.s.entries[e.id := Entry(entry.config, entry.restarts + 1, w.s.nextEpoch + 1)]
      else v.s.entries == w.s.entries - {e.id} && v.s.monitor.Waiting?
  {
  }

  /** The instance whose exit the sleeping restart answers is still the registered one. */
  predicate OwnInstance(s: State)
    requires s.monitor.Backoff?
  {
    s.monitor.id in s.entries && s.entries[s.monitor.id].epoch == s.monitor.epoch
  }

  /** A restart that goes ahead replaces exactly the instance whose exit it answers if and only if
      the plugin was explicitly stopped at most once inside the backoff window. */
  lemma RespawnReplacesOwn(w: World)
    requires Reachable(w) && w.s.monitor.Backoff?
    ensures (Respawns(w.s) ==> OwnInstance(w.s)) <==> w.story.stops <= 1
  {
    ReachableInv(w);
  }

  /** No plugin has an entry between an explicit stop and the next manual start. */
  ghost predicate StopsHold(w: World) {
    forall id :: id in w.story.halted ==> id !in w.s.entries
  }

  /** One step breaks that only by a restart that went ahead after two stops in its window and
      found no newer instance. */
  lemma StopsHoldStep(w: World, e: Event)
    requires Inv(w) && StopsHold(w) && Enabled(w, e)
    ensures StopsHold(Step(w, e)) <==> !(e == Wake(true) && w.story.stops >= 2 && w.s.monitor.id in w.story.halted)
  {
    if e.Wake? && Respawns(w.s) && e.ok {
      assert w.s.monitor.id in Step(w, e).s.entries;
    }
  }

  /** In every state of the run no window has seen a second stop. */
  predicate OneStop(w: World, es: seq<Event>)
    requires IsRun(w, es)
    decreases |es|
  {
    (w.s.monitor.Backoff? ==> w.story.stops <= 1) && (es == [] || OneStop(Step(w, es[0]), es[1..]))
  }

  lemma {:induction false} StopsHoldRun(w: World, es: seq<Event>)
    requires Inv(w) && StopsHold(w) && IsRun(w, es) && OneStop(w, es)
    ensures StopsHold(Run(w, es))
    decreases |es|
  {
    if es != [] {
      StopsHoldStep(w, es[0]);
      InvStep(w, es[0]);
      StopsHoldRun(Step(w, es[0]), es[1..]);
    }
  }

  /** Over every run with at most one stop per backoff window, an explicit stop is terminal. */
  lemma StopIsTerminal(es: seq<Event>)
    requires IsRun(FRESH, es) && OneStop(FRESH, es)
    ensures StopsHold(Run(FRESH, es))
  {
    StopsHoldRun(FRESH, es);
  }

  const CRASHING: Config := Config(Always, 3)
  const CRASH: Cause := Cause(Exit(1, 1, false), Entry(CRASHING, 0, 1))

  /** Plugin 1 has crashed and its restart is sleeping. */
  const CRASHED: World := World(
    State(map[1 := Entry(CRASHING, 0, 1)], {}, map[], map[], 1, [], Backoff(1, CRASHING, 1, 1)),
    Story(map[1 := 0], map[1 := 3], {}, 0, true, Some(CRASH), []))

  lemma CrashedReachable()
    ensures var es := [Start(1, CRASHING, true), Die(Exit(1, 1, false)), Take];
      IsRun(FRESH, es) && Run(FRESH, es) == CRASHED
  {
    var es := [Start(1, CRASHING, true), Die(Exit(1, 1, false)), Take];
    var w1 := Step(FRESH, es[0]);
    var w2 := Step(w1, es[1]);
    assert w2.s.exits == [Exit(1, 1, false)] && w2.s.exits[1..] == [];
    assert Step(w2, Take) == CRASHED;
    RunsOn(CRASHED, es, 3);
    RunsOn(w2, es, 2);
    RunsOn(w1, es, 1);
    RunsOn(FRESH, es, 0);
    assert es[0..] == es;
  }

  /** A stop, a start under another configuration and a second stop, all in one window. */
  function StoppedTwice(config: Config): World {
    World(State(map[], {}, map[], map[1 := 2], 2, [], Backoff(1, CRASHING, 1, 1)),
          Story(map[1 := 0], map[1 := config.maxRestarts], {1}, 2, true, Some(CRASH), []))
  }

  /** ... and the sleeping restart goes ahead. */
  function Revived(config: Config): World {
    World(State(map[1 := Entry(CRASHING, 1, 3)], {}, map[], map[1 := 2], 3, [], Waiting),
          Story(map[1 := 1], map[1 := config.maxRestarts], {1}, 2, true, Some(CRASH), [CRASH]))
  }

  function Revival(config: Config): seq<Event> {
    [Stop(1), Start(1, config, true), Stop(1), Wake(true)]
  }

  lemma StopsTwice(config: Config)
    ensures var w1 := Step(CRASHED, Stop(1));
      Step(Step(w1, Start(1, config, true)), Stop(1)) == StoppedTwice(config)
  {
    var w2 := Step(Step(CRASHED, Stop(1)), Start(1, config, true));
    assert w2.s.entries == map[1 := Entry(config, 0, 2)];
    assert w2.story == Story(map[1 := 0], map[1 := config.maxRestarts], {}, 1, true, Some(CRASH), []);
    assert w2.s.entries - {1} == map[];
  }

  lemma Revives(config: Config)
    ensures IsRun(CRASHED, Revival(config)) && Run(CRASHED, Revival(config)) == Revived(config)
  {
    var es := Revival(config);
    var w1 := Step(CRASHED, es[0]);
    var w2 := Step(w1, es[1]);
    StopsTwice(config);
    assert Step(StoppedTwice(config), Wake(true)) == Revived(config);
    RunsOn(Revived(config), es, 4);
    RunsOn(StoppedTwice(config), es, 3);
    RunsOn(w2, es, 2);
    RunsOn(w1, es, 1);
    RunsOn(CRASHED, es, 0);
    assert es[0..] == es;
  }

  /** Two stops in one window: the plugin comes back after the second. */
  lemma TwoStopsRevive()
    ensures var es := [Stop(1), Start(1, CRASHING, true), Stop(1), Wake(true)];
      Reachable(CRASHED) && IsRun(CRASHED, es) && !StopsHold(Run(CRASHED, es))
  {
    CrashedReachable();
    Revives(CRASHING);
    var w := Revived(CRASHING);
    assert 1 in w.story.halted && 1 in w.s.entries;
  }

  /** ... and beyond what its new configuration allows. */
  lemma TwoStopsOverrun()
    ensures var es := [Stop(1), Start(1, Config(Never, 0), true), Stop(1), Wake(true)];
      && IsRun(CRASHED, es)
      && var w := Run(CRASHED, es); Count(w.story.byPolicy, 1) > Count(w.story.limits, 1)
  {
    Revives(Config(Never, 0));
  }

  // --- manual restarts ---

  /** A step that neither stops `id` nor takes one of its exits. */
  predicate LeavesMark(w: World, e: Event, id: Id) {
    e != Stop(id) && (e.Take? && w.s.exits != [] ==> w.s.exits[0].id != id)
  }

  predicate AllLeaveMark(w: World, es: seq<Event>, id: Id)
    requires IsRun(w, es)
    decreases |es|
  {
    es == [] || (LeavesMark(w, es[0], id) && AllLeaveMark(Step(w, es[0]), es[1..], id))
  }

  /** A manual restart lasts until an exit of its plugin is taken: that exit restarts the plugin,
      whatever the policy, if and only if it is of the registered instance. */
  lemma {:induction false} RestartHonoured(w: World, es: seq<Event>, id: Id)
    requires Inv(w) && id in w.s.forced && IsRun(w, es) && AllLeaveMark(w, es, id)
    ensures var v := Run(w, es);
      && id in v.s.forced
      && (Enabled(v, Take) && v.s.exits[0].id == id ==>
            (Step(v, Take).s.monitor.Backoff? <==> id in v.s.entries && v.s.entries[id].epoch == v.s.exits[0].epoch))
    decreases |es|
  {
    if es != [] {
      InvStep(w, es[0]);
      RestartHonoured(Step(w, es[0]), es[1..], id);
    }
  }

  /** A run from `k` on, one event at a time. */
  lemma RunsOn(w: World, es: seq<Event>, k: nat)
    requires k <= |es| && (k < |es| ==> Enabled(w, es[k]) && IsRun(Step(w, es[k]), es[k + 1..]))
    ensures IsRun(w, es[k..])
    ensures Run(w, es[k..]) == if k < |es| then Run(Step(w, es[k]), es[k + 1..]) else w
  {
    if k < |es| { assert es[k..][1..] == es[k + 1..]; }
  }
}
