/** The supervisor's handlers on its maps, each one step of the restart protocol, and the monitor
    loop that runs them. */
module SupervisorCode {
  import opened Collections
  import opened Supervisor

  datatype Result = Ok | AlreadyRunning(id: Id) | NotFound(id: Id) | SpawnFailed

  /** `v` is reached from `w` by steps of the monitor alone. */
  ghost predicate MonitorsTo(w: World, v: World) {
    exists es: seq<Event> :: IsRun(w, es) && Run(w, es) == v && forall e :: e in es ==> e.Take? || e.Wake?
  }

  lemma MonitorsToSelf(w: World)
    ensures MonitorsTo(w, w)
  {
    assert IsRun(w, []) && Run(w, []) == w;
  }

  lemma MonitorsOn(w: World, v: World, e: Event)
    requires MonitorsTo(w, v) && Enabled(v, e) && (e.Take? || e.Wake?)
    ensures MonitorsTo(w, Step(v, e))
  {
    var es: seq<Event> :| IsRun(w, es) && Run(w, es) == v && forall x :: x in es ==> x.Take? || x.Wake?;
    RunAppend(w, es, e);
    assert forall x :: x in es + [e] ==> x.Take? || x.Wake?;
  }

  /** A manual start gives a plugin without an entry one under an epoch nothing has had. */
  lemma StartEffect(w: World, id: Id, config: Config, ok: bool)
    requires Inv(w)
    ensures var (s, t) := (w.s, Step(w, Start(id, config, ok)).s);
      if ok && id !in s.entries
      then t.entries == s.entries[id := Entry(config, 0, t.nextEpoch)]
           && forall i :: i in s.entries ==> s.entries[i].epoch < t.nextEpoch
      else t.entries == s.entries
  {
  }

  /** With at most one stop in the window a restart replaces the dead instance or does nothing. */
  lemma WakeEffect(w: World, ok: bool)
    requires Inv(w) && w.s.monitor.Backoff?
    ensures var (s, t, m) := (w.s, Step(w, Wake(ok)).s, w.s.monitor);
      && t.monitor.Waiting? && t.exits == s.exits && t.entries - {m.id} == s.entries - {m.id}
      && (w.story.stops <= 1 && t.entries != s.entries ==>
            && m.id in s.entries && s.entries[m.id].epoch == m.epoch
            && m.id in t.entries && t.entries[m.id].epoch == t.nextEpoch > m.epoch)
  {
  }

  class PluginSupervisor {
    var entries: map<Id, Entry>
    var forced: set<Id>
    var stoppedCounts: map<Id, nat>
    var stoppedEpochs: map<Id, Epoch>
    var nextEpoch: Epoch
    var exits: seq<Exit>
    var monitor: Monitor
    ghost var story: Story

    ghost function Abs(): World
      reads this
    {
      World(State(entries, forced, stoppedCounts, stoppedEpochs, nextEpoch, exits, monitor), story)
    }

    ghost predicate Valid()
      reads this
    {
      Inv(Abs())
    }

    constructor ()
      ensures Valid() && Abs() == FRESH
    {
      entries, forced, stoppedCounts, stoppedEpochs := map[], {}, map[], map[];
      nextEpoch, exits, monitor := 0, [], Waiting;
      story := FRESH.story;
    }

    /** A manual start carries no epoch to replace and refuses while an entry is registered; a
        supervised restart carries one. `spawns` is the operating system's answer. */
    method SpawnInternal(id: Id, config: Config, restarts: nat, replaceEpoch: Option<Epoch>, spawns: bool)
      returns (r: Result)
      modifies `entries, `nextEpoch
      ensures r == if replaceEpoch.None? && id in old(entries) then AlreadyRunning(id)
                   else if spawns then Ok else SpawnFailed
      ensures entries == if r.Ok? then old(entries)[id := Entry(config, restarts, nextEpoch)] else old(entries)
      ensures nextEpoch == if r.AlreadyRunning? then old(nextEpoch) else old(nextEpoch) + 1
    {
      if replaceEpoch.None? && id in entries {
        return AlreadyRunning(id);
      }
      nextEpoch := nextEpoch + 1;
      if !spawns {
        return SpawnFailed;
      }
      entries := entries[id := Entry(config, restarts, nextEpoch)];
      r := Ok;
    }

    /** A plugin without an entry gets one under an epoch nothing has had; one with an entry is left
        alone. */
    method SpawnPlugin(id: Id, config: Config, spawns: bool) returns (r: Result)
      requires Valid()
      modifies this
      ensures Valid() && Abs() == Step(old(Abs()), Start(id, config, spawns))
      ensures r.Ok? <==> spawns && id !in old(entries)
      ensures r.Ok? ==> entries.Keys == old(entries).Keys + {id} && entries[id] == Entry(config, 0, nextEpoch)
      ensures r.Ok? ==> forall i :: i in old(entries) ==> entries[i] == old(entries)[i] && entries[i].epoch < nextEpoch
      ensures !r.Ok? ==> entries == old(entries)
    {
      InvStep(Abs(), Start(id, config, spawns));
      StartEffect(Abs(), id, config, spawns);
      ghost var told := StoryStarted(Abs(), id, config);
      r := SpawnInternal(id, config, 0, None, spawns);
      assert Abs().s == Started(old(Abs()).s, id, config, spawns);
      story := told;
    }

    /** The plugin has no entry any more, no other plugin's changes, and no exit of the stopped
        instance is acted on. */
    method StopPlugin(id: Id) returns (r: Result)
      requires Valid()
      modifies this
      ensures Valid() && Abs() == Step(old(Abs()), Stop(id))
      ensures r == if id in old(entries) then Ok else NotFound(id)
      ensures entries == old(entries) - {id}
      ensures r.Ok? ==> id in story.halted && forced == old(forced) - {id}
      ensures r.Ok? ==> stoppedEpochs == old(stoppedEpochs)[id := old(entries)[id].epoch]
      ensures r.Ok? ==> forall success :: !Actionable(Abs().s, Exit(id, old(entries)[id].epoch, success))
    {
      InvStep(Abs(), Stop(id));
      if id !in entries {
        assert entries - {id} == entries;
        return NotFound(id);
      }
      story := StoryStopped(Abs(), id);
      var entry := entries[id];
      entries := entries - {id};
      stoppedEpochs := stoppedEpochs[id := entry.epoch];
      forced := forced - {id};
      r := Ok;
    }

    /** A running plugin's next exit restarts it even where its policy would not. */
    method RestartPlugin(id: Id) returns (r: Result)
      requires Valid()
      modifies `forced
      ensures Valid() && Abs() == Step(old(Abs()), Restart(id))
      ensures r == if id in entries then Ok else NotFound(id)
      ensures r.Ok? ==> forall success ::
        Taken(Abs().s.(exits := [Exit(id, entries[id].epoch, success)])).monitor ==
        Backoff(id, entries[id].config, entries[id].restarts + 1, entries[id].epoch)
    {
      InvStep(Abs(), Restart(id));
      if id !in entries {
        return NotFound(id);
      }
      forced := forced + {id};
      r := Ok;
    }

    /** One turn of the monitor up to the backoff. An exit of the registered instance is answered by a
        restart if a manual restart waits for it, or if one is left and the policy is Always, or
        OnFailure and the exit a failure; otherwise the plugin loses its entry. Any other exit changes
        no entry. */
    method HandleExit()
      requires Valid() && exits != [] && monitor.Waiting?
      modifies this
      ensures Valid() && Abs() == Step(old(Abs()), Take)
      ensures exits == old(exits)[1..]
      ensures var e := old(exits)[0];
        var current := e.id in old(entries) && old(entries)[e.id].epoch == e.epoch;
        && forced == old(forced) - {e.id}
        && if !current then monitor.Waiting? && entries == old(entries)
           else
             var entry := old(entries)[e.id];
             var covered := entry.restarts < entry.config.maxRestarts
                            && (entry.config.policy == Always || (entry.config.policy == OnFailure && !e.success));
             if covered || e.id in old(forced)
             then monitor == Backoff(e.id, entry.config, entry.restarts + 1, e.epoch) && entries == old(entries)
             else monitor.Waiting? && entries == old(entries) - {e.id}
                  && stoppedCounts == old(stoppedCounts)[e.id := entry.restarts]
    {
      InvStep(Abs(), Take);
      story := StoryTaken(Abs());
      var event := exits[0];
      exits := exits[1..];
      var wasForced := event.id in forced;
      forced := forced - {event.id};
      var isCurrent := event.id in entries && entries[event.id].epoch == event.epoch;
      var wasStopped := event.id in stoppedEpochs && stoppedEpochs[event.id] == event.epoch;
      if !isCurrent || wasStopped {
        return;
      }
      var entry := entries[event.id];
      if wasForced || PolicyAllows(entry, event.success) {
        monitor := Backoff(event.id, entry.config, entry.restarts + 1, event.epoch);
      } else {
        entries := entries - {event.id};
        stoppedCounts := stoppedCounts[event.id := entry.restarts];
      }
    }

    /** The rest of the turn, once the delay is over: with at most one stop in the window either the
        dead instance is replaced by a new one, or nothing changes. */
    method FinishBackoff(spawns: bool)
      requires Valid() && monitor.Backoff?
      modifies this
      ensures Valid() && Abs() == Step(old(Abs()), Wake(spawns))
      ensures monitor.Waiting? && exits == old(exits)
      ensures var m := old(monitor);
        entries == if spawns && !(m.id in stoppedEpochs && stoppedEpochs[m.id] == m.epoch)
                   then old(entries)[m.id := Entry(m.config, m.restarts, old(nextEpoch) + 1)] else old(entries)
      ensures var m := old(monitor);
        && entries - {m.id} == old(entries) - {m.id}
        && (old(story).stops <= 1 && entries != old(entries) ==>
              && m.id in old(entries) && old(entries)[m.id].epoch == m.epoch
              && m.id in entries && entries[m.id].epoch == nextEpoch > m.epoch)
    {
      InvStep(Abs(), Wake(spawns));
      WakeEffect(Abs(), spawns);
      ghost var told := StoryWoken(Abs(), spawns);
      var m := monitor;
      monitor := Waiting;
      if !(m.id in stoppedEpochs && stoppedEpochs[m.id] == m.epoch) {
        var _ := SpawnInternal(m.id, m.config, m.restarts, Some(m.epoch), spawns);
      }
      assert Abs().s == Woken(old(Abs()).s, spawns);
      story := told;
    }

    /** The monitor works through the exits reported so far. Undisturbed, it brings back no plugin
        that was explicitly stopped. */
    method MonitorLoop(answers: seq<bool>)
      requires Valid() && monitor.Waiting? && |answers| >= |exits|
      modifies this
      ensures Valid() && monitor.Waiting? && exits == []
      ensures MonitorsTo(old(Abs()), Abs())
      ensures story.halted == old(story).halted
      ensures entries.Keys <= old(entries).Keys
    {
      ghost var w := Abs();
      MonitorsToSelf(w);
      var i := 0;
      while exits != []
        invariant Valid() && monitor.Waiting? && i + |exits| <= |answers| && MonitorsTo(w, Abs())
        invariant story.halted == w.story.halted && entries.Keys <= w.s.entries.Keys
        decreases |exits|
      {
        MonitorsOn(w, Abs(), Take);
        HandleExit();
        if monitor.Backoff? {
          MonitorsOn(w, Abs(), Wake(answers[i]));
          ghost var before := Abs();
          FinishBackoff(answers[i]);
          assert entries.Keys <= before.s.entries.Keys + {before.s.monitor.id};
        }
        i := i + 1;
      }
    }
  }
}
