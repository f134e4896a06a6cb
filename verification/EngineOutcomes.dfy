/** What a run that ends has done: what its outcome says, where its output comes from, and what a
    recovered instance gets back. */
module EngineOutcomes {
  import opened Wrappers
  import opened EffectLog
  import opened EngineModel
  import opened EngineTheorems
  import opened EngineWalks

  // ---------------------------------------------------------------- clean ends

  /** This run's last handler returned that there is no next state. */
  predicate Completed(c: Config) {
    c.trail != [] && c.trail[|c.trail| - 1].run == c.run && c.trail[|c.trail| - 1].returned == Some(None)
  }

  predicate Over(pc: PC) { pc.Finishing? || pc.Stamping? || pc.TearingDown? || pc.Exited? }

  /** A run that is over without an error has completed, its output harvested if there is to be one. */
  ghost predicate EndOk(w: Workflow, c: Config) {
    && ((c.pc.Boundary? || c.pc.Past?) && c.pc.next.None? ==> Completed(c))
    && (Over(c.pc) && c.pc.err.None? ==> Completed(c) && (w.outputs ==> c.e.output.Some?))
    && (c.pc.InHandler? || c.pc.MidCheckpoint? ==> c.trail != [] && c.trail[|c.trail| - 1].run == c.run)
    && (c.pc.Stamping? ==> c.pc.result == c.e.output)
  }

  lemma EndOkStep(w: Workflow, c: Config, a: Action)
    requires EndOk(w, c)
    ensures EndOk(w, After(w, c, a))
  {
    if IsLoop(a) {
      EndOkByLoop(w, c, a);
    } else if IsHandler(a) {
      EndOkByHandler(w, c, a);
    } else if IsExit(a) {
      EndOkByExit(w, c, a);
    }
  }

  lemma EndOkByLoop(w: Workflow, c: Config, a: Action)
    requires EndOk(w, c) && IsLoop(a)
    ensures EndOk(w, After(w, c, a))
  {
  }

  lemma EndOkByHandler(w: Workflow, c: Config, a: Action)
    requires EndOk(w, c) && IsHandler(a)
    ensures EndOk(w, After(w, c, a))
  {
  }

  lemma EndOkByExit(w: Workflow, c: Config, a: Action)
    requires EndOk(w, c) && IsExit(a)
    ensures EndOk(w, After(w, c, a))
  {
  }

  /** A run ends without an error only if its last handler returned no next state, and then, if the
      workflow has outputs, with the one it harvested: over all runs, crashes and recoveries. */
  lemma {:induction false} CleanEndsAreComplete(w: Workflow, c: Config, actions: seq<Action>)
    requires EndOk(w, c)
    ensures var n := Play(w, c, actions);
      EndOk(w, n) && (n.pc.Exited? && n.pc.err.None? ==> Completed(n) && (w.outputs ==> n.e.output.Some?))
  {
    if actions != [] {
      CleanEndsAreComplete(w, c, actions[..|actions| - 1]);
      EndOkStep(w, Play(w, c, actions[..|actions| - 1]), actions[|actions| - 1]);
    }
  }

  /** No handler is ever entered, nor about to be, for a state the workflow does not have. */
  ghost predicate Known(w: Workflow, c: Config) {
    && (forall i :: 0 <= i < |c.trail| ==> c.trail[i].state in w.states)
    && (c.pc.RunningCheckpoint? || c.pc.Entering? ==> c.pc.to in w.states)
  }

  lemma KnownStep(w: Workflow, c: Config, a: Action)
    requires Known(w, c)
    ensures Known(w, After(w, c, a))
  {
    if a.Return? && c.pc.InHandler? && c.trail != [] {
      assert forall i :: 0 <= i < |c.trail| ==> Closed(c.trail, a.to)[i].state == c.trail[i].state;
    }
  }

  lemma {:induction false} OnlyKnownStates(w: Workflow, input: Blob, actions: seq<Action>)
    ensures Known(w, Play(w, Created(input), actions))
  {
    if actions != [] {
      OnlyKnownStates(w, input, actions[..|actions| - 1]);
      KnownStep(w, Play(w, Created(input), actions[..|actions| - 1]), actions[|actions| - 1]);
    }
  }

  // ---------------------------------------------------------------- the harvested output

  /** The output is in, and only the outcome of the run is still to be written. */
  predicate Carries(c: Config, v: Blob, before: Record) {
    && Over(c.pc) && c.pc.err.None? && c.e.output == Some(v)
    && (c.pc.Stamping? ==> c.pc.result == Some(v))
    && (c.record == before || c.record == before.(status := c.record.status, output := Some(v)))
  }

  lemma CarriesStep(w: Workflow, c: Config, v: Blob, before: Record, a: Action)
    requires Carries(c, v, before) && !a.Crash? && !a.Recover?
    requires a.Start? ==> !Startable(w, c)
    ensures Carries(After(w, c, a), v, before)
  {
  }

  /** Once harvested, an output stays to the end, and whatever is stamped from then on carries it. */
  lemma {:induction false} HarvestStays(w: Workflow, c: Config, v: Blob, more: seq<Action>)
    requires EngineOk(w, c) && c.pc == Past(None) && w.outputs && SameHandle(more)
    ensures var n := Play(w, c, [Proceed(Some(v))] + more);
      EngineOk(w, n) && Carries(n, v, c.record)
  {
    PlayConcat(w, c, [Proceed(Some(v))], more);
    One(w, c, Proceed(Some(v)));
    EngineOkKept(w, c, Proceed(Some(v)));
    var h := After(w, c, Proceed(Some(v)));
    if more != [] {
      var init, a := more[..|more| - 1], more[|more| - 1];
      HarvestStays(w, c, v, init);
      PlayConcat(w, c, [Proceed(Some(v))], init);
      OutcomesAreAbsorbing(w, h, init);
      EngineOkKept(w, Play(w, h, init), a);
      CarriesStep(w, Play(w, h, init), v, c.record, a);
    }
  }

  /** It reaches the row: with nothing more called and the stamp landing, the row is done, or killed if
      the run was, with that output. */
  lemma HarvestReachesTheRow(w: Workflow, c: Config, v: Blob)
    requires EngineOk(w, c) && c.pc == Past(None) && w.outputs && w.stores
    ensures var n := Play(w, c, [Proceed(Some(v))] + [Finish, Stamp(true)]);
      n.record == c.record.(status := if c.e.state == Killed then Killed else Done, output := Some(v))
  {
    var h := c.(e := c.e.(output := Some(v)), pc := Finishing(None));
    var outcome := if c.e.state == Killed then Status.Killed else Done;
    PlayConcat(w, c, [Proceed(Some(v))], [Finish, Stamp(true)]);
    One(w, c, Proceed(Some(v)));
    assert After(w, c, Proceed(Some(v))) == h;
    Two(w, h, Finish, Stamp(true));
    assert After(w, h, Finish) == h.(e := h.e.(state := outcome), pc := Stamping(None, outcome, Some(v)));
  }

  /** A workflow without outputs is done as it stands, whatever is offered as one. */
  lemma NothingToHarvest(w: Workflow, c: Config, offered: Option<Blob>)
    requires EngineOk(w, c) && c.pc == Past(None) && !w.outputs && w.stores && c.e.state != Killed
    ensures var n := Play(w, c, [Proceed(offered)] + [Finish, Stamp(true)]);
      n.record == c.record.(status := Done, output := c.e.output)
  {
    var h := c.(pc := Finishing(None));
    PlayConcat(w, c, [Proceed(offered)], [Finish, Stamp(true)]);
    One(w, c, Proceed(offered));
    Two(w, h, Finish, Stamp(true));
    assert After(w, h, Finish) == h.(e := h.e.(state := Done), pc := Stamping(None, Done, c.e.output));
  }

  /** No checkpoint fails a run that makes none: where nothing snapshots or nothing stores, no run ends
      with a store error. */
  lemma {:induction false} NothingStoredNothingFails(w: Workflow, c: Config, actions: seq<Action>)
    requires !Persists(w) && (Over(c.pc) ==> c.pc.err != Some(StoreError))
    ensures var n := Play(w, c, actions); Over(n.pc) ==> n.pc.err != Some(StoreError)
  {
    if actions != [] {
      NothingStoredNothingFails(w, c, actions[..|actions| - 1]);
      NoStoreErrorStep(w, Play(w, c, actions[..|actions| - 1]), actions[|actions| - 1]);
    }
  }

  lemma NoStoreErrorStep(w: Workflow, c: Config, a: Action)
    requires !Persists(w) && (Over(c.pc) ==> c.pc.err != Some(StoreError))
    ensures var n := After(w, c, a); Over(n.pc) ==> n.pc.err != Some(StoreError)
  {
  }

  // ---------------------------------------------------------------- outcomes

  /** Not killed, and once finished in the state its error says. */
  predicate Told(c: Config) {
    && c.e.state != Killed
    && (c.pc.Stamping? ==> c.e.state == if c.pc.err.Some? then Failed else Done)
    && (c.pc.TearingDown? || c.pc.Exited? ==>
          c.e.state == if IsDetached(c.pc.err) then Suspended else if c.pc.err.Some? then Failed else Done)
  }

  lemma ToldStep(w: Workflow, c: Config, a: Action)
    requires EngineOk(w, c) && Told(c) && !a.Crash? && !a.Recover? && !a.Kill?
    ensures Told(After(w, c, a))
  {
    if IsLoop(a) { ToldByLoop(w, c, a); } else if IsExit(a) { ToldByExit(w, c, a); }
  }

  lemma ToldByLoop(w: Workflow, c: Config, a: Action)
    requires EngineOk(w, c) && Told(c) && IsLoop(a)
    ensures Told(After(w, c, a))
  {
  }

  lemma ToldByExit(w: Workflow, c: Config, a: Action)
    requires EngineOk(w, c) && Told(c) && IsExit(a)
    ensures Told(After(w, c, a))
  {
  }

  /** A run nobody kills ends suspended exactly if it detached, failed exactly if it ends with another
      error, and done exactly if with none. */
  lemma {:induction false} OutcomesTellTheEnd(w: Workflow, c: Config, more: seq<Action>)
    requires EngineOk(w, c) && Told(c) && SameHandle(more) && forall i :: 0 <= i < |more| ==> !more[i].Kill?
    ensures var n := Play(w, c, more);
      && Told(n)
      && (n.pc.Exited? ==>
            && (n.e.state == Suspended <==> IsDetached(n.pc.err))
            && (n.e.state == Failed <==> n.pc.err.Some? && !n.pc.err.value.Detached?)
            && (n.e.state == Done <==> n.pc.err.None?))
  {
    if more != [] {
      OutcomesTellTheEnd(w, c, more[..|more| - 1]);
      OutcomesAreAbsorbing(w, c, more[..|more| - 1]);
      ToldStep(w, Play(w, c, more[..|more| - 1]), more[|more| - 1]);
    }
  }

  // ---------------------------------------------------------------- the effect log

  /** What the log holds has run. */
  ghost predicate OnlyRan(c: Config) {
    && (forall k :: k in c.inst.effects ==> Times(c.ran, k) >= 1)
    && (forall k :: k in Recorded(c.record.snapshot) ==> Times(c.ran, k) >= 1)
    && (c.pc.Idle? && c.handle.FromRecord? ==> c.handle.record == c.record)
  }

  lemma OnlyRanStep(w: Workflow, c: Config, a: Action)
    requires EngineOk(w, c) && OnlyRan(c)
    ensures OnlyRan(After(w, c, a))
  {
    if IsLoop(a) { OnlyRanByLoop(w, c, a); } else if IsHandler(a) { OnlyRanByHandler(w, c, a); }
  }

  lemma OnlyRanByLoop(w: Workflow, c: Config, a: Action)
    requires OnlyRan(c) && IsLoop(a)
    ensures OnlyRan(After(w, c, a))
  {
    EncodedLog(c.inst);
  }

  lemma OnlyRanByHandler(w: Workflow, c: Config, a: Action)
    requires OnlyRan(c) && IsHandler(a)
    ensures OnlyRan(After(w, c, a))
  {
    EncodedLog(c.inst);
  }

  /** In every run, a key is in the log, live or durable, only if its effect has run. */
  lemma {:induction false} LoggedEffectsRan(w: Workflow, input: Blob, actions: seq<Action>)
    ensures OnlyRan(Play(w, Created(input), actions))
  {
    if actions != [] {
      LoggedEffectsRan(w, input, actions[..|actions| - 1]);
      PlayKeepsOk(w, Created(input), actions[..|actions| - 1]);
      OnlyRanStep(w, Play(w, Created(input), actions[..|actions| - 1]), actions[|actions| - 1]);
    }
  }

  // ---------------------------------------------------------------- what recovery gives back

  /** An effect, a change of durable state, and a checkpoint that lands. */
  function Save(k: Key, u: Blob, v: Blob): seq<Action> { [RunEffect(k, u), SetDurable(v)] + [AskCheckpoint, WriteMid(true)] }

  function Saved(i: Instance, k: Key, u: Blob, v: Blob): Instance { i.(effects := i.effects[k := u], durable := Some(v)) }

  lemma Saves(w: Workflow, c: Config, s: State, k: Key, u: Blob, v: Blob)
    requires Persists(w) && EngineOk(w, c) && c.pc == InHandler(s) && (c.e.state == Running || c.e.state == Suspended)
    requires c.inst.durable.Some? && k !in c.inst.effects
    ensures var n := Play(w, c, Save(k, u, v));
      && n == c.(inst := Saved(c.inst, k, u, v), ran := c.ran[k := Times(c.ran, k) + 1], record := n.record)
      && n.record == Record(Running, Some(s), Some(Encode(n.inst)), c.record.output)
  {
    PlayConcat(w, c, [RunEffect(k, u), SetDurable(v)], [AskCheckpoint, WriteMid(true)]);
    Acts(w, c, k, u, v);
    Checkpoints(w, Play(w, c, [RunEffect(k, u), SetDurable(v)]), s);
  }

  lemma Acts(w: Workflow, c: Config, k: Key, u: Blob, v: Blob)
    requires c.pc.InHandler? && c.inst.durable.Some? && k !in c.inst.effects
    ensures Play(w, c, [RunEffect(k, u), SetDurable(v)]) ==
            c.(inst := Saved(c.inst, k, u, v), ran := c.ran[k := Times(c.ran, k) + 1])
  {
    Two(w, c, RunEffect(k, u), SetDurable(v));
    assert After(w, c, RunEffect(k, u)) == c.(inst := c.inst.(effects := c.inst.effects[k := u]), ran := c.ran[k := Times(c.ran, k) + 1]);
  }

  lemma Checkpoints(w: Workflow, c: Config, s: State)
    requires Persists(w) && EngineOk(w, c) && c.pc == InHandler(s) && (c.e.state == Running || c.e.state == Suspended)
    ensures Play(w, c, [AskCheckpoint, WriteMid(true)]) ==
            c.(record := Record(Running, Some(s), Some(Encode(c.inst)), c.record.output))
  {
    Two(w, c, AskCheckpoint, WriteMid(true));
    assert After(w, c, AskCheckpoint) == c.(pc := PC.MidCheckpoint(s, s));
  }

  /** A new handle over a running checkpoint takes up its instance whole. */
  lemma TakesUp(w: Workflow, c: Config, s: State, i: Instance)
    requires c.record.status == Running && c.record.state == Some(s) && c.record.snapshot == Some(Encode(i))
    requires Registers(w.build, i)
    ensures var n := Play(w, c, [Crash, Start]);
      n.inst == i && n.pc == Boundary(Some(s)) && n.e.state == Running && n.run == c.run + 1
  {
    Two(w, c, Crash, Start);
    SnapshotRoundTrips(w.build, i);
    assert After(w, c, Crash) == Rehandled(c);
  }

  /** A crash loses nothing that was checkpointed: the next handle's run re-enters the state with the
      same input, every effect's value and the durable state as they were. */
  lemma CrashRestoresTheInstance(w: Workflow, c: Config, s: State, k: Key, u: Blob, v: Blob)
    requires Persists(w) && EngineOk(w, c) && c.pc == InHandler(s) && (c.e.state == Running || c.e.state == Suspended)
    requires c.inst.durable.Some? && k !in c.inst.effects && Registers(w.build, c.inst)
    ensures var n := Play(w, c, Save(k, u, v) + [Crash, Start]);
      && n.inst == c.inst.(effects := c.inst.effects[k := u], durable := Some(v))
      && n.pc == Boundary(Some(s)) && n.e.state == Running && n.run == c.run + 1
  {
    PlayConcat(w, c, Save(k, u, v), [Crash, Start]);
    Saves(w, c, s, k, u, v);
    TakesUp(w, Play(w, c, Save(k, u, v)), s, Saved(c.inst, k, u, v));
  }
}
