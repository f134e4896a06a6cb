/** Stretches of a run that go one way only, for the runs exhibited elsewhere. */
module EngineWalks {
  import opened Wrappers
  import opened EffectLog
  import opened EngineModel
  import opened EngineTheorems

  lemma One(w: Workflow, c: Config, a: Action)
    ensures Play(w, c, [a]) == After(w, c, a)
  {
    PlayOne(w, c, [], a);
    assert [] + [a] == [a];
  }

  lemma Two(w: Workflow, c: Config, a: Action, b: Action)
    ensures Play(w, c, [a, b]) == After(w, After(w, c, a), b)
  {
    PlayOne(w, c, [], a);
    PlayOne(w, c, [a], b);
    assert [] + [a] == [a] && [a] + [b] == [a, b];
  }

  /** From a boundary into the next state's handler. */
  function GoIn(): seq<Action> { [TakeBoundary, Proceed(None)] + [WriteRunning(true), Enter] }

  lemma Proceeds(w: Workflow, c: Config, s: State)
    requires c.pc == Boundary(Some(s)) && s in w.states && c.e.state == Running
    ensures Play(w, c, [TakeBoundary, Proceed(None)]) == c.(e := c.e.(current := None), pc := RunningCheckpoint(s))
  {
    Two(w, c, TakeBoundary, Proceed(None));
    assert After(w, c, TakeBoundary) == c.(e := c.e.(current := None), pc := Past(Some(s)));
  }

  lemma ChecksIn(w: Workflow, c: Config, s: State)
    requires c.pc == RunningCheckpoint(s)
    ensures Play(w, c, [WriteRunning(true), Enter]) ==
            Checkpointed(w, c, Running, s, true).(
              e := c.e.(current := Some(s)), pc := InHandler(s), trail := c.trail + [Entry(c.run, s, None)])
  {
    Two(w, c, WriteRunning(true), Enter);
    assert After(w, c, WriteRunning(true)) == Checkpointed(w, c, Running, s, true).(pc := PC.Entering(s));
  }

  lemma GoesIn(w: Workflow, c: Config, s: State)
    requires c.pc == Boundary(Some(s)) && s in w.states && c.e.state == Running
    ensures Play(w, c, GoIn()) ==
            Checkpointed(w, c, Running, s, true).(
              e := c.e.(current := Some(s)), pc := InHandler(s), trail := c.trail + [Entry(c.run, s, None)])
  {
    PlayConcat(w, c, [TakeBoundary, Proceed(None)], [WriteRunning(true), Enter]);
    Proceeds(w, c, s);
    ChecksIn(w, c.(e := c.e.(current := None), pc := RunningCheckpoint(s)), s);
  }

  /** The way out of a failed run whose stamp lands. */
  function WindUp(): seq<Action> { [Finish, Stamp(true)] + [TearDown] }

  lemma WindsUp(w: Workflow, c: Config, why: RunError)
    requires c.pc == Finishing(Some(why)) && w.stores && !c.e.detachDone && c.e.state != Killed
    ensures Play(w, c, WindUp()) ==
            c.(e := c.e.(state := Failed), record := c.record.(status := Failed, output := c.e.output),
               pc := Exited(Some(why)), teardowns := c.teardowns + 1)
  {
    Two(w, c, Finish, Stamp(true));
    assert After(w, c, Finish) == c.(e := c.e.(state := Failed), pc := Stamping(Some(why), Failed, c.e.output));
    PlayOne(w, c, [Finish, Stamp(true)], TearDown);
  }
}
