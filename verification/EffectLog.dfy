/** The framework half of a workflow instance: its recorded input, the durable effect log
    behind Do, its registered durable state, and the snapshot envelope that carries all three
    over a crash. Encoded values are opaque blobs; encoding and decoding one is the identity. */
module EffectLog {
  import opened Wrappers

  type Key = int
  type Blob = int

  /** What recovery has to rebuild. `durable` is None for an instance that registered nothing. */
  datatype Instance = Instance(input: Option<Blob>, effects: map<Key, Blob>, durable: Option<Blob>)

  /** The wire shape: an empty part is left out. */
  datatype Envelope = Envelope(input: Option<Blob>, effects: Option<map<Key, Blob>>, durable: Option<Blob>)

  function Encode(i: Instance): Envelope {
    Envelope(i.input, if i.effects == map[] then None else Some(i.effects), i.durable)
  }

  /** `built` is the instance as its constructor left it, with `env`'s input already bound. */
  function Decode(env: Envelope, built: Instance): Instance {
    Instance(env.input,
             if env.effects.Some? then env.effects.value else built.effects,
             if built.durable.Some? && env.durable.Some? then env.durable else built.durable)
  }

  /** A constructor: from the input, what durable state (if any) the instance starts with. */
  type Build = Option<Blob> -> Option<Blob>

  function Built(build: Build, input: Option<Blob>): Instance {
    Instance(input, map[], build(input))
  }

  /** A constructor registers durable state or not as a property of the workflow, whatever the input. */
  ghost predicate Registers(build: Build, i: Instance) {
    i.durable.Some? == build(i.input).Some?
  }

  /** Snapshot then recovery gives back the same input, effect log and durable state. */
  lemma SnapshotRoundTrips(build: Build, i: Instance)
    requires Registers(build, i)
    ensures Decode(Encode(i), Built(build, Encode(i).input)) == i
  {
  }

  /** The registration is what it takes: the round trip holds exactly for instances whose
      constructor registers durable state just when they have some. */
  lemma RoundTripExactly(build: Build, i: Instance)
    ensures Decode(Encode(i), Built(build, i.input)) == i
            <==> Registers(build, i)
  {
  }

  /** `small` is kept in `big`: every entry, with its value. */
  predicate Within(small: map<Key, Blob>, big: map<Key, Blob>) {
    forall k :: k in small ==> k in big && big[k] == small[k]
  }

  function Recorded(env: Option<Envelope>): map<Key, Blob> {
    if env.Some? && env.value.effects.Some? then env.value.effects.value else map[]
  }

  // ---------------------------------------------------------------- the world outside

  /** The task's checkpoint port and the effects' outside world, as one Do sees them. */
  class Outside {
    /** The snapshot of the last checkpoint that landed. */
    var saved: Option<Envelope>
    /** How often each effect has succeeded. */
    var ran: map<Key, nat>
    /** How often an effect has been attempted, and a checkpoint. */
    ghost var attempts: nat
    ghost var saves: nat

    constructor ()
      ensures saved == None && ran == map[]
    {
      saved, ran, attempts, saves := None, map[], 0, 0;
    }

    function Times(k: Key): nat
      reads this
    {
      if k in ran then ran[k] else 0
    }

    /** One attempt at an effect: it fails without trace, or succeeds with some result. */
    method Attempt(k: Key) returns (r: Option<Blob>)
      modifies this`ran, this`attempts
      ensures attempts == old(attempts) + 1
      ensures r.None? ==> ran == old(ran)
      ensures r.Some? ==> ran == old(ran)[k := old(Times(k)) + 1]
    {
      r, attempts := *, attempts + 1;
      if r.Some? { ran := ran[k := Times(k) + 1]; }
    }

    method Checkpoint(env: Envelope) returns (ok: bool)
      modifies this`saved, this`saves
      ensures saves == old(saves) + 1
      ensures saved == if ok then Some(env) else old(saved)
    {
      ok, saves := *, saves + 1;
      if ok { saved := Some(env); }
    }
  }

  datatype DoResult = Fresh(value: Blob) | Unsaved(value: Blob) | Replayed(value: Blob) | EffectFailed

  class Base {
    var input: Option<Blob>
    var effects: map<Key, Blob>
    var durable: Option<Blob>
    const outside: Outside

    ghost function View(): Instance
      reads this
    {
      Instance(input, effects, durable)
    }

    /** A fresh instance: built from the input, then bound. */
    constructor NewInstance(build: Build, raw: Blob, outside: Outside)
      ensures this.outside == outside && View() == Built(build, Some(raw))
      ensures input == Some(raw) && effects == map[] && durable == build(Some(raw))
    {
      this.outside := outside;
      input, effects, durable := Some(raw), map[], build(Some(raw));
    }

    /** A recovered instance: rebuilt from the recorded input, then restored. */
    constructor RestoreInstance(build: Build, env: Envelope, outside: Outside)
      ensures this.outside == outside && View() == Decode(env, Built(build, env.input))
      ensures Recorded(Some(env)) == effects
    {
      this.outside := outside;
      input, effects, durable := env.input, map[], build(env.input);
      new;
      if env.effects.Some? { effects := env.effects.value; }
      if durable.Some? && env.durable.Some? { durable := env.durable; }
    }

    method Snapshot() returns (env: Envelope)
      ensures env == Encode(View())
      ensures Recorded(Some(env)) == effects
    {
      env := Envelope(input, if effects == map[] then None else Some(effects), durable);
    }

    /** Runs the effect unless its result is recorded; records it in memory, then durably. */
    method Do(k: Key) returns (r: DoResult)
      modifies this`effects, outside
      ensures k in old(effects) ==> r == Replayed(old(effects)[k])
      ensures k in old(effects) ==> effects == old(effects) && outside.ran == old(outside.ran) && outside.saved == old(outside.saved)
      ensures k !in old(effects) ==> !r.Replayed?
      ensures r.EffectFailed? ==> effects == old(effects) && outside.ran == old(outside.ran) && outside.saved == old(outside.saved)
      ensures r.Fresh? || r.Unsaved? ==>
        && effects == old(effects)[k := r.value]
        && outside.ran == old(outside.ran)[k := old(outside.Times(k)) + 1]
      ensures r.Fresh? ==> outside.saved == Some(Encode(View())) && Recorded(outside.saved) == effects
      ensures r.Unsaved? ==> outside.saved == old(outside.saved)
      ensures outside.attempts == old(outside.attempts) + (if r.Replayed? then 0 else 1)
      ensures outside.saves == old(outside.saves) + (if r.Fresh? || r.Unsaved? then 1 else 0)
    {
      if k in effects { return Replayed(effects[k]); }
      var v := outside.Attempt(k);
      if v.None? { return EffectFailed; }
      effects := effects[k := v.value];
      var env := Snapshot();
      var ok := outside.Checkpoint(env);
      r := if ok then Fresh(v.value) else Unsaved(v.value);
    }

    // -------------------------------------------------------------- a handler under Retry

    /** The log has lost nothing since `log`, and no effect has run that it does not now hold,
        nor one it held already, nor any twice. */
    ghost predicate AtMostOnceSince(log: map<Key, Blob>, ran: map<Key, nat>)
      reads this, outside
    {
      && Within(log, effects)
      && forall k :: outside.Times(k) <=
           (if k in ran then ran[k] else 0) + (if k in effects && k !in log then 1 else 0)
    }

    /** One run of a handler: some effects through Do, in any order, repeats included, then an outcome. A
        failed Do may end it or be swallowed. */
    method Handle(keys: seq<Key>) returns (outcome: Outcome)
      modifies this`effects, outside
      ensures AtMostOnceSince(old(effects), old(outside.ran))
    {
      var i := 0;
      while i < |keys|
        invariant 0 <= i <= |keys|
        invariant AtMostOnceSince(old(effects), old(outside.ran))
      {
        var r := Do(keys[i]);
        var givesUp := *;
        if (r.Unsaved? || r.EffectFailed?) && givesUp { break; }
        i := i + 1;
      }
      outcome := *;
    }

    /** The retry policy: every run but the last failed and was worth retrying; it stops at the
        first success or permanent failure, else only out of attempts or cancelled. However many
        runs that takes, no effect runs twice and none already recorded runs at all. */
    method Retry(attempts: int, scripts: seq<seq<Key>>) returns (outcome: Outcome, cancelled: bool, ghost outcomes: seq<Outcome>)
      requires |scripts| >= if attempts > 1 then attempts else 1
      modifies this`effects, outside
      ensures AtMostOnceSince(old(effects), old(outside.ran))
      ensures 1 <= |outcomes| <= (if attempts > 1 then attempts else 1) && outcome == outcomes[|outcomes| - 1]
      ensures forall i :: 0 <= i < |outcomes| - 1 ==> outcomes[i] == Transient
      ensures outcome == Transient ==> |outcomes| >= attempts || cancelled
    {
      var runs := 0;
      outcomes := [];
      while true
        invariant 0 <= runs == |outcomes| && (runs > 0 ==> runs < attempts)
        invariant forall i :: 0 <= i < runs ==> outcomes[i] == Transient
        invariant AtMostOnceSince(old(effects), old(outside.ran))
        decreases attempts - runs
      {
        outcome := Handle(scripts[runs]);
        runs, outcomes := runs + 1, outcomes + [outcome];
        cancelled := false;
        if outcome == Success || outcome == Permanent { return; }
        cancelled := *;
        if runs >= attempts || cancelled { return; }
      }
    }
  }

  datatype Outcome = Success | Transient | Permanent

  /** The two halves together: what Snapshot wrote, RestoreInstance gives back. */
  method SnapshotThenRestore(build: Build, b: Base) returns (n: Base)
    requires Registers(build, b.View())
    ensures fresh(n) && n.View() == b.View() && n.outside == b.outside
  {
    var env := b.Snapshot();
    SnapshotRoundTrips(build, b.View());
    n := new Base.RestoreInstance(build, env, b.outside);
  }
}
