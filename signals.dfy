/** The signal/effect engine of src/signals.js.

    Every `createSignal` call makes a cell holding a value and a Set of
    subscriber effects; the module keeps one slot, `currentEffect`, naming the
    effect whose body is running. Here the cells are numbered: signal `s` has
    value `values[s]` and subscribers `subscribers[s]`, a duplicate-free
    sequence in insertion order (the iteration order of a JavaScript Set).
    Effects are numbered too: effect `e` is the wrapper closure that
    `createEffect` builds around its body, and `bodies[e]` is that body,
    abstracted to a fixed script of getter and setter calls.

    A body that calls a setter can re-run effects, which can call setters
    again, without bound; `fuel` is the depth of the call stack that is left.
    Running an effect with no fuel left stands for the stack overflow
    (a RangeError) that JavaScript throws: the operation fails and the
    failure propagates to the caller. */
module Signals {
  import opened Common

  type SignalId = nat
  type EffectId = nat

  /** One action of an effect body: call the getter or the setter of a signal. */
  datatype Step = Read(signal: SignalId) | Write(signal: SignalId, value: Value)

  type Script = seq<Step>

  /** The whole engine at one moment. `runs` is an observation, not program
      state: the effects invoked so far, in call order. */
  datatype State = State(
    values: seq<Value>,
    subscribers: seq<seq<EffectId>>,
    bodies: seq<Script>,
    current: Option<EffectId>,
    runs: seq<EffectId>)

  predicate NoDup(s: seq<EffectId>) {
    forall i, j :: 0 <= i < j < |s| ==> s[i] != s[j]
  }

  /** Every step of `body` names an existing signal. */
  predicate ScriptWellFormed(body: Script, signalCount: nat) {
    forall k :: 0 <= k < |body| ==> body[k].signal < signalCount
  }

  /** The engine invariant: one subscriber set per signal, each a set of
      existing effects, and bodies that name existing signals. */
  predicate WellFormed(st: State) {
    && |st.subscribers| == |st.values|
    && (forall t :: 0 <= t < |st.subscribers| ==> NoDup(st.subscribers[t]))
    && (forall t, k :: 0 <= t < |st.subscribers| && 0 <= k < |st.subscribers[t]| ==>
          st.subscribers[t][k] < |st.bodies|)
    && (forall e :: 0 <= e < |st.bodies| ==> ScriptWellFormed(st.bodies[e], |st.values|))
    && (st.current.Some? ==> st.current.value < |st.bodies|)
  }

  /** Nothing is ever removed: subscriber sets and the run log only get
      longer, no signal or effect appears or disappears. */
  predicate Grows(st: State, st': State) {
    && st'.bodies == st.bodies
    && |st'.values| == |st.values|
    && |st'.subscribers| == |st.subscribers|
    && (forall t :: 0 <= t < |st.subscribers| ==> st.subscribers[t] <= st'.subscribers[t])
    && st.runs <= st'.runs
  }

  /** `subscribers.add(currentEffect)` guarded by `if (currentEffect)`:
      Set insertion keeps the set duplicate-free and appends only new members. */
  function Track(subs: seq<EffectId>, current: Option<EffectId>): (r: seq<EffectId>)
    ensures forall x :: x in r <==> x in subs || current == Some(x)
    ensures current == None ==> r == subs
    ensures subs <= r && |r| <= |subs| + 1
    ensures NoDup(subs) ==> NoDup(r)
  {
    match current
    case None => subs
    case Some(e) => if e in subs then subs else subs + [e]
  }

  /** The set of the first `n` effect ids. */
  function EffectIds(n: nat): (ids: set<EffectId>)
    ensures forall e: EffectId :: e in ids <==> e < n
    ensures |ids| == n
  {
    if n == 0 then {} else EffectIds(n - 1) + {n - 1}
  }

  /** A duplicate-free sequence drawn from `ids` is no longer than `ids` is large. */
  lemma {:induction false} DistinctBounded(s: seq<EffectId>, ids: set<EffectId>)
    requires NoDup(s)
    requires forall k :: 0 <= k < |s| ==> s[k] in ids
    ensures |s| <= |ids|
  {
    if s != [] {
      assert forall k :: 0 <= k < |s[1..]| ==> s[1..][k] == s[k + 1];
      DistinctBounded(s[1..], ids - {s[0]});
    }
  }

  /** A signal has at most as many subscribers as there are effects. */
  lemma SubscribersBounded(st: State, t: SignalId)
    requires WellFormed(st) && t < |st.subscribers|
    ensures |st.subscribers[t]| <= |st.bodies|
  {
    DistinctBounded(st.subscribers[t], EffectIds(|st.bodies|));
  }

  // ---------------------------------------------------------------------
  // The semantics of the engine, as functions of the state.
  // ---------------------------------------------------------------------

  /** The getter of signal `s` (src/signals.js:9-15) as a state change: the
      running effect, if any, joins the subscriber set. The value returned is
      `st.values[s]`. */
  function Tracked(st: State, s: SignalId): (r: State)
    requires WellFormed(st) && s < |st.values|
    ensures WellFormed(r) && Grows(st, r)
    ensures r.values == st.values && r.current == st.current && r.runs == st.runs
  {
    st.(subscribers := st.subscribers[s := Track(st.subscribers[s], st.current)])
  }

  /** The wrapper closure of `createEffect` invoked once (src/signals.js:27-31):
      set the slot to this effect, run the body, set the slot to null. */
  function RunEffect(st: State, e: EffectId, fuel: nat): (r: Option<State>)
    requires WellFormed(st) && e < |st.bodies|
    ensures r.Some? ==> WellFormed(r.value) && Grows(st, r.value)
    ensures r.Some? ==> r.value.current == None
    ensures r.Some? ==> |st.runs| < |r.value.runs| && r.value.runs[|st.runs|] == e
    decreases fuel, 0
  {
    if fuel == 0 then None
    else
      var running := st.(current := Some(e), runs := st.runs + [e]);
      match ExecScript(running, st.bodies[e], fuel - 1)
      case None => None
      case Some(done) => Some(done.(current := None))
  }

  /** An effect body run step by step from state `st`. */
  function ExecScript(st: State, steps: Script, fuel: nat): (r: Option<State>)
    requires WellFormed(st) && ScriptWellFormed(steps, |st.values|)
    ensures r.Some? ==> WellFormed(r.value) && Grows(st, r.value)
    decreases fuel, 3, |steps|
  {
    if steps == [] then Some(st)
    else
      match ExecStep(st, steps[0], fuel)
      case None => None
      case Some(st') => ExecScript(st', steps[1..], fuel)
  }

  /** A non-empty script is its first step followed by the rest. */
  lemma ExecScriptUnfold(st: State, steps: Script, fuel: nat)
    requires WellFormed(st) && ScriptWellFormed(steps, |st.values|) && steps != []
    ensures steps[0].signal < |st.values| && ScriptWellFormed(steps[1..], |st.values|)
    ensures ExecScript(st, steps, fuel) == match ExecStep(st, steps[0], fuel)
      case None => None
      case Some(st') => ExecScript(st', steps[1..], fuel)
  {
    assert forall k :: 0 <= k < |steps[1..]| ==> steps[1..][k] == steps[k + 1];
  }

  /** One getter or setter call made by an effect body. */
  function ExecStep(st: State, step: Step, fuel: nat): (r: Option<State>)
    requires WellFormed(st) && step.signal < |st.values|
    ensures r.Some? ==> WellFormed(r.value) && Grows(st, r.value)
    decreases fuel, 2, 1
  {
    match step
    case Read(s) => Some(Tracked(st, s))
    case Write(s, v) => SetSignal(st, s, v, fuel)
  }

  /** The setter of signal `s` (src/signals.js:17-20): overwrite the value,
      with no comparison against the old one, then call the subscribers. */
  function SetSignal(st: State, s: SignalId, v: Value, fuel: nat): (r: Option<State>)
    requires WellFormed(st) && s < |st.values|
    ensures r.Some? ==> WellFormed(r.value) && Grows(st, r.value)
    ensures r.Some? && st.subscribers[s] != [] ==> r.value.current == None
    ensures st.subscribers[s] == [] ==> r == Some(st.(values := st.values[s := v]))
    decreases fuel, 2, 0
  {
    Notify(st.(values := st.values[s := v]), s, 0, fuel)
  }

  /** `subscribers.forEach(fn => fn())` from position `i` on. The Set is
      live: an effect added while the loop runs is visited too, so the bound
      is re-read after every call. */
  function Notify(st: State, s: SignalId, i: nat, fuel: nat): (r: Option<State>)
    requires WellFormed(st) && s < |st.values| && i <= |st.subscribers[s]|
    ensures r.Some? ==> WellFormed(r.value) && Grows(st, r.value)
    ensures r.Some? && i < |st.subscribers[s]| ==> r.value.current == None
    ensures i == |st.subscribers[s]| ==> r == Some(st)
    decreases fuel, 1, |st.bodies| - i
  {
    if i == |st.subscribers[s]| then Some(st)
    else
      SubscribersBounded(st, s);
      match RunEffect(st, st.subscribers[s][i], fuel)
      case None => None
      case Some(st') => Notify(st', s, i + 1, fuel)
  }

  /** `createEffect(fn)` (src/signals.js:26-34): a new effect is made and run
      once, synchronously, before `createEffect` returns; it returns nothing
      that could dispose of the effect. */
  function EffectCreated(st: State, body: Script, fuel: nat): (r: Option<State>)
    requires WellFormed(st) && ScriptWellFormed(body, |st.values|)
    ensures r.Some? ==> WellFormed(r.value) && r.value.bodies == st.bodies + [body]
    ensures r.Some? ==> r.value.current == None
    ensures r.Some? ==> |st.runs| < |r.value.runs| && r.value.runs[|st.runs|] == |st.bodies|
  {
    RunEffect(st.(bodies := st.bodies + [body]), |st.bodies|, fuel)
  }

  // ---------------------------------------------------------------------
  // The engine as the source has it: state updated in place.
  // ---------------------------------------------------------------------

  class Engine {
    var values: seq<Value>
    var subscribers: seq<seq<EffectId>>
    var bodies: seq<Script>
    /** `currentEffect` (src/signals.js:3). */
    var current: Option<EffectId>
    ghost var runs: seq<EffectId>

    ghost function Snapshot(): State
      reads this
    {
      State(values, subscribers, bodies, current, runs)
    }

    ghost predicate Valid()
      reads this
    {
      WellFormed(Snapshot())
    }

    /** Module load: no signals, no effects, `currentEffect = null`. */
    constructor ()
      ensures Valid()
      ensures Snapshot() == State([], [], [], None, [])
    {
      values, subscribers, bodies, current := [], [], [], None;
      runs := [];
    }

    /** `createSignal(value)` (src/signals.js:6-23): a new cell holding
        `value` with an empty subscriber set. */
    method CreateSignal(v: Value) returns (s: SignalId)
      requires Valid()
      modifies this
      ensures Valid()
      ensures s == |old(values)|
      ensures Snapshot() == old(Snapshot()).(values := old(values) + [v],
                                            subscribers := old(subscribers) + [[]])
    {
      s := |values|;
      values := values + [v];
      subscribers := subscribers + [[]];
    }

    /** The getter (src/signals.js:9-15). */
    method Get(s: SignalId) returns (v: Value)
      requires Valid() && s < |values|
      modifies this
      ensures Valid()
      ensures v == old(values[s])
      ensures Snapshot() == Tracked(old(Snapshot()), s)
    {
      if current.Some? && current.value !in subscribers[s] {
        subscribers := subscribers[s := subscribers[s] + [current.value]];
      }
      v := values[s];
    }

    /** The setter (src/signals.js:17-20). `ok` is false when the call stack
        overflowed somewhere below. */
    method Set(s: SignalId, v: Value, fuel: nat) returns (ok: bool)
      requires Valid() && s < |values|
      modifies this
      ensures Valid() && bodies == old(bodies) && |values| == |old(values)|
      ensures ok == SetSignal(old(Snapshot()), s, v, fuel).Some?
      ensures ok ==> Snapshot() == SetSignal(old(Snapshot()), s, v, fuel).value
      decreases fuel, 2, 0
    {
      values := values[s := v];
      ok := true;
      var i := 0;
      while i < |subscribers[s]|
        invariant Valid() && bodies == old(bodies) && |values| == |old(values)|
        invariant i <= |subscribers[s]|
        invariant Notify(Snapshot(), s, i, fuel) == SetSignal(old(Snapshot()), s, v, fuel)
        decreases |bodies| - i
      {
        SubscribersBounded(Snapshot(), s);
        ok := Run(subscribers[s][i], fuel);
        if !ok {
          return;
        }
        i := i + 1;
      }
    }

    /** One invocation of an effect's wrapper closure (src/signals.js:27-31).
        When the body fails, the slot is left pointing at the effect, as the
        source leaves it when `fn()` throws. */
    method Run(e: EffectId, fuel: nat) returns (ok: bool)
      requires Valid() && e < |bodies|
      modifies this
      ensures Valid() && bodies == old(bodies) && |values| == |old(values)|
      ensures ok == RunEffect(old(Snapshot()), e, fuel).Some?
      ensures ok ==> Snapshot() == RunEffect(old(Snapshot()), e, fuel).value
      decreases fuel, 0
    {
      if fuel == 0 {
        return false;
      }
      current := Some(e);
      runs := runs + [e];
      ok := Execute(bodies[e], fuel - 1);
      if ok {
        current := None;
      }
    }

    /** The body of a running effect, step by step. */
    method Execute(body: Script, fuel: nat) returns (ok: bool)
      requires Valid() && ScriptWellFormed(body, |values|)
      modifies this
      ensures Valid() && bodies == old(bodies) && |values| == |old(values)|
      ensures ok == ExecScript(old(Snapshot()), body, fuel).Some?
      ensures ok ==> Snapshot() == ExecScript(old(Snapshot()), body, fuel).value
      decreases fuel, 3, |body|
    {
      var k := 0;
      while k < |body|
        invariant Valid() && bodies == old(bodies) && |values| == |old(values)|
        invariant k <= |body|
        invariant ScriptWellFormed(body[k..], |values|)
        invariant ExecScript(Snapshot(), body[k..], fuel) == ExecScript(old(Snapshot()), body, fuel)
      {
        ExecScriptUnfold(Snapshot(), body[k..], fuel);
        assert body[k..][0] == body[k] && body[k..][1..] == body[k + 1..];
        ok := Perform(body[k], fuel);
        if !ok {
          return;
        }
        k := k + 1;
      }
      ok := true;
    }

    /** One getter or setter call made by a running effect body. */
    method Perform(step: Step, fuel: nat) returns (ok: bool)
      requires Valid() && step.signal < |values|
      modifies this
      ensures Valid() && bodies == old(bodies) && |values| == |old(values)|
      ensures ok == ExecStep(old(Snapshot()), step, fuel).Some?
      ensures ok ==> Snapshot() == ExecStep(old(Snapshot()), step, fuel).value
      decreases fuel, 2, 1
    {
      match step {
        case Read(s) =>
          var ignored := Get(s);
          ok := true;
        case Write(s, v) =>
          ok := Set(s, v, fuel);
      }
    }

    /** `createEffect(fn)` (src/signals.js:26-34). */
    method CreateEffect(body: Script, fuel: nat) returns (ok: bool)
      requires Valid() && ScriptWellFormed(body, |values|)
      modifies this
      ensures Valid() && bodies == old(bodies) + [body] && |values| == |old(values)|
      ensures ok == EffectCreated(old(Snapshot()), body, fuel).Some?
      ensures ok ==> Snapshot() == EffectCreated(old(Snapshot()), body, fuel).value
    {
      bodies := bodies + [body];
      ok := Run(|bodies| - 1, fuel);
    }
  }
}
