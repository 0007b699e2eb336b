/** What src/signals.js promises, proved about the engine's semantics in
    module Signals. The methods of `Signals.Engine` are proved equal to those
    functions, so every fact here holds of the imperative engine as well. */
module SignalProperties {
  import opened Common
  import opened Signals

  // ---------------------------------------------------------------------
  // Values: the setter is the only writer.
  // ---------------------------------------------------------------------

  /** Some step of `steps` calls the setter of signal `t`. */
  predicate WritesTo(steps: Script, t: SignalId) {
    exists k :: 0 <= k < |steps| && steps[k].Write? && steps[k].signal == t
  }

  /** No effect invoked on the way from `before` to `after` (the runs logged
      after `before`'s) has a body that calls the setter of signal `t`. */
  predicate Quiet(bodies: seq<Script>, before: State, after: State, t: SignalId) {
    forall k :: |before.runs| <= k < |after.runs| && after.runs[k] < |bodies| ==>
      !WritesTo(bodies[after.runs[k]], t)
  }

  /** A quiet stretch of runs is quiet in each of its parts. */
  lemma QuietSplit(bodies: seq<Script>, a: State, b: State, c: State, t: SignalId)
    requires a.runs <= b.runs <= c.runs
    requires Quiet(bodies, a, c, t)
    ensures Quiet(bodies, a, b, t) && Quiet(bodies, b, c, t)
  {
    forall k | |a.runs| <= k < |b.runs|
      ensures b.runs[k] == c.runs[k]
    {
    }
  }

  /** Running an effect leaves alone every signal that no effect run on the
      way sets. */
  lemma {:induction false} RunEffectKeepsValue(st: State, e: EffectId, fuel: nat, t: SignalId)
    requires WellFormed(st) && e < |st.bodies| && t < |st.values|
    requires RunEffect(st, e, fuel).Some?
    requires Quiet(st.bodies, st, RunEffect(st, e, fuel).value, t)
    ensures RunEffect(st, e, fuel).value.values[t] == st.values[t]
    decreases fuel, 0
  {
    var r := RunEffect(st, e, fuel).value;
    var running := st.(current := Some(e), runs := st.runs + [e]);
    assert !WritesTo(st.bodies[e], t) by {
      assert r.runs[|st.runs|] == e;
    }
    var done := ExecScript(running, st.bodies[e], fuel - 1).value;
    assert r == done.(current := None);
    ExecScriptKeepsValue(running, st.bodies[e], fuel - 1, t);
  }

  /** Running a script that does not set `t` leaves `t` alone, provided no
      effect it triggers sets `t` either. */
  lemma {:induction false} ExecScriptKeepsValue(st: State, steps: Script, fuel: nat, t: SignalId)
    requires WellFormed(st) && ScriptWellFormed(steps, |st.values|) && t < |st.values|
    requires !WritesTo(steps, t)
    requires ExecScript(st, steps, fuel).Some?
    requires Quiet(st.bodies, st, ExecScript(st, steps, fuel).value, t)
    ensures ExecScript(st, steps, fuel).value.values[t] == st.values[t]
    decreases fuel, 3, |steps|
  {
    if steps != [] {
      var r := ExecScript(st, steps, fuel).value;
      var next := ExecStep(st, steps[0], fuel).value;
      QuietSplit(st.bodies, st, next, r, t);
      match steps[0] {
        case Read(s) =>
        case Write(s, v) =>
          assert s != t by { assert steps[0].Write? && steps[0].signal == s; }
          SetSignalValue(st, s, v, fuel, t);
      }
      assert !WritesTo(steps[1..], t) by {
        forall k | 0 <= k < |steps[1..]| ensures !(steps[1..][k].Write? && steps[1..][k].signal == t) {
          assert steps[1..][k] == steps[k + 1];
        }
      }
      ExecScriptKeepsValue(next, steps[1..], fuel, t);
    }
  }

  /** After `set(v)` on `s`, every signal that no effect run by the set
      sets holds what it held before, and `s` itself holds `v`: the getter
      returns the value most recently passed to the setter. */
  lemma {:induction false} SetSignalValue(st: State, s: SignalId, v: Value, fuel: nat, t: SignalId)
    requires WellFormed(st) && s < |st.values| && t < |st.values|
    requires SetSignal(st, s, v, fuel).Some?
    requires Quiet(st.bodies, st, SetSignal(st, s, v, fuel).value, t)
    ensures SetSignal(st, s, v, fuel).value.values[t] == if t == s then v else st.values[t]
    decreases fuel, 2, 0
  {
    NotifyKeepsValue(st.(values := st.values[s := v]), s, 0, fuel, t);
  }

  /** Calling the subscribers leaves alone every signal that none of the
      effects run sets. */
  lemma {:induction false} NotifyKeepsValue(st: State, s: SignalId, i: nat, fuel: nat, t: SignalId)
    requires WellFormed(st) && s < |st.values| && i <= |st.subscribers[s]| && t < |st.values|
    requires Notify(st, s, i, fuel).Some?
    requires Quiet(st.bodies, st, Notify(st, s, i, fuel).value, t)
    ensures Notify(st, s, i, fuel).value.values[t] == st.values[t]
    decreases fuel, 1, |st.bodies| - i
  {
    if i < |st.subscribers[s]| {
      SubscribersBounded(st, s);
      var e := st.subscribers[s][i];
      var next := RunEffect(st, e, fuel).value;
      QuietSplit(st.bodies, st, next, Notify(st, s, i, fuel).value, t);
      RunEffectKeepsValue(st, e, fuel, t);
      NotifyKeepsValue(next, s, i + 1, fuel, t);
    }
  }

  /** `createEffect` leaves alone every signal that none of the effects it
      runs sets, the new one first among them: the getter of a signal keeps
      returning the value it was created with until an effect or a caller
      sets it. */
  lemma EffectCreatedKeepsValue(st: State, body: Script, fuel: nat, t: SignalId)
    requires WellFormed(st) && ScriptWellFormed(body, |st.values|) && t < |st.values|
    requires EffectCreated(st, body, fuel).Some?
    requires Quiet(st.bodies + [body], st, EffectCreated(st, body, fuel).value, t)
    ensures EffectCreated(st, body, fuel).value.values[t] == st.values[t]
  {
    RunEffectKeepsValue(st.(bodies := st.bodies + [body]), |st.bodies|, fuel, t);
  }

  // ---------------------------------------------------------------------
  // Notification: every subscriber, in insertion order, with no equality test.
  // ---------------------------------------------------------------------

  /** `a` occurs in `b` in order, possibly with other entries in between. */
  predicate Subseq(a: seq<EffectId>, b: seq<EffectId>)
    decreases |b|
  {
    a == [] || (b != [] && ((a[0] == b[0] && Subseq(a[1..], b[1..])) || Subseq(a, b[1..])))
  }

  lemma {:induction false} SubseqOfPrefix(a: seq<EffectId>, a': seq<EffectId>, b: seq<EffectId>)
    requires Subseq(a, b) && a' <= a
    ensures Subseq(a', b)
    decreases |b|
  {
    if a' != [] {
      if a[0] == b[0] && Subseq(a[1..], b[1..]) {
        SubseqOfPrefix(a[1..], a'[1..], b[1..]);
      } else {
        SubseqOfPrefix(a, a', b[1..]);
      }
    }
  }

  lemma {:induction false} SubseqWiden(a: seq<EffectId>, x: seq<EffectId>, c: seq<EffectId>)
    requires Subseq(a, c)
    ensures Subseq(a, x + c)
    decreases |x|
  {
    if x != [] {
      SubseqWiden(a, x[1..], c);
      var b := x + c;
      assert b[1..] == x[1..] + c;
      assert a != [] ==> b != [] && Subseq(a, b[1..]);
    } else {
      assert x + c == c;
    }
  }

  lemma {:induction false} SubseqMember(a: seq<EffectId>, b: seq<EffectId>, e: EffectId)
    requires Subseq(a, b) && e in a
    ensures e in b
    decreases |b|
  {
    if a[0] == b[0] && Subseq(a[1..], b[1..]) {
      if e != a[0] {
        SubseqMember(a[1..], b[1..], e);
      }
    } else {
      SubseqMember(a, b[1..], e);
    }
  }

  /** The effects run by `Notify` from position `i` contain, in order, every
      subscriber from position `i` on that was present when it started. */
  lemma {:induction false} NotifyRunsInOrder(st: State, s: SignalId, i: nat, fuel: nat)
    requires WellFormed(st) && s < |st.values| && i <= |st.subscribers[s]|
    requires Notify(st, s, i, fuel).Some?
    ensures Subseq(st.subscribers[s][i..], Notify(st, s, i, fuel).value.runs[|st.runs|..])
    decreases fuel, 1, |st.bodies| - i
  {
    if i < |st.subscribers[s]| {
      SubscribersBounded(st, s);
      var e := st.subscribers[s][i];
      var st1 := RunEffect(st, e, fuel).value;
      var st2 := Notify(st1, s, i + 1, fuel).value;
      assert st2 == Notify(st, s, i, fuel).value;
      var rest := st.subscribers[s][i + 1..];
      NotifyRunsInOrder(st1, s, i + 1, fuel);
      SubseqOfPrefix(st1.subscribers[s][i + 1..], rest, st2.runs[|st1.runs|..]);
      var between := st1.runs[|st.runs| + 1..];
      SubseqWiden(rest, between, st2.runs[|st1.runs|..]);
      var log := st2.runs[|st.runs|..];
      assert log == [e] + (between + st2.runs[|st1.runs|..]);
      assert st.subscribers[s][i..] == [e] + rest;
    }
  }

  /** `set` calls every current subscriber, in insertion order, whatever the
      new value is. */
  lemma SetRunsEverySubscriber(st: State, s: SignalId, v: Value, fuel: nat)
    requires WellFormed(st) && s < |st.values|
    requires SetSignal(st, s, v, fuel).Some?
    ensures Subseq(st.subscribers[s], SetSignal(st, s, v, fuel).value.runs[|st.runs|..])
  {
    NotifyRunsInOrder(st.(values := st.values[s := v]), s, 0, fuel);
  }

  /** No equality short-circuit: setting a signal to the value it already
      holds still runs its subscribers. */
  lemma SameValueStillNotifies(st: State, s: SignalId, fuel: nat)
    requires WellFormed(st) && s < |st.values| && st.subscribers[s] != []
    requires SetSignal(st, s, st.values[s], fuel).Some?
    ensures st.subscribers[s][0] in SetSignal(st, s, st.values[s], fuel).value.runs[|st.runs|..]
  {
    SetRunsEverySubscriber(st, s, st.values[s], fuel);
    SubseqMember(st.subscribers[s], SetSignal(st, s, st.values[s], fuel).value.runs[|st.runs|..],
                 st.subscribers[s][0]);
  }

  /** Once an effect is subscribed to a signal (it read the signal while it
      was running), every later set of that signal runs it again. */
  lemma SubscriberRerunsOnSet(st: State, s: SignalId, v: Value, fuel: nat, e: EffectId)
    requires WellFormed(st) && s < |st.values| && e in st.subscribers[s]
    requires SetSignal(st, s, v, fuel).Some?
    ensures e in SetSignal(st, s, v, fuel).value.runs[|st.runs|..]
  {
    SetRunsEverySubscriber(st, s, v, fuel);
    SubseqMember(st.subscribers[s], SetSignal(st, s, v, fuel).value.runs[|st.runs|..], e);
  }

  // ---------------------------------------------------------------------
  // Tracking: which reads subscribe which effect.
  // ---------------------------------------------------------------------

  /** Every step of `steps` is a getter call. */
  predicate ReadOnly(steps: Script) {
    forall k :: 0 <= k < |steps| ==> steps[k].Read?
  }

  /** The signals whose getters `steps` calls. */
  function ReadsOf(steps: Script): (r: set<SignalId>)
    ensures forall t :: t in r <==> exists k :: 0 <= k < |steps| && steps[k] == Read(t)
  {
    if steps == [] then {}
    else
      var rest := ReadsOf(steps[1..]);
      assert forall k :: 0 < k < |steps| ==> steps[1..][k - 1] == steps[k];
      match steps[0]
      case Read(t) => {t} + rest
      case Write(_, _) => rest
  }

  /** A script of getter calls changes nothing but the subscriber sets, and
      signal `t` gains the running effect exactly when the script reads `t`. */
  lemma {:induction false} ReadOnlyScript(st: State, steps: Script, fuel: nat)
    requires WellFormed(st) && ScriptWellFormed(steps, |st.values|) && ReadOnly(steps)
    ensures ExecScript(st, steps, fuel).Some?
    ensures ExecScript(st, steps, fuel).value.values == st.values
    ensures ExecScript(st, steps, fuel).value.current == st.current
    ensures ExecScript(st, steps, fuel).value.runs == st.runs
    ensures forall t :: 0 <= t < |st.subscribers| ==>
      ExecScript(st, steps, fuel).value.subscribers[t]
        == if t in ReadsOf(steps) then Track(st.subscribers[t], st.current) else st.subscribers[t]
    decreases |steps|
  {
    if steps != [] {
      var next := Tracked(st, steps[0].signal);
      assert ExecStep(st, steps[0], fuel) == Some(next);
      assert ReadOnly(steps[1..]) by {
        forall k | 0 <= k < |steps[1..]| ensures steps[1..][k].Read? {
          assert steps[1..][k] == steps[k + 1];
        }
      }
      ReadOnlyScript(next, steps[1..], fuel);
      forall t | 0 <= t < |st.subscribers|
        ensures ExecScript(st, steps, fuel).value.subscribers[t]
          == if t in ReadsOf(steps) then Track(st.subscribers[t], st.current) else st.subscribers[t]
      {
        TrackTwice(st.subscribers[t], st.current);
      }
    }
  }

  /** Reading twice from the same effect subscribes it once: a Set has no duplicates. */
  lemma TrackTwice(subs: seq<EffectId>, current: Option<EffectId>)
    ensures Track(Track(subs, current), current) == Track(subs, current)
  {
  }

  /** An effect whose body only reads runs exactly once, leaves the slot
      null, and afterwards is subscribed to exactly the signals it was
      subscribed to before plus those it read. */
  lemma ReadOnlyRun(st: State, e: EffectId, fuel: nat)
    requires WellFormed(st) && e < |st.bodies| && ReadOnly(st.bodies[e]) && fuel > 0
    ensures RunEffect(st, e, fuel).Some?
    ensures RunEffect(st, e, fuel).value.runs == st.runs + [e]
    ensures RunEffect(st, e, fuel).value.values == st.values
    ensures RunEffect(st, e, fuel).value.current == None
    ensures forall t :: 0 <= t < |st.subscribers| ==>
      RunEffect(st, e, fuel).value.subscribers[t]
        == if t in ReadsOf(st.bodies[e]) then Track(st.subscribers[t], Some(e)) else st.subscribers[t]
  {
    ReadOnlyScript(st.(current := Some(e), runs := st.runs + [e]), st.bodies[e], fuel - 1);
  }

  /** Re-running an effect that already subscribed to everything it reads
      re-registers the same effect object: no subscriber set changes. */
  lemma RerunKeepsSubscribers(st: State, e: EffectId, fuel: nat)
    requires WellFormed(st) && e < |st.bodies| && ReadOnly(st.bodies[e]) && fuel > 0
    requires forall t :: t in ReadsOf(st.bodies[e]) ==> t < |st.subscribers| && e in st.subscribers[t]
    ensures RunEffect(st, e, fuel) == Some(st.(current := None, runs := st.runs + [e]))
  {
    ReadOnlyRun(st, e, fuel);
    var r := RunEffect(st, e, fuel).value;
    assert r.subscribers == st.subscribers;
  }

  /** `createEffect` with a body that only reads runs that body exactly once
      before returning. */
  lemma CreateReadOnlyEffectRunsOnce(st: State, body: Script, fuel: nat)
    requires WellFormed(st) && ScriptWellFormed(body, |st.values|) && ReadOnly(body) && fuel > 0
    ensures EffectCreated(st, body, fuel).Some?
    ensures EffectCreated(st, body, fuel).value.runs == st.runs + [|st.bodies|]
  {
    ReadOnlyRun(st.(bodies := st.bodies + [body]), |st.bodies|, fuel);
  }

  /** The slot is cleared, not restored: once a set inside an effect body has
      run a subscriber, a following read in the same body is not tracked. */
  lemma ReadAfterNotifyingSetUntracked(st: State, s: SignalId, v: Value, t: SignalId, fuel: nat)
    requires WellFormed(st) && s < |st.values| && t < |st.values| && st.subscribers[s] != []
    requires SetSignal(st, s, v, fuel).Some?
    ensures ExecScript(st, [Write(s, v), Read(t)], fuel) == SetSignal(st, s, v, fuel)
  {
    var after := SetSignal(st, s, v, fuel).value;
    assert [Write(s, v), Read(t)][1..] == [Read(t)];
    assert Tracked(after, t) == after;
    assert ExecScript(after, [Read(t)], fuel) == Some(after) by {
      assert [Read(t)][1..] == [];
    }
  }
}
