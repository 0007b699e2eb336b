# hamstajs: the signal engine and the `h-signals` registry

This project models the two stateful pieces of hamstajs, a small client-side
reactivity library, and proves what they do.

- **The signal/effect engine** (`src/signals.js`). `createSignal(value)`
  makes a cell with a getter and a setter. The getter subscribes the running
  effect, if there is one. The setter overwrites the value and calls every
  subscriber. `createEffect(fn)` runs `fn` once, with the module-level slot
  `currentEffect` pointing at it during the run. Every getter it calls before
  any nested effect run subscribes it. A set inside the body that runs a
  subscriber leaves the slot `null`, so later getter calls in that body
  subscribe nothing.
- **The named-signal registry** (`src/directives.js`). `init` reads the
  `h-signals` attribute of each element in document order, evaluates it to an
  object and creates one named signal per key. The first registration of a
  name wins. The source departs from this for names inherited from
  Object.prototype and for a text that evaluates to null or undefined (see
  Findings). The rows marked "corrected" below model the pass with those two
  defects fixed. The pass as the source writes it is modelled separately.

Files:

- `common.dfy`: module `Common`, holding `Option` and the JavaScript values signals hold.
- `signals.dfy`: module `Signals`. It has the engine's semantics as functions on a `State`, and the class `Engine`, whose methods update the state in place as the source does and are proved equal to those functions.
- `signal_properties.dfy`: module `SignalProperties`, the lemmas about the engine.
- `directives.dfy`: module `Directives`. It has the registration pass as functions, the class `Registry` with the `Init` loop, the lemmas, and the pass as the source writes it (see Findings).

How the model is built:

- Signals and effects are numbered. Signal `s` holds `values[s]` and its subscribers `subscribers[s]`. The subscribers are a duplicate-free sequence in insertion order, which is how a JavaScript `Set` iterates.
- Effect `e` is the wrapper closure `createEffect` builds, and `bodies[e]` is its body.
- A body is a fixed script of getter calls (`Read(s)`) and setter calls (`Write(s, v)`).
- The setter walks the live subscriber sequence by position. `Set.prototype.forEach` also visits entries added while it runs, and nothing is ever removed.
- A setter called inside a body can re-run effects without bound. `fuel` is the call-stack depth left. Running an effect with no fuel left stands for JavaScript's stack overflow: the operation fails (`None`, or `ok == false`) and the failure propagates to the caller.
- The ghost log `runs` records every effect invocation in call order, so that "calls every subscriber, in order" can be stated.

Behaviour of the code worth knowing:

- The setter has no equality short-circuit.
- Dependencies are never cleaned up before a re-run.
- `createEffect` returns no disposer.
- The slot is reset to `null` after a run, not restored to the outer effect.
- There is no teardown of the registry.

## Model

| member | source | states |
|---|---|---|
| Signals.Track | src/signals.js:10-12 | a read adds the running effect to the subscriber set and nothing else; with no running effect the set is unchanged; the set stays duplicate-free and old entries keep their order |
| Signals.Tracked | src/signals.js:9-15 | a getter call changes only the read signal's subscriber set: no value, no slot, no run changes |
| Signals.SubscribersBounded | src/signals.js:7 | because subscribers form a Set, a signal has at most one entry per existing effect |
| Signals.RunEffect | src/signals.js:27-31 | an effect run that finishes leaves `currentEffect` null, never removes a subscriber, and its own invocation is the first run it logs |
| Signals.ExecScript | src/signals.js:29 | running a body keeps the engine invariant and removes no subscriber |
| Signals.ExecStep | src/signals.js:29 | one getter or setter call from a body keeps the invariant and removes no subscriber |
| Signals.SetSignal | src/signals.js:17-20 | a set on a signal with no subscribers only replaces its value; once any subscriber has run, the slot is null |
| Signals.Notify | src/signals.js:19 | the subscriber loop removes no subscriber, and after it has called anyone the slot is null |
| Signals.EffectCreated | src/signals.js:26-34 | `createEffect` registers one new effect and runs it synchronously before returning, leaving the slot null |
| Signals.Engine.constructor | src/signals.js:3 | at module load there are no signals and no effects, and `currentEffect` is null |
| Signals.Engine.CreateSignal | src/signals.js:6-8 | a new signal holds the initial value and has no subscribers; nothing else changes |
| Signals.Engine.Get | src/signals.js:9-15 | the getter returns the current value and subscribes the running effect as `Tracked` says |
| Signals.Engine.Set | src/signals.js:17-20 | the in-place setter overwrites and notifies through the live Set exactly as `SetSignal` |
| Signals.Engine.Run | src/signals.js:27-31 | the in-place effect run sets the slot, runs the body step by step and clears the slot, exactly as `RunEffect` |
| Signals.Engine.Execute | src/signals.js:29 | the in-place run of an effect body, step by step, exactly as `ExecScript` |
| Signals.Engine.Perform | src/signals.js:29 | one getter or setter call of a body, exactly as `ExecStep` |
| Signals.Engine.CreateEffect | src/signals.js:26-34 | the in-place `createEffect`, exactly as `EffectCreated` |
| SignalProperties.SetSignalValue | src/signals.js:17-19 | after a set, the signal holds the value just passed to its setter and every other signal keeps its value, unless an effect the set actually ran sets it |
| SignalProperties.RunEffectKeepsValue | src/signals.js:27-31 | running an effect changes no signal that none of the effects it actually runs, itself included, sets |
| SignalProperties.ExecScriptKeepsValue | src/signals.js:29 | a body that does not set a signal leaves its value alone, if no effect it triggers sets it either |
| SignalProperties.NotifyKeepsValue | src/signals.js:19 | calling the subscribers changes no signal that none of the effects actually run sets |
| SignalProperties.EffectCreatedKeepsValue | src/signals.js:26-34 | `createEffect` changes no signal that none of the effects it runs (the new one first) sets: a getter keeps returning the value its signal was created with until something sets it |
| SignalProperties.NotifyRunsInOrder | src/signals.js:19 | the subscriber loop runs, in insertion order, every subscriber present when it reached that position |
| SignalProperties.SetRunsEverySubscriber | src/signals.js:17-20 | a set runs every subscriber it had, in insertion order, whatever the new value is |
| SignalProperties.SameValueStillNotifies | src/signals.js:17-20 | setting the value a signal already holds still runs its subscribers: there is no equality check |
| SignalProperties.SubscriberRerunsOnSet | src/signals.js:19 | an effect that once subscribed to a signal is re-run by every later set of it |
| SignalProperties.TrackTwice | src/signals.js:11 | a second read by the same effect adds nothing: no duplicate subscriptions |
| SignalProperties.ReadOnlyScript | src/signals.js:9-15 | a body of reads changes only subscriber sets; a signal gains the running effect exactly when the body reads it |
| SignalProperties.ReadOnlyRun | src/signals.js:27-31 | an effect whose body only reads runs exactly once, leaves the slot null and ends up subscribed to exactly its old signals plus those it read |
| SignalProperties.RerunKeepsSubscribers | src/signals.js:27-28 | re-running a read-only effect that is already subscribed to what it reads re-registers the same effect object, so no subscriber set changes |
| SignalProperties.CreateReadOnlyEffectRunsOnce | src/signals.js:33 | `createEffect` runs a read-only body exactly once before returning |
| SignalProperties.ReadAfterNotifyingSetUntracked | src/signals.js:28-30 | after a set inside a body has run a subscriber, the slot is null, so a following read in that body is not tracked |
| Directives.RegisterEntries | src/directives.js:22-30 | corrected (the source skips keys named like Object.prototype members, such as `constructor`): the key loop registers every key of the object and removes or redirects no entry; existing values are untouched; distinct names get distinct signals |
| Directives.BlankIsEmptyTrim | src/directives.js:12 | `Blank`, every character being JavaScript whitespace (`IsJsWhitespace`), holds exactly when `text.trim()` is the empty string, the falsy case that skips evaluation |
| Directives.Initialized | src/directives.js:5-32 | corrected (the source differs for keys named like Object.prototype members, such as `constructor`, and for a text that evaluates to null or undefined): `init` registers exactly the existing names plus every key of every element it does not skip; the registry only grows |
| Directives.RegisterFirstWins | src/directives.js:23-29 | a new name's signal holds the value of its first entry; later duplicates are skipped |
| Directives.FirstDeclarationWins | src/directives.js:6-29 | when several elements declare a name, the earliest in document order decides its signal's value |
| Directives.InitializedAppend | src/directives.js:6 | elements are processed one after another, each independently of the rest |
| Directives.BlankElementRegistersNothing | src/directives.js:12-15 | `Declared` gives no entries for blank text: an element whose text is empty or whitespace registers nothing |
| Directives.FailedElementRegistersNothing | src/directives.js:7-19 | corrected for null or undefined (the source throws at line 22 and stops `init`; for a thrown evaluation it is as written): `Declared` skips such an element: an element whose text fails to evaluate registers nothing, and later elements are still processed |
| Directives.Registry.constructor | src/directives.js:3 | the registry starts empty |
| Directives.Registry.Init | src/directives.js:5-32 | corrected (the source differs for keys named like Object.prototype members, such as `constructor`, and for a text that evaluates to null or undefined): the in-place loop over elements leaves the registry and signal values that `Initialized` describes, and only adds empty-subscriber signals to the engine; every name keeps its own signal (`Valid`) |
| Directives.Registry.Register | src/directives.js:22-30 | corrected (the source skips keys named like Object.prototype members, such as `constructor`): the in-place loop over keys does what `RegisterEntries` describes |
| Directives.Registry.RegisterOne | src/directives.js:23-29 | corrected (the source also skips keys named like Object.prototype members): a taken name is skipped with everything unchanged; a free one gets a new signal holding `data[key]` |
| Directives.AddName | src/directives.js:28-29 | registering a free name adds exactly that name, bound to a new signal holding the value, and keeps distinct names on distinct signals |
| Directives.RegisterEntriesAsWritten | src/directives.js:22-30 | the key loop with the lookup `signals[key]` as written registers exactly the keys that are neither taken nor Object.prototype names, and removes or redirects no entry |
| Directives.InitAsWritten | src/directives.js:5-32 | `init` as written, which can throw part-way, also only grows the registry |
| Directives.PrototypeKeyNeverRegisteredAsWritten | src/directives.js:23 | with the lookup `signals[key]` as written (`LooksTakenAsWritten`, which also finds inherited names), as written, a name such as `constructor` or `toString` is never registered |
| Directives.ConstructorKeyExample | src/directives.js:23 | `{ constructor: 1 }` registers nothing as written, and `constructor` holding 1 once corrected |
| Directives.KeyLoopsAgree | src/directives.js:22-30 | with no Object.prototype name among the keys, the key loop as written and the corrected one leave the same registry |
| Directives.InitAgreesOffFindings | src/directives.js:5-32 | on elements that neither evaluate to null or undefined nor declare an Object.prototype name, `init` as written finishes with exactly the corrected registry |
| Directives.NullishStopsInitAsWritten | src/directives.js:22 | as written, an element that evaluates to null or undefined throws and stops `init` |
| Directives.LineBreakElementExample | src/directives.js:13-22 | as written, an attribute text starting with a line break evaluates to undefined and makes `init` throw before registering anything |
| Directives.NullishElementExample | src/directives.js:22 | with `null` before `{ count: 0 }`, `count` is not registered as written and is registered once corrected |

## Left out

- `src/index.js`: it only publishes the signal functions on `window` and re-exports them.
- Evaluating the attribute text with `new Function`: this is a foreign call. Each element comes with its outcome: the object's keys in `Object.keys` order with their values, null or undefined, or a thrown error.
- `querySelectorAll` and `getAttribute`: the elements are an input sequence in document order.
- Console warnings and errors: output only.
- Effect bodies as arbitrary closures: a body is a fixed script of getter and setter calls. The values a body sets are constants of the script, not computed from what it read.
- Creating effects or signals inside an effect body is not modelled: bodies only call getters and setters.
- Unbounded recursion: it is cut at the `fuel` depth and reported as the stack overflow JavaScript would throw.
- Numbers are integers; floating point is not modelled. Signals can also hold objects, arrays and functions (`data[key]` can be any value), which `Value` does not list; nothing in the engine or the registry inspects a value, so no behaviour depends on this.
- Text, show, class, style, event and generic-attribute directives, show transitions, a method registry, effect disposal and teardown are not in src/signals.js or src/directives.js.
- Signals.Engine.Run: when the stack overflows (`ok` false), the contract keeps only the engine invariant, not the state reached before the failure. The slot is left pointing at the failing effect, as in the source.
- Signals.Engine.Set: on a stack overflow it promises only the invariant, as for `Run`.
- Signals.EffectCreated: states that the new effect runs first, not that it runs only once. A body that sets a signal it has read re-triggers itself until the stack overflows. Exactly one run is proved for read-only bodies (`CreateReadOnlyEffectRunsOnce`).
- SignalProperties.RerunKeepsSubscribers: proved only for read-only bodies. A body that sets a signal runs that signal's subscribers, and their reads during that nested run can subscribe them to signals they did not subscribe to before, so a re-run of a writing effect can change subscriber sets.
- SignalProperties.SetSignalValue: "the getter returns the latest value set" is proved when no effect run by the set sets the same signal. When one does, the latest set is that nested one, and its value is not stated.

## Findings

| source | as written | input that shows it | evidently intended | confidence | as-written member | corrected member |
|---|---|---|---|---|---|---|
| src/directives.js:23 | `if (signals[key])` looks the key up on a plain `{}`, so the truthy members it inherits from Object.prototype count as "already exists" | `h-signals="{ constructor: 1 }"` (also `toString`, `valueOf`, `hasOwnProperty`, ...) | skip only names registered by an earlier entry | high (not executed) | Directives.PrototypeKeyNeverRegisteredAsWritten | Directives.RegisterEntries |
| src/directives.js:22 | `Object.keys(data)` sits outside the `try`, so a text that evaluates to `null` or `undefined` throws a TypeError and abandons every later element | `h-signals="null"` on an element before one with `h-signals="{ count: 0 }"`; also an attribute whose text starts with a line break, such as `h-signals="⏎{ count: 0 }"`: `return ⏎{ count: 0 }` becomes `return;` by automatic semicolon insertion, so the text evaluates to undefined | treat the element like a parse error: register nothing from it and go on | medium (not executed) | Directives.NullishStopsInitAsWritten | Directives.FailedElementRegistersNothing |

`Directives.Registry.Init` implements the corrected pass (`Directives.Initialized`). The pass as written is `Directives.InitAsWritten`.
