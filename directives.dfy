/** The `h-signals` pass of `init` in src/directives.js.

    `init` visits the elements carrying an `h-signals` attribute in document
    order. Each attribute text is evaluated as a JavaScript expression; every
    key of the resulting object becomes a named signal in the module-level
    `signals` registry, unless the name is already taken there, in which case
    the first registration is kept.

    Evaluating the text is a foreign call (`new Function`); the model takes
    its outcome as input, one `Element` per element, in document order. The
    registry maps a name to the id of the signal the engine of module
    Signals created for it; a `Store` pairs the registry with the engine's
    signal values, which is all of the engine that `init` touches. */
module Directives {
  import opened Common
  import Signals

  type SignalId = Signals.SignalId

  /** What calling `new Function("return " + text)` produced. */
  datatype Evaluation =
    | Object(entries: seq<(string, Value)>)  // `Object.keys(data)` in order, each with `data[key]`
    | Nullish                                // the text evaluated to null or undefined
    | ParseError                             // compiling or calling the function threw

  /** One element with an `h-signals` attribute: the attribute text and what
      evaluating it would give. */
  datatype Element = Element(text: string, evaluation: Evaluation)

  /** The characters `String.prototype.trim` removes: ECMAScript WhiteSpace
      and LineTerminator code points. */
  predicate IsJsWhitespace(c: char) {
    || c == '\t' || c == '\n' || c == '\U{000B}' || c == '\U{000C}' || c == '\r' || c == ' '
    || c == '\U{00A0}' || c == '\U{1680}' || ('\U{2000}' <= c <= '\U{200A}')
    || c == '\U{2028}' || c == '\U{2029}' || c == '\U{202F}' || c == '\U{205F}'
    || c == '\U{3000}' || c == '\U{FEFF}'
  }

  /** `s` without its leading whitespace. */
  function TrimStart(s: string): (r: string)
    ensures |r| <= |s| && r == s[|s| - |r|..]
    ensures forall i :: 0 <= i < |s| - |r| ==> IsJsWhitespace(s[i])
    ensures r == [] || !IsJsWhitespace(r[0])
  {
    if s == [] || !IsJsWhitespace(s[0]) then s else TrimStart(s[1..])
  }

  /** `s` without its trailing whitespace. */
  function TrimEnd(s: string): (r: string)
    ensures |r| <= |s| && r == s[..|r|]
    ensures forall i :: |r| <= i < |s| ==> IsJsWhitespace(s[i])
    ensures r == [] || !IsJsWhitespace(r[|r| - 1])
  {
    if s == [] || !IsJsWhitespace(s[|s| - 1]) then s else TrimEnd(s[..|s| - 1])
  }

  /** `String.prototype.trim`. */
  function Trim(s: string): string {
    TrimEnd(TrimStart(s))
  }

  /** `text.trim()` is the empty string, the one falsy string: every
      character of the text is whitespace. */
  predicate Blank(text: string) {
    forall i :: 0 <= i < |text| ==> IsJsWhitespace(text[i])
  }

  /** `Blank` is the falsy case of `text.trim()`: the text is blank exactly
      when trimming leaves the empty string. */
  lemma BlankIsEmptyTrim(text: string)
    ensures Blank(text) <==> Trim(text) == []
  {
    var t := TrimStart(text);
    assert t != [] ==> t[0] == text[|text| - |t|];
  }

  /** The registry together with the value of every signal. */
  datatype Store = Store(names: map<string, SignalId>, values: seq<Value>)

  /** Every name refers to an existing signal, and no two names share one. */
  predicate StoreValid(st: Store) {
    && (forall k :: k in st.names ==> st.names[k] < |st.values|)
    && (forall k1, k2 :: k1 in st.names && k2 in st.names && k1 != k2 ==> st.names[k1] != st.names[k2])
  }

  /** `st'` is `st` with entries and signals added: no name is removed or
      redirected and no existing signal's value changes. */
  predicate Extends(st: Store, st': Store) {
    && st.values <= st'.values
    && (forall k :: k in st.names ==> k in st'.names && st'.names[k] == st.names[k])
  }

  function KeysOf(entries: seq<(string, Value)>): (keys: set<string>)
    ensures forall k :: k in keys <==> exists j :: 0 <= j < |entries| && entries[j].0 == k
  {
    if entries == [] then {}
    else
      assert forall j :: 0 < j < |entries| ==> entries[1..][j - 1] == entries[j];
      {entries[0].0} + KeysOf(entries[1..])
  }

  /** The value of the first entry named `k`, if any. */
  function FirstValue(entries: seq<(string, Value)>, k: string): Option<Value> {
    if entries == [] then None
    else if entries[0].0 == k then Some(entries[0].1)
    else FirstValue(entries[1..], k)
  }

  // ---------------------------------------------------------------------
  // The registration pass, with the two defects of the source corrected.
  // ---------------------------------------------------------------------

  /** The entries `init` registers from one element, or None when it skips
      the element (src/directives.js:7-19). Blank text is never evaluated and
      gives an empty object; a parse error skips the element; a null or
      undefined result is skipped like a parse error. */
  function Declared(el: Element): Option<seq<(string, Value)>> {
    if Blank(el.text) then Some([])
    else
      match el.evaluation
      case Object(entries) => Some(entries)
      case Nullish => None
      case ParseError => None
  }

  /** The names of all entries `init` registers from `elements`. */
  function DeclaredKeys(elements: seq<Element>): set<string> {
    if elements == [] then {}
    else
      (match Declared(elements[0])
       case None => {}
       case Some(entries) => KeysOf(entries)) + DeclaredKeys(elements[1..])
  }

  /** The value of the first declaration of `k` in document order. */
  function FirstDeclared(elements: seq<Element>, k: string): Option<Value> {
    if elements == [] then None
    else
      var here := match Declared(elements[0])
        case None => None
        case Some(entries) => FirstValue(entries, k);
      if here.Some? then here else FirstDeclared(elements[1..], k)
  }

  /** The loop over `Object.keys(data)` (src/directives.js:22-30): each key
      not yet in the registry gets a new signal holding `data[key]`; a taken
      key is skipped and the loop goes on with the next key. */
  function RegisterEntries(st: Store, entries: seq<(string, Value)>): (r: Store)
    ensures Extends(st, r)
    ensures r.names.Keys == st.names.Keys + KeysOf(entries)
    ensures StoreValid(st) ==> StoreValid(r)
    decreases |entries|
  {
    if entries == [] then st
    else
      var key := entries[0].0;
      var st' := if key in st.names then st else AddName(st, key, entries[0].1);
      assert forall j :: 0 < j < |entries| ==> entries[1..][j - 1] == entries[j];
      RegisterEntries(st', entries[1..])
  }

  /** A signal holding `v` created for the new name `key`. */
  function AddName(st: Store, key: string, v: Value): (r: Store)
    requires key !in st.names
    ensures Extends(st, r) && r.names.Keys == st.names.Keys + {key}
    ensures r.names[key] == |st.values| && r.values == st.values + [v]
    ensures StoreValid(st) ==> StoreValid(r)
  {
    Store(st.names[key := |st.values|], st.values + [v])
  }

  /** `init` (src/directives.js:5-32), as the state it leaves. */
  function Initialized(st: Store, elements: seq<Element>): (r: Store)
    ensures Extends(st, r)
    ensures r.names.Keys == st.names.Keys + DeclaredKeys(elements)
    ensures StoreValid(st) ==> StoreValid(r)
    decreases |elements|
  {
    if elements == [] then st
    else
      match Declared(elements[0])
      case None => Initialized(st, elements[1..])
      case Some(entries) => Initialized(RegisterEntries(st, entries), elements[1..])
  }

  // ---------------------------------------------------------------------
  // Properties of the registration pass.
  // ---------------------------------------------------------------------

  /** The first entry for a new name decides its signal's value. */
  lemma {:induction false} RegisterFirstWins(st: Store, entries: seq<(string, Value)>, k: string)
    requires StoreValid(st) && k !in st.names && FirstValue(entries, k).Some?
    ensures k in RegisterEntries(st, entries).names
    ensures RegisterEntries(st, entries).names[k] < |RegisterEntries(st, entries).values|
    ensures RegisterEntries(st, entries).values[RegisterEntries(st, entries).names[k]]
              == FirstValue(entries, k).value
    decreases |entries|
  {
    var r := RegisterEntries(st, entries);
    if entries[0].0 == k {
      var st' := AddName(st, k, entries[0].1);
      assert r == RegisterEntries(st', entries[1..]);
      assert st'.values[st'.names[k]] == entries[0].1;
      assert StoreValid(st');
    } else {
      var st' := if entries[0].0 in st.names then st else AddName(st, entries[0].0, entries[0].1);
      RegisterFirstWins(st', entries[1..], k);
    }
  }

  /** The earliest element in document order that declares a new name
      decides the value of its signal; later declarations are skipped. */
  lemma {:induction false} FirstDeclarationWins(st: Store, elements: seq<Element>, k: string)
    requires StoreValid(st) && k !in st.names && FirstDeclared(elements, k).Some?
    ensures k in Initialized(st, elements).names
    ensures Initialized(st, elements).names[k] < |Initialized(st, elements).values|
    ensures Initialized(st, elements).values[Initialized(st, elements).names[k]]
              == FirstDeclared(elements, k).value
    decreases |elements|
  {
    var r := Initialized(st, elements);
    match Declared(elements[0])
    case Some(entries) =>
      var st' := RegisterEntries(st, entries);
      if FirstValue(entries, k).Some? {
        RegisterFirstWins(st, entries, k);
        assert Extends(st', r);
      } else {
        assert k !in KeysOf(entries) by {
          if k in KeysOf(entries) { FirstValueOfKey(entries, k); }
        }
        FirstDeclarationWins(st', elements[1..], k);
      }
    case None =>
      FirstDeclarationWins(st, elements[1..], k);
  }

  lemma {:induction false} FirstValueOfKey(entries: seq<(string, Value)>, k: string)
    requires k in KeysOf(entries)
    ensures FirstValue(entries, k).Some?
    decreases |entries|
  {
    if entries[0].0 != k {
      FirstValueOfKey(entries[1..], k);
    }
  }

  /** `init` over two runs of elements is `init` over the first, then over
      the second: elements are handled one after another, independently. */
  lemma {:induction false} InitializedAppend(st: Store, a: seq<Element>, b: seq<Element>)
    ensures Initialized(st, a + b) == Initialized(Initialized(st, a), b)
    decreases |a|
  {
    if a == [] {
      assert a + b == b;
    } else {
      assert (a + b)[0] == a[0] && (a + b)[1..] == a[1..] + b;
      var st' := match Declared(a[0])
        case None => st
        case Some(entries) => RegisterEntries(st, entries);
      InitializedAppend(st', a[1..], b);
    }
  }

  /** An element whose text is empty or whitespace only registers nothing,
      whatever its text would evaluate to. */
  lemma BlankElementRegistersNothing(st: Store, before: seq<Element>, el: Element, after: seq<Element>)
    requires Blank(el.text)
    ensures Initialized(st, before + [el] + after) == Initialized(st, before + after)
  {
    SkippedElement(st, before, el, after);
  }

  /** An element whose text fails to evaluate, or evaluates to null or
      undefined, registers nothing, and the elements after it are still
      processed. */
  lemma FailedElementRegistersNothing(st: Store, before: seq<Element>, el: Element, after: seq<Element>)
    requires !Blank(el.text) && !el.evaluation.Object?
    ensures Initialized(st, before + [el] + after) == Initialized(st, before + after)
  {
    SkippedElement(st, before, el, after);
  }

  lemma SkippedElement(st: Store, before: seq<Element>, el: Element, after: seq<Element>)
    requires Declared(el) == None || Declared(el) == Some([])
    ensures Initialized(st, before + [el] + after) == Initialized(st, before + after)
  {
    InitializedAppend(st, before + [el], after);
    InitializedAppend(st, before, [el]);
    InitializedAppend(st, before, after);
    var mid := Initialized(st, before);
    assert Initialized(mid, [el]) == mid by {
      assert [el][1..] == [];
    }
  }

  // ---------------------------------------------------------------------
  // The registry as the source has it: a module-level object filled in place.
  // ---------------------------------------------------------------------

  class Registry {
    /** The module-level `signals` object (src/directives.js:3). */
    var signals: map<string, SignalId>

    constructor ()
      ensures signals == map[]
    {
      signals := map[];
    }

    /** Every registered name refers to its own signal of `engine`. */
    ghost predicate Valid(engine: Signals.Engine)
      reads this, engine
    {
      StoreValid(Store(signals, engine.values))
    }

    /** `init` (src/directives.js:5-32): the outer `forEach` over the
        elements. Signals are created in `engine`, the state of src/signals.js. */
    method Init(engine: Signals.Engine, elements: seq<Element>)
      requires engine.Valid() && Valid(engine)
      modifies this, engine
      ensures engine.Valid() && Valid(engine)
      ensures Store(signals, engine.values) == Initialized(Store(old(signals), old(engine.values)), elements)
      ensures SignalsAdded(old(engine.Snapshot()), engine.Snapshot())
    {
      var i := 0;
      while i < |elements|
        invariant i <= |elements|
        invariant engine.Valid() && Valid(engine)
        invariant Initialized(Store(signals, engine.values), elements[i..])
                    == Initialized(Store(old(signals), old(engine.values)), elements)
        invariant SignalsAdded(old(engine.Snapshot()), engine.Snapshot())
      {
        var el := elements[i];
        assert elements[i..][0] == el && elements[i..][1..] == elements[i + 1..];
        if Blank(el.text) {
          // `expr.trim()` is falsy: `data` stays `{}` and has no keys.
        } else {
          match el.evaluation {
            case Object(entries) => Register(engine, entries);
            case Nullish =>
            case ParseError =>
          }
        }
        i := i + 1;
      }
    }

    /** `Object.keys(data).forEach(...)` (src/directives.js:22-30). */
    method Register(engine: Signals.Engine, entries: seq<(string, Value)>)
      requires engine.Valid() && Valid(engine)
      modifies this, engine
      ensures engine.Valid() && Valid(engine)
      ensures Store(signals, engine.values) == RegisterEntries(Store(old(signals), old(engine.values)), entries)
      ensures SignalsAdded(old(engine.Snapshot()), engine.Snapshot())
    {
      var j := 0;
      while j < |entries|
        invariant j <= |entries|
        invariant engine.Valid() && Valid(engine)
        invariant RegisterEntries(Store(signals, engine.values), entries[j..])
                    == RegisterEntries(Store(old(signals), old(engine.values)), entries)
        invariant SignalsAdded(old(engine.Snapshot()), engine.Snapshot())
      {
        assert entries[j..][0] == entries[j] && entries[j..][1..] == entries[j + 1..];
        ghost var snap := engine.Snapshot();
        RegisterOne(engine, entries[j].0, entries[j].1);
        SignalsAddedTransitive(old(engine.Snapshot()), snap, engine.Snapshot());
        j := j + 1;
      }
    }

    /** The body of the key callback (src/directives.js:23-29): skip a
        taken name, otherwise create its signal and record it. */
    method RegisterOne(engine: Signals.Engine, key: string, v: Value)
      requires engine.Valid() && Valid(engine)
      modifies this, engine
      ensures engine.Valid() && Valid(engine)
      ensures Store(signals, engine.values)
                == if key in old(signals) then Store(old(signals), old(engine.values))
                   else AddName(Store(old(signals), old(engine.values)), key, v)
      ensures SignalsAdded(old(engine.Snapshot()), engine.Snapshot())
    {
      if key !in signals {
        var s := engine.CreateSignal(v);
        signals := signals[key := s];
      }
    }
  }

  lemma SignalsAddedTransitive(a: Signals.State, b: Signals.State, c: Signals.State)
    requires SignalsAdded(a, b) && SignalsAdded(b, c)
    ensures SignalsAdded(a, c)
  {
  }

  /** The engine after `init` is the engine before it with new signals,
      each with an empty subscriber set; nothing else changed. */
  predicate SignalsAdded(before: Signals.State, after: Signals.State) {
    && after.bodies == before.bodies
    && after.current == before.current
    && after.runs == before.runs
    && before.values <= after.values
    && |after.subscribers| == |after.values|
    && before.subscribers <= after.subscribers
    && (forall t :: |before.subscribers| <= t < |after.subscribers| ==> after.subscribers[t] == [])
  }

  // ---------------------------------------------------------------------
  // The registration pass as src/directives.js writes it.
  // ---------------------------------------------------------------------

  /** The property names a plain object inherits from Object.prototype. */
  const ObjectPrototypeKeys: set<string> := {
    "constructor", "hasOwnProperty", "isPrototypeOf", "propertyIsEnumerable",
    "toLocaleString", "toString", "valueOf", "__proto__",
    "__defineGetter__", "__defineSetter__", "__lookupGetter__", "__lookupSetter__"
  }

  /** `if (signals[key])` (src/directives.js:23): `signals` is a plain `{}`,
      so the lookup also finds the inherited members, which are truthy. */
  predicate LooksTakenAsWritten(names: map<string, SignalId>, key: string) {
    key in names || key in ObjectPrototypeKeys
  }

  /** The key loop with the lookup as written. */
  function RegisterEntriesAsWritten(st: Store, entries: seq<(string, Value)>): (r: Store)
    ensures Extends(st, r)
    ensures r.names.Keys == st.names.Keys + (KeysOf(entries) - ObjectPrototypeKeys)
    ensures StoreValid(st) ==> StoreValid(r)
    decreases |entries|
  {
    if entries == [] then st
    else
      var key := entries[0].0;
      var st' := if LooksTakenAsWritten(st.names, key) then st else AddName(st, key, entries[0].1);
      assert forall j :: 0 < j < |entries| ==> entries[1..][j - 1] == entries[j];
      RegisterEntriesAsWritten(st', entries[1..])
  }

  /** How `init` as written ends: normally, or with the TypeError that
      `Object.keys(null)` throws outside the `try` (src/directives.js:22),
      which abandons the remaining elements. */
  datatype Outcome = Finished(store: Store) | Threw(store: Store)

  function InitAsWritten(st: Store, elements: seq<Element>): (r: Outcome)
    ensures Extends(st, r.store)
    decreases |elements|
  {
    if elements == [] then Finished(st)
    else
      var el := elements[0];
      if Blank(el.text) then InitAsWritten(st, elements[1..])
      else
        match el.evaluation
        case ParseError => InitAsWritten(st, elements[1..])
        case Nullish => Threw(st)
        case Object(entries) => InitAsWritten(RegisterEntriesAsWritten(st, entries), elements[1..])
  }

  /** As written, a signal named like an Object.prototype member is never
      registered, whatever the elements declare. */
  lemma {:induction false} PrototypeKeyNeverRegisteredAsWritten(st: Store, elements: seq<Element>, key: string)
    requires key in ObjectPrototypeKeys && key !in st.names
    ensures key !in InitAsWritten(st, elements).store.names
    decreases |elements|
  {
    if elements != [] {
      var el := elements[0];
      if !Blank(el.text) && el.evaluation.Object? {
        PrototypeKeyNeverRegisteredAsWritten(RegisterEntriesAsWritten(st, el.evaluation.entries), elements[1..], key);
      } else if Blank(el.text) || el.evaluation.ParseError? {
        PrototypeKeyNeverRegisteredAsWritten(st, elements[1..], key);
      }
    }
  }

  /** Elements on which the two defects stay hidden: none evaluates to null
      or undefined and none declares an Object.prototype name. */
  predicate OffFindings(elements: seq<Element>) {
    forall i :: 0 <= i < |elements| && !Blank(elements[i].text) ==>
      match elements[i].evaluation
      case Nullish => false
      case ParseError => true
      case Object(entries) => KeysOf(entries) !! ObjectPrototypeKeys
  }

  /** With no Object.prototype name among the keys, the key loop as written
      and the corrected one leave the same registry. */
  lemma {:induction false} KeyLoopsAgree(st: Store, entries: seq<(string, Value)>)
    requires KeysOf(entries) !! ObjectPrototypeKeys
    ensures RegisterEntriesAsWritten(st, entries) == RegisterEntries(st, entries)
    decreases |entries|
  {
    if entries != [] {
      var key := entries[0].0;
      assert key in KeysOf(entries);
      var st' := if key in st.names then st else AddName(st, key, entries[0].1);
      assert KeysOf(entries) == {key} + KeysOf(entries[1..]);
      KeyLoopsAgree(st', entries[1..]);
    }
  }

  /** On every input outside the two findings, `init` as written finishes
      and leaves exactly the registry of the corrected pass. */
  lemma {:induction false} InitAgreesOffFindings(st: Store, elements: seq<Element>)
    requires OffFindings(elements)
    ensures InitAsWritten(st, elements) == Finished(Initialized(st, elements))
    decreases |elements|
  {
    if elements != [] {
      var el := elements[0];
      assert OffFindings(elements[1..]) by {
        forall i | 0 <= i < |elements[1..]|
          ensures elements[1..][i] == elements[i + 1]
        {
        }
      }
      if Blank(el.text) {
        InitAgreesOffFindings(st, elements[1..]);
      } else {
        match el.evaluation
        case ParseError =>
          InitAgreesOffFindings(st, elements[1..]);
        case Object(entries) =>
          KeyLoopsAgree(st, entries);
          InitAgreesOffFindings(RegisterEntries(st, entries), elements[1..]);
      }
    }
  }

  /** `h-signals="{ constructor: 1 }"`: as written nothing is registered;
      corrected, `constructor` names a signal holding 1. */
  lemma ConstructorKeyExample()
    ensures "constructor" !in InitAsWritten(Store(map[], []), [Element("{ constructor: 1 }", Object([("constructor", Num(1))]))]).store.names
    ensures Initialized(Store(map[], []), [Element("{ constructor: 1 }", Object([("constructor", Num(1))]))])
              == Store(map["constructor" := 0], [Num(1)])
  {
    var el := Element("{ constructor: 1 }", Object([("constructor", Num(1))]));
    assert !IsJsWhitespace(el.text[0]);
    PrototypeKeyNeverRegisteredAsWritten(Store(map[], []), [el], "constructor");
  }

  /** As written, an element evaluating to null or undefined stops `init`:
      no later element registers anything. */
  lemma NullishStopsInitAsWritten(st: Store, el: Element, rest: seq<Element>)
    requires !Blank(el.text) && el.evaluation == Nullish
    ensures InitAsWritten(st, [el] + rest) == Threw(st)
  {
    assert ([el] + rest)[0] == el;
  }

  /** `h-signals` text that starts with a line break, `"\n{ count: 0 }"`:
      `return` followed by a line break ends the statement, so the text
      evaluates to undefined and, as written, `init` throws and the object's
      key is never registered. */
  lemma LineBreakElementExample(rest: seq<Element>)
    ensures InitAsWritten(Store(map[], []), [Element("\n{ count: 0 }", Nullish)] + rest) == Threw(Store(map[], []))
  {
    var el := Element("\n{ count: 0 }", Nullish);
    assert !IsJsWhitespace(el.text[1]);
    NullishStopsInitAsWritten(Store(map[], []), el, rest);
  }

  /** `h-signals="null"` followed by `h-signals="{ count: 0 }"`: as written
      `count` is never registered; corrected, it is. */
  lemma NullishElementExample()
    ensures "count" !in InitAsWritten(Store(map[], []), [Element("null", Nullish), Element("{ count: 0 }", Object([("count", Num(0))]))]).store.names
    ensures Initialized(Store(map[], []), [Element("null", Nullish), Element("{ count: 0 }", Object([("count", Num(0))]))])
              == Store(map["count" := 0], [Num(0)])
  {
    var nullish := Element("null", Nullish);
    var count := Element("{ count: 0 }", Object([("count", Num(0))]));
    assert !IsJsWhitespace(nullish.text[0]);
    assert !IsJsWhitespace(count.text[0]);
    NullishStopsInitAsWritten(Store(map[], []), nullish, [count]);
    assert [nullish, count] == [nullish] + [count];
    assert [nullish, count][1..] == [count];
  }
}
