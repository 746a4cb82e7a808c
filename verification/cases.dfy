/** The structured content of a generated test file: which cells the hook
    binds and returns, and, per initial-render entry, snapshot and setter
    case, the test it yields as steps and assertions. Rendering these as text
    is done in module Render. */
module Cases {
  import opened Schema
  import opened Bindings

  /** `result.current.set<key>(<value>)`. */
  datatype Step = Step(key: string, value: Json)

  /** `expect(result.current.<key>Value).toStrictEqual(<expected>)`. */
  datatype Assertion = Assertion(key: string, expected: Json)

  /** A selector test: the selectors named in its title, the updated atoms
      named after "when", the set steps run inside `act`, the assertions. */
  datatype SelectorTest = SelectorTest(targets: seq<string>, triggers: seq<string>, steps: seq<Step>, checks: seq<Assertion>)

  /** A setter test: the setter under test, the seeding steps, the one call
      of the setter, the assertions on the updated entries. */
  datatype SetterTest = SetterTest(setter: string, seeds: seq<Step>, call: Step, checks: seq<Assertion>)

  /** Everything one call of `output` emits, in the order it emits it. */
  datatype Suite = Suite(
    imports: seq<string>,           // the import list
    stateKeys: seq<string>,         // `useRecoilState` declarations in the hook
    valueKeys: seq<string>,         // `useRecoilValue` declarations in the hook
    returnPairs: seq<string>,       // `<key>Value, set<key>` entries of the returned object
    returnValues: seq<string>,      // `<key>Value` entries of the returned object
    initial: seq<Assertion>,        // one initial-render test each
    selectorTests: seq<SelectorTest>,
    setterTests: seq<SetterTest>)

  predicate WellFormed(s: Suite)
  {
    forall t :: t in s.selectorTests ==> |t.targets| > 0 && |t.triggers| > 0
  }

  /** The entries of `state` whose `updated` flag is set, in order (the
      `state.filter(({ updated }) => updated)` of lines 54 and 95). */
  function Updated(state: seq<StateEntry>): (u: seq<StateEntry>)
    decreases |state|
    ensures |u| <= |state|
  {
    if state == [] then []
    else
      var e := state[|state| - 1];
      Updated(state[..|state| - 1]) + (if e.updated then [e] else [])
  }

  /** The filter keeps every updated entry as often as it occurs and drops
      the rest. */
  lemma {:induction false} UpdatedCounts(state: seq<StateEntry>)
    ensures var u := Updated(state);
            forall e :: multiset(u)[e] == if e.updated then multiset(state)[e] else 0
  {
    if state != [] {
      var front := state[..|state| - 1];
      var e := state[|state| - 1];
      UpdatedCounts(front);
      assert state == front + [e];
      var added := if e.updated then [e] else [];
      assert Updated(state) == Updated(front) + added;
      assert multiset(Updated(state)) == multiset(Updated(front)) + multiset(added);
      assert multiset(state) == multiset(front) + multiset{e};
    }
  }

  /** The filter works entry by entry and keeps state order: together with
      UpdatedCounts this pins the result. */
  lemma {:induction false} UpdatedAppend(a: seq<StateEntry>, b: seq<StateEntry>)
    ensures Updated(a + b) == Updated(a) + Updated(b)
  {
    if b == [] {
      assert a + b == a;
    } else {
      var front := b[..|b| - 1];
      var e := b[|b| - 1];
      var ab := a + b;
      assert ab[..|ab| - 1] == a + front && ab[|ab| - 1] == e;
      UpdatedAppend(a, front);
    }
  }

  /** Every kept entry is an updated entry of `state`; the filter is empty
      exactly when no entry is updated. */
  lemma {:induction false} UpdatedMembers(state: seq<StateEntry>)
    ensures var u := Updated(state);
            forall i :: 0 <= i < |u| ==> u[i].updated && u[i] in state
    ensures |Updated(state)| == 0 <==> forall e :: e in state ==> !e.updated
  {
    if state != [] {
      var front := state[..|state| - 1];
      var e := state[|state| - 1];
      UpdatedMembers(front);
      assert state == front + [e];
      var uf := Updated(front);
      var u := Updated(state);
      assert u == uf + (if e.updated then [e] else []);
      forall i | 0 <= i < |u| ensures u[i].updated && u[i] in state
      {
        if i < |uf| {
          assert u[i] == uf[i];
        } else {
          assert u[i] == e;
        }
      }
    }
  }

  function ExpectationKeys(exps: seq<Expectation>): seq<string>
  {
    seq(|exps|, i requires 0 <= i < |exps| => exps[i].key)
  }

  /** The keys of the updated entries, in order: the atoms a selector test
      names after "when". */
  function UpdatedKeys(state: seq<StateEntry>): seq<string>
  {
    var u := Updated(state);
    seq(|u|, i requires 0 <= i < |u| => u[i].key)
  }

  /** A set step to `value` for every entry (a selector test's setup). */
  function Assignments(state: seq<StateEntry>): seq<Step>
  {
    seq(|state|, i requires 0 <= i < |state| => Step(state[i].key, state[i].value))
  }

  /** A set step to `previous` for every entry (a setter test's seeding). */
  function Seeds(state: seq<StateEntry>): seq<Step>
  {
    seq(|state|, i requires 0 <= i < |state| => Step(state[i].key, state[i].previous))
  }

  /** One assertion per expectation, against its `newValue`. */
  function Checks(exps: seq<Expectation>): seq<Assertion>
  {
    seq(|exps|, i requires 0 <= i < |exps| => Assertion(exps[i].key, exps[i].newValue))
  }

  /** One assertion per entry, against its `value`. */
  function ValueChecks(state: seq<StateEntry>): seq<Assertion>
  {
    seq(|state|, i requires 0 <= i < |state| => Assertion(state[i].key, state[i].value))
  }

  /** The selector test of one snapshot, or none when no state entry is
      updated or there is no selector. */
  function SelectorCase(s: Snapshot): Option<SelectorTest>
  {
    var updated := Updated(s.state);
    if |updated| != 0 && |s.selectors| != 0 then
      Some(SelectorTest(ExpectationKeys(s.selectors), UpdatedKeys(s.state), Assignments(s.state), Checks(s.selectors)))
    else
      None
  }

  /** A snapshot yields a test exactly when some state entry is updated and
      some selector is listed; the test names the selectors and the updated
      atoms, sets every state entry (updated or not) to its `value` in order,
      and asserts every selector against its `newValue` in order. */
  lemma SelectorCaseSpec(s: Snapshot)
    ensures var r := SelectorCase(s);
            r.Some? <==> (exists e :: e in s.state && e.updated) && |s.selectors| > 0
    ensures var r := SelectorCase(s);
            r.Some? ==>
              var t := r.value;
              t.targets == ExpectationKeys(s.selectors) && |t.targets| > 0 &&
              t.triggers == UpdatedKeys(s.state) && |t.triggers| > 0 &&
              |t.steps| == |s.state| &&
              (forall i :: 0 <= i < |s.state| ==> t.steps[i] == Step(s.state[i].key, s.state[i].value)) &&
              |t.checks| == |s.selectors| &&
              (forall i :: 0 <= i < |s.selectors| ==> t.checks[i] == Assertion(s.selectors[i].key, s.selectors[i].newValue))
  {
    UpdatedMembers(s.state);
  }

  /** The setter test of one setter case, or none when its setter is null. */
  function SetterCaseOf(c: SetterCase): Option<SetterTest>
  {
    match c.setter
    case None => None
    case Some(call) =>
      Some(SetterTest(call.key, Seeds(c.state), Step(call.key, call.newValue), ValueChecks(Updated(c.state))))
  }

  /** A setter case yields a test exactly when its setter is not null; the
      test seeds every state entry with its `previous` value in order, calls
      the setter once with its `newValue`, and asserts only the updated
      entries, in order, against their `value`. */
  lemma SetterCaseSpec(c: SetterCase)
    ensures var r := SetterCaseOf(c);
            r.Some? <==> c.setter.Some?
    ensures var r := SetterCaseOf(c);
            r.Some? ==>
              var t := r.value;
              var u := Updated(c.state);
              t.setter == c.setter.value.key &&
              t.call == Step(c.setter.value.key, c.setter.value.newValue) &&
              |t.seeds| == |c.state| &&
              (forall i :: 0 <= i < |c.state| ==> t.seeds[i] == Step(c.state[i].key, c.state[i].previous)) &&
              |t.checks| == |u| &&
              (forall i :: 0 <= i < |u| ==> u[i] in c.state && u[i].updated && t.checks[i] == Assertion(u[i].key, u[i].value))
  {
    UpdatedMembers(c.state);
  }

  /** The selector tests of `snaps`, in input order (the fold of lines 53-90). */
  function SelectorCases(snaps: seq<Snapshot>): (tests: seq<SelectorTest>)
    decreases |snaps|
    ensures |tests| <= |snaps|
    ensures forall t :: t in tests ==> |t.targets| > 0 && |t.triggers| > 0
  {
    if snaps == [] then []
    else
      SelectorCases(snaps[..|snaps| - 1]) + SelectorEmitted(snaps[|snaps| - 1])
  }

  /** What one snapshot adds to the selector tests: its test, if any. */
  function SelectorEmitted(s: Snapshot): (tests: seq<SelectorTest>)
    ensures |tests| <= 1
    ensures forall t :: t in tests ==> |t.targets| > 0 && |t.triggers| > 0
  {
    SelectorCaseSpec(s);
    match SelectorCase(s)
    case None => []
    case Some(t) => [t]
  }

  /** The setter tests of `cases`, in input order (the fold of lines 94-125). */
  function SetterCases(cases: seq<SetterCase>): (tests: seq<SetterTest>)
    decreases |cases|
    ensures |tests| <= |cases|
  {
    if cases == [] then []
    else
      SetterCases(cases[..|cases| - 1]) + SetterEmitted(cases[|cases| - 1])
  }

  /** What one setter case adds to the setter tests: its test, if any. */
  function SetterEmitted(c: SetterCase): (tests: seq<SetterTest>)
    ensures |tests| <= 1
  {
    match SetterCaseOf(c)
    case None => []
    case Some(t) => [t]
  }

  /** Snapshots contribute their tests independently and in input order. */
  lemma {:induction false} SelectorCasesAppend(a: seq<Snapshot>, b: seq<Snapshot>)
    ensures SelectorCases(a + b) == SelectorCases(a) + SelectorCases(b)
  {
    if b == [] {
      assert a + b == a;
    } else {
      var front := b[..|b| - 1];
      var x := b[|b| - 1];
      var ab := a + b;
      assert ab[..|ab| - 1] == a + front;
      assert ab[|ab| - 1] == x;
      assert SelectorCases(ab) == SelectorCases(a + front) + SelectorEmitted(x);
      SelectorCasesAppend(a, front);
      assert SelectorCases(b) == SelectorCases(front) + SelectorEmitted(x);
    }
  }


  /** Setter cases contribute their tests independently and in input order. */
  lemma {:induction false} SetterCasesAppend(a: seq<SetterCase>, b: seq<SetterCase>)
    ensures SetterCases(a + b) == SetterCases(a) + SetterCases(b)
  {
    if b == [] {
      assert a + b == a;
    } else {
      var front := b[..|b| - 1];
      var x := b[|b| - 1];
      var ab := a + b;
      assert ab[..|ab| - 1] == a + front;
      assert ab[|ab| - 1] == x;
      assert ab != [];
      assert SetterCases(ab) == SetterCases(a + front) + SetterEmitted(x);
      SetterCasesAppend(a, front);
      assert SetterCases(b) == SetterCases(front) + SetterEmitted(x);
    }
  }


  /** The content of the file `output` emits when `seen` holds the keys that
      `setterImports` kept from earlier calls. */
  function Compile(seen: seq<string>, input: Input): (s: Suite)
    ensures WellFormed(s)
    ensures var imports := SetterImports(seen, input.setters);
            var w := Keys(input.writeables);
            // the hook declares the writables, then the setter keys new to `imports`
            |w| <= |s.stateKeys| && s.stateKeys[..|w|] == w && s.stateKeys[|w|..] == imports[|seen|..] &&
            // a readable is read-only bound exactly when no setter key claimed it
            (forall k :: multiset(s.valueKeys)[k] == if k in imports then 0 else multiset(Keys(input.readables))[k]) &&
            // the returned object: writables, every key kept from earlier calls, the new setter keys, the read-only readables
            s.returnPairs == w + seen + s.stateKeys[|w|..] &&
            s.returnValues == s.valueKeys &&
            // the read-only keys are the readable filter, in readable order
            s.valueKeys == ValueKeys(Keys(input.readables), imports)
    ensures // the import list: the writables' keys, then the readables' keys
            s.imports == Keys(input.writeables) + Keys(input.readables)
    ensures // one test per snapshot and per setter case that yields one, in input order
            s.selectorTests == SelectorCases(input.snapshots) && s.setterTests == SetterCases(input.setters)
    ensures // one initial-render test per entry, in order, against its `newValue`
            |s.initial| == |input.initialRender| &&
            forall i :: 0 <= i < |s.initial| ==>
              s.initial[i] == Assertion(input.initialRender[i].key, input.initialRender[i].newValue)
  {
    var imports := SetterImports(seen, input.setters);
    var w := Keys(input.writeables);
    var readable := Keys(input.readables);
    var added := imports[|seen|..];
    var stateKeys := w + added;
    assert stateKeys[..|w|] == w && stateKeys[|w|..] == added;
    assert w + imports == w + seen + added by {
      assert imports == seen + added;
    }
    var valueKeys := ValueKeys(readable, imports);
    ValueKeysCounts(readable, imports);
    var tests := SelectorCases(input.snapshots);
    assert forall t :: t in tests ==> |t.targets| > 0 && |t.triggers| > 0;
    Suite(w + readable, stateKeys, valueKeys, w + imports, valueKeys,
          Checks(input.initialRender), tests, SetterCases(input.setters))
  }

  /** A key that is both a writable and a (not yet imported) setter key is
      declared with `useRecoilState` twice: the writable fold does not look
      at the setters and the setter fold does not look at the writables. */
  lemma WritableSetterDeclaredTwice(seen: seq<string>, input: Input, k: string)
    requires k in Keys(input.writeables) && k in SetterKeys(input.setters) && k !in seen
    ensures multiset(Compile(seen, input).stateKeys)[k] >= 2
  {
    var s := Compile(seen, input);
    var w := Keys(input.writeables);
    var imports := SetterImports(seen, input.setters);
    var added := imports[|seen|..];
    assert imports == seen + added;
    assert k in added;
    assert s.stateKeys == w + added by {
      assert s.stateKeys == s.stateKeys[..|w|] + s.stateKeys[|w|..];
    }
    assert multiset(s.stateKeys) == multiset(w) + multiset(added);
    assert multiset(w)[k] >= 1 && multiset(added)[k] >= 1;
  }
}
