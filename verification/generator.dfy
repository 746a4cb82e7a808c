/** The module mock-package/testString.js itself: the `output` function and
    the module-level `setterImports` object that outlives each call. */
module Generator {
  import opened Schema
  import opened Bindings
  import opened Cases
  import opened Template
  import opened Render

  class TestString {
    /** The own keys of `setterImports`, in insertion order (`Object.keys`
        order); every value stored is `true`, so a key is set exactly when it
        is listed. */
    var setterImports: seq<string>

    ghost predicate Valid()
      reads this
    {
      Distinct(setterImports)
    }

    /** Loading the module: `const setterImports = {}`. */
    constructor ()
      ensures Valid() && setterImports == []
    {
      setterImports := [];
    }

    /** The setter fold of lines 19-28: declares each setter key not yet in
        `setterImports` and records it there; null setters and keys already
        recorded (by this call or an earlier one) are skipped. */
    method BindSetters(setters: seq<SetterCase>) returns (decls: string)
      requires Valid()
      modifies this
      ensures Valid()
      ensures setterImports == SetterImports(old(setterImports), setters)
      ensures decls == SetterDecls(old(setterImports), setters)
    {
      ghost var seen := setterImports;
      decls := "";
      var i := 0;
      assert setters[..0] == [];
      while i < |setters|
        invariant 0 <= i <= |setters|
        invariant setterImports == SetterImports(seen, setters[..i])
        invariant decls == SetterDecls(seen, setters[..i])
        decreases |setters| - i
      {
        SetterFoldStep(seen, setters, i);
        match setters[i].setter {
          case None =>
          case Some(call) =>
            if call.key !in setterImports {
              setterImports := setterImports + [call.key];
              decls := decls + StateDecl(call.key);
            }
        }
        ghost var next := setters[..i + 1];
        assert setterImports == SetterImports(seen, next);
        assert decls == SetterDecls(seen, next);
        i := i + 1;
        assert setters[..i] == next;
      }
      assert setters[..i] == setters;
    }

    /** `output(writeables, readables, snapshots, initialRender, setters)`:
        the template of lines 3-126, evaluated left to right, so the setter
        fold updates `setterImports` before lines 30, 35 and 36 read it. */
    method Output(writeables: seq<Cell>, readables: seq<Cell>, snapshots: seq<Snapshot>,
                  initialRender: seq<Expectation>, setters: seq<SetterCase>, stringify: Stringify)
      returns (text: string)
      requires Valid()
      modifies this
      ensures Valid()
      ensures setterImports == SetterImports(old(setterImports), setters)
      ensures text == OutputText(old(setterImports), Input(writeables, readables, snapshots, initialRender, setters), stringify)
    {
      var w := Keys(writeables);
      var r := Keys(readables);
      var importList := Lines(w, ImportLine) + Lines(r, ImportLine);
      var writableDecls := Lines(w, StateDecl);
      var setterDecls := BindSetters(setters);
      text := Assemble(
        importList,
        writableDecls + setterDecls,
        Unclaimed(r, setterImports, ValueDecl),
        Lines(w, PairEntry) + Lines(setterImports, PairEntry) + Unclaimed(r, setterImports, ValueEntry),
        InitialTestsText(Checks(initialRender), stringify),
        SnapshotTests(snapshots, stringify),
        SetterCaseTests(setters, stringify));
    }
  }

  /** One more setter case extends the setter fold by one step. */
  lemma SetterFoldStep(seen: seq<string>, setters: seq<SetterCase>, i: nat)
    requires i < |setters|
    ensures var prior := SetterImports(seen, setters[..i]);
            var str := SetterDecls(seen, setters[..i]);
            match setters[i].setter
            case None =>
              SetterImports(seen, setters[..i + 1]) == prior && SetterDecls(seen, setters[..i + 1]) == str
            case Some(call) =>
              SetterImports(seen, setters[..i + 1]) == (if call.key in prior then prior else prior + [call.key]) &&
              SetterDecls(seen, setters[..i + 1]) == (if call.key in prior then str else str + StateDecl(call.key))
  {
    var next := setters[..i + 1];
    assert next[..i] == setters[..i] && next[i] == setters[i];
  }

  /** As written: a key that an earlier call left in `setterImports` and that
      is not a writable is listed in the returned object (line 35) but is
      declared nowhere in the hook (line 24 skips it, line 30 skips it too). */
  lemma KeptKeysReturnedUndeclared(seen: seq<string>, input: Input, k: string)
    requires Distinct(seen) && k in seen && k !in Keys(input.writeables)
    ensures var s := Compile(seen, input);
            k in s.returnPairs && k !in s.stateKeys && k !in s.valueKeys
  {
    var s := Compile(seen, input);
    var w := Keys(input.writeables);
    var imports := SetterImports(seen, input.setters);
    assert s.returnPairs == w + seen + s.stateKeys[|w|..];
    assert s.stateKeys == w + imports[|seen|..];
    assert k in imports;
    assert multiset(s.valueKeys)[k] == 0;
  }

  /** As written, concretely: a first call whose only setter case sets
      `count` leaves `count` in `setterImports`; a second call with the same
      arguments returns `countValue` and `setcount` without declaring them. */
  lemma SecondCallReturnsUndeclared()
    ensures var input := Input([], [], [], [], [SetterCase([], Some(SetterCall("count", Number(1))))]);
            var seen := SetterImports([], input.setters);
            var second := Compile(seen, input);
            seen == ["count"] && "count" in second.returnPairs && "count" !in second.stateKeys
  {
    var input := Input([], [], [], [], [SetterCase([], Some(SetterCall("count", Number(1))))]);
    var first := input.setters;
    assert first[..0] == [];
    assert SetterImports([], first) == ["count"];
    KeptKeysReturnedUndeclared(["count"], input, "count");
  }

  /** Corrected: the suite generated with a `setterImports` scoped to the
      call. Every entry of the returned object is then declared in the hook,
      with the same kind of binding, and every declaration is returned. */
  function ScopedSuite(input: Input): (s: Suite)
    ensures WellFormed(s)
    ensures s.returnPairs == s.stateKeys && s.returnValues == s.valueKeys
    ensures |input.writeables| <= |s.stateKeys| && Distinct(s.stateKeys[|input.writeables|..])
  {
    var s := Compile([], input);
    assert s.stateKeys == s.stateKeys[..|input.writeables|] + s.stateKeys[|input.writeables|..];
    s
  }

  /** Corrected generator: the text of `output` with a fresh `setterImports`
      per call. It is what a freshly loaded module returns on its first call. */
  function Synthesize(input: Input, stringify: Stringify): (text: string)
    ensures text == OutputText([], input, stringify)
  {
    OutputMatchesSuite([], input, stringify);
    RenderSuite(ScopedSuite(input), stringify)
  }
}
