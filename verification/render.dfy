/** Rendering of the structured suite (module Cases) as text, and the proof
    that it is exactly the text the template of module Template produces:
    the file `output` writes is determined by the suite Compile builds. */
module Render {
  import opened Schema
  import opened Bindings
  import opened Cases
  import opened Template

  function SelectorTestsText(tests: seq<SelectorTest>, stringify: Stringify): string
    requires forall t :: t in tests ==> |t.targets| > 0 && |t.triggers| > 0
    decreases |tests|
  {
    if tests == [] then ""
    else SelectorTestsText(tests[..|tests| - 1], stringify) + SelectorTestText(tests[|tests| - 1], stringify)
  }

  function SetterTestsText(tests: seq<SetterTest>, stringify: Stringify): string
    decreases |tests|
  {
    if tests == [] then ""
    else SetterTestsText(tests[..|tests| - 1], stringify) + SetterTestText(tests[|tests| - 1], stringify)
  }

  /** The test file for a suite, in the layout of the template. */
  function RenderSuite(s: Suite, stringify: Stringify): string
    requires WellFormed(s)
  {
    Assemble(
      Lines(s.imports, ImportLine),
      Lines(s.stateKeys, StateDecl),
      Lines(s.valueKeys, ValueDecl),
      Lines(s.returnPairs, PairEntry) + Lines(s.returnValues, ValueEntry),
      InitialTestsText(s.initial, stringify),
      SelectorTestsText(s.selectorTests, stringify),
      SetterTestsText(s.setterTests, stringify))
  }

  /** A fold of one piece per key splits at any point of the key list. */
  lemma {:induction false} LinesAppend(a: seq<string>, b: seq<string>, line: string -> string)
    ensures Lines(a + b, line) == Lines(a, line) + Lines(b, line)
  {
    if b == [] {
      assert a + b == a;
    } else {
      var front := b[..|b| - 1];
      var ab := a + b;
      assert ab[..|ab| - 1] == a + front;
      assert ab[|ab| - 1] == b[|b| - 1];
      LinesAppend(a, front, line);
    }
  }

  /** The readable folds of lines 30 and 36 write one line for each key of
      ValueKeys and nothing else. */
  lemma {:induction false} UnclaimedIsValueKeys(keys: seq<string>, imports: seq<string>, line: string -> string)
    ensures Unclaimed(keys, imports, line) == Lines(ValueKeys(keys, imports), line)
  {
    if keys != [] {
      var front := keys[..|keys| - 1];
      var key := keys[|keys| - 1];
      UnclaimedIsValueKeys(front, imports, line);
      var before := ValueKeys(front, imports);
      if key !in imports {
        assert ValueKeys(keys, imports) == before + [key];
        assert (before + [key])[..|before|] == before;
      } else {
        assert ValueKeys(keys, imports) == before;
      }
    }
  }

  /** The setter fold of lines 19-28 writes one `useRecoilState` line for
      each key it adds to `setterImports`, in the order it adds them, and
      nothing for null setters or keys imported before. */
  lemma {:induction false} SetterDeclsAreNewImports(seen: seq<string>, cases: seq<SetterCase>)
    ensures var imports := SetterImports(seen, cases);
            SetterDecls(seen, cases) == Lines(imports[|seen|..], StateDecl)
  {
    if cases == [] {
      assert SetterImports(seen, cases)[|seen|..] == [];
    } else {
      var front := cases[..|cases| - 1];
      SetterDeclsAreNewImports(seen, front);
      var prior := SetterImports(seen, front);
      var added := prior[|seen|..];
      match cases[|cases| - 1].setter
      case None =>
      case Some(call) =>
        if call.key !in prior {
          assert SetterImports(seen, cases)[|seen|..] == added + [call.key];
          assert (added + [call.key])[..|added|] == added;
        }
    }
  }

  /** The snapshot fold of lines 53-90 writes exactly the selector tests of
      SelectorCases, in order. */
  lemma {:induction false} SnapshotTestsMatch(snaps: seq<Snapshot>, stringify: Stringify)
    ensures SnapshotTests(snaps, stringify) == SelectorTestsText(SelectorCases(snaps), stringify)
  {
    if snaps != [] {
      var front := snaps[..|snaps| - 1];
      var s := snaps[|snaps| - 1];
      SnapshotTestsMatch(front, stringify);
      var before := SelectorCases(front);
      match SelectorCase(s)
      case None =>
        assert SelectorCases(snaps) == before + [];
        assert before + [] == before;
      case Some(t) =>
        assert SelectorCases(snaps) == before + [t];
        assert (before + [t])[..|before|] == before;
        assert SnapshotTest(s, stringify) == SelectorTestText(t, stringify);
    }
  }

  /** The setter fold of lines 94-125 writes exactly the setter tests of
      SetterCases, in order. */
  lemma {:induction false} SetterCaseTestsMatch(cases: seq<SetterCase>, stringify: Stringify)
    ensures SetterCaseTests(cases, stringify) == SetterTestsText(SetterCases(cases), stringify)
  {
    if cases != [] {
      var front := cases[..|cases| - 1];
      var c := cases[|cases| - 1];
      SetterCaseTestsMatch(front, stringify);
      var before := SetterCases(front);
      match SetterCaseOf(c)
      case None =>
        assert SetterCases(cases) == before + [];
        assert before + [] == before;
      case Some(t) =>
        assert SetterCases(cases) == before + [t];
        assert (before + [t])[..|before|] == before;
        assert SetterCaseTest(c.state, c.setter.value, stringify) == SetterTestText(t, stringify);
    }
  }

  /** The text `output` returns is the rendering of the suite Compile builds
      from the same input and the same `setterImports`. */
  lemma OutputMatchesSuite(seen: seq<string>, input: Input, stringify: Stringify)
    ensures OutputText(seen, input, stringify) == RenderSuite(Compile(seen, input), stringify)
  {
    var s := Compile(seen, input);
    var w := Keys(input.writeables);
    var r := Keys(input.readables);
    var imports := SetterImports(seen, input.setters);
    LinesAppend(w, r, ImportLine);
    SetterDeclsAreNewImports(seen, input.setters);
    LinesAppend(w, imports[|seen|..], StateDecl);
    UnclaimedIsValueKeys(r, imports, ValueDecl);
    UnclaimedIsValueKeys(r, imports, ValueEntry);
    LinesAppend(w, imports, PairEntry);
    SnapshotTestsMatch(input.snapshots, stringify);
    SetterCaseTestsMatch(input.setters, stringify);
  }
}
