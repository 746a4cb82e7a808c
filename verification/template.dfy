/** The text `output` returns, written the way mock-package/testString.js
    writes it: one template with a `reduce` fold per list. Unconditional folds
    that emit one piece per element are `Lines`, `StepsText` and `ChecksText`;
    the folds that skip elements (lines 19-28, 30, 36, 53-90 and 94-125) are
    written out with their own conditions. */
module Template {
  import opened Schema
  import opened Phrases
  import opened Bindings
  import opened Cases

  /** Stands for `JSON.stringify`, which the generator calls on every value. */
  type Stringify = Json -> string

  /** Left fold of `line` over `keys`: the shape of every `reduce` whose
      accumulator grows by one piece per key. */
  function Lines(keys: seq<string>, line: string -> string): string
    decreases |keys|
  {
    if keys == [] then "" else Lines(keys[..|keys| - 1], line) + line(keys[|keys| - 1])
  }

  /** An entry of the import list (lines 7-8). */
  function ImportLine(key: string): string
  {
    "\t" + key + ",\n"
  }

  /** A read+write binding (lines 16 and 24). */
  function StateDecl(key: string): string
  {
    "\tconst [" + key + "Value, set" + key + "] = useRecoilState(" + key + ");\n"
  }

  /** A read-only binding (line 30). */
  function ValueDecl(key: string): string
  {
    "\tconst " + key + "Value = useRecoilValue(" + key + ");\n"
  }

  /** A value/setter pair of the returned object (lines 34-35). */
  function PairEntry(key: string): string
  {
    "\t" + key + "Value,\n\tset" + key + ",\n"
  }

  /** A value-only entry of the returned object (line 36). */
  function ValueEntry(key: string): string
  {
    "\t" + key + "Value,\n"
  }

  /** The setter fold of lines 19-28: a null setter adds nothing, a key
      already in `setterImports` adds nothing, any other key is declared. */
  function SetterDecls(seen: seq<string>, cases: seq<SetterCase>): string
    decreases |cases|
  {
    if cases == [] then ""
    else
      var front := cases[..|cases| - 1];
      var str := SetterDecls(seen, front);
      match cases[|cases| - 1].setter
      case None => str
      case Some(call) =>
        if call.key in SetterImports(seen, front) then str else str + StateDecl(call.key)
  }

  /** The readable folds of lines 30 and 36: `line` for each key not in
      `setterImports`, nothing for the others. */
  function Unclaimed(keys: seq<string>, imports: seq<string>, line: string -> string): string
    decreases |keys|
  {
    if keys == [] then ""
    else
      var str := Unclaimed(keys[..|keys| - 1], imports, line);
      var key := keys[|keys| - 1];
      if key in imports then str else str + line(key)
  }

  /** `result.current.set<key>(<value>);` as written inside `act` (lines 77, 103). */
  function StepText(step: Step, stringify: Stringify): string
  {
    "\t\t\tresult.current.set" + step.key + "(" + stringify(step.value) + ");\n\n"
  }

  function StepsText(steps: seq<Step>, stringify: Stringify): string
    decreases |steps|
  {
    if steps == [] then "" else StepsText(steps[..|steps| - 1], stringify) + StepText(steps[|steps| - 1], stringify)
  }

  /** `expect(result.current.<key>Value).toStrictEqual(<value>);` (lines 83-85, 116-118). */
  function CheckText(check: Assertion, stringify: Stringify): string
  {
    "\t\texpect(result.current." + check.key + "Value).toStrictEqual(" + stringify(check.expected) + ");\n\n"
  }

  function ChecksText(checks: seq<Assertion>, stringify: Stringify): string
    decreases |checks|
  {
    if checks == [] then "" else ChecksText(checks[..|checks| - 1], stringify) + CheckText(checks[|checks| - 1], stringify)
  }

  /** One initial-render test (lines 46-48). */
  function InitialTestText(check: Assertion, stringify: Stringify): string
  {
    "\tit('" + check.key + " should initialize correctly', () => {\n" +
    "\t\texpect(result.current." + check.key + "Value).toStrictEqual(" + stringify(check.expected) + ");\n" +
    "\t});\n\n"
  }

  function InitialTestsText(checks: seq<Assertion>, stringify: Stringify): string
    decreases |checks|
  {
    if checks == [] then "" else InitialTestsText(checks[..|checks| - 1], stringify) + InitialTestText(checks[|checks| - 1], stringify)
  }

  /** The title of a selector test (lines 58-72). */
  function SelectorTitle(targets: seq<string>, triggers: seq<string>): string
    requires |targets| > 0 && |triggers| > 0
  {
    "\tit('" + TargetPhrase(targets) + " should properly derive state when" + TriggerPhrase(triggers) + "', () => {\n"
  }

  /** The text of a selector test (lines 58-88). */
  function SelectorTestText(t: SelectorTest, stringify: Stringify): string
    requires |t.targets| > 0 && |t.triggers| > 0
  {
    SelectorTitle(t.targets, t.triggers) +
    "\t\tconst { result } = renderRecoilHook(useStoreHook);\n" +
    "\t\tact(() => {\n" +
    StepsText(t.steps, stringify) + "\n" +
    "\t\t});\n" +
    ChecksText(t.checks, stringify) + "\n" +
    "\t});\n\n"
  }

  /** The selector test written for a snapshot that passed the guard of line 57. */
  function SnapshotTest(s: Snapshot, stringify: Stringify): string
    requires |Updated(s.state)| != 0 && |s.selectors| != 0
  {
    SelectorTestText(SelectorTest(ExpectationKeys(s.selectors), UpdatedKeys(s.state), Assignments(s.state), Checks(s.selectors)), stringify)
  }

  /** The snapshot fold of lines 53-90: a snapshot with no updated atom or no
      selector leaves the text unchanged. */
  function SnapshotTests(snaps: seq<Snapshot>, stringify: Stringify): string
    decreases |snaps|
  {
    if snaps == [] then ""
    else
      var tests := SnapshotTests(snaps[..|snaps| - 1], stringify);
      var s := snaps[|snaps| - 1];
      var atomLen := |Updated(s.state)|;
      var selectorLen := |s.selectors|;
      if atomLen != 0 && selectorLen != 0 then tests + SnapshotTest(s, stringify) else tests
  }

  /** The text of a setter test (lines 98-122), including the bare
      "was set with" line of line 112. */
  function SetterTestText(t: SetterTest, stringify: Stringify): string
  {
    "\tit('" + t.setter + " should properly set state', () => {\n" +
    "  \t\tconst { result } = renderRecoilHook(useStoreHook);\n" +
    "  \t\tact(() => {\n" +
    " " + StepsText(t.seeds, stringify) + "\n" +
    "    \t\t});\n" +
    "  \t\tact(() => { \n" +
    StepText(t.call, stringify) + "\n" +
    "  \t\t});\n\n\n" +
    "    " + t.setter + " was set with " + stringify(t.call.value) + "\n\n" +
    "    \n" +
    " " + ChecksText(t.checks, stringify) + "\n" +
    "\n" +
    "      \t});\n\n"
  }

  /** The setter test written for a setter case with a non-null setter. */
  function SetterCaseTest(state: seq<StateEntry>, call: SetterCall, stringify: Stringify): string
  {
    SetterTestText(SetterTest(call.key, Seeds(state), Step(call.key, call.newValue), ValueChecks(Updated(state))), stringify)
  }

  /** The setter fold of lines 94-125: a null setter leaves the text unchanged. */
  function SetterCaseTests(cases: seq<SetterCase>, stringify: Stringify): string
    decreases |cases|
  {
    if cases == [] then ""
    else
      var tests := SetterCaseTests(cases[..|cases| - 1], stringify);
      var c := cases[|cases| - 1];
      match c.setter
      case None => tests
      case Some(call) => tests + SetterCaseTest(c.state, call, stringify)
  }

  /** The fixed text of the template (lines 3-126) around its substitutions. */
  function Assemble(imports: string, stateDecls: string, valueDecls: string, entries: string,
                    initial: string, selectors: string, setters: string): string
  {
    "import { renderRecoilHook, act } from 'react-recoil-hooks-testing-library';\n" +
    "import { useRecoilValue, useRecoilState } from 'recoil';\n" +
    "import {\n" +
    imports + "\n" +
    "} from '<ADD STORE FILEPATH>';\n" +
    "// Suppress 'Batcher' warnings from React / Recoil conflict\n" +
    "console.error = jest.fn();\n" +
    "// Hook to return atom/selector values and/or modifiers for react-recoil-hooks-testing-library\n" +
    "const useStoreHook = () => {\n" +
    stateDecls + "\n\n" +
    valueDecls + "\n" +
    "return {\n" +
    entries + "\n" +
    "};\n" +
    "};\n" +
    "describe('INITIAL RENDER', () => { \n" +
    "const { result } = renderRecoilHook(useStoreHook); \n" +
    initial + "\n" +
    "});\n" +
    "describe('SELECTORS', () => {\n" +
    selectors + "\n\n\n" +
    "SETTERS:\n" +
    setters + " \n" +
    "});"
  }

  /** What `output(writeables, readables, snapshots, initialRender, setters)`
      returns when `setterImports` holds the keys `seen` on entry. */
  function OutputText(seen: seq<string>, input: Input, stringify: Stringify): string
  {
    var w := Keys(input.writeables);
    var r := Keys(input.readables);
    var imports := SetterImports(seen, input.setters);
    Assemble(
      Lines(w, ImportLine) + Lines(r, ImportLine),
      Lines(w, StateDecl) + SetterDecls(seen, input.setters),
      Unclaimed(r, imports, ValueDecl),
      Lines(w, PairEntry) + Lines(imports, PairEntry) + Unclaimed(r, imports, ValueEntry),
      InitialTestsText(Checks(input.initialRender), stringify),
      SnapshotTests(input.snapshots, stringify),
      SetterCaseTests(input.setters, stringify))
  }
}
