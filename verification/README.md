# Recoil test-file generator, modelled in Dafny

This project models `mock-package/testString.js`, the generator that turns a
recorded description of a Recoil store into the source text of a Jest test
file. The store description has five parts:

- writable atoms (`writeables`);
- read-only selectors (`readables`);
- snapshots of state changes with the selector values they produced;
- initial-render expectations;
- setter cases.

`output(writeables, readables, snapshots, initialRender, setters)` returns the
test file in one template. The template holds:

- an import list of every writable and every readable key;
- a `useStoreHook` hook that binds:
  - every writable read+write (`useRecoilState`);
  - every setter key not bound before, read+write, deduplicated through the
    module-level `setterImports` object;
  - every readable not claimed by a setter, read-only (`useRecoilValue`);
- the object the hook returns;
- an `INITIAL RENDER` block, a `SELECTORS` block and a `SETTERS:` part, with
  one test per initial expectation, per testable snapshot and per non-null
  setter.

The model has two layers and a proof that they agree:

- `Template` writes the text the way the source does. Each `reduce` is a
  left fold, and every skip condition is kept inline. `Template.OutputText`
  is the whole template.
- `Cases` builds the structured content of the file (`Cases.Suite`):
  - the bound and returned keys;
  - per test, the title lists, the ordered set steps and the ordered
    assertions.

  `Render` prints a suite, and `Render.OutputMatchesSuite` proves that the
  printed suite is exactly the source's text.
- `Phrases` holds the description lists ("a, b, and c", "x, and yupdate",
  "x updates").
- `Bindings` holds the deduplication of setter keys.
- `Generator.TestString` is the module itself. Its field `setterImports`
  outlives each call, as the module-level object does. `BindSetters` runs the
  setter fold in place, and `Output` is `output`.

`JSON.stringify` is a parameter, `stringify: Json -> string`, that the model
never looks inside.

Every operation is a function of its inputs and of the `setterImports` left
by earlier calls, so the same input and the same prior state give the same
text.

The model follows the code as written:

- The deduplication map persists across calls; it is not local to one run.
  See Findings.
- A setter key is not checked against the writable keys. A key that is both
  is declared twice (`Cases.WritableSetterDeclaredTwice`).
- Malformed input and values that cannot be serialised are not handled.
- The multi-atom trigger phrase glues `update` to the last key ("x, and
  yupdate").
- The generated text is not valid JavaScript everywhere. The model keeps
  the bare `SETTERS:` line and the bare `<key> was set with <value>` line
  literally.

## Model

| member | source | states |
|---|---|---|
| `Bindings.SetterImports` | mock-package/testString.js:19-28 | After the setter fold, `setterImports` still starts with the keys it held before. It holds exactly those keys plus the keys of the non-null setters. It stays free of duplicates. |
| `Bindings.SetterImportsOrder` | mock-package/testString.js:19-28 | The keys the fold adds are the setter keys not held before, each at its first occurrence, in input order. This is checked against a front-to-back reference (`FirstOccurrences`), and it is the order line 35 lists them in. |
| `Bindings.AlreadyImported` | mock-package/testString.js:20-27 | When every setter key is already in `setterImports`, the fold leaves it unchanged. |
| `Bindings.SecondCallAddsNothing` | mock-package/testString.js:1-28 | A second call with the same setter cases imports no new key. |
| `Bindings.DeclaredOnceAcrossCalls` | mock-package/testString.js:1-28 | Over two calls, the keys each call newly imports are pairwise distinct and were not imported before. Their concatenation is the final `setterImports`. |
| `Bindings.ValueKeys` | mock-package/testString.js:30-36 | The readables left unclaimed by `setterImports`. The result is never longer than the readables; its counts and order are stated by the next two rows. |
| `Bindings.ValueKeysCounts` | mock-package/testString.js:30-36 | A readable key gets as many read-only entries as it occurs among the readables, or none when it is in `setterImports`. |
| `Bindings.ValueKeysAppend` | mock-package/testString.js:30-36 | The readable filter splits over concatenation, so the kept readables stay in input order. With the counts, this fixes the result. |
| `Phrases.TargetPhrase` | mock-package/testString.js:59-64 | The selector list of a test title. Its shape is stated by `Phrases.TargetConjunction`. |
| `Phrases.TriggerPhrase` | mock-package/testString.js:65-71 | The updated-atom list of a test title. Its shape is stated by `Phrases.TriggerConjunction`. |
| `Phrases.JoinPrefixIsListed` | mock-package/testString.js:60-63 | Until the last key is reached, the indexed description fold writes each key followed by ", ". |
| `Phrases.JoinShape` | mock-package/testString.js:59-71 | The description fold writes every key but the last followed by ", ", then "and ", then the last key, then the suffix. |
| `Phrases.AndOnlyBeforeLast` | mock-package/testString.js:59-71 | For two or more keys without spaces and a suffix without spaces, "and " occurs exactly once: right before the last key. The last key and the suffix then end the text. |
| `Phrases.TargetConjunction` | mock-package/testString.js:59-64 | The selector list contains "and " exactly when it names two or more selectors, and only right before the last one. One selector gives just its key. |
| `Phrases.TriggerConjunction` | mock-package/testString.js:65-71 | Two or more updated atoms give one "and ", right before the last atom, which is followed directly by "update". One atom gives "<key> updates", which contains "and " only if the key itself ends in "and". |
| `Phrases.PhrasesStartWithFirstKey` | mock-package/testString.js:58-72 | Both lists open with their first key, so the title reads "...when<key>" with no space. |
| `Cases.Updated` | mock-package/testString.js:54 | The `state.filter` of lines 54 and 95. It is never longer than `state`; its counts and order are stated by the next rows. |
| `Cases.UpdatedCounts` | mock-package/testString.js:54 | The `updated` filter keeps each updated entry as often as it occurs in `state` and drops every other entry. |
| `Cases.UpdatedAppend` | mock-package/testString.js:54 | The `updated` filter splits over concatenation, so the kept entries stay in state order. With the counts, this fixes the result. |
| `Cases.UpdatedMembers` | mock-package/testString.js:54-57 | Every kept entry is an updated member of `state`. The filter is empty exactly when no entry is updated. |
| `Cases.SelectorCaseSpec` | mock-package/testString.js:53-90 | A snapshot yields a selector test exactly when some state entry is updated and there is a selector. The test's title names the selectors and the updated atoms. It sets every state entry, updated or not, to its `value` in order. It asserts every selector against its `newValue` in order. |
| `Cases.SetterCaseSpec` | mock-package/testString.js:94-123 | A setter case yields a test exactly when its setter is not null. The test seeds every state entry with `previous` in order and calls the setter once with `newValue`. It then asserts only the updated entries, in order, against `value`. |
| `Cases.SelectorCase` | mock-package/testString.js:53-90 | The selector test of one snapshot, or none. Its behaviour is stated by `Cases.SelectorCaseSpec`. |
| `Cases.SetterCaseOf` | mock-package/testString.js:94-123 | The setter test of one setter case, or none. Its behaviour is stated by `Cases.SetterCaseSpec`. |
| `Cases.SelectorCases` | mock-package/testString.js:53-90 | The selector tests of all snapshots: at most one per snapshot, each with a non-empty title on both sides. |
| `Cases.SetterCases` | mock-package/testString.js:94-125 | The setter tests of all setter cases: at most one per case. |
| `Cases.SelectorCasesAppend` | mock-package/testString.js:53-90 | Snapshots contribute their tests independently and in input order. |
| `Cases.SetterCasesAppend` | mock-package/testString.js:94-125 | Setter cases contribute their tests independently and in input order. |
| `Cases.Compile` | mock-package/testString.js:5-50 | The hook declares the writables and then the setter keys new in this call. A readable gets read-only entries exactly when no setter key claimed it. The returned object lists the writables, then every key kept from earlier calls, then the new setter keys, then the read-only readables. The read-only keys are `ValueKeys` of the readables, so they keep readable order. The import list is the writables' keys, then the readables' keys. The selector and setter tests are those of `SelectorCases` and `SetterCases`. There is one initial-render test per entry, in order, against its `newValue`. |
| `Cases.WritableSetterDeclaredTwice` | mock-package/testString.js:15-28 | A key that is both a writable and a newly imported setter key gets two `useRecoilState` declarations. |
| `Template.SetterDecls` | mock-package/testString.js:19-28 | The text of the setter fold. It is characterised by `Render.SetterDeclsAreNewImports`. |
| `Template.Unclaimed` | mock-package/testString.js:30-36 | The text of the readable folds of lines 30 and 36. It is characterised by `Render.UnclaimedIsValueKeys`. |
| `Template.InitialTestsText` | mock-package/testString.js:42-50 | The initial-render fold: one test per entry, in order, titled `<key> should initialize correctly`, whose `toStrictEqual` checks `<key>Value` against the entry's `newValue`. It is characterised by the `initial` clause of `Cases.Compile` and by `Render.OutputMatchesSuite`. |
| `Template.SnapshotTests` | mock-package/testString.js:53-90 | The text of the snapshot fold. It is characterised by `Render.SnapshotTestsMatch`. |
| `Template.SetterCaseTests` | mock-package/testString.js:94-125 | The text of the setter-case fold. It is characterised by `Render.SetterCaseTestsMatch`. |
| `Template.OutputText` | mock-package/testString.js:2-126 | The whole template, whitespace included. It is characterised by `Render.OutputMatchesSuite`. |
| `Render.LinesAppend` | mock-package/testString.js:7-8 | A fold that adds one piece per key splits at any point of the key list. So the import list is the writables' entries followed by the readables' entries. |
| `Render.UnclaimedIsValueKeys` | mock-package/testString.js:30-36 | The readable folds of lines 30 and 36 write one line for each key of `ValueKeys` and nothing else. |
| `Render.SetterDeclsAreNewImports` | mock-package/testString.js:19-28 | The setter fold writes one `useRecoilState` line per key it adds to `setterImports`, in insertion order. Null setters and keys already present add nothing. |
| `Render.SnapshotTestsMatch` | mock-package/testString.js:53-90 | The snapshot fold writes exactly the rendered selector tests of `SelectorCases`, in order. A skipped snapshot leaves the text unchanged. |
| `Render.SetterCaseTestsMatch` | mock-package/testString.js:94-125 | The setter fold writes exactly the rendered setter tests of `SetterCases`, in order. A null setter leaves the text unchanged. |
| `Render.OutputMatchesSuite` | mock-package/testString.js:2-126 | The text `output` returns is the rendering of the suite `Compile` builds from the same input and the same prior `setterImports`. |
| `Generator.TestString.constructor` | mock-package/testString.js:1 | A freshly loaded module has an empty `setterImports`. |
| `Generator.TestString.BindSetters` | mock-package/testString.js:19-28 | The in-place fold leaves `setterImports` as `SetterImports` of its old value and returns the text of the setter fold. `setterImports` stays duplicate-free. |
| `Generator.TestString.Output` | mock-package/testString.js:2-126 | `output` returns `OutputText` of the `setterImports` it found. It leaves `setterImports` extended by the new setter keys. |
| `Generator.KeptKeysReturnedUndeclared` | mock-package/testString.js:19-36 | As written: a key left in `setterImports` by an earlier call, and not a writable, is listed in the returned object but declared nowhere in the hook. |
| `Generator.SecondCallReturnsUndeclared` | mock-package/testString.js:1-36 | As written: after one call with setter `count`, a second identical call returns `count` without declaring it. |
| `Generator.ScopedSuite` | mock-package/testString.js:15-37 | Corrected, with `setterImports` scoped to the call: the returned pairs are exactly the read+write declarations, and the value-only entries are exactly the read-only declarations. The setter declarations are distinct. |
| `Generator.Synthesize` | mock-package/testString.js:2-126 | Corrected generator: its text is what `output` returns when `setterImports` is empty. |

## Findings

| source | as written | input that shows it | evidently intended | confidence | as-written member | corrected member |
|---|---|---|---|---|---|---|
| mock-package/testString.js:1 | `setterImports` is a module-level object. Keys recorded by one call of `output` stay for later calls. A later call skips their declaration (line 22) but still lists them in the returned object (line 35). | Two calls with `setters = [{ state: [], setter: { key: 'count', newValue: 1 } }]`. The second file's hook returns `countValue` and `setcount` but never declares them. | Deduplication scoped to one call. Each generated file then declares every identifier its hook returns. | medium; not executed | `Generator.SecondCallReturnsUndeclared` | `Generator.ScopedSuite` |

`Generator.TestString` keeps the as-written behaviour, because it models the
module. `Generator.Synthesize` is the corrected generator.

## Left out

- SetterImports: its own contract gives the prefix, the membership and
  distinctness, not the order of the new keys. That order is stated by
  `Bindings.SetterImportsOrder`.
- ValueKeys: its own contract gives only a length bound. Counts and order
  are stated by `Bindings.ValueKeysCounts` and `Bindings.ValueKeysAppend`.
- UpdatedCounts: states the counts only. The order of the kept entries is
  stated by `Cases.UpdatedAppend`.
- JSON numbers are modelled as `int` (`Json.Number`), not as floating-point
  values. Values reach the output only through `stringify`, so nothing
  depends on this.
- `JSON.stringify` is the caller-supplied `stringify`. What it prints is not
  modelled, and neither is `undefined` output for a missing `previous` field.
  Every state entry carries all four fields.
- `setterImports` is modelled by its own keys in insertion order. Three
  JavaScript object rules are not modelled:
  - `Object.keys` lists array-index keys such as `"1"` first, in numeric
    order;
  - `setterImports[key]` (line 22) and `key in setterImports` (lines 30
    and 36) also see inherited properties such as `toString`;
  - assigning to `__proto__` does not add a key.

  The model assumes keys of neither kind.
- A setter is either `null` (`None`) or an object. An `undefined` setter
  throws at line 21 and is not modelled. The truthiness test of line 97
  agrees with the `null` test of line 20 on these two cases. `updated` is a
  boolean.
- `Phrases.TargetConjunction`, `Phrases.TriggerConjunction`: these assume
  keys without spaces. The source does not check this. A key containing a
  space could introduce further "and " occurrences.
- Running the generated tests is not modelled: hook rendering, `act`
  batching and Recoil state semantics belong to external libraries.
- The commented-out notes after the `output` export are not modelled.
- `test/selectors.test.js` (hand-written tests) and `src/store/atoms.js`
  (atom declarations, one with a random default) are not part of this model.
