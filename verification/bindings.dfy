/** Which keys the generated `useStoreHook` binds: the deduplication of setter
    keys through the module-level `setterImports` object, and the readables
    that stay read-only because no setter claimed their key. */
module Bindings {
  import opened Schema

  predicate Distinct(s: seq<string>)
  {
    forall i, j :: 0 <= i < j < |s| ==> s[i] != s[j]
  }

  /** The keys of the non-null setters, in input order, repeats included. */
  function SetterKeys(cases: seq<SetterCase>): (ks: seq<string>)
    decreases |cases|
  {
    if cases == [] then []
    else
      SetterKeys(cases[..|cases| - 1]) +
      match cases[|cases| - 1].setter
      case None => []
      case Some(call) => [call.key]
  }

  /** Reference order, read front to back: the keys of `keys` that are not in
      `seen`, each at its first occurrence. */
  function FirstOccurrences(seen: seq<string>, keys: seq<string>): seq<string>
    decreases |keys|
  {
    if keys == [] then []
    else if keys[0] in seen then FirstOccurrences(seen, keys[1..])
    else [keys[0]] + FirstOccurrences(seen + [keys[0]], keys[1..])
  }

  /** One more key extends the reference order by that key exactly when it is
      new. */
  lemma {:induction false} FirstOccurrencesSnoc(seen: seq<string>, keys: seq<string>, k: string)
    decreases |keys|
    ensures var firsts := FirstOccurrences(seen, keys);
            FirstOccurrences(seen, keys + [k]) == firsts + (if k in seen + firsts then [] else [k])
  {
    if keys == [] {
      assert keys + [k] == [k] && [k][1..] == [];
    } else {
      var x := keys[0];
      var rest := keys[1..];
      assert (keys + [k])[0] == x && (keys + [k])[1..] == rest + [k];
      if x in seen {
        FirstOccurrencesSnoc(seen, rest, k);
      } else {
        FirstOccurrencesSnoc(seen + [x], rest, k);
        var tail := FirstOccurrences(seen + [x], rest);
        assert seen + FirstOccurrences(seen, keys) == (seen + [x]) + tail;
        assert FirstOccurrences(seen, keys) + [k] == [x] + (tail + [k]);
      }
    }
  }

  /** The keys of `setterImports`, in insertion order, after the setter fold
      has run over `cases` starting from the keys `seen` left by earlier calls.
      A null setter adds nothing; a key already present adds nothing. */
  function SetterImports(seen: seq<string>, cases: seq<SetterCase>): (imports: seq<string>)
    decreases |cases|
    ensures |seen| <= |imports| && imports[..|seen|] == seen
    ensures forall k :: k in imports <==> k in seen || k in SetterKeys(cases)
    ensures Distinct(seen) ==> Distinct(imports)
  {
    if cases == [] then seen
    else
      var prior := SetterImports(seen, cases[..|cases| - 1]);
      match cases[|cases| - 1].setter
      case None => prior
      case Some(call) => if call.key in prior then prior else prior + [call.key]
  }

  /** The keys the setter fold adds follow the first occurrences of the
      setter keys, front to back: the order `Object.keys` lists them in. */
  lemma {:induction false} SetterImportsOrder(seen: seq<string>, cases: seq<SetterCase>)
    decreases |cases|
    ensures SetterImports(seen, cases) == seen + FirstOccurrences(seen, SetterKeys(cases))
  {
    if cases == [] {
      assert seen + [] == seen;
    } else {
      var front := cases[..|cases| - 1];
      SetterImportsOrder(seen, front);
      var prior := SetterImports(seen, front);
      match cases[|cases| - 1].setter {
        case None =>
          assert SetterKeys(cases) == SetterKeys(front) + [] == SetterKeys(front);
        case Some(call) =>
          assert SetterKeys(cases) == SetterKeys(front) + [call.key];
          FirstOccurrencesSnoc(seen, SetterKeys(front), call.key);
      }
    }
  }

  /** The keys of `readables` that get a `useRecoilValue` line and a value-only
      entry in the returned object: those not among `imports`, in order. */
  function ValueKeys(readables: seq<string>, imports: seq<string>): (ks: seq<string>)
    decreases |readables|
    ensures |ks| <= |readables|
  {
    if readables == [] then []
    else
      var k := readables[|readables| - 1];
      ValueKeys(readables[..|readables| - 1], imports) + (if k in imports then [] else [k])
  }

  /** A readable key is kept as often as it occurs among the readables, or
      not at all when a setter claimed it. */
  lemma {:induction false} ValueKeysCounts(readables: seq<string>, imports: seq<string>)
    decreases |readables|
    ensures var ks := ValueKeys(readables, imports);
            forall k :: multiset(ks)[k] == if k in imports then 0 else multiset(readables)[k]
  {
    if readables != [] {
      var front := readables[..|readables| - 1];
      var k := readables[|readables| - 1];
      ValueKeysCounts(front, imports);
      assert readables == front + [k];
      var last := if k in imports then [] else [k];
      assert ValueKeys(readables, imports) == ValueKeys(front, imports) + last;
      assert multiset(ValueKeys(readables, imports)) == multiset(ValueKeys(front, imports)) + multiset(last);
      assert multiset(readables) == multiset(front) + multiset{k};
    }
  }

  /** The readable filter works element by element and keeps input order:
      together with the counts in ValueKeys' contract this pins the result. */
  lemma {:induction false} ValueKeysAppend(a: seq<string>, b: seq<string>, imports: seq<string>)
    ensures ValueKeys(a + b, imports) == ValueKeys(a, imports) + ValueKeys(b, imports)
  {
    if b == [] {
      assert a + b == a;
    } else {
      var front := b[..|b| - 1];
      var k := b[|b| - 1];
      var ab := a + b;
      assert ab[..|ab| - 1] == a + front && ab[|ab| - 1] == k;
      var last := if k in imports then [] else [k];
      assert ValueKeys(ab, imports) == ValueKeys(a + front, imports) + last;
      assert ValueKeys(b, imports) == ValueKeys(front, imports) + last;
      ValueKeysAppend(a, front, imports);
    }
  }

  /** When every setter key is already imported, the fold changes nothing. */
  lemma {:induction false} AlreadyImported(seen: seq<string>, cases: seq<SetterCase>)
    requires forall k :: k in SetterKeys(cases) ==> k in seen
    ensures SetterImports(seen, cases) == seen
  {
    if cases != [] {
      var front := cases[..|cases| - 1];
      assert forall k :: k in SetterKeys(front) ==> k in SetterKeys(cases);
      AlreadyImported(seen, front);
      match cases[|cases| - 1].setter
      case None =>
      case Some(call) =>
        assert call.key in SetterKeys(cases);
    }
  }

  /** A second call with the same setter cases imports nothing new, so it
      emits no `useRecoilState` line for any setter. */
  lemma SecondCallAddsNothing(seen: seq<string>, cases: seq<SetterCase>)
    ensures SetterImports(SetterImports(seen, cases), cases) == SetterImports(seen, cases)
  {
    AlreadyImported(SetterImports(seen, cases), cases);
  }

  /** Across two calls the keys each call newly imports (and so declares with
      `useRecoilState`) are distinct from each other and from everything
      imported before: a setter key is declared at most once overall. */
  lemma DeclaredOnceAcrossCalls(seen: seq<string>, first: seq<SetterCase>, second: seq<SetterCase>)
    requires Distinct(seen)
    ensures var after1 := SetterImports(seen, first);
            var after2 := SetterImports(after1, second);
            var new1 := after1[|seen|..];
            var new2 := after2[|after1|..];
            Distinct(new1 + new2) &&
            (forall k :: k in new1 + new2 ==> k !in seen) &&
            seen + new1 + new2 == after2
  {
    var after1 := SetterImports(seen, first);
    var after2 := SetterImports(after1, second);
    var new1 := after1[|seen|..];
    var new2 := after2[|after1|..];
    assert after1 == seen + new1;
    assert after2 == after1 + new2;
    assert after2 == seen + (new1 + new2);
    var tail := new1 + new2;
    forall i, j | 0 <= i < j < |tail| ensures tail[i] != tail[j]
    {
      assert tail[i] == after2[|seen| + i] && tail[j] == after2[|seen| + j];
    }
    forall k | k in tail ensures k !in seen
    {
      var i :| 0 <= i < |tail| && tail[i] == k;
      assert after2[|seen| + i] == k;
    }
  }
}
