/** The natural-language lists in a selector test's title: the selectors being
    derived ("a, b, and c") and the updated atoms that trigger them
    ("x, and yupdate" or "x updates"). */
module Phrases {

  /** What one step of the indexed description fold appends for `key`:
      "and " before the last key, ", " after every other one and
      `lastSuffix` after the last. */
  function Piece(key: string, last: bool, lastSuffix: string): string
  {
    (if last then "and " else "") + key + (if last then lastSuffix else ", ")
  }

  /** The `reduce((list, { key }, i) => ..., '')` over the keys seen so far,
      where the key at index `i` is the last one exactly when `i == n - 1`. */
  function JoinPrefix(keys: seq<string>, n: nat, lastSuffix: string): string
    decreases |keys|
  {
    if keys == [] then ""
    else JoinPrefix(keys[..|keys| - 1], n, lastSuffix) + Piece(keys[|keys| - 1], |keys| - 1 == n - 1, lastSuffix)
  }

  /** The description fold run over all of `keys`. */
  function Join(keys: seq<string>, lastSuffix: string): string
  {
    JoinPrefix(keys, |keys|, lastSuffix)
  }

  /** The selectors named in a selector test's title: the fold with no suffix
      for two or more selectors, the bare key for one. */
  function TargetPhrase(keys: seq<string>): string
    requires |keys| > 0
  {
    if |keys| > 1 then Join(keys, "") else keys[0]
  }

  /** The trigger named after "when": the fold with suffix "update" for two
      or more updated atoms, "<key> updates" for one. */
  function TriggerPhrase(keys: seq<string>): string
    requires |keys| > 0
  {
    if |keys| > 1 then Join(keys, "update") else keys[0] + " updates"
  }

  /** Reference list: every key followed by ", ". */
  function Listed(keys: seq<string>): string
    decreases |keys|
  {
    if keys == [] then "" else Listed(keys[..|keys| - 1]) + keys[|keys| - 1] + ", "
  }

  predicate NoSpaces(keys: seq<string>)
  {
    forall k :: k in keys ==> ' ' !in k
  }

  /** The conjunction "and " starts at index `i` of `s`. */
  predicate AndAt(s: string, i: int)
  {
    0 <= i && i + 4 <= |s| && s[i..i + 4] == "and "
  }

  /** Before the last key is reached, the fold only lists keys with ", ". */
  lemma {:induction false} JoinPrefixIsListed(keys: seq<string>, n: nat, lastSuffix: string)
    requires |keys| < n
    ensures JoinPrefix(keys, n, lastSuffix) == Listed(keys)
  {
    if keys != [] {
      JoinPrefixIsListed(keys[..|keys| - 1], n, lastSuffix);
    }
  }

  /** The fold lists every key but the last with ", ", then "and ", the last
      key and the suffix. */
  lemma {:induction false} JoinShape(keys: seq<string>, lastSuffix: string)
    requires |keys| > 0
    ensures Join(keys, lastSuffix) == Listed(keys[..|keys| - 1]) + "and " + keys[|keys| - 1] + lastSuffix
  {
    var n := |keys|;
    JoinPrefixIsListed(keys[..n - 1], n, lastSuffix);
  }

  /** The first key opens the list. */
  lemma {:induction false} ListedStartsWithFirst(keys: seq<string>)
    requires |keys| > 0
    ensures |keys[0]| <= |Listed(keys)| && Listed(keys)[..|keys[0]|] == keys[0]
  {
    var n := |keys|;
    if n > 1 {
      var front := keys[..n - 1];
      ListedStartsWithFirst(front);
      assert front[0] == keys[0];
      assert Listed(keys) == Listed(front) + (keys[n - 1] + ", ");
      assert Listed(keys)[..|keys[0]|] == Listed(front)[..|keys[0]|];
    } else {
      assert keys[..0] == [];
      assert Listed(keys) == keys[0] + ", ";
    }
  }

  /** When keys hold no spaces, every space of the list follows a comma. */
  lemma {:induction false} ListedSpacesFollowCommas(keys: seq<string>)
    requires NoSpaces(keys)
    ensures forall j :: 0 <= j < |Listed(keys)| && Listed(keys)[j] == ' ' ==> 0 < j && Listed(keys)[j - 1] == ','
  {
    var n := |keys|;
    if n > 0 {
      var front := keys[..n - 1];
      var k := keys[n - 1];
      assert NoSpaces(front) by {
        forall x | x in front ensures ' ' !in x { assert x in keys; }
      }
      ListedSpacesFollowCommas(front);
      assert ' ' !in k;
      var p := Listed(front);
      var s := Listed(keys);
      assert s == p + k + ", ";
      forall j | 0 <= j < |s| ensures s[j] == ' ' ==> 0 < j && s[j - 1] == ','
      {
        if j < |p| {
          assert s[j] == p[j];
          if 0 < j { assert s[j - 1] == p[j - 1]; }
        } else if j < |p| + |k| {
          assert s[j] == k[j - |p|];
          assert k[j - |p|] in k;
        } else if j == |p| + |k| {
          assert s[j] == ',';
        } else {
          assert s[j - 1] == ',';
        }
      }
    }
  }

  /** For two or more space-free keys and a space-free suffix, "and " occurs
      exactly once, right before the last key, which then closes the list. */
  lemma AndOnlyBeforeLast(keys: seq<string>, lastSuffix: string)
    requires |keys| > 1 && NoSpaces(keys) && ' ' !in lastSuffix
    ensures var s := Join(keys, lastSuffix);
            var last := keys[|keys| - 1];
            |s| >= |last| + |lastSuffix| + 4 &&
            s[|s| - |last| - |lastSuffix|..] == last + lastSuffix &&
            forall i :: AndAt(s, i) <==> i == |s| - |last| - |lastSuffix| - 4
  {
    var n := |keys|;
    var front := keys[..n - 1];
    var last := keys[n - 1];
    JoinShape(keys, lastSuffix);
    assert NoSpaces(front) by {
      forall x | x in front ensures ' ' !in x { assert x in keys; }
    }
    ListedSpacesFollowCommas(front);
    assert ' ' !in last;
    var p := Listed(front);
    var s := Join(keys, lastSuffix);
    assert s == p + "and " + last + lastSuffix;
    var at := |p|;
    assert at == |s| - |last| - |lastSuffix| - 4;
    assert s[at..at + 4] == "and ";
    assert s[|s| - |last| - |lastSuffix|..] == last + lastSuffix;
    forall i | 0 <= i && i + 4 <= |s| && i != at ensures !AndAt(s, i)
    {
      var sp := i + 3;
      assert s[i..i + 4][3] == s[sp] && s[i..i + 4][2] == s[sp - 1];
      if sp < at {
        assert p[sp] == s[sp] && p[sp - 1] == s[sp - 1];
      } else if sp < at + 3 {
        assert s[sp] == "and "[sp - at];
      } else if sp < at + 4 + |last| {
        assert s[sp] == last[sp - at - 4];
        assert last[sp - at - 4] in last;
      } else {
        assert s[sp] == lastSuffix[sp - at - 4 - |last|];
        assert lastSuffix[sp - at - 4 - |last|] in lastSuffix;
      }
    }
  }

  /** A selector list holds "and " only when it names two or more selectors,
      and then only right before the last one, which ends the phrase. */
  lemma TargetConjunction(keys: seq<string>)
    requires |keys| > 0 && NoSpaces(keys)
    ensures var s := TargetPhrase(keys);
            var last := keys[|keys| - 1];
            |s| >= |last| && s[|s| - |last|..] == last &&
            forall i :: AndAt(s, i) <==> |keys| > 1 && i == |s| - |last| - 4
  {
    if |keys| > 1 {
      AndOnlyBeforeLast(keys, "");
    } else {
      var s := keys[0];
      assert ' ' !in s;
      forall i | 0 <= i && i + 4 <= |s| ensures !AndAt(s, i)
      {
        assert s[i + 3] == s[i..i + 4][3];
        assert s[i + 3] in s;
      }
    }
  }

  /** A trigger list of two or more atoms has one "and ", right before the
      last atom, which is glued to "update"; one atom gives "<key> updates",
      which holds "and " only when the key itself ends in "and". */
  lemma TriggerConjunction(keys: seq<string>)
    requires |keys| > 0 && NoSpaces(keys)
    ensures var s := TriggerPhrase(keys);
            var last := keys[|keys| - 1];
            |keys| > 1 ==> |s| >= |last| + 10 && s[|s| - |last| - 6..] == last + "update" &&
                           forall i :: AndAt(s, i) <==> i == |s| - |last| - 10
    ensures var s := TriggerPhrase(keys);
            var k := keys[0];
            |keys| == 1 ==> s == k + " updates" &&
                            forall i :: AndAt(s, i) <==> |k| >= 3 && i == |k| - 3 && k[|k| - 3..] == "and"
  {
    if |keys| > 1 {
      AndOnlyBeforeLast(keys, "update");
    } else {
      var k := keys[0];
      var s := TriggerPhrase(keys);
      assert ' ' !in k;
      assert s == k + " updates";
      forall i | 0 <= i && i + 4 <= |s| && !(|k| >= 3 && i == |k| - 3 && k[|k| - 3..] == "and")
        ensures !AndAt(s, i)
      {
        var sp := i + 3;
        assert s[i..i + 4][3] == s[sp];
        if sp < |k| {
          assert s[sp] == k[sp];
          assert k[sp] in k;
        } else if sp > |k| {
          var j := sp - |k|;
          assert s[sp] == " updates"[j];
          assert 1 <= j < 8;
          assert " updates"[j] in "updates";
        } else {
          assert s[i..i + 4] == k[|k| - 3..] + " ";
          assert k[|k| - 3..] != "and";
          assert (k[|k| - 3..] + " ")[..3] == k[|k| - 3..];
          assert "and "[..3] == "and";
        }
      }
      forall i | |k| >= 3 && i == |k| - 3 && k[|k| - 3..] == "and" ensures AndAt(s, i)
      {
        assert s[i..i + 4] == k[|k| - 3..] + " ";
      }
    }
  }

  /** Both phrases open with the first key, so the title reads "...when<key>"
      with no space after "when". */
  lemma {:induction false} PhrasesStartWithFirstKey(keys: seq<string>)
    requires |keys| > 0
    ensures |keys[0]| <= |TargetPhrase(keys)| && TargetPhrase(keys)[..|keys[0]|] == keys[0]
    ensures |keys[0]| <= |TriggerPhrase(keys)| && TriggerPhrase(keys)[..|keys[0]|] == keys[0]
  {
    var n := |keys|;
    if n > 1 {
      var front := keys[..n - 1];
      JoinShape(keys, "");
      JoinShape(keys, "update");
      ListedStartsWithFirst(front);
      assert front[0] == keys[0];
      assert TargetPhrase(keys)[..|keys[0]|] == Listed(front)[..|keys[0]|];
      assert TriggerPhrase(keys)[..|keys[0]|] == Listed(front)[..|keys[0]|];
    } else {
      assert TriggerPhrase(keys) == keys[0] + " updates";
    }
  }
}
