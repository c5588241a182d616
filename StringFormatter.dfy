/** StringFormatter: named `{key}` placeholders in a template are collected
    left to right with a character stack, and the i-th placeholder's key is
    bound to the i-th argument; the names only make the template readable. */
module StringFormatter {
  import opened Base

  /** The first '}' at or after position j, or |t| when there is none. */
  function CloseFrom(t: string, j: nat): (q: nat)
    ensures j <= q || q == |t|
    ensures q <= |t|
    ensures q < |t| ==> t[q] == '}'
    ensures forall k | j <= k < q :: t[k] != '}'
    decreases |t| - j
  {
    if j >= |t| then |t|
    else if t[j] == '}' then j
    else CloseFrom(t, j + 1)
  }

  /** The first '}' from j on is at q when none comes before it. */
  lemma {:induction false} CloseAt(t: string, j: nat, q: nat)
    requires j <= q <= |t|
    requires q == |t| || t[q] == '}'
    requires forall k | j <= k < q :: t[k] != '}'
    ensures CloseFrom(t, j) == q
    decreases q - j
  {
    if j < q {
      CloseAt(t, j + 1, q);
    }
  }

  /** ks followed by the keys of r, or r's failure. */
  function Prepend(ks: seq<string>, r: Result<seq<string>>): Result<seq<string>>
  {
    if r.Ok? then Ok(ks + r.value) else r
  }

  lemma PrependAppend(ks: seq<string>, key: string, r: Result<seq<string>>)
    ensures Prepend(ks, Prepend([key], r)) == Prepend(ks + [key], r)
  {
    if r.Ok? {
      assert ks + ([key] + r.value) == ks + [key] + r.value;
    }
  }

  /** The placeholder keys of t from position i on: each '{' opens a key that
      the next '}' closes; a '}' with no open '{' is skipped; a '{' never
      closed is an error. */
  function Keys(t: string, i: nat): (r: Result<seq<string>>)
    ensures r.Err? ==> r == Err(UnbalancedBraces)
    decreases |t| - i
  {
    if i >= |t| then Ok([])
    else if t[i] != '{' then Keys(t, i + 1)
    else
      var q := CloseFrom(t, i + 1);
      if q == |t| then Err(UnbalancedBraces)
      else Prepend([t[i + 1..q]], Keys(t, q + 1))
  }

  /** A '}' before any '{' produces no key. */
  lemma {:induction false} StrayCloseSkipped(t: string, i: nat)
    requires i < |t| && t[i] == '}'
    ensures Keys(t, i) == Keys(t, i + 1)
  {
  }

  /** A '{' that no later '}' closes: the scan fails exactly when one is
      there. */
  predicate Unclosed(t: string, i: nat)
  {
    exists p | i <= p < |t| :: t[p] == '{' && CloseFrom(t, p + 1) == |t|
  }

  /** The placeholder scan fails exactly when some '{' from i on has no
      later '}'; a '{' inside a key is closed by that key's '}'. */
  lemma {:induction false} KeysFail(t: string, i: nat)
    ensures Keys(t, i).Err? <==> Unclosed(t, i)
    decreases |t| - i
  {
    if i >= |t| {
    } else if t[i] != '{' {
      KeysFail(t, i + 1);
      UnclosedFrom(t, i, i + 1);
    } else {
      var q := CloseFrom(t, i + 1);
      if q == |t| {
        assert t[i] == '{' && CloseFrom(t, i + 1) == |t|;
      } else {
        KeysFail(t, q + 1);
        forall p | i <= p <= q && t[p] == '{'
          ensures CloseFrom(t, p + 1) == q
        {
          CloseAt(t, p + 1, q);
        }
        UnclosedFrom(t, i, q + 1);
      }
    }
  }

  /** Unclosed from i is Unclosed from j when every '{' in between is closed. */
  lemma UnclosedFrom(t: string, i: nat, j: nat)
    requires i <= j <= |t|
    requires forall p | i <= p < j && t[p] == '{' :: CloseFrom(t, p + 1) < |t|
    ensures Unclosed(t, i) <==> Unclosed(t, j)
  {
    if Unclosed(t, i) {
      var p :| i <= p < |t| && t[p] == '{' && CloseFrom(t, p + 1) == |t|;
      assert j <= p;
    }
  }

  /** The first placeholder's key runs from the first '{' to the next '}',
      whatever other '{' lie between: a nested '{' becomes part of the key. */
  lemma NestedOpenInKey(t: string, p: nat)
    requires p < |t| && t[p] == '{' && '{' !in t[..p] && CloseFrom(t, p + 1) < |t|
    ensures Keys(t, 0) == Prepend([t[p + 1..CloseFrom(t, p + 1)]], Keys(t, CloseFrom(t, p + 1) + 1))
    ensures Keys(t, 0).Ok? ==> |Keys(t, 0).value| > 0 && Keys(t, 0).value[0] == t[p + 1..CloseFrom(t, p + 1)]
  {
    forall k | 0 <= k < p
      ensures t[k] != '{'
    {
      assert t[k] == t[..p][k];
    }
    KeysSkip(t, 0, p);
  }

  /** The key text of a placeholder opened at position p. */
  predicate KeyAt(t: string, p: int, key: string)
  {
    0 <= p < |t| && t[p] == '{' && CloseFrom(t, p + 1) < |t| && key == t[p + 1..CloseFrom(t, p + 1)]
  }

  /** Keys are found left to right, each the text between a '{' and the next '}':
      ps are the positions of the opening brackets. */
  lemma {:induction false} KeysAreBracketed(t: string, i: nat) returns (ps: seq<nat>)
    requires Keys(t, i).Ok?
    ensures |ps| == |Keys(t, i).value|
    ensures forall k | 0 <= k < |ps| :: i <= ps[k] && KeyAt(t, ps[k], Keys(t, i).value[k])
    ensures forall k | 0 < k < |ps| :: ps[k - 1] < ps[k]
    decreases |t| - i
  {
    if i >= |t| {
      ps := [];
    } else if t[i] != '{' {
      ps := KeysAreBracketed(t, i + 1);
    } else {
      var q := CloseFrom(t, i + 1);
      var rest := KeysAreBracketed(t, q + 1);
      var later := Keys(t, q + 1).value;
      var ks := [t[i + 1..q]] + later;
      assert Keys(t, i).value == ks;
      ps := [i] + rest;
      forall k | 0 <= k < |ps|
        ensures i <= ps[k] && KeyAt(t, ps[k], ks[k])
      {
        if k > 0 {
          assert ps[k] == rest[k - 1] && ks[k] == later[k - 1];
        }
      }
      forall k | 0 < k < |ps|
        ensures ps[k - 1] < ps[k]
      {
        assert ps[k] == rest[k - 1];
      }
    }
  }

  /** StringFormatter.reverse */
  method Reverse(chars: array<char>) returns (b: array<char>)
    ensures fresh(b)
    ensures b.Length == chars.Length
    ensures forall k | 0 <= k < b.Length :: b[k] == chars[chars.Length - 1 - k]
  {
    var n := chars.Length;
    b := new char[n];
    var j := n;
    var i := 0;
    while i < n
      invariant 0 <= i <= n && j == n - i
      invariant forall k | j <= k < n :: b[k] == chars[n - 1 - k]
    {
      b[j - 1] := chars[i];
      j := j - 1;
      i := i + 1;
    }
  }

  /** StringFormatter.getKey: the characters without the first and the last. */
  method GetKey(keyChars: array<char>) returns (key: string)
    requires keyChars.Length >= 2
    ensures |key| == keyChars.Length - 2
    ensures key == keyChars[1..keyChars.Length - 1]
  {
    var copy := new char[keyChars.Length - 2];
    var k := 0;
    while k < copy.Length
      invariant 0 <= k <= copy.Length
      invariant forall m | 0 <= m < k :: copy[m] == keyChars[m + 1]
    {
      copy[k] := keyChars[k + 1];
      k := k + 1;
    }
    key := copy[..];
  }

  /** Pops the whole stack into a fresh array, top first, then restores push
      order and strips the brackets: the key between the first and last
      characters pushed. */
  method PopKey(stack: seq<char>) returns (key: string)
    requires |stack| >= 2
    ensures key == stack[1..|stack| - 1]
  {
    var keyChars := new char[|stack|];
    var rest := stack;
    var index := 0;
    while rest != []
      invariant index + |rest| == keyChars.Length
      invariant rest == stack[..|rest|]
      invariant forall j | 0 <= j < index :: keyChars[j] == stack[|stack| - 1 - j]
    {
      keyChars[index] := rest[|rest| - 1];
      rest := rest[..|rest| - 1];
      index := index + 1;
    }
    var ordered := Reverse(keyChars);
    assert ordered[..] == stack;
    key := GetKey(ordered);
  }

  /** The inner loop of getPlaceholderNameList: from the '{' at open, pushes
      characters until a '}' is pushed, then pops the stack into the key. */
  method ReadPlaceholder(template: string, open: nat) returns (stack: seq<char>, close: nat, key: string)
    requires open < |template| && template[open] == '{'
    ensures close == CloseFrom(template, open + 1)
    ensures close < |template| ==> stack == [] && key == template[open + 1..close]
    ensures close == |template| ==> stack == template[open..] && stack != []
  {
    stack := [];
    key := "";
    var i := open;
    while i < |template|
      invariant open <= i <= |template|
      invariant stack == template[open..i]
      invariant forall k | open <= k < i :: template[k] != '}'
    {
      stack := stack + [template[i]];
      if template[i] == '}' {
        CloseAt(template, open + 1, i);
        key := PopKey(stack);
        assert stack[1..|stack| - 1] == template[open + 1..i];
        stack := [];
        return stack, i, key;
      }
      i := i + 1;
    }
    CloseAt(template, open + 1, i);
    close := i;
  }

  /** StringFormatter.getPlaceholderNameList */
  method GetPlaceholderNameList(template: string) returns (r: Result<seq<string>>)
    ensures r == Keys(template, 0)
  {
    var keys: seq<string> := [];
    var stack: seq<char> := [];
    var i := 0;
    assert Keys(template, 0).Ok? ==> [] + Keys(template, 0).value == Keys(template, 0).value;
    while i < |template|
      invariant 0 <= i <= |template| + 1
      invariant stack == [] ==> i <= |template| && Keys(template, 0) == Prepend(keys, Keys(template, i))
      invariant stack != [] ==> i == |template| + 1 && Keys(template, 0).Err?
    {
      if template[i] == '{' {
        var close, key;
        stack, close, key := ReadPlaceholder(template, i);
        if stack == [] {
          PrependAppend(keys, key, Keys(template, close + 1));
          keys := keys + [key];
        }
        i := close;
      }
      i := i + 1;
    }
    if stack != [] {
      r := Err(UnbalancedBraces);
    } else {
      assert keys + [] == keys;
      r := Ok(keys);
    }
  }

  /** The map from each key to its argument; a repeated key ends up with the later argument. */
  function ArgMap(ks: seq<string>, args: seq<string>): map<string, string>
    requires |ks| == |args|
  {
    if |ks| == 0 then map[]
    else ArgMap(ks[..|ks| - 1], args[..|ks| - 1])[ks[|ks| - 1] := args[|ks| - 1]]
  }

  /** Every key is bound, to the argument at its last position. */
  lemma {:induction false} ArgMapLaterWins(ks: seq<string>, args: seq<string>, i: nat)
    requires |ks| == |args| && i < |ks|
    requires forall j | i < j < |ks| :: ks[j] != ks[i]
    ensures ks[i] in ArgMap(ks, args) && ArgMap(ks, args)[ks[i]] == args[i]
    decreases |ks|
  {
    var n := |ks| - 1;
    if i < n {
      ArgMapLaterWins(ks[..n], args[..n], i);
    }
  }

  /** The map binds exactly the keys. */
  lemma {:induction false} ArgMapDomain(ks: seq<string>, args: seq<string>)
    requires |ks| == |args|
    ensures ArgMap(ks, args).Keys == set k | k in ks
    decreases |ks|
  {
    if |ks| > 0 {
      var n := |ks| - 1;
      ArgMapDomain(ks[..n], args[..n]);
      assert ks == ks[..n] + [ks[n]];
      assert (set k | k in ks) == (set k | k in ks[..n]) + {ks[n]};
    }
  }

  /** Replaces every `{key}` whose key the map binds by its value; any other
      character is kept. */
  function Substitute(t: string, m: map<string, string>): string
    decreases |t|
  {
    if |t| == 0 then ""
    else if t[0] == '{' && CloseFrom(t, 1) < |t| && t[1..CloseFrom(t, 1)] in m then
      var q := CloseFrom(t, 1);
      m[t[1..q]] + Substitute(t[q + 1..], m)
    else [t[0]] + Substitute(t[1..], m)
  }

  /** A text with no '{' is left as it is. */
  lemma {:induction false} SubstituteNoPlaceholder(t: string, m: map<string, string>)
    requires '{' !in t
    ensures Substitute(t, m) == t
    decreases |t|
  {
    if |t| > 0 {
      assert t == [t[0]] + t[1..];
      SubstituteNoPlaceholder(t[1..], m);
    }
  }

  /** A bound placeholder is replaced by its value and the text after it is substituted in turn. */
  lemma {:induction false} SubstitutePlaceholder(prefix: string, key: string, suffix: string, m: map<string, string>)
    requires '{' !in prefix && '}' !in key && key in m
    ensures Substitute(prefix + "{" + key + "}" + suffix, m) == prefix + m[key] + Substitute(suffix, m)
    decreases |prefix|
  {
    var t := prefix + "{" + key + "}" + suffix;
    if |prefix| == 0 {
      assert t == "{" + key + "}" + suffix;
      SubstituteAtPlaceholder(t, key, suffix, m);
    } else {
      assert t[0] == prefix[0] != '{';
      assert t[1..] == prefix[1..] + "{" + key + "}" + suffix;
      assert Substitute(t, m) == [t[0]] + Substitute(t[1..], m);
      SubstitutePlaceholder(prefix[1..], key, suffix, m);
      assert prefix == [prefix[0]] + prefix[1..];
    }
  }

  /** The text starting at a bound placeholder. */
  lemma SubstituteAtPlaceholder(t: string, key: string, suffix: string, m: map<string, string>)
    requires t == "{" + key + "}" + suffix && '}' !in key && key in m
    ensures Substitute(t, m) == m[key] + Substitute(suffix, m)
  {
    var q := |key| + 1;
    assert t[q] == '}';
    forall k | 1 <= k < q
      ensures t[k] != '}'
    {
      assert t[k] == key[k - 1];
    }
    CloseAt(t, 1, q);
    assert t[1..q] == key;
    assert t[q + 1..] == suffix;
  }

  /** What StringFormatter.format yields: the placeholder count must equal the
      argument count, and the template is then substituted from the
      key-to-argument map. */
  function Formatted(template: string, args: seq<string>): Result<string>
  {
    match Keys(template, 0)
    case Err(e) => Err(e)
    case Ok(ks) =>
      if |ks| != |args| then Err(PlaceholderCountMismatch(template))
      else Ok(Substitute(template, ArgMap(ks, args)))
  }

  /** Positions without a '{' contribute no key. */
  lemma {:induction false} KeysSkip(t: string, i: nat, j: nat)
    requires i <= j <= |t|
    requires forall k | i <= k < j :: t[k] != '{'
    ensures Keys(t, i) == Keys(t, j)
    decreases j - i
  {
    if i < j {
      KeysSkip(t, i + 1, j);
    }
  }

  /** A template with one placeholder and one argument formats to the text
      around the placeholder with the argument in its place. */
  lemma FormatOnePlaceholder(prefix: string, key: string, suffix: string, arg: string)
    requires '{' !in prefix && '}' !in key && '{' !in suffix
    ensures Formatted(prefix + "{" + key + "}" + suffix, [arg]) == Ok(prefix + arg + suffix)
  {
    var t := prefix + "{" + key + "}" + suffix;
    var p := |prefix|;
    var q := p + 1 + |key|;
    assert forall k | 0 <= k < p :: t[k] == prefix[k];
    KeysSkip(t, 0, p);
    assert t[p] == '{';
    assert t[q] == '}';
    assert forall k | p + 1 <= k < q :: t[k] == key[k - p - 1];
    assert CloseFrom(t, p + 1) == q;
    assert t[p + 1..q] == key;
    assert forall k | q + 1 <= k < |t| :: t[k] == suffix[k - q - 1];
    KeysSkip(t, q + 1, |t|);
    assert Keys(t, q + 1) == Ok([]);
    assert Keys(t, p) == Prepend([key], Keys(t, q + 1));
    assert [key] + [] == [key];
    assert Keys(t, 0) == Ok([key]);
    assert ArgMap([key], [arg]) == map[key := arg];
    SubstitutePlaceholder(prefix, key, suffix, map[key := arg]);
    SubstituteNoPlaceholder(suffix, map[key := arg]);
  }

  /** StringFormatter.format */
  method Format(template: string, args: seq<string>) returns (r: Result<string>)
    ensures r == Formatted(template, args)
  {
    var names := GetPlaceholderNameList(template);
    if names.Err? {
      return Err(names.error);
    }
    var ks := names.value;
    if |ks| != |args| {
      return Err(PlaceholderCountMismatch(template));
    }
    var paramMap: map<string, string> := map[];
    var i := 0;
    while i < |ks|
      invariant 0 <= i <= |ks|
      invariant paramMap == ArgMap(ks[..i], args[..i])
    {
      assert ks[..i + 1][..i] == ks[..i] && args[..i + 1][..i] == args[..i];
      paramMap := paramMap[ks[i] := args[i]];
      i := i + 1;
    }
    assert ks[..i] == ks && args[..i] == args;
    r := Ok(Substitute(template, paramMap));
  }
}
