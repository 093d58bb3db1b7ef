/**
 * Template fill: PHP's `str_replace` of literal `{{token}}` markers, the
 * single operation every generator applies to its stub text.
 */
module Template {
  import opened PhpStrings

  /**
   * `str_replace($token, $value, $s)`: every occurrence of `token`, taken
   * left to right without overlap, becomes `value`; an empty search
   * string leaves the subject as it is.
   */
  function ReplaceAll(s: string, token: string, value: string): string
    decreases |s|
  {
    if |token| == 0 || |s| == 0 then s
    else if StartsWith(s, token) then value + ReplaceAll(s[|token|..], token, value)
    else [s[0]] + ReplaceAll(s[1..], token, value)
  }

  /** A token that does not occur leaves the text unchanged. */
  lemma {:induction false} ReplaceAbsent(s: string, token: string, value: string)
    requires !Contains(s, token)
    ensures ReplaceAll(s, token, value) == s
    decreases |s|
  {
    if |token| > 0 && |s| > 0 {
      ReplaceAbsent(s[1..], token, value);
      assert s == [s[0]] + s[1..];
    }
  }

  /** A token that does occur puts its value into the result. */
  lemma {:induction false} ReplacePresent(s: string, token: string, value: string)
    requires token != [] && Contains(s, token)
    ensures Contains(ReplaceAll(s, token, value), value)
    decreases |s|
  {
    if StartsWith(s, token) {
      ContainsAt([], value, ReplaceAll(s[|token|..], token, value));
      assert [] + value + ReplaceAll(s[|token|..], token, value) == ReplaceAll(s, token, value);
    } else {
      ReplacePresent(s[1..], token, value);
      var rest := ReplaceAll(s[1..], token, value);
      assert ReplaceAll(s, token, value) == [s[0]] + rest;
      assert ([s[0]] + rest)[1..] == rest;
    }
  }

  /** A stub that is exactly the token becomes exactly the value. */
  lemma ReplaceWhole(token: string, value: string)
    requires token != []
    ensures ReplaceAll(token, token, value) == value
  {
    assert token[|token|..] == [];
  }

  /** Replacing a one-character token works piece by piece. */
  lemma {:induction false} ReplaceCharConcat(a: string, b: string, c: char, value: string)
    ensures ReplaceAll(a + b, [c], value) == ReplaceAll(a, [c], value) + ReplaceAll(b, [c], value)
    decreases |a|
  {
    if |a| > 0 {
      assert (a + b)[1..] == a[1..] + b;
      assert (a + b)[..1] == a[..1];
      assert StartsWith(a + b, [c]) == StartsWith(a, [c]);
      ReplaceCharConcat(a[1..], b, c, value);
    } else {
      assert a + b == b;
    }
  }

  /** A one-character token maps each character on its own. */
  lemma {:induction false} ReplaceCharLength(s: string, c: char, d: char)
    ensures |ReplaceAll(s, [c], [d])| == |s|
    ensures forall i :: 0 <= i < |s| ==> ReplaceAll(s, [c], [d])[i] == (if s[i] == c then d else s[i])
    decreases |s|
  {
    if |s| > 0 {
      ReplaceCharLength(s[1..], c, d);
    }
  }

  /**
   * Converting a namespace separator and lower-casing commute, since
   * neither separator is an ASCII letter.
   */
  lemma LowerReplaceCommute(s: string, c: char, d: char)
    requires !('A' <= c <= 'Z') && !('A' <= d <= 'Z') && !('a' <= c <= 'z')
    ensures Lower(ReplaceAll(s, [c], [d])) == ReplaceAll(Lower(s), [c], [d])
  {
    ReplaceCharLength(s, c, d);
    ReplaceCharLength(Lower(s), c, d);
  }

  /** Converting the separators of a joined list joins the pieces with the new separator. */
  lemma {:induction false} ReplaceJoin(parts: seq<string>, c: char, d: char)
    requires forall i :: 0 <= i < |parts| ==> c !in parts[i]
    ensures ReplaceAll(Join(parts, [c]), [c], [d]) == Join(parts, [d])
    decreases |parts|
  {
    if |parts| == 1 {
      ReplaceAbsentChar(parts[0], c, [d]);
    } else if |parts| > 1 {
      ReplaceJoin(parts[1..], c, d);
      ReplaceCharConcat(parts[0] + [c], Join(parts[1..], [c]), c, [d]);
      ReplaceCharConcat(parts[0], [c], c, [d]);
      ReplaceAbsentChar(parts[0], c, [d]);
      assert [c][1..] == [];
      assert ReplaceAll([c], [c], [d]) == [d];
      assert parts[0] + [c] + Join(parts[1..], [c]) == Join(parts, [c]);
    }
  }

  lemma {:induction false} ReplaceAbsentChar(s: string, c: char, value: string)
    requires c !in s
    ensures ReplaceAll(s, [c], value) == s
    decreases |s|
  {
    if |s| > 0 {
      assert c !in s[1..];
      ReplaceAbsentChar(s[1..], c, value);
      assert s == [s[0]] + s[1..];
    }
  }

  /**
   * `str_replace(array_keys($r), array_values($r), $s)`: the pairs are
   * applied one after the other, each to the result of the previous one.
   */
  function ReplaceMany(s: string, pairs: seq<(string, string)>): string
    decreases |pairs|
  {
    if |pairs| == 0 then s
    else ReplaceMany(ReplaceAll(s, pairs[0].0, pairs[0].1), pairs[1..])
  }

  /** A text mentioning none of the tokens passes through every fill unchanged. */
  lemma {:induction false} ReplaceManyAbsent(s: string, pairs: seq<(string, string)>)
    requires forall i :: 0 <= i < |pairs| ==> !Contains(s, pairs[i].0)
    ensures ReplaceMany(s, pairs) == s
    decreases |pairs|
  {
    if |pairs| > 0 {
      ReplaceAbsent(s, pairs[0].0, pairs[0].1);
      ReplaceManyAbsent(s, pairs[1..]);
    }
  }
}
