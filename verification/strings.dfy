/** Optional values, used for PHP's `null` results. */
module Wrappers {
  datatype Option<T> = None | Some(value: T)
  {
    function GetOr(default: T): T
    {
      match this
      case Some(v) => v
      case None => default
    }
  }
}

/**
 * The handful of PHP string primitives the generators are built from:
 * explode, implode, trim/rtrim, strtolower, substring tests and PHP's
 * truthiness of strings.
 */
module PhpStrings {

  /** `if ($s)` / `!empty($s)` on a string: only "" and "0" are falsy. */
  predicate Truthy(s: string)
  {
    s != "" && s != "0"
  }

  predicate StartsWith(s: string, prefix: string)
  {
    |prefix| <= |s| && s[..|prefix|] == prefix
  }

  predicate EndsWith(s: string, suffix: string)
  {
    |suffix| <= |s| && s[|s| - |suffix|..] == suffix
  }

  lemma StartsWithAppend(a: string, b: string)
    ensures StartsWith(a + b, a)
  {
    assert (a + b)[..|a|] == a;
  }

  lemma EndsWithAppend(a: string, b: string)
    ensures EndsWith(a + b, b)
  {
    assert (a + b)[|a + b| - |b|..] == b;
  }

  /** A path built as root, directory, middle and tail starts with root and directory and ends with the tail. */
  lemma PathShape(root: string, dir: string, mid: string, tail: string)
    ensures StartsWith(root + (dir + mid + tail), root + dir)
    ensures EndsWith(root + (dir + mid + tail), tail)
  {
    var r := root + (dir + mid + tail);
    assert r == (root + dir) + (mid + tail);
    StartsWithAppend(root + dir, mid + tail);
    assert r == (root + dir + mid) + tail;
    EndsWithAppend(root + dir + mid, tail);
  }

  /** `str_contains($s, $t)`: some position of `s` starts an occurrence of `t`. */
  predicate Contains(s: string, t: string)
    decreases |s|
  {
    StartsWith(s, t) || (|s| > 0 && Contains(s[1..], t))
  }

  lemma {:induction false} ContainsAt(p: string, t: string, q: string)
    ensures Contains(p + t + q, t)
    decreases |p|
  {
    if p == [] {
      assert (p + t + q)[..|t|] == t;
    } else {
      assert (p + t + q)[1..] == p[1..] + t + q;
      ContainsAt(p[1..], t, q);
    }
  }

  /** An occurrence in a text is an occurrence in any extension of it. */
  lemma {:induction false} ContainsLeft(a: string, b: string, t: string)
    requires Contains(a, t)
    ensures Contains(a + b, t)
    decreases |a|
  {
    if StartsWith(a, t) {
      assert (a + b)[..|t|] == a[..|t|];
    } else {
      ContainsLeft(a[1..], b, t);
      assert (a + b)[1..] == a[1..] + b;
    }
  }

  /** Where a text occurs, so does every text it ends with. */
  lemma {:induction false} ContainsTail(s: string, x: string, t: string)
    requires Contains(s, x + t)
    ensures Contains(s, t)
    decreases |s|
  {
    if StartsWith(s, x + t) {
      assert s[|x|..][..|t|] == (x + t)[|x|..];
      assert s == s[..|x|] + s[|x|..];
      ContainsRight(s[..|x|], s[|x|..], t);
    } else {
      ContainsTail(s[1..], x, t);
    }
  }

  /** An occurrence in a text is an occurrence in anything that ends with it. */
  lemma {:induction false} ContainsRight(a: string, b: string, t: string)
    requires Contains(b, t)
    ensures Contains(a + b, t)
    decreases |a|
  {
    if a == [] {
      assert a + b == b;
    } else {
      ContainsRight(a[1..], b, t);
      assert (a + b)[1..] == a[1..] + b;
    }
  }

  /** `implode($sep, $parts)`. */
  function Join(parts: seq<string>, sep: string): string
    decreases |parts|
  {
    if |parts| == 0 then ""
    else if |parts| == 1 then parts[0]
    else parts[0] + sep + Join(parts[1..], sep)
  }

  /** A text inside one of the parts is inside the parts joined. */
  lemma {:induction false} ContainsJoin(parts: seq<string>, sep: string, k: nat, t: string)
    requires k < |parts| && Contains(parts[k], t)
    ensures Contains(Join(parts, sep), t)
    decreases |parts|
  {
    if |parts| > 1 {
      if k == 0 {
        ContainsLeft(parts[0], sep + Join(parts[1..], sep), t);
        assert parts[0] + sep + Join(parts[1..], sep) == parts[0] + (sep + Join(parts[1..], sep));
      } else {
        ContainsJoin(parts[1..], sep, k - 1, t);
        ContainsRight(parts[0] + sep, Join(parts[1..], sep), t);
      }
    }
  }

  lemma JoinSnoc(parts: seq<string>, x: string, sep: string)
    requires |parts| > 0
    ensures Join(parts + [x], sep) == Join(parts, sep) + sep + x
    decreases |parts|
  {
    if |parts| == 1 {
      assert parts + [x] == [parts[0], x];
      assert (parts + [x])[1..] == [x];
    } else {
      assert (parts + [x])[1..] == parts[1..] + [x];
      JoinSnoc(parts[1..], x, sep);
    }
  }

  /**
   * `explode($c, $s)` for a one-character delimiter: the pieces between
   * the delimiters, never an empty list and no piece holding the
   * delimiter.
   */
  function Split(s: string, c: char): (r: seq<string>)
    ensures |r| >= 1
    ensures forall i :: 0 <= i < |r| ==> c !in r[i]
    decreases |s|
  {
    if |s| == 0 then [""]
    else
      var rest := Split(s[1..], c);
      if s[0] == c then [""] + rest
      else [[s[0]] + rest[0]] + rest[1..]
  }

  /** Every character of a piece is taken from the split text. */
  lemma {:induction false} SplitChars(s: string, c: char)
    ensures forall i, ch :: 0 <= i < |Split(s, c)| && ch in Split(s, c)[i] ==> ch in s
    decreases |s|
  {
    if |s| > 0 {
      SplitChars(s[1..], c);
      var rest := Split(s[1..], c);
      forall i, ch | 0 <= i < |Split(s, c)| && ch in Split(s, c)[i] ensures ch in s {
        if s[0] != c && i == 0 {
          assert ch == s[0] || ch in rest[0];
        } else if s[0] != c {
          assert Split(s, c)[i] == rest[i];
        } else if i > 0 {
          assert Split(s, c)[i] == rest[i - 1];
        }
        assert ch == s[0] || ch in s[1..];
      }
    }
  }

  /** implode(c, explode(c, s)) == s: splitting loses nothing. */
  lemma {:induction false} JoinSplit(s: string, c: char)
    ensures Join(Split(s, c), [c]) == s
    decreases |s|
  {
    if |s| > 0 {
      var rest := Split(s[1..], c);
      JoinSplit(s[1..], c);
      if s[0] == c {
        assert Split(s, c) == [""] + rest;
        assert ([""] + rest)[1..] == rest;
        assert s == [c] + s[1..];
      } else {
        var r := Split(s, c);
        assert r == [[s[0]] + rest[0]] + rest[1..];
        if |rest| == 1 {
          assert s == [s[0]] + s[1..];
        } else {
          assert r[1..] == rest[1..];
          assert Join(rest, [c]) == rest[0] + [c] + Join(rest[1..], [c]);
          assert s == [s[0]] + s[1..];
        }
      }
    }
  }

  /** A string free of the delimiter is its own single piece. */
  lemma {:induction false} SplitWithoutDelimiter(s: string, c: char)
    requires c !in s
    ensures Split(s, c) == [s]
    decreases |s|
  {
    if |s| > 0 {
      assert c !in s[1..];
      SplitWithoutDelimiter(s[1..], c);
      assert s == [s[0]] + s[1..];
    }
  }

  /** A delimiter between two strings separates their pieces. */
  lemma SplitAtDelimiter(p: string, q: string, c: char)
    ensures Split(p + [c] + q, c) == Split(p, c) + Split(q, c)
  {
    var P, Q := Split(p, c), Split(q, c);
    SplitAddBreak(p, c);
    SplitAppend(p + [c], q, c);
    GlueEmpty(P, Q);
  }

  /** Gluing after a trailing empty piece just lays the pieces end to end. */
  lemma GlueEmpty(xs: seq<string>, ys: seq<string>)
    requires |ys| >= 1
    ensures var x := xs + [""];
      x[..|x| - 1] + [x[|x| - 1] + ys[0]] + ys[1..] == xs + ys
  {
    var x := xs + [""];
    assert x[..|x| - 1] == xs;
    assert x[|x| - 1] + ys[0] == ys[0];
    assert [ys[0]] + ys[1..] == ys;
  }

  /** explode(c, implode(c, parts)) == parts for pieces free of the delimiter. */
  lemma {:induction false} SplitJoin(parts: seq<string>, c: char)
    requires |parts| >= 1
    requires forall i :: 0 <= i < |parts| ==> c !in parts[i]
    ensures Split(Join(parts, [c]), c) == parts
    decreases |parts|
  {
    SplitWithoutDelimiter(parts[0], c);
    if |parts| > 1 {
      SplitJoin(parts[1..], c);
      SplitAtDelimiter(parts[0], Join(parts[1..], [c]), c);
      assert [parts[0]] + parts[1..] == parts;
    }
  }

  /**
   * The lines of `lead` followed by `parts` imploded with a separator
   * that holds one line break (`before` ends a line, `after` starts the
   * next): each part on its own line, framed by the separator's halves.
   */
  function Framed(lead: string, parts: seq<string>, before: string, after: string): (r: seq<string>)
    ensures |r| == |parts|
  {
    seq(|parts|, i requires 0 <= i < |parts| =>
      (if i == 0 then lead else after) + parts[i] + (if i == |parts| - 1 then "" else before))
  }

  /** Splitting a list imploded with a one-break separator gives back one framed line per part. */
  lemma {:induction false} SplitFramed(lead: string, parts: seq<string>, before: string, after: string)
    requires |parts| >= 1
    requires '\n' !in lead && '\n' !in before && '\n' !in after
    requires forall i :: 0 <= i < |parts| ==> '\n' !in parts[i]
    ensures Split(lead + Join(parts, before + "\n" + after), '\n') == Framed(lead, parts, before, after)
    decreases |parts|
  {
    var r := Framed(lead, parts, before, after);
    if |parts| == 1 {
      assert r[0] == lead + parts[0] + "" == lead + parts[0];
      assert r == [lead + parts[0]];
      SplitWithoutDelimiter(lead + parts[0], '\n');
    } else {
      var rest := parts[1..];
      SplitFramed(after, rest, before, after);
      var tail := Join(rest, before + "\n" + after);
      assert Join(parts, before + "\n" + after) == parts[0] + (before + "\n" + after) + tail;
      Regroup(lead, parts[0], before, after, tail);
      SplitAtDelimiter(lead + parts[0] + before, after + tail, '\n');
      SplitWithoutDelimiter(lead + parts[0] + before, '\n');
      FramedCons(lead, parts, before, after);
    }
  }

  lemma Regroup(lead: string, p: string, before: string, after: string, tail: string)
    ensures lead + (p + (before + "\n" + after) + tail) == (lead + p + before) + "\n" + (after + tail)
  {
  }

  /** The first framed line carries the lead; the others are framed by `after`. */
  lemma FramedCons(lead: string, parts: seq<string>, before: string, after: string)
    requires |parts| >= 2
    ensures Framed(lead, parts, before, after) == [lead + parts[0] + before] + Framed(after, parts[1..], before, after)
  {
    var r, q := Framed(lead, parts, before, after), Framed(after, parts[1..], before, after);
    assert forall i :: 1 <= i < |parts| ==> r[i] == q[i - 1];
  }

  /** Text without the delimiter extends the last piece. */
  lemma SplitAddText(x: string, t: string, c: char)
    requires c !in t
    ensures var X := Split(x, c); Split(x + t, c) == X[..|X| - 1] + [X[|X| - 1] + t]
  {
    SplitAppend(x, t, c);
    SplitWithoutDelimiter(t, c);
  }

  /** A delimiter at the end starts a new, empty piece. */
  lemma SplitAddBreak(x: string, c: char)
    ensures Split(x + [c], c) == Split(x, c) + [""]
  {
    var X := Split(x, c);
    SplitAppend(x, [c], c);
    assert [c][1..] == "";
    assert Split([c], c) == [""] + Split("", c);
    assert X[|X| - 1] + "" == X[|X| - 1];
    assert X[..|X| - 1] + [X[|X| - 1]] == X;
  }

  /** A line break and a text without breaks add that text as one more line. */
  lemma SplitAddLine(x: string, t: string)
    requires '\n' !in t
    ensures Split(x + "\n" + t, '\n') == Split(x, '\n') + [t]
  {
    var X := Split(x, '\n');
    SplitAddBreak(x, '\n');
    assert x + ['\n'] == x + "\n";
    SplitAddText(x + "\n", t, '\n');
    var Y := X + [""];
    assert Y[..|Y| - 1] == X;
    assert Y[|Y| - 1] + t == t;
  }

  /** Gluing a last piece in front of framed lines frames them with that piece as the lead. */
  lemma FramedGlue(xs: seq<string>, parts: seq<string>, before: string, after: string)
    requires |xs| >= 1 && |parts| >= 1
    ensures var f := Framed("", parts, before, after);
      xs[..|xs| - 1] + [xs[|xs| - 1] + f[0]] + f[1..] == xs[..|xs| - 1] + Framed(xs[|xs| - 1], parts, before, after)
  {
    var lead := xs[|xs| - 1];
    var f := Framed("", parts, before, after);
    var g := Framed(lead, parts, before, after);
    var tail := if |parts| == 1 then "" else before;
    assert f[0] == "" + parts[0] + tail;
    assert g[0] == lead + parts[0] + tail;
    assert lead + ("" + parts[0] + tail) == lead + parts[0] + tail;
    assert g == [g[0]] + f[1..];
  }

  /** A list imploded with a one-break separator continues the last piece and adds one line per further part. */
  lemma SplitAddJoin(x: string, parts: seq<string>, before: string, after: string)
    requires |parts| >= 1
    requires '\n' !in before && '\n' !in after
    requires forall i :: 0 <= i < |parts| ==> '\n' !in parts[i]
    ensures var X := Split(x, '\n');
      Split(x + Join(parts, before + "\n" + after), '\n') == X[..|X| - 1] + Framed(X[|X| - 1], parts, before, after)
  {
    var j := Join(parts, before + "\n" + after);
    SplitAppend(x, j, '\n');
    SplitFramed("", parts, before, after);
    assert "" + j == j;
    FramedGlue(Split(x, '\n'), parts, before, after);
  }

  /**
   * Splitting a concatenation: the last piece of the first text and the
   * first piece of the second run together; all other pieces stay.
   */
  lemma {:induction false} SplitAppend(x: string, y: string, c: char)
    ensures var X, Y := Split(x, c), Split(y, c);
      Split(x + y, c) == X[..|X| - 1] + [X[|X| - 1] + Y[0]] + Y[1..]
    decreases |x|
  {
    var X, Y := Split(x, c), Split(y, c);
    if |x| == 0 {
      assert x + y == y;
      assert X == [""];
      assert X[0] + Y[0] == Y[0];
      assert [X[0] + Y[0]] + Y[1..] == Y;
    } else {
      SplitAppend(x[1..], y, c);
      assert (x + y)[1..] == x[1..] + y;
      assert (x + y)[0] == x[0];
      if x[0] == c {
        SplitAppendDelimiter(x, y, c);
      } else {
        SplitAppendOther(x, y, c);
      }
    }
  }

  lemma SplitAppendDelimiter(x: string, y: string, c: char)
    requires |x| > 0 && x[0] == c && (x + y)[1..] == x[1..] + y && (x + y)[0] == x[0]
    requires var X', Y := Split(x[1..], c), Split(y, c);
      Split(x[1..] + y, c) == X'[..|X'| - 1] + [X'[|X'| - 1] + Y[0]] + Y[1..]
    ensures var X, Y := Split(x, c), Split(y, c);
      Split(x + y, c) == X[..|X| - 1] + [X[|X| - 1] + Y[0]] + Y[1..]
  {
    var X', Y := Split(x[1..], c), Split(y, c);
    assert Split(x, c) == [""] + X';
    assert Split(x + y, c) == [""] + Split(x[1..] + y, c);
    ConsPiece(X', Y);
  }

  /** The piece bookkeeping behind `SplitAppendDelimiter`, on plain sequences. */
  lemma ConsPiece(xs: seq<string>, ys: seq<string>)
    requires |xs| >= 1 && |ys| >= 1
    ensures var x := [""] + xs;
      [""] + (xs[..|xs| - 1] + [xs[|xs| - 1] + ys[0]] + ys[1..]) == x[..|x| - 1] + [x[|x| - 1] + ys[0]] + ys[1..]
  {
    var x := [""] + xs;
    assert x[..|x| - 1] == [""] + xs[..|xs| - 1];
  }

  lemma SplitAppendOther(x: string, y: string, c: char)
    requires |x| > 0 && x[0] != c && (x + y)[1..] == x[1..] + y && (x + y)[0] == x[0]
    requires var X', Y := Split(x[1..], c), Split(y, c);
      Split(x[1..] + y, c) == X'[..|X'| - 1] + [X'[|X'| - 1] + Y[0]] + Y[1..]
    ensures var X, Y := Split(x, c), Split(y, c);
      Split(x + y, c) == X[..|X| - 1] + [X[|X| - 1] + Y[0]] + Y[1..]
  {
    var X', Y := Split(x[1..], c), Split(y, c);
    assert Split(x, c) == [[x[0]] + X'[0]] + X'[1..];
    assert Split(x + y, c) == [[x[0]] + Split(x[1..] + y, c)[0]] + Split(x[1..] + y, c)[1..];
    JoinedPieces([x[0]], X', Y);
  }

  /** The piece bookkeeping behind `SplitAppendOther`, on plain sequences. */
  lemma JoinedPieces(h: string, xs: seq<string>, ys: seq<string>)
    requires |xs| >= 1 && |ys| >= 1
    ensures var r := xs[..|xs| - 1] + [xs[|xs| - 1] + ys[0]] + ys[1..];
      var x := [h + xs[0]] + xs[1..];
      [h + r[0]] + r[1..] == x[..|x| - 1] + [x[|x| - 1] + ys[0]] + ys[1..]
  {
    var r := xs[..|xs| - 1] + [xs[|xs| - 1] + ys[0]] + ys[1..];
    var x := [h + xs[0]] + xs[1..];
    if |xs| == 1 {
      assert r[0] == xs[0] + ys[0];
      assert r[1..] == ys[1..];
      assert h + (xs[0] + ys[0]) == h + xs[0] + ys[0];
    } else {
      assert r[0] == xs[0];
      assert r[1..] == xs[1..|xs| - 1] + [xs[|xs| - 1] + ys[0]] + ys[1..];
      assert x[..|x| - 1] == [h + xs[0]] + xs[1..|xs| - 1];
    }
  }

  /** The pieces of a `.=` loop, concatenated in order. */
  function Concat(xs: seq<string>): string
    decreases |xs|
  {
    if |xs| == 0 then "" else Concat(xs[..|xs| - 1]) + xs[|xs| - 1]
  }

  lemma {:induction false} ConcatAppend(a: seq<string>, b: seq<string>)
    ensures Concat(a + b) == Concat(a) + Concat(b)
    decreases |b|
  {
    if |b| == 0 {
      assert a + b == a;
    } else {
      var init, last := b[..|b| - 1], b[|b| - 1];
      assert (a + b)[..|a + b| - 1] == a + init;
      assert (a + b)[|a + b| - 1] == last;
      assert Concat(a + b) == Concat(a + init) + last;
      ConcatAppend(a, init);
      assert Concat(b) == Concat(init) + last;
    }
  }

  /** One more piece extends the concatenation of a prefix. */
  lemma ConcatStep(xs: seq<string>, i: nat)
    requires i < |xs|
    ensures Concat(xs[..i + 1]) == Concat(xs[..i]) + xs[i]
  {
    assert xs[..i + 1][..i] == xs[..i];
  }

  /** The pieces of every pass of a loop are all the pieces. */
  lemma ConcatWhole(xs: seq<string>)
    ensures Concat(xs[..|xs|]) == Concat(xs)
  {
    assert xs[..|xs|] == xs;
  }

  /** Appending the next piece to a text that ends with the concatenation of a prefix. */
  lemma ConcatAppendStep(base: string, xs: seq<string>, i: nat)
    requires i < |xs|
    ensures base + Concat(xs[..i]) + xs[i] == base + Concat(xs[..i + 1])
  {
    ConcatStep(xs, i);
  }

  /** Text appended piece by piece equals the text appended as one. */
  lemma Assoc2(x: string, a: string, b: string)
    ensures x + a + b == x + (a + b)
  {
  }

  lemma Assoc3(x: string, a: string, b: string, c: string)
    ensures x + a + b + c == x + (a + b + c)
  {
  }

  /** Each piece is the line at the same position followed by a line break, and no line holds a break. */
  predicate LinePieces(lines: seq<string>, pieces: seq<string>)
  {
    |pieces| == |lines| && forall i :: 0 <= i < |lines| ==> '\n' !in lines[i] && pieces[i] == lines[i] + "\n"
  }

  /** Line pieces stay line pieces when laid end to end. */
  lemma LinePiecesAppend(lines1: seq<string>, pieces1: seq<string>, lines2: seq<string>, pieces2: seq<string>)
    requires LinePieces(lines1, pieces1) && LinePieces(lines2, pieces2)
    ensures LinePieces(lines1 + lines2, pieces1 + pieces2)
  {
  }

  /**
   * Pieces that are each one line followed by a line break split back
   * into those lines, followed by the pieces of whatever comes after.
   */
  lemma {:induction false} SplitLines(lines: seq<string>, pieces: seq<string>, tail: string)
    requires LinePieces(lines, pieces)
    ensures Split(Concat(pieces) + tail, '\n') == lines + Split(tail, '\n')
    decreases |lines|
  {
    if |lines| > 0 {
      var first, others := lines[0], lines[1..];
      LinePiecesTail(lines, pieces);
      SplitLines(others, pieces[1..], tail);
      var more := Concat(pieces[1..]);
      ConcatHead(pieces);
      LineFirst(first, more, tail);
      SplitAtDelimiter(first, more + tail, '\n');
      SplitWithoutDelimiter(first, '\n');
      ConsAssoc(first, others, Split(tail, '\n'));
      assert [first] + others == lines;
    } else {
      assert Concat(pieces) + tail == tail;
    }
  }

  lemma LinePiecesTail(lines: seq<string>, pieces: seq<string>)
    requires LinePieces(lines, pieces) && |lines| > 0
    ensures LinePieces(lines[1..], pieces[1..])
    ensures '\n' !in lines[0] && pieces[0] == lines[0] + "\n"
  {
  }

  lemma ConsAssoc(x: string, ys: seq<string>, zs: seq<string>)
    ensures [x] + (ys + zs) == ([x] + ys) + zs
  {
  }

  lemma LineFirst(first: string, more: string, tail: string)
    ensures first + "\n" + more + tail == first + ['\n'] + (more + tail)
  {
  }

  /** Line pieces followed by a last line without a break split into the lines and that last line. */
  lemma SplitLastLine(text: string, lines: seq<string>, pieces: seq<string>, last: string)
    requires LinePieces(lines, pieces)
    requires text == Concat(pieces) + last
    requires Split(last, '\n') == [last]
    ensures Split(text, '\n') == lines + [last]
  {
    SplitLines(lines, pieces, last);
  }

  lemma {:induction false} ConcatHead(xs: seq<string>)
    requires |xs| > 0
    ensures Concat(xs) == xs[0] + Concat(xs[1..])
  {
    var one := [xs[0]];
    ConcatAppend(one, xs[1..]);
    assert one + xs[1..] == xs;
    assert one[..0] == [];
    assert Concat(one) == Concat([]) + xs[0];
  }

  /** The whitespace set PHP's trim() and rtrim() strip by default. */
  predicate IsSpace(ch: char)
  {
    ch == ' ' || ch == '\t' || ch == '\n' || ch == '\r' || ch == '\0' || ch == '\U{000B}'
  }

  /** `rtrim($s)`. */
  function RTrim(s: string): (r: string)
    ensures |r| <= |s| && r == s[..|r|]
    ensures r == [] || !IsSpace(r[|r| - 1])
    ensures forall k :: |r| <= k < |s| ==> IsSpace(s[k])
    decreases |s|
  {
    if |s| > 0 && IsSpace(s[|s| - 1]) then RTrim(s[..|s| - 1]) else s
  }

  /** `ltrim($s)`. */
  function LTrim(s: string): (r: string)
    ensures |r| <= |s| && r == s[|s| - |r|..]
    ensures r == [] || !IsSpace(r[0])
    decreases |s|
  {
    if |s| > 0 && IsSpace(s[0]) then LTrim(s[1..]) else s
  }

  /** `trim($s)`: every character of the result comes from `s`. */
  function Trim(s: string): (r: string)
    ensures forall ch :: ch in r ==> ch in s
    ensures r == [] || (!IsSpace(r[0]) && !IsSpace(r[|r| - 1]))
  {
    var t := RTrim(s);
    var r := LTrim(t);
    assert forall ch :: ch in r ==> ch in t;
    r
  }

  /** Trimming a string with no surrounding whitespace changes nothing. */
  lemma TrimClean(s: string)
    requires s != [] && !IsSpace(s[0]) && !IsSpace(s[|s| - 1])
    ensures Trim(s) == s
  {
  }

  function TrimAll(xs: seq<string>): (r: seq<string>)
    ensures |r| == |xs|
    ensures forall i :: 0 <= i < |xs| ==> r[i] == Trim(xs[i])
  {
    seq(|xs|, i requires 0 <= i < |xs| => Trim(xs[i]))
  }

  function LowerChar(ch: char): char
  {
    if 'A' <= ch <= 'Z' then (ch as int - 'A' as int + 'a' as int) as char else ch
  }

  /** `strtolower($s)`: ASCII letters only, as in PHP 8. */
  function Lower(s: string): (r: string)
    ensures |r| == |s|
    ensures forall i :: 0 <= i < |s| ==> r[i] == LowerChar(s[i])
  {
    seq(|s|, i requires 0 <= i < |s| => LowerChar(s[i]))
  }

  lemma LowerConcat(a: string, b: string)
    ensures Lower(a + b) == Lower(a) + Lower(b)
  {
  }

  /** `array_search($x, $xs)`: the first position holding `x`. */
  function IndexOf(xs: seq<string>, x: string): (r: int)
    ensures -1 <= r < |xs|
    ensures r >= 0 ==> xs[r] == x && x !in xs[..r]
    ensures r < 0 <==> x !in xs
    decreases |xs|
  {
    if |xs| == 0 then -1
    else if xs[0] == x then 0
    else
      var k := IndexOf(xs[1..], x);
      assert xs[1..][..(if k < 0 then 0 else k)] == xs[1..(if k < 0 then 1 else k + 1)];
      if k < 0 then -1 else k + 1
  }
}
