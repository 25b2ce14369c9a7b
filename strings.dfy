/** The string operations the handler and the table client apply to update expressions. */
module Strings {

  /** `sep.join(xs)`. */
  function Join(xs: seq<string>, sep: string): string
  {
    if |xs| == 0 then ""
    else if |xs| == 1 then xs[0]
    else xs[0] + sep + Join(xs[1..], sep)
  }

  /** Joining one more string appends the separator and that string. */
  lemma {:induction false} JoinSnoc(xs: seq<string>, x: string, sep: string)
    requires |xs| > 0
    ensures Join(xs + [x], sep) == Join(xs, sep) + sep + x
  {
    if |xs| > 1 {
      assert (xs + [x])[1..] == xs[1..] + [x];
      JoinSnoc(xs[1..], x, sep);
    } else {
      assert (xs + [x])[1..] == [x];
    }
  }

  /** A join ends with the last character of its last string. */
  lemma {:induction false} JoinLast(xs: seq<string>, sep: string)
    requires |xs| > 0 && |xs[|xs| - 1]| > 0
    ensures |Join(xs, sep)| > 0
    ensures Join(xs, sep)[|Join(xs, sep)| - 1] == xs[|xs| - 1][|xs[|xs| - 1]| - 1]
  {
    if |xs| > 1 {
      JoinLast(xs[1..], sep);
    }
  }

  /** The longest prefix of s that does not contain c. */
  function TakeUntil(s: string, c: char): (r: string)
    ensures r <= s && c !in r
    ensures |r| < |s| ==> s[|r|] == c
  {
    if s == [] || s[0] == c then [] else [s[0]] + TakeUntil(s[1..], c)
  }

  /** `s.rstrip(chars)`: s without its longest suffix made of characters from chars. */
  function RStrip(s: string, chars: set<char>): (r: string)
    ensures r <= s
    ensures |r| > 0 ==> r[|r| - 1] !in chars
    ensures forall i :: |r| <= i < |s| ==> s[i] in chars
  {
    if |s| > 0 && s[|s| - 1] in chars then RStrip(s[..|s| - 1], chars) else s
  }

  /** Python's `needle in hay` for two strings. */
  function IsSubstring(needle: string, hay: string): bool
    decreases |hay|
  {
    needle <= hay || (|hay| > 0 && IsSubstring(needle, hay[1..]))
  }

  /** needle occurs in hay at position i. */
  predicate OccursAt(needle: string, hay: string, i: int)
  {
    0 <= i <= |hay| - |needle| && hay[i..i + |needle|] == needle
  }

  /** IsSubstring holds exactly when needle occurs at some position of hay. */
  lemma {:induction false} IsSubstringAt(needle: string, hay: string)
    ensures IsSubstring(needle, hay) <==> exists i :: OccursAt(needle, hay, i)
    decreases |hay|
  {
    if needle <= hay {
      assert OccursAt(needle, hay, 0);
    } else if |hay| == 0 {
    } else {
      IsSubstringAt(needle, hay[1..]);
      if exists i :: OccursAt(needle, hay, i) {
        var i :| OccursAt(needle, hay, i);
        assert i != 0;
        assert hay[1..][i - 1..i - 1 + |needle|] == hay[i..i + |needle|];
        assert OccursAt(needle, hay[1..], i - 1);
      }
      if IsSubstring(needle, hay[1..]) {
        var i :| OccursAt(needle, hay[1..], i);
        assert hay[i + 1..i + 1 + |needle|] == hay[1..][i..i + |needle|];
        assert OccursAt(needle, hay, i + 1);
      }
    }
  }

  /** TakeUntil stops at the first c. */
  lemma {:induction false} TakeUntilStops(a: string, c: char, b: string)
    requires c !in a
    ensures TakeUntil(a + [c] + b, c) == a
  {
    if a != [] {
      assert (a + [c] + b)[1..] == a[1..] + [c] + b;
      TakeUntilStops(a[1..], c, b);
    }
  }

  /** TakeUntil takes all of a string that lacks c. */
  lemma {:induction false} TakeUntilAll(s: string, c: char)
    requires c !in s
    ensures TakeUntil(s, c) == s
  {
    if s != [] {
      TakeUntilAll(s[1..], c);
    }
  }

  /** Stripping a suffix made of stripped characters leaves a string that does not end in one. */
  lemma {:induction false} RStripSuffix(s: string, suffix: string, chars: set<char>)
    requires |s| > 0 && s[|s| - 1] !in chars
    requires forall i :: 0 <= i < |suffix| ==> suffix[i] in chars
    ensures RStrip(s + suffix, chars) == s
    decreases |suffix|
  {
    if suffix == [] {
      assert s + suffix == s;
    } else {
      var shorter := suffix[..|suffix| - 1];
      assert (s + suffix)[..|s + suffix| - 1] == s + shorter;
      RStripSuffix(s, shorter, chars);
    }
  }

  /** Stripping a separator made of stripped characters after a text ending in a kept one. */
  lemma StripSeparator(pre: string, j: string, sep: string, chars: set<char>)
    requires |j| > 0 && j[|j| - 1] !in chars
    requires forall i :: 0 <= i < |sep| ==> sep[i] in chars
    ensures RStrip(pre + (j + sep), chars) == pre + j
  {
    assert pre + (j + sep) == (pre + j) + sep;
    RStripSuffix(pre + j, sep, chars);
  }

  /** Stripping commas and spaces after a text that ends in neither removes exactly ", ". */
  lemma StripCommaSpace(pre: string, j: string)
    requires |j| > 0 && j[|j| - 1] != ',' && j[|j| - 1] != ' '
    ensures RStrip(pre + (j + ", "), {',', ' '}) == pre + j
  {
    var sep := ", ";
    assert forall i :: 0 <= i < |sep| ==> sep[i] in {',', ' '};
    StripSeparator(pre, j, sep, {',', ' '});
  }

  /** Regrouping a concatenation of four strings. */
  lemma Associative(a: string, b: string, c: string, d: string)
    ensures (a + b) + (c + d) == a + ((b + c) + d)
  {
  }
}
