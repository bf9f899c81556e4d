/** The java.lang.String operations the key scheme relies on: prefix and
    suffix tests and the replacement of one character by a string. */
module Strings {

  predicate StartsWith(s: string, prefix: string) {
    |prefix| <= |s| && s[..|prefix|] == prefix
  }

  predicate EndsWith(s: string, suffix: string) {
    |suffix| <= |s| && s[|s| - |suffix|..] == suffix
  }

  lemma StartsWithConcat(prefix: string, rest: string)
    ensures StartsWith(prefix + rest, prefix)
  {
    assert (prefix + rest)[..|prefix|] == prefix;
  }

  lemma EndsWithConcat(s: string, suffix: string)
    ensures EndsWith(s + suffix, suffix)
  {
    assert (s + suffix)[|s + suffix| - |suffix|..] == suffix;
  }

  /** Two strings that differ in their first character cannot both start
      with the same prefix of at least one character. */
  lemma StartsWithDistinctHeads(s: string, p: string, q: string)
    requires |p| > 0 && |q| > 0 && p[0] != q[0]
    requires StartsWith(s, p)
    ensures !StartsWith(s, q)
  {
    assert s[0] == s[..|p|][0] == p[0];
  }

  /** The suffix test on a key built as `a + x`, where `a` ends in the
      separator: the key ends in separator-then-tag exactly when `x` itself
      does, or when `x` is the tag character alone (the separator is then
      borrowed from `a`). */
  lemma {:induction false} EndsWithAfterSeparator(a: string, x: string, sep: char, tag: char)
    requires |a| > 0 && a[|a| - 1] == sep && sep != tag
    ensures EndsWith(a + x, [sep, tag]) <==> (EndsWith(x, [sep, tag]) || x == [tag])
  {
    var s := a + x;
    if |x| >= 2 {
      assert s[|s| - 2..] == x[|x| - 2..];
    } else if |x| == 1 {
      assert s[|s| - 2..] == [sep, x[0]];
    } else {
      assert s == a;
      if |s| >= 2 {
        assert s[|s| - 2..][1] == s[|s| - 1] == sep;
      }
    }
  }

  /** String.replace with a one-character target: every occurrence of `c`
      is replaced by `rep`, left to right. */
  function Replace(s: string, c: char, rep: string): string
  {
    if s == [] then [] else (if s[0] == c then rep else [s[0]]) + Replace(s[1..], c, rep)
  }

  lemma {:induction false} ReplaceRemoves(s: string, c: char, rep: string)
    requires c !in rep
    ensures c !in Replace(s, c, rep)
  {
    if s != [] {
      ReplaceRemoves(s[1..], c, rep);
    }
  }

  lemma {:induction false} ReplaceLength(s: string, c: char, rep: string)
    requires |rep| > 0
    ensures |Replace(s, c, rep)| >= |s|
  {
    if s != [] {
      ReplaceLength(s[1..], c, rep);
    }
  }

  /** Replacing `c` by a non-empty string none of whose characters occur in
      the inputs loses no information. */
  lemma {:induction false} ReplaceInjective(a: string, b: string, c: char, rep: string)
    requires |rep| > 0 && rep[0] !in a && rep[0] !in b
    requires Replace(a, c, rep) == Replace(b, c, rep)
    ensures a == b
  {
    if a == [] || b == [] {
      ReplaceLength(a, c, rep);
      ReplaceLength(b, c, rep);
    } else {
      var ra, rb := Replace(a, c, rep), Replace(b, c, rep);
      var ha := if a[0] == c then rep else [a[0]];
      var hb := if b[0] == c then rep else [b[0]];
      assert ra == ha + Replace(a[1..], c, rep);
      assert rb == hb + Replace(b[1..], c, rep);
      assert ra[0] == ha[0] && rb[0] == hb[0];
      if a[0] == c && b[0] != c {
        assert false;
      } else if a[0] != c && b[0] == c {
        assert false;
      } else {
        assert ha == hb;
        assert Replace(a[1..], c, rep) == ra[|ha|..] == rb[|hb|..] == Replace(b[1..], c, rep);
        ReplaceInjective(a[1..], b[1..], c, rep);
      }
    }
  }
}
