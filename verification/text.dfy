/** String operations the parser borrows from JavaScript: whitespace, `trim`,
    `split('\n')` and `join('\n')`. Strings are sequences of Unicode scalar values. */
module Text {

  /** A JavaScript line terminator: what `.` in a regular expression refuses to match. */
  predicate IsLineTerminator(c: char)
  {
    c == '\n' || c == '\r' || c == '\U{2028}' || c == '\U{2029}'
  }

  /** A character that `String.prototype.trim` removes and `\s` matches:
      the WhiteSpace and LineTerminator sets of the ECMAScript language. */
  predicate IsWs(c: char)
  {
    || c == '\t' || c == '\U{B}' || c == '\U{C}' || c == ' ' || c == '\U{A0}'
    || c == '\U{1680}' || ('\U{2000}' <= c <= '\U{200A}')
    || c == '\U{202F}' || c == '\U{205F}' || c == '\U{3000}' || c == '\U{FEFF}'
    || IsLineTerminator(c)
  }

  /** The first index at or after `i` that does not hold whitespace, or `|s|`. */
  function SkipWs(s: string, i: nat): (n: nat)
    requires i <= |s|
    ensures i <= n <= |s|
    ensures forall k :: i <= k < n ==> IsWs(s[k])
    ensures n < |s| ==> !IsWs(s[n])
    decreases |s| - i
  {
    if i == |s| || !IsWs(s[i]) then i else SkipWs(s, i + 1)
  }

  /** The end of `s[lo..j]` once its trailing whitespace is cut off. */
  function BackWs(s: string, lo: nat, j: nat): (n: nat)
    requires lo <= j <= |s|
    ensures lo <= n <= j
    ensures forall k :: n <= k < j ==> IsWs(s[k])
    ensures n > lo ==> !IsWs(s[n - 1])
    decreases j
  {
    if j == lo || !IsWs(s[j - 1]) then j else BackWs(s, lo, j - 1)
  }

  /** Where `Trim(s)` starts in `s`: the length of the leading whitespace. */
  function TrimStart(s: string): nat
  {
    SkipWs(s, 0)
  }

  /** Where `Trim(s)` ends in `s`. */
  function TrimEnd(s: string): nat
  {
    BackWs(s, TrimStart(s), |s|)
  }

  /** JavaScript's `s.trim()`: `s` without its leading and trailing whitespace. */
  function Trim(s: string): (r: string)
    ensures |r| <= |s|
  {
    s[TrimStart(s)..TrimEnd(s)]
  }

  /** `Trim(s)` is the slice of `s` between a whitespace prefix and a whitespace
      suffix, and begins and ends (when non-empty) with non-whitespace. */
  lemma TrimShape(s: string)
    ensures TrimStart(s) <= TrimEnd(s) <= |s| && Trim(s) == s[TrimStart(s)..TrimEnd(s)]
    ensures forall k :: 0 <= k < TrimStart(s) ==> IsWs(s[k])
    ensures forall k :: TrimEnd(s) <= k < |s| ==> IsWs(s[k])
    ensures |Trim(s)| > 0 ==> !IsWs(Trim(s)[0]) && !IsWs(Trim(s)[|Trim(s)| - 1])
  {
    var a := TrimStart(s);
    var b := TrimEnd(s);
    if a < b {
      assert Trim(s)[0] == s[a];
      assert Trim(s)[|Trim(s)| - 1] == s[b - 1];
    }
  }

  /** Trimming twice is trimming once. */
  lemma TrimIdempotent(s: string)
    ensures Trim(Trim(s)) == Trim(s)
  {
    var t := Trim(s);
    TrimShape(s);
    TrimShape(t);
    if |t| > 0 {
      assert TrimStart(t) == 0;
      assert TrimEnd(t) == |t|;
    }
  }

  /** A non-whitespace character of `s` survives trimming, at its offset past the
      cut-off leading whitespace. */
  lemma TrimKeeps(s: string, i: int)
    requires 0 <= i < |s| && !IsWs(s[i])
    ensures TrimStart(s) <= i < TrimEnd(s)
    ensures Trim(s)[i - TrimStart(s)] == s[i]
  {
    TrimShape(s);
  }

  /** Every character of `Trim(s)` is a character of `s`. */
  lemma TrimInside(s: string, c: char)
    requires c in Trim(s)
    ensures c in s
  {
    var t := Trim(s);
    var k :| 0 <= k < |t| && t[k] == c;
    assert s[TrimStart(s) + k] == c;
  }

  /** When `s` is some whitespace followed by `p`, and `p` begins and ends with
      non-whitespace, the trimmed `s` still begins with `p`. */
  lemma TrimPrefix(s: string, k: nat, p: string)
    requires k <= |s| && forall i :: 0 <= i < k ==> IsWs(s[i])
    requires p <= s[k..] && |p| > 0 && !IsWs(p[0]) && !IsWs(p[|p| - 1])
    ensures p <= Trim(s)
  {
    assert s[k] == p[0];
    assert TrimStart(s) == k;
    TrimKeeps(s, k + |p| - 1);
  }

  /** JavaScript's `s.split('\n')`: the pieces between newline characters, so an
      empty string gives one empty piece and every newline adds a piece. */
  function Split(s: string): (r: seq<string>)
    ensures |r| >= 1
    ensures forall l :: l in r ==> '\n' !in l
    decreases |s|
  {
    if |s| == 0 then [""]
    else
      var rest := Split(s[1..]);
      if s[0] == '\n' then [""] + rest
      else
        assert rest[0] in rest;
        [[s[0]] + rest[0]] + rest[1..]
  }

  /** JavaScript's `ls.join('\n')`. */
  function Join(ls: seq<string>): string
  {
    if |ls| == 0 then ""
    else if |ls| == 1 then ls[0]
    else ls[0] + "\n" + Join(ls[1..])
  }

  /** Joining the pieces of a split gives back the original string. */
  lemma {:induction false} JoinSplit(s: string)
    ensures Join(Split(s)) == s
    decreases |s|
  {
    if |s| > 0 {
      var rest := Split(s[1..]);
      JoinSplit(s[1..]);
      if s[0] == '\n' {
        assert ([""] + rest)[1..] == rest;
      } else {
        var r := [[s[0]] + rest[0]] + rest[1..];
        if |rest| > 1 {
          assert r[1..] == rest[1..];
        }
        assert Join(r) == [s[0]] + Join(rest);
        assert s == [s[0]] + s[1..];
      }
    }
  }

  /** A string without newlines splits into itself alone. */
  lemma {:induction false} SplitNoNewline(s: string)
    requires '\n' !in s
    ensures Split(s) == [s]
    decreases |s|
  {
    if |s| > 0 {
      assert '\n' !in s[1..] by {
        forall c | c in s[1..] ensures c in s {
        }
      }
      SplitNoNewline(s[1..]);
      assert s == [s[0]] + s[1..];
    }
  }

  /** Splitting at the first newline: a newline-free head is the first piece. */
  lemma {:induction false} SplitAfterHead(a: string, b: string)
    requires '\n' !in a
    ensures Split(a + "\n" + b) == [a] + Split(b)
    decreases |a|
  {
    if |a| == 0 {
      assert a + "\n" + b == "\n" + b;
      assert ("\n" + b)[1..] == b;
    } else {
      var s := a + "\n" + b;
      assert s[1..] == a[1..] + "\n" + b;
      assert '\n' !in a[1..] by {
        forall c | c in a[1..] ensures c in a {
        }
      }
      SplitAfterHead(a[1..], b);
      assert [a[0]] + a[1..] == a;
    }
  }

  /** Splitting a join of newline-free pieces gives back the pieces. */
  lemma {:induction false} SplitJoin(ls: seq<string>)
    requires |ls| >= 1
    requires forall l :: l in ls ==> '\n' !in l
    ensures Split(Join(ls)) == ls
  {
    if |ls| == 1 {
      SplitNoNewline(ls[0]);
    } else {
      assert ls[0] in ls;
      SplitAfterHead(ls[0], Join(ls[1..]));
      SplitJoin(ls[1..]);
      assert ls == [ls[0]] + ls[1..];
    }
  }
}
