/** String operations the client and the services rely on: substring search
    (`String.prototype.includes`), ASCII lower-casing, the trailing-slash
    strip of the constructor, the last `.`-separated segment, path building
    and decimal rendering of status codes. */
module Text {

  /** `p` is a prefix of `s`. */
  predicate StartsWith(s: string, p: string) {
    |p| <= |s| && s[..|p|] == p
  }

  /** `s.includes(t)`: `t` occurs somewhere in `s` (the empty string occurs everywhere). */
  predicate Contains(s: string, t: string)
    decreases |s|
  {
    StartsWith(s, t) || (|s| > 0 && Contains(s[1..], t))
  }

  /** An occurrence of `t` at offset `i` makes `s` contain `t`. */
  lemma {:induction false} ContainsAt(s: string, t: string, i: nat)
    requires i + |t| <= |s| && s[i..i + |t|] == t
    ensures Contains(s, t)
    decreases i
  {
    if i == 0 {
      assert s[..|t|] == t;
    } else {
      assert s[1..][i - 1..i - 1 + |t|] == s[i..i + |t|];
      ContainsAt(s[1..], t, i - 1);
    }
  }

  /** Every containment has an offset at which `t` occurs. */
  lemma {:induction false} ContainsOffset(s: string, t: string) returns (i: nat)
    requires Contains(s, t)
    ensures i + |t| <= |s| && s[i..i + |t|] == t
    decreases |s|
  {
    if StartsWith(s, t) {
      i := 0;
    } else {
      var j := ContainsOffset(s[1..], t);
      assert s[1..][j..j + |t|] == s[j + 1..j + 1 + |t|];
      i := j + 1;
    }
  }

  /** Containment is transitive: a string that contains `t` contains every
      piece `t[k..k + |u|]` of it. */
  lemma ContainsPiece(s: string, t: string, u: string, k: nat)
    requires Contains(s, t)
    requires k + |u| <= |t| && t[k..k + |u|] == u
    ensures Contains(s, u)
  {
    var i := ContainsOffset(s, t);
    forall j | 0 <= j < |u|
      ensures s[i + k..i + k + |u|][j] == u[j]
    {
      assert u[j] == t[k + j] == s[i..i + |t|][k + j];
    }
    assert s[i + k..i + k + |u|] == u;
    ContainsAt(s, u, i + k);
  }

  /** A string cannot contain a longer one. */
  lemma {:induction false} ContainsNoLonger(s: string, t: string)
    requires |s| < |t|
    ensures !Contains(s, t)
    decreases |s|
  {
    if |s| > 0 {
      ContainsNoLonger(s[1..], t);
    }
  }

  /** `s` does not contain `t` when no offset below `k` starts an
      occurrence and the rest from `k` on does not contain it. */
  lemma {:induction false} NotContainsFrom(s: string, t: string, k: nat)
    requires k <= |s|
    requires forall j :: 0 <= j < k ==> !StartsWith(s[j..], t)
    requires !Contains(s[k..], t)
    ensures !Contains(s, t)
    decreases k
  {
    assert s[0..] == s;
    if k > 0 {
      var s1 := s[1..];
      assert !StartsWith(s, t);
      assert s1[k - 1..] == s[k..];
      forall j | 0 <= j < k - 1
        ensures !StartsWith(s1[j..], t)
      {
        assert s1[j..] == s[j + 1..];
      }
      NotContainsFrom(s1, t, k - 1);
    }
  }

  /** ASCII lower-casing of one character. */
  function LowerChar(c: char): char {
    if 'A' <= c <= 'Z' then (c as int + 32) as char else c
  }

  /** `s.toLowerCase()`, restricted to the ASCII letters. */
  function Lower(s: string): (r: string)
    ensures |r| == |s|
    ensures forall i :: 0 <= i < |s| ==> r[i] == LowerChar(s[i])
  {
    seq(|s|, i requires 0 <= i < |s| => LowerChar(s[i]))
  }

  /** Lower-casing is idempotent. */
  lemma LowerIdempotent(s: string)
    ensures Lower(Lower(s)) == Lower(s)
  {
    forall i | 0 <= i < |s|
      ensures Lower(Lower(s))[i] == Lower(s)[i]
    {
      assert LowerChar(LowerChar(s[i])) == LowerChar(s[i]);
    }
  }

  /** Lower-casing works character by character, so it distributes over concatenation. */
  lemma LowerAppend(s: string, t: string)
    ensures Lower(s + t) == Lower(s) + Lower(t)
  {
    assert forall i :: 0 <= i < |s + t| ==> Lower(s + t)[i] == (Lower(s) + Lower(t))[i];
  }

  /** `s.replace(/\/$/, "")`: the regular expression has no `m` flag, so `$`
      matches only at the very end and at most one `/` is removed. */
  function StripTrailingSlash(s: string): (r: string)
    ensures |s| > 0 && s[|s| - 1] == '/' ==> r + "/" == s
    ensures !(|s| > 0 && s[|s| - 1] == '/') ==> r == s
  {
    if |s| > 0 && s[|s| - 1] == '/' then s[..|s| - 1] else s
  }

  /** `s.split('.').pop()`: the text after the last `.`, or the whole string
      when it has no `.`. */
  function AfterLastDot(s: string): (ext: string)
    ensures |ext| <= |s| && ext == s[|s| - |ext|..]
    ensures '.' !in ext
    ensures |ext| < |s| ==> s[|s| - |ext| - 1] == '.'
    decreases |s|
  {
    if |s| == 0 then ""
    else if s[|s| - 1] == '.' then ""
    else
      var init := s[..|s| - 1];
      var e := AfterLastDot(init);
      assert s[|s| - |e| - 1..] == init[|init| - |e|..] + [s[|s| - 1]];
      assert |e| < |init| ==> s[|s| - |e| - 2] == init[|init| - |e| - 1];
      e + [s[|s| - 1]]
  }

  /** What follows the last `.` is found whatever comes before it. */
  lemma {:induction false} AfterLastDotAppend(p: string, ext: string)
    requires '.' !in ext
    ensures AfterLastDot(p + "." + ext) == ext
    decreases |ext|
  {
    var s := p + "." + ext;
    if |ext| == 0 {
      assert s[|s| - 1] == '.';
    } else {
      var init := ext[..|ext| - 1];
      var last := ext[|ext| - 1];
      assert last != '.';
      assert s == (p + "." + init) + [last];
      assert s[..|s| - 1] == p + "." + init && s[|s| - 1] == last;
      AfterLastDotAppend(p, init);
      assert init + [last] == ext;
    }
  }

  /** An absolute path made of `/`-prefixed segments: `Route(["api", "space", id])`
      is `/api/space/<id>`. */
  function Route(segments: seq<string>): string
    decreases |segments|
  {
    if |segments| == 0 then "" else "/" + segments[0] + Route(segments[1..])
  }

  /** A route extended by more segments is the concatenation of the two routes. */
  lemma {:induction false} RouteAppend(xs: seq<string>, ys: seq<string>)
    ensures Route(xs + ys) == Route(xs) + Route(ys)
    decreases |xs|
  {
    if |xs| > 0 {
      assert (xs + ys)[1..] == xs[1..] + ys;
      RouteAppend(xs[1..], ys);
    } else {
      assert xs + ys == ys;
    }
  }

  /** Routes of two to five segments written out. */
  lemma Route2(a: string, b: string)
    ensures Route([a, b]) == "/" + a + "/" + b
  {
    assert [a, b][1..] == [b] && [b][1..] == [];
    assert Route([b]) == "/" + b + Route([]);
  }

  lemma Route3(a: string, b: string, c: string)
    ensures Route([a, b, c]) == "/" + a + "/" + b + "/" + c
  {
    assert [a, b, c][1..] == [b, c] && [b, c][1..] == [c] && [c][1..] == [];
    assert Route([c]) == "/" + c + Route([]);
    assert Route([b, c]) == "/" + b + Route([c]);
    assert Route([a, b, c]) == "/" + a + Route([b, c]);
  }

  lemma Route4(a: string, b: string, c: string, e: string)
    ensures Route([a, b, c, e]) == "/" + a + "/" + b + "/" + c + "/" + e
  {
    assert [a, b, c, e][1..] == [b, c, e];
    Route3(b, c, e);
  }

  lemma Route5(a: string, b: string, c: string, e: string, f: string)
    ensures Route([a, b, c, e, f]) == "/" + a + "/" + b + "/" + c + "/" + e + "/" + f
  {
    assert [a, b, c, e, f][1..] == [b, c, e, f];
    Route4(b, c, e, f);
  }

  /** The decimal digit `d`. */
  function DigitChar(d: nat): char
    requires d < 10
  {
    "0123456789"[d]
  }

  /** The decimal rendering of a natural number. */
  function NatToString(n: nat): string
    decreases n
  {
    if n < 10 then [DigitChar(n)] else NatToString(n / 10) + [DigitChar(n % 10)]
  }

  /** The decimal rendering of an integer, as template-string interpolation produces it. */
  function IntToString(i: int): string {
    if i < 0 then "-" + NatToString(-i) else NatToString(i)
  }

  /** `parts.join(sep)`. */
  function Join(parts: seq<string>, sep: string): string
    decreases |parts|
  {
    if |parts| == 0 then ""
    else if |parts| == 1 then parts[0]
    else parts[0] + sep + Join(parts[1..], sep)
  }
}
