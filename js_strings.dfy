/**
  The JavaScript string built-ins the application relies on, stated over Dafny
  strings: `trim`, `indexOf`, splitting at the first separator, `split(/\s+/)`,
  ASCII lower-casing and the decimal rendering of a non-negative integer inside
  a template literal.
*/
module JsStrings {
  import opened Wrappers

  /** The code points JavaScript's `\s` matches and `String.prototype.trim`
      removes: WhiteSpace and LineTerminator of ECMAScript sections 12.2 and 12.3. */
  predicate IsWhitespace(c: char) {
    c == '\t' || c == '\n' || c == '\U{B}' || c == '\U{C}' || c == '\r' || c == ' '
    || c == '\U{A0}' || c == '\U{1680}' || ('\U{2000}' <= c <= '\U{200A}')
    || c == '\U{2028}' || c == '\U{2029}' || c == '\U{202F}' || c == '\U{205F}'
    || c == '\U{3000}' || c == '\U{FEFF}'
  }

  predicate AllWhitespace(s: string) {
    forall k :: 0 <= k < |s| ==> IsWhitespace(s[k])
  }

  predicate NoWhitespace(s: string) {
    forall k :: 0 <= k < |s| ==> !IsWhitespace(s[k])
  }

  /** Leading whitespace removed: what is left is a suffix of `s`. */
  function TrimStart(s: string): (r: string)
    ensures |r| <= |s| && r == s[|s| - |r|..]
    ensures AllWhitespace(s[..|s| - |r|])
    ensures r == [] || !IsWhitespace(r[0])
  {
    if |s| > 0 && IsWhitespace(s[0]) then TrimStart(s[1..]) else s
  }

  /** Trailing whitespace removed: what is left is a prefix of `s`. */
  function TrimEnd(s: string): (r: string)
    ensures |r| <= |s| && r == s[..|r|]
    ensures AllWhitespace(s[|r|..])
    ensures r == [] || !IsWhitespace(r[|r| - 1])
  {
    if |s| > 0 && IsWhitespace(s[|s| - 1]) then
      var r := TrimEnd(s[..|s| - 1]);
      assert s[|r|..] == s[..|s| - 1][|r|..] + [s[|s| - 1]];
      r
    else s
  }

  /** `String.prototype.trim`. */
  function Trim(s: string): (r: string)
    ensures |r| <= |s|
    ensures r == [] <==> AllWhitespace(s)
    ensures r != [] ==> !IsWhitespace(r[0]) && !IsWhitespace(r[|r| - 1])
    ensures exists a :: 0 <= a <= |s| - |r| && r == s[a..a + |r|]
                        && AllWhitespace(s[..a]) && AllWhitespace(s[a + |r|..])
    ensures (s == [] || (!IsWhitespace(s[0]) && !IsWhitespace(s[|s| - 1]))) ==> r == s
  {
    var t := TrimStart(s);
    var r := TrimEnd(t);
    var a := |s| - |t|;
    TrimSlices(s, t, r, a);
    r
  }

  lemma TrimSlices(s: string, t: string, r: string, a: nat)
    requires |t| <= |s| && t == s[|s| - |t|..] && AllWhitespace(s[..|s| - |t|])
    requires |r| <= |t| && r == t[..|r|] && AllWhitespace(t[|r|..])
    requires t == [] || !IsWhitespace(t[0])
    requires a == |s| - |t|
    ensures a <= |s| - |r| && r == s[a..a + |r|]
    ensures AllWhitespace(s[..a]) && AllWhitespace(s[a + |r|..])
    ensures r == [] <==> AllWhitespace(s)
  {
    assert s[a + |r|..] == t[|r|..];
    if r == [] {
      assert s == s[..a] + t;
    }
  }

  /** `sub` occurs in `s` starting at index `k`. */
  predicate OccursAt(s: string, sub: string, k: nat) {
    k + |sub| <= |s| && s[k..k + |sub|] == sub
  }

  /** The first index at or after `from` where `sub` occurs. */
  function IndexOfFrom(s: string, sub: string, from: nat): (r: Option<nat>)
    decreases |s| - from
    ensures r.Some? ==> from <= r.value && OccursAt(s, sub, r.value)
    ensures r.Some? ==> forall k :: from <= k < r.value ==> !OccursAt(s, sub, k)
    ensures r.None? ==> forall k :: from <= k ==> !OccursAt(s, sub, k)
  {
    if from + |sub| > |s| then None
    else if s[from..from + |sub|] == sub then Some(from)
    else IndexOfFrom(s, sub, from + 1)
  }

  /** `String.prototype.indexOf`, with `None` for JavaScript's -1. */
  function IndexOf(s: string, sub: string): Option<nat> {
    IndexOfFrom(s, sub, 0)
  }

  /** `String.prototype.includes`. */
  predicate Contains(s: string, sub: string) {
    IndexOf(s, sub).Some?
  }

  lemma ContainsAt(s: string, sub: string, k: nat)
    requires OccursAt(s, sub, k)
    ensures Contains(s, sub)
  {
  }

  /** `s.split(sep)[0]`: the text before the first `sep`, or all of `s`. */
  function BeforeFirst(s: string, sep: string): (r: string)
    ensures |r| <= |s| && r == s[..|r|]
    ensures !Contains(s, sep) ==> r == s
    ensures Contains(s, sep) ==> OccursAt(s, sep, |r|) && forall j :: 0 <= j < |r| ==> !OccursAt(s, sep, j)
  {
    match IndexOf(s, sep)
    case Some(k) => s[..k]
    case None => s
  }

  /** `s.split(sep).slice(1).join(sep)`: the text after the first `sep`, or "". */
  function AfterFirst(s: string, sep: string): (r: string)
    ensures !Contains(s, sep) ==> r == []
    ensures Contains(s, sep) ==>
              |BeforeFirst(s, sep)| + |sep| <= |s| && r == s[|BeforeFirst(s, sep)| + |sep|..]
  {
    match IndexOf(s, sep)
    case Some(k) => s[k + |sep|..]
    case None => []
  }

  /** For a separator that starts with '/', cutting at the next '/' does not
      care whether the text was first cut at the separator: the '/' that
      starts the separator comes no later than the separator itself. So
      `s.split(sep)[1].split("/")[0]` is the text after the first `sep` up to
      the next '/'. */
  lemma CutBeforeSlash(t: string, sep: string)
    requires sep != [] && sep[0] == '/'
    ensures BeforeFirst(BeforeFirst(t, sep), "/") == BeforeFirst(t, "/")
  {
    var a := BeforeFirst(t, sep);
    var c := BeforeFirst(t, "/");
    if Contains(t, sep) {
      var q := |a|;
      assert t[q..q + |sep|] == sep;
      assert t[q..q + 1] == "/";
      assert OccursAt(t, "/", q);
      ContainsAt(t, "/", q);
      assert |c| <= q;
      if |c| < q {
        assert a[|c|..|c| + 1] == t[|c|..|c| + 1];
        assert OccursAt(a, "/", |c|);
        ContainsAt(a, "/", |c|);
        var b := BeforeFirst(a, "/");
        assert |b| <= |c|;
        assert a[|b|..|b| + 1] == t[|b|..|b| + 1];
        assert OccursAt(t, "/", |b|);
      } else {
        forall k: nat ensures !OccursAt(a, "/", k) {
          if k + 1 <= |a| {
            assert a[k..k + 1] == t[k..k + 1];
            assert !OccursAt(t, "/", k);
          }
        }
      }
    }
  }

  /** Splitting at the first separator and joining again gives back the string. */
  lemma BeforeSepAfter(s: string, sep: string)
    requires Contains(s, sep)
    ensures BeforeFirst(s, sep) + sep + AfterFirst(s, sep) == s
  {
    var k := IndexOf(s, sep).value;
    assert s == s[..k] + s[k..k + |sep|] + s[k + |sep|..];
  }

  /** A string that starts with `sep` has an empty part before it. */
  lemma StartsWithSep(s: string, sep: string)
    requires OccursAt(s, sep, 0)
    ensures Contains(s, sep) && BeforeFirst(s, sep) == []
  {
  }

  /** The first `sep` is at index 0 exactly when the part before it is empty. */
  lemma BeforeFirstEmpty(s: string, sep: string)
    requires Contains(s, sep)
    ensures BeforeFirst(s, sep) == [] <==> OccursAt(s, sep, 0)
  {
  }

  /** When `sub` occurs at `k` and nowhere before, `indexOf` finds `k`. */
  lemma IndexOfAt(s: string, sub: string, k: nat)
    requires OccursAt(s, sub, k)
    requires forall j :: 0 <= j < k ==> !OccursAt(s, sub, j)
    ensures IndexOf(s, sub) == Some(k)
  {
  }

  /** Splitting `a + b` at a character `c` that `a` lacks and `b` starts with
      cuts exactly between them. */
  lemma SplitAtChar(a: string, b: string, c: char)
    requires forall k :: 0 <= k < |a| ==> a[k] != c
    requires b != [] && b[0] == c
    ensures BeforeFirst(a + b, [c]) == a && AfterFirst(a + b, [c]) == b[1..]
  {
    var s := a + b;
    assert OccursAt(s, [c], |a|);
    forall j | 0 <= j < |a| ensures !OccursAt(s, [c], j) {
      assert s[j..j + 1][0] == a[j];
    }
    IndexOfAt(s, [c], |a|);
  }

  /** A string without the character `c` is not split by it. */
  lemma NoCharNoSplit(a: string, c: char)
    requires forall k :: 0 <= k < |a| ==> a[k] != c
    ensures BeforeFirst(a, [c]) == a
  {
    forall j: nat ensures !OccursAt(a, [c], j) {
      if j + 1 <= |a| {
        assert a[j..j + 1][0] == a[j];
      }
    }
  }

  /** The decimal digit for `d`. */
  function DigitChar(d: nat): (c: char)
    requires d < 10
    ensures '0' <= c <= '9'
  {
    (48 + d) as char
  }

  /** How a non-negative integer is written inside a template literal. */
  function NatToString(n: nat): (r: string)
    ensures |r| >= 1
    ensures n < 10 <==> |r| == 1
    ensures forall k :: 0 <= k < |r| ==> '0' <= r[k] <= '9'
  {
    if n < 10 then [DigitChar(n)] else NatToString(n / 10) + [DigitChar(n % 10)]
  }

  /** Different numbers are written differently. */
  lemma {:induction false} NatToStringInjective(a: nat, b: nat)
    requires NatToString(a) == NatToString(b)
    ensures a == b
  {
    if a >= 10 && b >= 10 {
      var sa, sb := NatToString(a), NatToString(b);
      assert sa[|sa| - 1] == sb[|sb| - 1];
      assert NatToString(a / 10) == sa[..|sa| - 1] == sb[..|sb| - 1] == NatToString(b / 10);
      NatToStringInjective(a / 10, b / 10);
    }
  }

  /** Two strings that share a prefix are equal exactly when the rests are. */
  lemma SamePrefix(p: string, x: string, y: string)
    ensures p + x == p + y <==> x == y
  {
    if p + x == p + y {
      assert x == (p + x)[|p|..];
      assert y == (p + y)[|p|..];
    }
  }

  /** `toLowerCase` on one character, for the ASCII letters. */
  function LowerChar(c: char): char {
    if 'A' <= c <= 'Z' then (c as int + 32) as char else c
  }

  predicate IsUpperAscii(c: char) {
    'A' <= c <= 'Z'
  }

  /** `String.prototype.toLowerCase`, restricted to ASCII letters: no
      upper-case ASCII letter is left, every other character is kept, and
      each letter becomes its own lower-case form. */
  function ToLower(s: string): (r: string)
    ensures |r| == |s|
    ensures forall k :: 0 <= k < |r| ==> !IsUpperAscii(r[k])
    ensures forall k :: 0 <= k < |s| && !IsUpperAscii(s[k]) ==> r[k] == s[k]
    ensures forall k :: 0 <= k < |s| && IsUpperAscii(s[k]) ==> r[k] as int == s[k] as int + 32
    ensures forall k :: 0 <= k < |s| ==> r[k] == LowerChar(s[k])
  {
    seq(|s|, k requires 0 <= k < |s| => LowerChar(s[k]))
  }

  /** Lower-casing twice is lower-casing once. */
  lemma ToLowerIdempotent(s: string)
    ensures ToLower(ToLower(s)) == ToLower(s)
  {
  }

  /** Text without upper-case ASCII letters is its own lower case. */
  lemma ToLowerOfLower(s: string)
    requires forall k :: 0 <= k < |s| ==> !IsUpperAscii(s[k])
    ensures ToLower(s) == s
  {
  }

  /** The first index at or after `from` holding whitespace, or `|s|`. */
  function NextWhitespace(s: string, from: nat): (i: nat)
    requires from <= |s|
    decreases |s| - from
    ensures from <= i <= |s|
    ensures i < |s| ==> IsWhitespace(s[i])
    ensures NoWhitespace(s[from..i])
  {
    if from == |s| || IsWhitespace(s[from]) then from else NextWhitespace(s, from + 1)
  }

  /** `NextWhitespace` stops exactly at the end of a whitespace-free run. */
  lemma {:induction false} NextWhitespaceAt(s: string, from: nat, i: nat)
    requires from <= i <= |s| && NoWhitespace(s[from..i])
    requires i == |s| || IsWhitespace(s[i])
    ensures NextWhitespace(s, from) == i
    decreases i - from
  {
    if from < i {
      assert !IsWhitespace(s[from..i][0]);
      assert s[from + 1..i] == s[from..i][1..];
      NextWhitespaceAt(s, from + 1, i);
    }
  }

  /** `NextWhitespace` never passes a whitespace character. */
  lemma {:induction false} NextWhitespaceBefore(s: string, from: nat, k: nat)
    requires from <= k < |s| && IsWhitespace(s[k])
    ensures NextWhitespace(s, from) <= k
    decreases k - from
  {
    if from < k && !IsWhitespace(s[from]) {
      NextWhitespaceBefore(s, from + 1, k);
    }
  }

  /** `SkipWhitespace` never passes a non-whitespace character. */
  lemma {:induction false} SkipWhitespaceBefore(s: string, from: nat, k: nat)
    requires from <= k < |s| && !IsWhitespace(s[k])
    ensures SkipWhitespace(s, from) <= k
    decreases k - from
  {
    if from < k && IsWhitespace(s[from]) {
      SkipWhitespaceBefore(s, from + 1, k);
    }
  }

  /** The first index at or after `from` not holding whitespace, or `|s|`. */
  function SkipWhitespace(s: string, from: nat): (j: nat)
    requires from <= |s|
    decreases |s| - from
    ensures from <= j <= |s|
    ensures j < |s| ==> !IsWhitespace(s[j])
    ensures AllWhitespace(s[from..j])
  {
    if from == |s| || !IsWhitespace(s[from]) then from else SkipWhitespace(s, from + 1)
  }

  /** `SkipWhitespace` stops exactly at the end of a whitespace run. */
  lemma {:induction false} SkipWhitespaceAt(s: string, from: nat, j: nat)
    requires from <= j <= |s| && AllWhitespace(s[from..j])
    requires j == |s| || !IsWhitespace(s[j])
    ensures SkipWhitespace(s, from) == j
    decreases j - from
  {
    if from < j {
      assert IsWhitespace(s[from..j][0]);
      assert s[from + 1..j] == s[from..j][1..];
      SkipWhitespaceAt(s, from + 1, j);
    }
  }

  /** The characters of `s` that are not whitespace, in order. */
  function NonWhitespace(s: string): string {
    if s == [] then []
    else (if IsWhitespace(s[0]) then [] else [s[0]]) + NonWhitespace(s[1..])
  }

  function Concat(ts: seq<string>): string {
    if ts == [] then [] else ts[0] + Concat(ts[1..])
  }

  lemma {:induction false} NonWhitespaceAppend(a: string, b: string)
    ensures NonWhitespace(a + b) == NonWhitespace(a) + NonWhitespace(b)
  {
    if a != [] {
      assert (a + b)[1..] == a[1..] + b;
      NonWhitespaceAppend(a[1..], b);
    } else {
      assert a + b == b;
    }
  }

  lemma {:induction false} NonWhitespaceOfAll(s: string)
    requires AllWhitespace(s)
    ensures NonWhitespace(s) == []
  {
    if s != [] {
      NonWhitespaceOfAll(s[1..]);
    }
  }

  lemma {:induction false} NonWhitespaceOfNone(s: string)
    requires NoWhitespace(s)
    ensures NonWhitespace(s) == s
  {
    if s != [] {
      NonWhitespaceOfNone(s[1..]);
    }
  }

  /** `s.split(/\s+/)`: the maximal whitespace-free runs, with an empty first
      token when `s` starts with whitespace and an empty last one when it ends
      with whitespace. No token holds whitespace, and together the tokens hold
      every other character of `s`, in order. */
  function SplitWhitespace(s: string): (r: seq<string>)
    decreases |s|
    ensures |r| >= 1
    ensures forall t :: t in r ==> NoWhitespace(t)
    ensures Concat(r) == NonWhitespace(s)
  {
    var i := NextWhitespace(s, 0);
    if i == |s| then
      assert s[0..i] == s;
      NonWhitespaceOfNone(s);
      [s]
    else
      var j := SkipWhitespace(s, i);
      var rest := SplitWhitespace(s[j..]);
      assert s == s[..i] + s[i..j] + s[j..];
      NonWhitespaceAppend(s[..i] + s[i..j], s[j..]);
      NonWhitespaceAppend(s[..i], s[i..j]);
      NonWhitespaceOfNone(s[..i]);
      NonWhitespaceOfAll(s[i..j]);
      assert ([s[..i]] + rest)[1..] == rest;
      [s[..i]] + rest
  }

  /** `w` stands in `s` at `i` with whitespace or an end of `s` on both sides. */
  predicate WordAt(s: string, i: nat, w: string) {
    i + |w| <= |s| && s[i..i + |w|] == w
    && (i == 0 || IsWhitespace(s[i - 1]))
    && (i + |w| == |s| || IsWhitespace(s[i + |w|]))
  }

  /** A whole word of a suffix that follows whitespace is a whole word of
      the whole text. */
  lemma WordAtShift(s: string, j: nat, k: nat, t: string)
    requires 0 < j <= |s| && IsWhitespace(s[j - 1]) && WordAt(s[j..], k, t)
    ensures WordAt(s, j + k, t)
  {
    assert s[j..][k..k + |t|] == s[j + k..j + k + |t|];
    assert k > 0 ==> s[j..][k - 1] == s[j + k - 1];
    assert j + k + |t| < |s| ==> s[j..][k + |t|] == s[j + k + |t|];
  }

  /** The tokens are sound: every non-empty token stands in `s` as a whole
      word, with whitespace or an end of `s` on both sides. */
  lemma {:induction false} TokenIsWord(s: string, t: string)
    requires t in SplitWhitespace(s) && t != []
    ensures exists i: nat :: WordAt(s, i, t)
    decreases |s|
  {
    var i := NextWhitespace(s, 0);
    assert s[0..i] == s[..i];
    if i == |s| {
      assert SplitWhitespace(s) == [s];
      assert WordAt(s, 0, t);
    } else {
      var j := SkipWhitespace(s, i);
      var rest := SplitWhitespace(s[j..]);
      assert SplitWhitespace(s) == [s[..i]] + rest;
      if t == s[..i] {
        assert WordAt(s, 0, t);
      } else {
        assert t in rest;
        TokenIsWord(s[j..], t);
        var k: nat :| WordAt(s[j..], k, t);
        assert IsWhitespace(s[i..j][j - 1 - i]);
        WordAtShift(s, j, k, t);
      }
    }
  }

  /** The tokens are maximal: every whitespace-free word of `s` that has
      whitespace or the end of `s` on both sides is one of the tokens. */
  lemma {:induction false} WordIsToken(s: string, a: string, w: string, b: string)
    requires s == a + w + b && w != [] && NoWhitespace(w)
    requires a == [] || IsWhitespace(a[|a| - 1])
    requires b == [] || IsWhitespace(b[0])
    ensures w in SplitWhitespace(s)
    decreases |s|
  {
    var i := NextWhitespace(s, 0);
    if a == [] {
      assert s[0..|w|] == w;
      assert |w| < |s| ==> s[|w|] == b[0];
      NextWhitespaceAt(s, 0, |w|);
      assert SplitWhitespace(s)[0] == w;
    } else {
      assert s[|a| - 1] == a[|a| - 1];
      NextWhitespaceBefore(s, 0, |a| - 1);
      var j := SkipWhitespace(s, i);
      assert s[|a|] == w[0];
      SkipWhitespaceBefore(s, i, |a|);
      assert s[j..] == a[j..] + w + b;
      WordIsToken(s[j..], a[j..], w, b);
      assert SplitWhitespace(s) == [s[..i]] + SplitWhitespace(s[j..]);
    }
  }

  /** A string with no whitespace is its own only token. */
  lemma SplitWithoutWhitespace(s: string)
    requires NoWhitespace(s)
    ensures SplitWhitespace(s) == [s]
  {
  }

  /** A string holding a space never occurs inside a whitespace-free token. */
  lemma SpacedNeverInToken(t: string, sub: string)
    requires NoWhitespace(t)
    requires exists k :: 0 <= k < |sub| && IsWhitespace(sub[k])
    ensures !Contains(t, sub)
  {
  }
}
