/** The parts of JavaScript's value semantics that the card pipeline relies on:
    optional properties, truthiness under `||`, the "undefined" that string
    concatenation produces for a missing value, and the builtins
    `String.prototype.split`, `String.prototype.trim` and `Array.prototype.join`. */
module JsText {

  datatype Option<+T> = None | Some(value: T)

  /** A string property read under `||`: an absent value and "" are both falsy. */
  predicate Truthy(s: Option<string>) {
    s.Some? && s.value != ""
  }

  /** A number property read under `||`: an absent value and 0 are both falsy. */
  predicate TruthyNumber(n: Option<int>) {
    n.Some? && n.value != 0
  }

  /** `"..." + x` where `x` may be undefined. */
  function Show(s: Option<string>): string {
    if s.Some? then s.value else "undefined"
  }

  // ---------------------------------------------------------------------------
  // Fallback chains `a || b || ... || last`
  // ---------------------------------------------------------------------------

  /** Position of the first truthy candidate, or |cs| when none is truthy. */
  function FirstTruthyIndex(cs: seq<Option<string>>): (k: nat)
    ensures k <= |cs|
    ensures k < |cs| ==> Truthy(cs[k])
    ensures forall j :: 0 <= j < k ==> !Truthy(cs[j])
  {
    if |cs| == 0 || Truthy(cs[0]) then 0
    else
      var k' := FirstTruthyIndex(cs[1..]);
      assert forall j :: 1 <= j <= k' ==> cs[j] == cs[1..][j - 1];
      1 + k'
  }

  /** `cs[0] || cs[1] || ... || last`: the first truthy candidate, else `last`.
      Only the final literal can make the result empty. */
  function FirstTruthy(cs: seq<Option<string>>, last: string): (r: string)
    ensures r != "" || r == last
  {
    var k := FirstTruthyIndex(cs);
    if k < |cs| then cs[k].value else last
  }

  // ---------------------------------------------------------------------------
  // Array.prototype.join and String.prototype.split
  // ---------------------------------------------------------------------------

  /** `parts.join(sep)`. */
  function JoinWith(parts: seq<string>, sep: string): string {
    if |parts| == 0 then ""
    else if |parts| == 1 then parts[0]
    else parts[0] + sep + JoinWith(parts[1..], sep)
  }

  /** Number of occurrences of `c` in `s`. */
  function Occurrences(s: string, c: char): nat {
    if s == [] then 0 else (if s[0] == c then 1 else 0) + Occurrences(s[1..], c)
  }

  /** `s.split(sep)` for a one-character separator: one part per separator plus
      one, none of them containing the separator. */
  function SplitOn(s: string, sep: char): (parts: seq<string>)
    ensures |parts| == Occurrences(s, sep) + 1
    ensures forall i :: 0 <= i < |parts| ==> sep !in parts[i]
  {
    if s == [] then [""]
    else
      var rest := SplitOn(s[1..], sep);
      if s[0] == sep then [""] + rest
      else
        assert forall i :: 1 <= i < |rest| ==> rest[i] == rest[1..][i - 1];
        [[s[0]] + rest[0]] + rest[1..]
  }

  /** Joining the parts of a split with the separator gives the string back. */
  lemma {:induction false} SplitJoin(s: string, sep: char)
    ensures JoinWith(SplitOn(s, sep), [sep]) == s
  {
    if s != [] {
      SplitJoin(s[1..], sep);
      var rest := SplitOn(s[1..], sep);
      if s[0] == sep {
        assert SplitOn(s, sep) == [""] + rest;
        assert ([""] + rest)[1..] == rest;
        assert s == [sep] + s[1..];
      } else {
        var parts := SplitOn(s, sep);
        assert parts[0] == [s[0]] + rest[0];
        assert parts[1..] == rest[1..];
        if |rest| == 1 {
          assert s == [s[0]] + s[1..];
        } else {
          assert JoinWith(rest, [sep]) == rest[0] + [sep] + JoinWith(rest[1..], [sep]);
          assert s == [s[0]] + s[1..];
        }
      }
    }
  }

  /** Splitting a string whose first part `a` holds no separator yields `a`
      glued to the first part of the rest. */
  lemma {:induction false} SplitPrefix(a: string, b: string, sep: char)
    requires sep !in a
    ensures SplitOn(a + b, sep) == [a + SplitOn(b, sep)[0]] + SplitOn(b, sep)[1..]
  {
    if a == [] {
      var parts := SplitOn(b, sep);
      assert a + b == b;
      assert a + parts[0] == parts[0];
      assert parts == [parts[0]] + parts[1..];
    } else {
      assert (a + b)[0] == a[0];
      assert (a + b)[1..] == a[1..] + b;
      SplitPrefix(a[1..], b, sep);
      assert [a[0]] + (a[1..] + SplitOn(b, sep)[0]) == a + SplitOn(b, sep)[0];
    }
  }

  /** Splitting a join of separator-free parts gives the parts back. */
  lemma {:induction false} JoinSplit(parts: seq<string>, sep: char)
    requires |parts| >= 1
    requires forall i :: 0 <= i < |parts| ==> sep !in parts[i]
    ensures SplitOn(JoinWith(parts, [sep]), sep) == parts
  {
    if |parts| == 1 {
      SplitPrefix(parts[0], [], sep);
      assert parts[0] + [] == parts[0];
    } else {
      var tail := JoinWith(parts[1..], [sep]);
      JoinSplit(parts[1..], sep);
      assert JoinWith(parts, [sep]) == parts[0] + ([sep] + tail);
      SplitPrefix(parts[0], [sep] + tail, sep);
      assert ([sep] + tail)[1..] == tail;
      assert SplitOn([sep] + tail, sep) == [""] + parts[1..];
      assert parts[0] + "" == parts[0];
      assert ([""] + parts[1..])[1..] == parts[1..];
      assert parts == [parts[0]] + parts[1..];
    }
  }

  /** The first part of a split is the longest prefix free of the separator. */
  lemma {:induction false} SplitFirstPart(s: string, sep: char)
    ensures SplitOn(s, sep)[0] <= s
    ensures |SplitOn(s, sep)[0]| < |s| ==> s[|SplitOn(s, sep)[0]|] == sep
  {
    if s != [] && s[0] != sep {
      SplitFirstPart(s[1..], sep);
    }
  }

  // ---------------------------------------------------------------------------
  // String.prototype.trim
  // ---------------------------------------------------------------------------

  /** ECMAScript WhiteSpace and LineTerminator code points, which `trim` strips. */
  predicate IsWhitespace(c: char) {
    c == '\t' || c == '\n' || c == '\U{000B}' || c == '\U{000C}' || c == '\r'
    || c == ' ' || c == '\U{00A0}' || c == '\U{1680}'
    || ('\U{2000}' <= c <= '\U{200A}')
    || c == '\U{2028}' || c == '\U{2029}' || c == '\U{202F}' || c == '\U{205F}'
    || c == '\U{3000}' || c == '\U{FEFF}'
  }

  predicate AllWhitespace(s: string) {
    forall i :: 0 <= i < |s| ==> IsWhitespace(s[i])
  }

  /** Length of the whitespace run at the start of `s`. */
  function LeadingWhitespace(s: string): (k: nat)
    ensures k <= |s|
    ensures forall i :: 0 <= i < k ==> IsWhitespace(s[i])
    ensures k < |s| ==> !IsWhitespace(s[k])
  {
    if s == [] || !IsWhitespace(s[0]) then 0
    else
      var k' := LeadingWhitespace(s[1..]);
      assert forall i :: 1 <= i <= k' ==> s[i] == s[1..][i - 1];
      1 + k'
  }

  /** Length of the whitespace run at the end of `s`. */
  function TrailingWhitespace(s: string): (k: nat)
    ensures k <= |s|
    ensures forall i :: |s| - k <= i < |s| ==> IsWhitespace(s[i])
    ensures k < |s| ==> !IsWhitespace(s[|s| - 1 - k])
  {
    if s == [] || !IsWhitespace(s[|s| - 1]) then 0
    else
      var k' := TrailingWhitespace(s[..|s| - 1]);
      assert forall i :: 0 <= i < |s| - 1 ==> s[i] == s[..|s| - 1][i];
      1 + k'
  }

  /** `s.trim()`: empty exactly when `s` is all whitespace, otherwise starting
      and ending with a non-whitespace character. */
  function Trim(s: string): (r: string)
    ensures |r| <= |s|
    ensures r == "" <==> AllWhitespace(s)
    ensures r != "" ==> !IsWhitespace(r[0]) && !IsWhitespace(r[|r| - 1])
  {
    var a := LeadingWhitespace(s);
    if a == |s| then ""
    else
      var b := |s| - TrailingWhitespace(s);
      assert a < b;
      s[a..b]
  }

  lemma {:induction false} LeadingAfterWhitespace(w: string, t: string)
    requires AllWhitespace(w)
    ensures LeadingWhitespace(w + t) == |w| + LeadingWhitespace(t)
  {
    if w != [] {
      assert (w + t)[1..] == w[1..] + t;
      LeadingAfterWhitespace(w[1..], t);
    } else {
      assert w + t == t;
    }
  }

  lemma {:induction false} TrailingBeforeWhitespace(t: string, w: string)
    requires AllWhitespace(w)
    ensures TrailingWhitespace(t + w) == TrailingWhitespace(t) + |w|
  {
    if w != [] {
      var n := |w| - 1;
      assert (t + w)[..|t + w| - 1] == t + w[..n];
      assert (t + w)[|t + w| - 1] == w[n];
      TrailingBeforeWhitespace(t, w[..n]);
    } else {
      assert t + w == t;
    }
  }

  /** Trim removes exactly the whitespace around a core that neither starts
      nor ends with whitespace. */
  lemma TrimExact(pre: string, core: string, post: string)
    requires AllWhitespace(pre) && AllWhitespace(post)
    requires core == "" || (!IsWhitespace(core[0]) && !IsWhitespace(core[|core| - 1]))
    ensures Trim(pre + core + post) == core
  {
    var s := pre + core + post;
    if core == "" {
      assert s == pre + post;
      assert AllWhitespace(s);
    } else {
      assert s == pre + (core + post);
      LeadingAfterWhitespace(pre, core + post);
      assert LeadingWhitespace(core + post) == 0;
      TrailingBeforeWhitespace(pre + core, post);
      assert TrailingWhitespace(pre + core) == 0;
      assert s[|pre|..|s| - |post|] == core;
    }
  }

  /** Trimming twice is trimming once. */
  lemma TrimIdempotent(s: string)
    ensures Trim(Trim(s)) == Trim(s)
  {
    var r := Trim(s);
    TrimExact("", r, "");
    assert "" + r + "" == r;
  }
}
