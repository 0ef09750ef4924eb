/** The JavaScript string operations the pages rely on: `trim`, `startsWith`, `endsWith`,
    `indexOf` of one character, `includes` and `toLowerCase`. */
module Text {

  /** The characters `String.prototype.trim` removes: the WhiteSpace and LineTerminator
      code points of ECMA-262. */
  predicate IsWhitespace(c: char) {
    || c == ' ' || c == '\t' || c == '\n' || c == '\r'
    || c == '\U{000B}' || c == '\U{000C}' || c == '\U{00A0}' || c == '\U{1680}'
    || ('\U{2000}' <= c <= '\U{200A}')
    || c == '\U{2028}' || c == '\U{2029}' || c == '\U{202F}' || c == '\U{205F}'
    || c == '\U{3000}' || c == '\U{FEFF}'
  }

  predicate AllWhitespace(s: string) {
    forall i :: 0 <= i < |s| ==> IsWhitespace(s[i])
  }

  /** Drops leading whitespace: what is dropped is whitespace, what is kept starts with
      something else. */
  function TrimStart(s: string): (r: string)
    ensures |r| <= |s|
  {
    if s != [] && IsWhitespace(s[0]) then TrimStart(s[1..]) else s
  }

  /** Drops trailing whitespace. */
  function TrimEnd(s: string): (r: string)
    ensures |r| <= |s|
  {
    if s != [] && IsWhitespace(s[|s| - 1]) then TrimEnd(s[..|s| - 1]) else s
  }

  /** `s.trim()`: both ends' whitespace dropped (`TrimSpec`). */
  function Trim(s: string): (r: string)
    ensures |r| <= |s|
  {
    TrimEnd(TrimStart(s))
  }

  /** `s.trim()` is empty exactly when `s` is all whitespace, and otherwise neither starts
      nor ends with whitespace. */
  lemma TrimSpec(s: string)
    ensures Trim(s) == [] <==> AllWhitespace(s)
    ensures Trim(s) != [] ==> !IsWhitespace(Trim(s)[0]) && !IsWhitespace(Trim(s)[|Trim(s)| - 1])
  {
    var t := TrimStart(s);
    TrimStartSpec(s);
    assert AllWhitespace(s) <==> t == [] by {
      if t == [] {
        assert s[..|s|] == s;
      } else {
        assert s[|s| - |t|] == t[0];
      }
    }
    var r := TrimEnd(t);
    TrimEndSpec(t);
    assert r == [] <==> t == [] || AllWhitespace(t) by {
      if r == [] { assert t[|r|..] == t; }
    }
  }

  /** What `TrimStart` drops is whitespace, and what it keeps is the rest of the string and
      starts with something else. */
  lemma {:induction false} TrimStartSpec(s: string)
    ensures var r := TrimStart(s);
      r == s[|s| - |r|..] && AllWhitespace(s[..|s| - |r|]) && (r == [] || !IsWhitespace(r[0]))
    decreases |s|
  {
    if s != [] && IsWhitespace(s[0]) {
      TrimStartSpec(s[1..]);
      var r := TrimStart(s);
      var k := |s| - |r|;
      forall i | 0 <= i < k ensures IsWhitespace(s[..k][i]) {
        if i > 0 { assert s[..k][i] == s[1..][..k - 1][i - 1]; }
      }
    } else {
      assert s[..0] == [];
    }
  }

  /** What `TrimEnd` drops is whitespace, and what it keeps is the start of the string and
      ends with something else. */
  lemma {:induction false} TrimEndSpec(s: string)
    ensures var r := TrimEnd(s);
      r == s[..|r|] && AllWhitespace(s[|r|..]) && (r == [] || !IsWhitespace(r[|r| - 1]))
    decreases |s|
  {
    if s != [] && IsWhitespace(s[|s| - 1]) {
      var s' := s[..|s| - 1];
      TrimEndSpec(s');
      var r := TrimEnd(s);
      assert r == s'[..|r|];
      forall i | 0 <= i < |s| - |r| ensures IsWhitespace(s[|r|..][i]) {
        if i < |s| - 1 - |r| { assert s[|r|..][i] == s'[|r|..][i]; }
      }
    } else {
      assert s[|s|..] == [];
    }
  }

  /** `s.startsWith(prefix)`. */
  predicate StartsWith(s: string, prefix: string) {
    |prefix| <= |s| && s[..|prefix|] == prefix
  }

  /** `s.endsWith(suffix)`. */
  predicate EndsWith(s: string, suffix: string) {
    |suffix| <= |s| && s[|s| - |suffix|..] == suffix
  }

  /** `s.indexOf(c)` for a one-character argument: the first position holding `c`, or -1
      (`IndexOfSpec`). */
  function IndexOf(s: string, c: char): (r: int)
    ensures -1 <= r < |s|
  {
    if s == [] then -1
    else if s[0] == c then 0
    else
      var k := IndexOf(s[1..], c);
      if k == -1 then -1 else k + 1
  }

  /** `IndexOf` gives -1 exactly when `c` does not occur, and otherwise a position holding
      `c` with no `c` before it. */
  lemma {:induction false} IndexOfSpec(s: string, c: char)
    ensures IndexOf(s, c) == -1 <==> c !in s
    ensures IndexOf(s, c) >= 0 ==> s[IndexOf(s, c)] == c && c !in s[..IndexOf(s, c)]
    decreases |s|
  {
    if s != [] && s[0] != c {
      IndexOfSpec(s[1..], c);
      var k := IndexOf(s[1..], c);
      assert s == [s[0]] + s[1..];
      assert k >= 0 ==> s[..k + 1] == [s[0]] + s[1..][..k];
    }
  }

  /** `s.includes(sub)`: `sub` occurs at some position of `s`. */
  predicate Includes(s: string, sub: string)
    decreases |s|
  {
    StartsWith(s, sub) || (s != [] && Includes(s[1..], sub))
  }

  /** `Includes` agrees with "there is a position where `sub` starts". */
  lemma {:induction false} IncludesAt(s: string, sub: string, i: nat)
    requires i + |sub| <= |s| && s[i..i + |sub|] == sub
    ensures Includes(s, sub)
    decreases i
  {
    if i > 0 {
      assert s[1..][i - 1..i - 1 + |sub|] == s[i..i + |sub|];
      IncludesAt(s[1..], sub, i - 1);
    }
  }

  /** When `Includes` holds, `sub` occurs at some position of `s`: with `IncludesAt`, this
      pins `Includes` to "there is a position where `sub` starts" in both directions. */
  lemma {:induction false} IncludesSomewhere(s: string, sub: string) returns (i: nat)
    requires Includes(s, sub)
    ensures i + |sub| <= |s| && s[i..i + |sub|] == sub
    decreases |s|
  {
    if StartsWith(s, sub) {
      i := 0;
    } else {
      var k := IncludesSomewhere(s[1..], sub);
      i := k + 1;
      assert s[i..i + |sub|] == s[1..][k..k + |sub|];
    }
  }

  function LowerChar(c: char): (r: char)
    ensures 'A' <= c <= 'Z' ==> 'a' <= r <= 'z'
    ensures !('A' <= c <= 'Z') ==> r == c
  {
    if 'A' <= c <= 'Z' then (c as int + 32) as char else c
  }

  /** `s.toLowerCase()`, for the ASCII letters. */
  function ToLower(s: string): (r: string)
    ensures |r| == |s|
    ensures forall i :: 0 <= i < |s| ==> r[i] == LowerChar(s[i])
  {
    seq(|s|, i requires 0 <= i < |s| => LowerChar(s[i]))
  }

  /** Lower-casing twice is lower-casing once: the result holds no upper-case ASCII letter. */
  lemma ToLowerIdempotent(s: string)
    ensures ToLower(ToLower(s)) == ToLower(s)
    ensures forall i :: 0 <= i < |s| ==> !('A' <= ToLower(s)[i] <= 'Z')
  {
    var t := ToLower(s);
    assert forall i :: 0 <= i < |t| ==> ToLower(t)[i] == t[i];
  }

  /** Neither starting nor ending with whitespace. */
  predicate Unpadded(s: string) {
    s == [] || (!IsWhitespace(s[0]) && !IsWhitespace(s[|s| - 1]))
  }

  /** A string that neither starts nor ends with whitespace is its own trim. */
  lemma TrimmedAlready(s: string)
    requires Unpadded(s)
    ensures Trim(s) == s
  {
  }

  /** Trimming twice is trimming once. */
  lemma TrimIdempotent(s: string)
    ensures Trim(Trim(s)) == Trim(s)
  {
    TrimSpec(s);
    if Trim(s) != [] {
      TrimmedAlready(Trim(s));
    }
  }

  /** Appending whitespace does not change what `trim` returns. */
  lemma {:induction false} TrimIgnoresTrailingWhitespace(s: string, w: char)
    requires IsWhitespace(w)
    ensures Trim(s + [w]) == Trim(s)
  {
    TrimStartAppend(s, w);
    var t := TrimStart(s);
    if AllWhitespace(s) {
      TrimSpec(s);
      assert TrimEnd(TrimStart(s + [w])) == [];
    } else {
      assert (t + [w])[..|t|] == t;
      assert TrimEnd(t + [w]) == TrimEnd(t);
    }
  }

  lemma {:induction false} TrimStartAppend(s: string, w: char)
    requires IsWhitespace(w)
    ensures AllWhitespace(s) ==> TrimStart(s + [w]) == []
    ensures !AllWhitespace(s) ==> TrimStart(s + [w]) == TrimStart(s) + [w]
  {
    if s == [] {
    } else if IsWhitespace(s[0]) {
      assert (s + [w])[1..] == s[1..] + [w];
      TrimStartAppend(s[1..], w);
      assert AllWhitespace(s) <==> AllWhitespace(s[1..]) by {
        if AllWhitespace(s[1..]) {
          forall i | 0 <= i < |s| ensures IsWhitespace(s[i]) {
            if i > 0 { assert s[i] == s[1..][i - 1]; }
          }
        }
      }
    }
  }
}
