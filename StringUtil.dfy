/** The handful of Python `str` operations the AI service relies on, on ASCII text:
    `lower`, `strip`, `split()` with no argument, `" ".join`, `replace`, `isdigit`
    and the substring test `needle in haystack`. */
module StringUtil {

  /** Python's `str.isspace` on the ASCII range: tab, line feed, vertical tab,
      form feed, carriage return, the four separators 0x1C-0x1F and space. */
  predicate IsSpace(c: char) {
    ('\t' <= c <= '\r') || ('\U{1C}' <= c <= '\U{1F}') || c == ' '
  }

  predicate NoSpace(s: string) {
    forall i :: 0 <= i < |s| ==> !IsSpace(s[i])
  }

  /** A token as `split()` produces it: non-empty and free of white space. */
  predicate IsToken(s: string) {
    s != [] && NoSpace(s)
  }

  predicate AllTokens(ts: seq<string>) {
    forall k :: 0 <= k < |ts| ==> IsToken(ts[k])
  }

  function LowerChar(c: char): char {
    if 'A' <= c <= 'Z' then (c as int + 32) as char else c
  }

  /** `s.lower()`, ASCII letters only. */
  function Lower(s: string): (r: string)
    ensures |r| == |s|
    ensures forall i :: 0 <= i < |s| ==> r[i] == LowerChar(s[i])
  {
    if s == [] then [] else [LowerChar(s[0])] + Lower(s[1..])
  }

  predicate IsPrefix(p: string, s: string) {
    |p| <= |s| && s[..|p|] == p
  }

  /** Python's `needle in haystack`. */
  predicate Contains(haystack: string, needle: string)
    decreases |haystack|
  {
    IsPrefix(needle, haystack) || (haystack != [] && Contains(haystack[1..], needle))
  }

  /** The needle sits in the haystack at offset `i`. */
  predicate OccursAt(haystack: string, needle: string, i: int) {
    0 <= i <= |haystack| - |needle| && haystack[i..i + |needle|] == needle
  }

  /** `Contains` is exactly "some slice of the haystack equals the needle". */
  lemma {:induction false} ContainsIff(haystack: string, needle: string)
    ensures Contains(haystack, needle) <==> exists i :: OccursAt(haystack, needle, i)
  {
    if IsPrefix(needle, haystack) {
      assert OccursAt(haystack, needle, 0);
    } else if haystack == [] {
    } else {
      ContainsIff(haystack[1..], needle);
      var tail := haystack[1..];
      if exists i :: OccursAt(haystack, needle, i) {
        var i :| OccursAt(haystack, needle, i);
        assert i != 0;
        assert OccursAt(tail, needle, i - 1);
      }
      if Contains(tail, needle) {
        var i :| OccursAt(tail, needle, i);
        assert OccursAt(haystack, needle, i + 1);
      }
    }
  }

  /** The empty string is in every string. */
  lemma EmptyInEverything(haystack: string)
    ensures Contains(haystack, [])
  {
  }

  /** Every string is in itself. */
  lemma ContainsSelf(s: string)
    ensures Contains(s, s)
  {
    assert IsPrefix(s, s);
  }

  /** Leading white space removed (`lstrip`). */
  function TrimLeft(s: string): (r: string)
    ensures |r| <= |s| && r == s[|s| - |r|..]
    ensures r != [] ==> !IsSpace(r[0])
    ensures forall i :: 0 <= i < |s| - |r| ==> IsSpace(s[i])
  {
    if s != [] && IsSpace(s[0]) then TrimLeft(s[1..]) else s
  }

  /** Trailing white space removed (`rstrip`). */
  function TrimRight(s: string): (r: string)
    ensures |r| <= |s| && r == s[..|r|]
    ensures r != [] ==> !IsSpace(r[|r| - 1])
    ensures forall i :: |r| <= i < |s| ==> IsSpace(s[i])
  {
    if s != [] && IsSpace(s[|s| - 1]) then TrimRight(s[..|s| - 1]) else s
  }

  /** `r` is `s` with `a` characters of white space cut from the front and
      white space only cut from the back. */
  predicate StrippedAt(s: string, r: string, a: int) {
    0 <= a && a + |r| <= |s| && r == s[a..a + |r|] &&
    (forall i :: 0 <= i < a ==> IsSpace(s[i])) &&
    (forall i :: a + |r| <= i < |s| ==> IsSpace(s[i]))
  }

  /** `s.strip()`: the result is a slice of `s`, everything cut away is white space,
      and the result neither starts nor ends with white space. */
  function Strip(s: string): (r: string)
    ensures exists a :: StrippedAt(s, r, a)
    ensures r != [] ==> !IsSpace(r[0]) && !IsSpace(r[|r| - 1])
  {
    var t := TrimLeft(s);
    var r := TrimRight(t);
    TrimmedBoth(s, t, r);
    r
  }

  lemma TrimmedBoth(s: string, t: string, r: string)
    requires |t| <= |s| && t == s[|s| - |t|..]
    requires forall i :: 0 <= i < |s| - |t| ==> IsSpace(s[i])
    requires |r| <= |t| && r == t[..|r|]
    requires forall i :: |r| <= i < |t| ==> IsSpace(t[i])
    ensures StrippedAt(s, r, |s| - |t|)
  {
    var a := |s| - |t|;
    assert r == s[a..a + |r|];
    forall i | a + |r| <= i < |s| ensures IsSpace(s[i]) {
      assert s[i] == t[i - a];
    }
  }

  /** Strip leaves alone a string that neither starts nor ends with white space. */
  lemma StripNoop(s: string)
    requires s != [] ==> !IsSpace(s[0]) && !IsSpace(s[|s| - 1])
    ensures Strip(s) == s
  {
  }

  /** The longest prefix of `s` without white space. */
  function Word(s: string): (r: string)
    ensures IsPrefix(r, s) && NoSpace(r)
    ensures |r| < |s| ==> IsSpace(s[|r|])
    ensures s != [] && !IsSpace(s[0]) ==> r != []
  {
    if s == [] || IsSpace(s[0]) then [] else [s[0]] + Word(s[1..])
  }

  /** `s.split()` with no separator: the maximal runs of non-white-space characters. */
  function Split(s: string): (r: seq<string>)
    ensures AllTokens(r)
    decreases |s|
  {
    var t := TrimLeft(s);
    if t == [] then []
    else
      var w := Word(t);
      assert w != [] && |t[|w|..]| < |s|;
      var rest := Split(t[|w|..]);
      assert IsToken(w);
      AllTokensCons(w, rest);
      [w] + rest
  }

  lemma AllTokensCons(t: string, ts: seq<string>)
    requires IsToken(t) && AllTokens(ts)
    ensures AllTokens([t] + ts)
  {
    forall k | 0 <= k < |[t] + ts| ensures IsToken(([t] + ts)[k]) {
      if k > 0 {
        assert ([t] + ts)[k] == ts[k - 1];
      }
    }
  }

  /** `sep.join(parts)`. */
  function Join(sep: string, parts: seq<string>): string {
    if parts == [] then []
    else if |parts| == 1 then parts[0]
    else parts[0] + sep + Join(sep, parts[1..])
  }

  /** Tokens joined by single spaces give a string that starts and ends with a token
      character, and that is empty only when there were no tokens. */
  lemma {:induction false} JoinTokensEnds(ts: seq<string>)
    requires AllTokens(ts)
    ensures Join(" ", ts) == [] <==> ts == []
    ensures ts != [] ==> Join(" ", ts)[0] == ts[0][0]
    ensures ts != [] ==> Join(" ", ts)[|Join(" ", ts)| - 1] == ts[|ts| - 1][|ts[|ts| - 1]| - 1]
  {
    if |ts| > 1 {
      JoinTokensEnds(ts[1..]);
      var rest := Join(" ", ts[1..]);
      assert Join(" ", ts) == ts[0] + " " + rest;
    }
  }

  lemma WordOfToken(t: string, rest: string)
    requires NoSpace(t)
    requires rest != [] ==> IsSpace(rest[0])
    ensures Word(t + rest) == t
    decreases |t|
  {
    if t == [] {
    } else {
      assert (t + rest)[1..] == t[1..] + rest;
      WordOfToken(t[1..], rest);
    }
  }

  /** A leading space does not change the split. */
  lemma SplitLeadingSpace(s: string)
    ensures Split(" " + s) == Split(s)
  {
    var t := " " + s;
    assert t[0] == ' ' && t[1..] == s;
    assert TrimLeft(t) == TrimLeft(s);
  }

  /** A token followed by white space (or nothing) splits off as the first token. */
  lemma SplitCons(t: string, rest: string)
    requires IsToken(t)
    requires rest != [] ==> IsSpace(rest[0])
    ensures Split(t + rest) == [t] + Split(rest)
  {
    var j := t + rest;
    assert TrimLeft(j) == j;
    WordOfToken(t, rest);
    assert j[|t|..] == rest;
    if rest != [] {
      assert TrimLeft(rest) == TrimLeft(rest[1..]);
    }
  }

  /** Splitting what was joined by single spaces gives back the tokens. */
  lemma {:induction false} SplitJoin(ts: seq<string>)
    requires AllTokens(ts)
    ensures Split(Join(" ", ts)) == ts
  {
    if ts == [] {
    } else if |ts| == 1 {
      SplitCons(ts[0], []);
      assert ts[0] + [] == ts[0];
    } else {
      var tail := ts[1..];
      assert ts == [ts[0]] + tail;
      assert AllTokens(tail) by {
        forall k | 0 <= k < |tail| ensures IsToken(tail[k]) {
          assert tail[k] == ts[k + 1];
        }
      }
      var rest := Join(" ", tail);
      assert Join(" ", ts) == ts[0] + (" " + rest);
      assert IsToken(ts[0]);
      SplitCons(ts[0], " " + rest);
      SplitLeadingSpace(rest);
      SplitJoin(tail);
      calc {
        Split(Join(" ", ts));
        Split(ts[0] + (" " + rest));
        [ts[0]] + Split(" " + rest);
        [ts[0]] + Split(rest);
        [ts[0]] + tail;
      }
    }
  }

  /** `s.replace(pat, rep)`: every non-overlapping occurrence of `pat`, scanning from
      the left, becomes `rep`; an empty `pat` inserts `rep` around every character. */
  function Replace(s: string, pat: string, rep: string): string
    decreases |s|
  {
    if pat == [] then
      (if s == [] then rep else rep + [s[0]] + Replace(s[1..], pat, rep))
    else if IsPrefix(pat, s) then rep + Replace(s[|pat|..], pat, rep)
    else if s == [] then []
    else [s[0]] + Replace(s[1..], pat, rep)
  }

  /** Replacing a non-empty pattern that does not occur changes nothing. */
  lemma {:induction false} ReplaceAbsent(s: string, pat: string, rep: string)
    requires pat != [] && !Contains(s, pat)
    ensures Replace(s, pat, rep) == s
  {
    if s != [] {
      ReplaceAbsent(s[1..], pat, rep);
    }
  }

  /** A character the string does not hold is not in it as a one-character needle. */
  lemma {:induction false} AbsentChar(s: string, c: char)
    requires forall i :: 0 <= i < |s| ==> s[i] != c
    ensures !Contains(s, [c])
  {
    if s != [] {
      assert !IsPrefix([c], s) by { assert s[..1][0] == s[0]; }
      AbsentChar(s[1..], c);
    }
  }

  /** Deleting a pattern never deletes a character the pattern does not hold. */
  lemma {:induction false} ReplaceKeeps(s: string, pat: string, c: char)
    requires pat != [] && c in s && c !in pat
    ensures c in Replace(s, pat, "")
    decreases |s|
  {
    if IsPrefix(pat, s) {
      var i :| 0 <= i < |s| && s[i] == c;
      if i < |pat| {
        assert false;
      }
      assert s[|pat|..][i - |pat|] == c;
      ReplaceKeeps(s[|pat|..], pat, c);
      assert Replace(s, pat, "") == "" + Replace(s[|pat|..], pat, "");
    } else if s[0] != c {
      var i :| 0 <= i < |s| && s[i] == c;
      assert s[1..][i - 1] == c;
      ReplaceKeeps(s[1..], pat, c);
    }
  }

  /** Lower-casing leaves text without capitals as it is. */
  lemma LowerNoUpper(s: string)
    requires forall i :: 0 <= i < |s| ==> !('A' <= s[i] <= 'Z')
    ensures Lower(s) == s
  {
  }

  /** Python's `str.isdigit` on ASCII: non-empty and only decimal digits. */
  predicate IsDigits(s: string) {
    s != [] && forall i :: 0 <= i < |s| ==> '0' <= s[i] <= '9'
  }

  /** The decimal digits of a natural number, most significant first, no leading zeros. */
  function NatToString(n: nat): (r: string)
    ensures IsDigits(r)
    ensures |r| > 1 ==> r[0] != '0'
  {
    if n < 10 then ['0' + n as char]
    else NatToString(n / 10) + ['0' + (n % 10) as char]
  }

  /** JavaScript's `String(n)` for an integer. */
  function IntToString(n: int): string {
    if n < 0 then "-" + NatToString(-n) else NatToString(n)
  }

  /** Values of the decimal digits read back, most significant first. */
  function DigitsValue(s: string): int
    requires IsDigits(s) || s == []
  {
    if s == [] then 0 else DigitsValue(s[..|s| - 1]) * 10 + (s[|s| - 1] as int - '0' as int)
  }

  /** Reading back the digits gives the number. */
  lemma {:induction false} NatToStringValue(n: nat)
    ensures DigitsValue(NatToString(n)) == n
  {
    if n >= 10 {
      NatToStringValue(n / 10);
      var r := NatToString(n);
      assert r[..|r| - 1] == NatToString(n / 10);
    }
  }
}
