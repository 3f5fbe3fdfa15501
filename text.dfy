/** String helpers standing for the JavaScript string and array built-ins the site uses:
    `Array.prototype.join`, splitting at a separator, `includes`, ASCII `toLowerCase` and
    `toUpperCase`, `trim`, `replace(/"/g, '""')` and `String(n)` on integers. */
module Text {

  /** `parts.join(sep)`: the parts with `sep` between consecutive parts. */
  function Join(parts: seq<string>, sep: string): string
  {
    if |parts| == 0 then ""
    else if |parts| == 1 then parts[0]
    else parts[0] + sep + Join(parts[1..], sep)
  }

  /** Splits `s` at every occurrence of `c`; the inverse of joining with `[c]`. */
  function Split(s: string, c: char): (r: seq<string>)
    ensures |r| >= 1
  {
    if |s| == 0 then [""]
    else
      var rest := Split(s[1..], c);
      if s[0] == c then [""] + rest else [[s[0]] + rest[0]] + rest[1..]
  }

  lemma {:induction false} SplitAppend(a: string, b: string, c: char)
    requires c !in a
    ensures Split(a + b, c) == [a + Split(b, c)[0]] + Split(b, c)[1..]
  {
    if |a| == 0 {
      assert a + b == b;
      assert a + Split(b, c)[0] == Split(b, c)[0];
      assert Split(b, c) == [Split(b, c)[0]] + Split(b, c)[1..];
    } else {
      assert (a + b)[1..] == a[1..] + b;
      SplitAppend(a[1..], b, c);
      assert [a[0]] + (a[1..] + Split(b, c)[0]) == a + Split(b, c)[0];
    }
  }

  /** Splitting a non-empty list of lines joined with `c` gives the lines back,
      provided no line contains `c` itself. */
  lemma {:induction false} SplitJoin(parts: seq<string>, c: char)
    requires |parts| >= 1
    requires forall i :: 0 <= i < |parts| ==> c !in parts[i]
    ensures Split(Join(parts, [c]), c) == parts
  {
    if |parts| == 1 {
      SplitAppend(parts[0], "", c);
      assert parts[0] + "" == parts[0];
    } else {
      var tail := Join(parts[1..], [c]);
      assert Join(parts, [c]) == parts[0] + ([c] + tail);
      SplitAppend(parts[0], [c] + tail, c);
      assert ([c] + tail)[1..] == tail;
      SplitJoin(parts[1..], c);
      assert parts[0] + "" == parts[0];
      assert parts == [parts[0]] + parts[1..];
    }
  }

  /** `s.startsWith(pat)`. */
  predicate StartsWith(s: string, pat: string)
  {
    |pat| <= |s| && s[..|pat|] == pat
  }

  /** `s.includes(pat)`, scanning from the left. */
  predicate Contains(s: string, pat: string)
    decreases |s|
  {
    StartsWith(s, pat) || (|s| > 0 && Contains(s[1..], pat))
  }

  /** `pat` occurs in `s` starting at index `i`. */
  predicate OccursAt(s: string, pat: string, i: int)
  {
    0 <= i && i + |pat| <= |s| && s[i..i + |pat|] == pat
  }

  /** An occurrence at any index is found by the scan. */
  lemma {:induction false} OccursAtContains(s: string, pat: string, i: int)
    requires OccursAt(s, pat, i)
    ensures Contains(s, pat)
    decreases i
  {
    if i == 0 {
      assert StartsWith(s, pat);
    } else {
      assert s[1..][i - 1..i - 1 + |pat|] == s[i..i + |pat|];
      OccursAtContains(s[1..], pat, i - 1);
    }
  }

  /** The scanning definition agrees with "some window of `s` equals `pat`". */
  lemma {:induction false} ContainsIff(s: string, pat: string)
    ensures Contains(s, pat) <==> exists i :: OccursAt(s, pat, i)
    decreases |s|
  {
    if exists i :: OccursAt(s, pat, i) {
      var i :| OccursAt(s, pat, i);
      OccursAtContains(s, pat, i);
    }
    if StartsWith(s, pat) {
      assert OccursAt(s, pat, 0);
    } else if |s| > 0 && Contains(s[1..], pat) {
      ContainsIff(s[1..], pat);
      var i :| OccursAt(s[1..], pat, i);
      assert s[i + 1..i + 1 + |pat|] == s[1..][i..i + |pat|];
      assert OccursAt(s, pat, i + 1);
    }
  }

  lemma OccursAtShift(pre: string, s: string, pat: string, i: int)
    requires OccursAt(s, pat, i)
    ensures OccursAt(pre + s, pat, |pre| + i)
  {
    assert (pre + s)[|pre| + i..|pre| + i + |pat|] == s[i..i + |pat|];
  }

  /** Whatever lies between a prefix and a suffix is found by `includes`. */
  lemma ContainsMiddle(a: string, pat: string, b: string)
    ensures Contains(a + pat + b, pat)
  {
    var s := a + pat + b;
    assert s[|a|..|a| + |pat|] == pat;
    assert OccursAt(s, pat, |a|);
    ContainsIff(s, pat);
  }

  /** What occurs in `s` occurs in any text that has `s` inside it. */
  lemma ContainsWithin(a: string, s: string, b: string, pat: string)
    requires Contains(s, pat)
    ensures Contains(a + s + b, pat)
  {
    ContainsIff(s, pat);
    var i :| OccursAt(s, pat, i);
    OccursAtShift(a, s, pat, i);
    assert (a + s + b)[|a| + i..|a| + i + |pat|] == (a + s)[|a| + i..|a| + i + |pat|];
    OccursAtContains(a + s + b, pat, |a| + i);
  }

  /** What occurs in a piece of `a` occurs in `a`. */
  lemma ContainsTrans(a: string, b: string, c: string)
    requires Contains(a, b) && Contains(b, c)
    ensures Contains(a, c)
  {
    ContainsIff(a, b);
    var i :| OccursAt(a, b, i);
    ContainsIff(b, c);
    var j :| OccursAt(b, c, j);
    forall k | 0 <= k < |c| ensures a[i + j + k] == c[k] {
      assert c[k] == b[j + k];
      assert b[j + k] == a[i..i + |b|][j + k];
    }
    assert a[i + j..i + j + |c|] == c;
    OccursAtContains(a, c, i + j);
  }

  /** `includes` fails when no position holding the first character of `pat` starts it. */
  lemma {:induction false} Absent(s: string, pat: string)
    requires |pat| > 0
    requires forall i :: 0 <= i < |s| && s[i] == pat[0] ==> !StartsWith(s[i..], pat)
    ensures !Contains(s, pat)
    decreases |s|
  {
    if |s| > 0 {
      assert s[0..] == s;
      forall i | 0 <= i < |s| - 1 && s[1..][i] == pat[0] ensures !StartsWith(s[1..][i..], pat) {
        assert s[1..][i..] == s[i + 1..];
      }
      Absent(s[1..], pat);
    }
  }

  /** Each of the parts joined by a separator occurs in the joined text. */
  lemma {:induction false} ContainsJoined(parts: seq<string>, sep: string, k: nat)
    requires k < |parts|
    ensures Contains(Join(parts, sep), parts[k])
  {
    if |parts| == 1 {
      ContainsMiddle("", parts[0], "");
      assert "" + parts[0] + "" == parts[0];
    } else if k == 0 {
      ContainsMiddle("", parts[0], sep + Join(parts[1..], sep));
      assert "" + parts[0] + (sep + Join(parts[1..], sep)) == Join(parts, sep);
    } else {
      var t := Join(parts[1..], sep);
      ContainsJoined(parts[1..], sep, k - 1);
      assert parts[1..][k - 1] == parts[k];
      ContainsIff(t, parts[k]);
      var i :| OccursAt(t, parts[k], i);
      var pre := parts[0] + sep;
      assert Join(parts, sep) == pre + t;
      OccursAtShift(pre, t, parts[k], i);
      ContainsIff(Join(parts, sep), parts[k]);
    }
  }

  predicate IsUpper(c: char) { 'A' <= c <= 'Z' }
  predicate IsLower(c: char) { 'a' <= c <= 'z' }

  function UpperChar(c: char): char
  {
    if IsLower(c) then (c as int - 32) as char else c
  }

  function LowerChar(c: char): char
  {
    if IsUpper(c) then (c as int + 32) as char else c
  }

  /** `s.toLowerCase()` on ASCII text. */
  function ToLower(s: string): (r: string)
    ensures |r| == |s|
    ensures forall i :: 0 <= i < |s| ==> r[i] == LowerChar(s[i])
  {
    if |s| == 0 then "" else [LowerChar(s[0])] + ToLower(s[1..])
  }

  /** Lower-casing leaves no upper-case letter and is idempotent. */
  lemma ToLowerIdempotent(s: string)
    ensures forall i :: 0 <= i < |s| ==> !IsUpper(ToLower(s)[i])
    ensures ToLower(ToLower(s)) == ToLower(s)
  {
  }

  /** The characters `String.prototype.trim` removes, restricted to ASCII. */
  predicate IsSpace(c: char)
  {
    c == ' ' || c == '\t' || c == '\n' || c == '\r' || c == '\U{000B}' || c == '\U{000C}'
  }

  function TrimStart(s: string): string
  {
    if |s| > 0 && IsSpace(s[0]) then TrimStart(s[1..]) else s
  }

  function TrimEnd(s: string): string
  {
    if |s| > 0 && IsSpace(s[|s| - 1]) then TrimEnd(s[..|s| - 1]) else s
  }

  /** `s.trim()`. */
  function Trim(s: string): string
  {
    TrimEnd(TrimStart(s))
  }

  predicate IsBlank(s: string)
  {
    forall i :: 0 <= i < |s| ==> IsSpace(s[i])
  }

  lemma {:induction false} TrimStartBlank(s: string)
    ensures TrimStart(s) == "" <==> IsBlank(s)
  {
    if |s| > 0 && IsSpace(s[0]) {
      TrimStartBlank(s[1..]);
      assert IsBlank(s) <==> IsBlank(s[1..]) by {
        if IsBlank(s[1..]) {
          forall i | 0 <= i < |s| ensures IsSpace(s[i]) {
            if i > 0 { assert s[i] == s[1..][i - 1]; }
          }
        }
      }
    }
  }

  lemma {:induction false} TrimEndEmpty(s: string)
    ensures TrimEnd(s) == "" <==> IsBlank(s)
  {
    if |s| > 0 && IsSpace(s[|s| - 1]) {
      TrimEndEmpty(s[..|s| - 1]);
      assert IsBlank(s) <==> IsBlank(s[..|s| - 1]) by {
        if IsBlank(s[..|s| - 1]) {
          forall i | 0 <= i < |s| ensures IsSpace(s[i]) {
            if i < |s| - 1 { assert s[i] == s[..|s| - 1][i]; }
          }
        }
      }
    }
  }

  /** `!s.trim()` holds exactly for the text made only of white space. */
  lemma TrimEmptyIffBlank(s: string)
    ensures Trim(s) == "" <==> IsBlank(s)
  {
    TrimStartBlank(s);
    TrimEndEmpty(TrimStart(s));
    if TrimStart(s) != "" {
      TrimStartKeepsSuffix(s);
    }
  }

  lemma {:induction false} TrimStartKeepsSuffix(s: string)
    requires TrimStart(s) != ""
    ensures !IsBlank(TrimStart(s)) || !IsBlank(s)
    ensures IsBlank(TrimStart(s)) ==> IsBlank(s)
  {
    if |s| > 0 && IsSpace(s[0]) {
      TrimStartKeepsSuffix(s[1..]);
      if IsBlank(s[1..]) {
        forall i | 0 <= i < |s| ensures IsSpace(s[i]) {
          if i > 0 { assert s[i] == s[1..][i - 1]; }
        }
      }
    }
  }

  /** `text.replace(/"/g, '""')`: every double quote doubled, as RFC 4180 (section 2, rule 7)
      asks of a quoted field. */
  function DoubleQuotes(s: string): string
  {
    if |s| == 0 then ""
    else (if s[0] == '"' then "\"\"" else [s[0]]) + DoubleQuotes(s[1..])
  }

  /** Text without a double quote is left as it is. */
  lemma {:induction false} DoubleQuotesPlain(s: string)
    requires '"' !in s
    ensures DoubleQuotes(s) == s
  {
    if |s| > 0 {
      assert s[0] != '"' && '"' !in s[1..];
      DoubleQuotesPlain(s[1..]);
      assert s == [s[0]] + s[1..];
    }
  }

  function DigitChar(d: int): char
    requires 0 <= d < 10
  {
    ('0' as int + d) as char
  }

  function NatToString(n: nat): string
    decreases n
  {
    if n < 10 then [DigitChar(n)] else NatToString(n / 10) + [DigitChar(n % 10)]
  }

  /** `String(n)` for an integer. */
  function IntToString(n: int): string
  {
    if n < 0 then "-" + NatToString(-n) else NatToString(n)
  }
}
