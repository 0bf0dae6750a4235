/**
 * The JavaScript string operations the backend relies on: `trim`, `toLowerCase`,
 * `includes`, `split`, `join`, `replace` of `\r\n`, and decimal rendering of integers.
 */
module Text {
  import opened Wrappers
  import opened Seqs

  /** White space as `String.prototype.trim` and the regular-expression class `\s` define it. */
  predicate IsSpace(c: char) {
    c == ' ' || c == '\t' || c == '\n' || c == '\r' || c == '\U{B}' || c == '\U{C}'
    || c == '\U{A0}' || c == '\U{1680}' || ('\U{2000}' <= c && c <= '\U{200A}')
    || c == '\U{2028}' || c == '\U{2029}' || c == '\U{202F}' || c == '\U{205F}'
    || c == '\U{3000}' || c == '\U{FEFF}'
  }

  predicate IsLower(c: char) { 'a' <= c <= 'z' }

  predicate IsUpper(c: char) { 'A' <= c <= 'Z' }

  predicate IsDigit(c: char) { '0' <= c <= '9' }

  /** `s.trimStart()`: drops the leading white space and nothing else. */
  function TrimStart(s: string): (r: string)
    ensures |r| <= |s| && r == s[|s| - |r|..]
    ensures forall i | 0 <= i < |s| - |r| :: IsSpace(s[i])
    ensures |r| == 0 || !IsSpace(r[0])
  {
    if |s| > 0 && IsSpace(s[0]) then TrimStart(s[1..]) else s
  }

  /** `s.trimEnd()`: drops the trailing white space and nothing else. */
  function TrimEnd(s: string): (r: string)
    ensures |r| <= |s| && r == s[..|r|]
    ensures forall i | |r| <= i < |s| :: IsSpace(s[i])
    ensures |r| == 0 || !IsSpace(r[|r| - 1])
  {
    if |s| > 0 && IsSpace(s[|s| - 1]) then TrimEnd(s[..|s| - 1]) else s
  }

  /** `s.trim()`: a slice of `s` that neither starts nor ends with white space. */
  function Trim(s: string): (r: string)
    ensures var k := |s| - |TrimStart(s)|; k + |r| <= |s| && r == s[k..k + |r|]
    ensures |r| == 0 || (!IsSpace(r[0]) && !IsSpace(r[|r| - 1]))
  {
    TrimEnd(TrimStart(s))
  }

  /** Trimming leaves nothing exactly when the string is all white space. */
  lemma TrimEmpty(s: string)
    ensures Trim(s) == "" <==> forall i | 0 <= i < |s| :: IsSpace(s[i])
  {
    var t := TrimStart(s);
    if t != "" {
      assert !IsSpace(t[0]) && t[0] == s[|s| - |t|];
    }
  }

  /** A string with no white space at either end is its own trim. */
  lemma TrimNoop(s: string)
    requires |s| == 0 || (!IsSpace(s[0]) && !IsSpace(s[|s| - 1]))
    ensures Trim(s) == s
  {
  }

  /** `c.toLowerCase()` on the ASCII letters. */
  function LowerChar(c: char): char {
    if IsUpper(c) then (c as int - 'A' as int + 'a' as int) as char else c
  }

  /** `s.toLowerCase()`, with the ASCII case mapping. */
  function ToLower(s: string): (r: string)
    ensures |r| == |s|
    ensures forall i | 0 <= i < |s| :: r[i] == LowerChar(s[i])
  {
    seq(|s|, i requires 0 <= i < |s| => LowerChar(s[i]))
  }

  /** Lower-casing removes every upper-case letter and leaves every other character alone. */
  lemma ToLowerIdempotent(s: string)
    ensures ToLower(ToLower(s)) == ToLower(s)
    ensures forall i | 0 <= i < |s| :: !IsUpper(ToLower(s)[i])
  {
  }

  /** Lower-casing neither creates nor removes white space. */
  lemma {:induction false} TrimToLowerCommute(s: string)
    ensures Trim(ToLower(s)) == ToLower(Trim(s))
  {
    TrimStartToLower(s);
    TrimEndToLower(TrimStart(s));
  }

  lemma SpaceLower(c: char)
    ensures IsSpace(LowerChar(c)) == IsSpace(c)
  {
  }

  lemma {:induction false} TrimStartToLower(s: string)
    ensures TrimStart(ToLower(s)) == ToLower(TrimStart(s))
  {
    if |s| > 0 {
      var l := ToLower(s);
      SpaceLower(s[0]);
      assert l[0] == LowerChar(s[0]);
      if IsSpace(s[0]) {
        assert l[1..] == ToLower(s[1..]);
        TrimStartToLower(s[1..]);
      }
    }
  }

  lemma {:induction false} TrimEndToLower(s: string)
    ensures TrimEnd(ToLower(s)) == ToLower(TrimEnd(s))
  {
    if |s| > 0 {
      var l := ToLower(s);
      SpaceLower(s[|s| - 1]);
      assert l[|s| - 1] == LowerChar(s[|s| - 1]);
      if IsSpace(s[|s| - 1]) {
        assert l[..|s| - 1] == ToLower(s[..|s| - 1]);
        assert TrimEnd(l) == TrimEnd(l[..|s| - 1]);
        assert TrimEnd(s) == TrimEnd(s[..|s| - 1]);
        TrimEndToLower(s[..|s| - 1]);
      } else {
        assert TrimEnd(l) == l;
        assert TrimEnd(s) == s;
      }
    }
  }

  /** `pat` occurs in `s` starting at index `i`. */
  predicate OccursAt(s: string, pat: string, i: int) {
    0 <= i && i + |pat| <= |s| && s[i..i + |pat|] == pat
  }

  function IndexFrom(s: string, pat: string, i: nat): (r: Option<nat>)
    requires i <= |s|
    ensures r.Some? ==> i <= r.value && OccursAt(s, pat, r.value)
    ensures r.Some? ==> forall j | i <= j < r.value :: !OccursAt(s, pat, j)
    ensures r.None? ==> forall j | i <= j <= |s| :: !OccursAt(s, pat, j)
    decreases |s| - i
  {
    if i + |pat| > |s| then None
    else if s[i..i + |pat|] == pat then Some(i)
    else if i == |s| then None
    else IndexFrom(s, pat, i + 1)
  }

  /** `s.indexOf(pat)`: the first index where `pat` occurs, or `None` (the source's -1). */
  function IndexOf(s: string, pat: string): (r: Option<nat>)
    ensures r.Some? ==> OccursAt(s, pat, r.value)
    ensures r.Some? ==> forall j | 0 <= j < r.value :: !OccursAt(s, pat, j)
    ensures r.None? ==> forall j | 0 <= j <= |s| :: !OccursAt(s, pat, j)
  {
    IndexFrom(s, pat, 0)
  }

  /** `s.includes(pat)`. */
  predicate Contains(s: string, pat: string) {
    IndexOf(s, pat).Some?
  }

  /** `s.split(sep)[0]` for a non-empty separator: the text before the first `sep`. */
  function Before(s: string, sep: string): (r: string)
    requires |sep| > 0
    ensures Contains(s, sep) ==> |r| + |sep| <= |s| && r + sep == s[..|r| + |sep|]
    ensures Contains(s, sep) ==> !Contains(r, sep) && IndexOf(s, sep) == Some(|r|)
    ensures !Contains(s, sep) ==> r == s
  {
    match IndexOf(s, sep)
    case None => s
    case Some(i) =>
      var r := s[..i];
      assert r + sep == s[..i + |sep|];
      assert !Contains(r, sep) by {
        forall j | 0 <= j <= |r| ensures !OccursAt(r, sep, j) {
          if OccursAt(r, sep, j) {
            assert s[j..j + |sep|] == r[j..j + |sep|];
            assert OccursAt(s, sep, j);
          }
        }
      }
      r
  }

  /** Text without the separator's first character is what comes before the separator when it follows. */
  lemma BeforeConcat(a: string, sep: string, t: string)
    requires |sep| > 0 && sep[0] !in a
    ensures Before(a + sep + t, sep) == a
  {
    var s := a + sep + t;
    assert s[|a|..|a| + |sep|] == sep;
    assert OccursAt(s, sep, |a|);
    var r := Before(s, sep);
    assert s[|r|] == (r + sep)[|r|] == sep[0];
    assert forall i | 0 <= i < |a| :: s[i] == a[i] && a[i] in a;
    assert r == s[..|a|];
  }

  /** The text before a separator that follows it is that text, when no earlier occurrence starts inside it. */
  lemma BeforeConcatFirst(a: string, sep: string, t: string)
    requires |sep| > 0 && IndexOf(a + sep, sep) == Some(|a|)
    ensures Before(a + sep + t, sep) == a
  {
    var s := a + sep + t;
    assert s[|a|..|a| + |sep|] == sep;
    assert OccursAt(s, sep, |a|);
    forall j | 0 <= j < |a| ensures !OccursAt(s, sep, j) {
      if OccursAt(s, sep, j) {
        assert s[j..j + |sep|] == (a + sep)[j..j + |sep|];
        assert OccursAt(a + sep, sep, j);
      }
    }
    assert IndexOf(s, sep) == Some(|a|);
    assert s[..|a|] == a;
  }

  /** `s.split(sep)` on a one-character separator. */
  function Split(s: string, sep: char): (r: seq<string>)
    ensures |r| >= 1
    ensures forall i | 0 <= i < |r| :: sep !in r[i]
    ensures forall piece | piece in r :: sep !in piece
  {
    if |s| == 0 then [""]
    else
      var rest := Split(s[1..], sep);
      if s[0] == sep then [""] + rest else [[s[0]] + rest[0]] + rest[1..]
  }

  /** `parts.join(sep)`. */
  function Join(parts: seq<string>, sep: string): string {
    if |parts| == 0 then ""
    else if |parts| == 1 then parts[0]
    else parts[0] + sep + Join(parts[1..], sep)
  }

  /** Splitting on a character and joining with it again gives back the original string. */
  lemma {:induction false} JoinSplit(s: string, sep: char)
    ensures Join(Split(s, sep), [sep]) == s
  {
    if |s| > 0 {
      JoinSplit(s[1..], sep);
      var rest := Split(s[1..], sep);
      if s[0] == sep {
        assert Split(s, sep)[1..] == rest;
        assert s == [sep] + s[1..];
      } else {
        var r := Split(s, sep);
        if |rest| == 1 {
          assert s == [s[0]] + rest[0];
        } else {
          assert r[1..] == rest[1..];
          assert Join(rest, [sep]) == rest[0] + [sep] + Join(rest[1..], [sep]);
          assert s == [s[0]] + s[1..];
        }
      }
    }
  }

  /** `s.replace(/\r\n/g, '\n')`: every carriage-return/line-feed pair, scanned left to right. */
  function NormalizeNewlines(s: string): (r: string)
    ensures |r| <= |s|
    ensures Count(r, '\n') == Count(s, '\n')
  {
    if |s| >= 2 && s[0] == '\r' && s[1] == '\n' then
      assert s[1..][1..] == s[2..];
      "\n" + NormalizeNewlines(s[2..])
    else if |s| == 0 then ""
    else [s[0]] + NormalizeNewlines(s[1..])
  }

  /** Text without carriage returns is left as it is. */
  lemma {:induction false} NormalizeNewlinesNoCr(s: string)
    requires '\r' !in s
    ensures NormalizeNewlines(s) == s
  {
    if |s| > 0 {
      NormalizeNewlinesNoCr(s[1..]);
      assert s == [s[0]] + s[1..];
    }
  }

  /** Normalizing line breaks keeps every character except carriage returns. */
  lemma {:induction false} NormalizeNewlinesKeeps(s: string, c: char)
    requires c in s && c != '\r'
    ensures c in NormalizeNewlines(s)
  {
    if |s| >= 2 && s[0] == '\r' && s[1] == '\n' {
      if c != '\n' {
        assert c in s[2..];
        NormalizeNewlinesKeeps(s[2..], c);
      }
    } else if s[0] != c {
      assert c in s[1..];
      NormalizeNewlinesKeeps(s[1..], c);
    }
  }

  /** Splitting keeps every character other than the separator in one of the pieces. */
  lemma {:induction false} SplitKeeps(s: string, sep: char, c: char)
    requires c in s && c != sep
    ensures exists k | 0 <= k < |Split(s, sep)| :: c in Split(s, sep)[k]
  {
    var r := Split(s, sep);
    var rest := Split(s[1..], sep);
    if s[0] == c {
      assert c in r[0];
    } else {
      assert c in s[1..];
      SplitKeeps(s[1..], sep, c);
      var k :| 0 <= k < |rest| && c in rest[k];
      if s[0] == sep {
        assert r[k + 1] == rest[k];
      } else if k == 0 {
        assert r[0] == [s[0]] + rest[0];
      } else {
        assert r[k] == rest[k];
      }
    }
  }

  /** The decimal digit for `d`. */
  function DigitChar(d: nat): char
    requires d < 10
  {
    ('0' as int + d) as char
  }

  /** `String(n)` for a non-negative integer: its decimal digits without leading zeros. */
  function NatToString(n: nat): (r: string)
    ensures |r| >= 1
    ensures forall i | 0 <= i < |r| :: IsDigit(r[i])
    ensures r[0] == '0' ==> n == 0
  {
    if n < 10 then [DigitChar(n)] else NatToString(n / 10) + [DigitChar(n % 10)]
  }

  /** The value of a string of decimal digits. */
  function DigitsValue(s: string): nat
    requires forall i | 0 <= i < |s| :: IsDigit(s[i])
  {
    if |s| == 0 then 0
    else
      assert IsDigit(s[|s| - 1]);
      10 * DigitsValue(s[..|s| - 1]) + (s[|s| - 1] as int - '0' as int)
  }

  /** Reading back the digits `NatToString` renders gives the number. */
  lemma {:induction false} DigitsValueOfNatToString(n: nat)
    ensures DigitsValue(NatToString(n)) == n
  {
    if n >= 10 {
      DigitsValueOfNatToString(n / 10);
      var r := NatToString(n);
      assert r[..|r| - 1] == NatToString(n / 10);
    }
  }

  /** `String(i)` for an integer. */
  function IntToString(i: int): (r: string)
    ensures |r| >= 1
    ensures i < 0 <==> r[0] == '-'
  {
    if i < 0 then "-" + NatToString(-i) else NatToString(i)
  }
}
