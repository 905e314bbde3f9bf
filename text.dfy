// The JavaScript string operations the extension uses, on strings as
// sequences of characters: trim, toLowerCase, includes/indexOf, split, join,
// replace (first occurrence), number formatting, parseInt and the
// "cut and add an ellipsis" truncation.

module Text {
  import opened Seqs

  /** The WhiteSpace and LineTerminator characters of ECMAScript, which trim() removes. */
  predicate IsSpace(c: char)
  {
    var n := c as int;
    n == 0x09 || n == 0x0A || n == 0x0B || n == 0x0C || n == 0x0D || n == 0x20 || n == 0xA0
    || n == 0x1680 || (0x2000 <= n <= 0x200A) || n == 0x2028 || n == 0x2029
    || n == 0x202F || n == 0x205F || n == 0x3000 || n == 0xFEFF
  }

  predicate Blank(s: string)
  {
    forall i :: 0 <= i < |s| ==> IsSpace(s[i])
  }

  function TrimStart(s: string): string
  {
    if s != [] && IsSpace(s[0]) then TrimStart(s[1..]) else s
  }

  function TrimEnd(s: string): string
  {
    if s != [] && IsSpace(s[|s| - 1]) then TrimEnd(s[..|s| - 1]) else s
  }

  /** trimStart drops exactly the leading white space. */
  lemma {:induction false} TrimStartFacts(s: string)
    ensures |TrimStart(s)| <= |s| && TrimStart(s) == s[|s| - |TrimStart(s)|..]
    ensures TrimStart(s) == [] || !IsSpace(TrimStart(s)[0])
    ensures forall k :: 0 <= k < |s| - |TrimStart(s)| ==> IsSpace(s[k])
  {
    if s != [] && IsSpace(s[0]) {
      var t := TrimStart(s[1..]);
      TrimStartFacts(s[1..]);
      assert s[1..][|s[1..]| - |t|..] == s[|s| - |t|..];
      forall k | 0 <= k < |s| - |t|
        ensures IsSpace(s[k])
      {
        if k > 0 {
          assert s[k] == s[1..][k - 1];
        }
      }
    }
  }

  /** trimEnd drops exactly the trailing white space. */
  lemma {:induction false} TrimEndFacts(s: string)
    ensures |TrimEnd(s)| <= |s| && TrimEnd(s) == s[..|TrimEnd(s)|]
    ensures TrimEnd(s) == [] || !IsSpace(TrimEnd(s)[|TrimEnd(s)| - 1])
    ensures forall k :: |TrimEnd(s)| <= k < |s| ==> IsSpace(s[k])
  {
    if s != [] && IsSpace(s[|s| - 1]) {
      TrimEndFacts(s[..|s| - 1]);
    }
  }

  /** String.prototype.trim: a contiguous part of `s` that neither starts nor ends with white space. */
  function Trim(s: string): (r: string)
    ensures |r| <= |s|
    ensures r == [] || (!IsSpace(r[0]) && !IsSpace(r[|r| - 1]))
  {
    var t := TrimStart(s);
    TrimStartFacts(s);
    TrimEndFacts(t);
    var r := TrimEnd(t);
    assert r != [] ==> r[0] == t[0];
    r
  }

  /** A string trims to "" exactly when it consists of white space only. */
  lemma TrimEmptyIffBlank(s: string)
    ensures Trim(s) == "" <==> Blank(s)
  {
    var t := TrimStart(s);
    TrimStartFacts(s);
    TrimEndFacts(t);
    assert forall i :: 0 <= i < |t| ==> t[i] == s[|s| - |t| + i];
    assert Trim(s) == "" ==> Blank(t);
  }

  /** Non-empty, and neither starts nor ends with white space. */
  predicate Trimmed(s: string)
  {
    s != [] && !IsSpace(s[0]) && !IsSpace(s[|s| - 1])
  }

  /** Trimming a trimmed string changes nothing. */
  lemma TrimNoOp(s: string)
    requires Trimmed(s)
    ensures Trim(s) == s
  {
  }

  /** Trimming twice is trimming once. */
  lemma TrimIdempotent(s: string)
    ensures Trim(Trim(s)) == Trim(s)
  {
    var r := Trim(s);
    TrimStartFacts(s);
    TrimEndFacts(TrimStart(s));
    assert TrimStart(r) == r;
    assert TrimEnd(r) == r;
  }

  /** ASCII case mapping; the source's toLowerCase on the characters A to Z. */
  function LowerChar(c: char): char
  {
    if 'A' <= c <= 'Z' then (c as int + 32) as char else c
  }

  function ToLower(s: string): (r: string)
    ensures |r| == |s|
    ensures forall i :: 0 <= i < |s| ==> r[i] == LowerChar(s[i])
  {
    seq(|s|, i requires 0 <= i < |s| => LowerChar(s[i]))
  }

  /** `d` occurs in `s` starting at index `j`. */
  predicate OccursAt(s: string, d: string, j: int)
  {
    0 <= j && j + |d| <= |s| && s[j..j + |d|] == d
  }

  /** String.prototype.indexOf: the first index at which `d` occurs in `s`. */
  function Find(s: string, d: string): (r: Option<nat>)
    ensures r.Some? ==> OccursAt(s, d, r.value)
    ensures r.Some? ==> forall j :: 0 <= j < r.value ==> !OccursAt(s, d, j)
    ensures r.None? ==> forall j :: !OccursAt(s, d, j)
    decreases |s|
  {
    if |s| < |d| then None
    else if s[..|d|] == d then Some(0)
    else
      assert !OccursAt(s, d, 0);
      assert forall j :: OccursAt(s, d, j + 1) <==> OccursAt(s[1..], d, j) by {
        forall j ensures OccursAt(s, d, j + 1) <==> OccursAt(s[1..], d, j) {
          if 0 <= j && j + |d| <= |s| - 1 {
            assert s[1..][j..j + |d|] == s[j + 1..j + 1 + |d|];
          }
        }
      }
      match Find(s[1..], d)
      case None =>
        assert forall j :: !OccursAt(s, d, j) by {
          forall j ensures !OccursAt(s, d, j) {
            if j > 0 { assert !OccursAt(s[1..], d, j - 1); }
          }
        }
        None
      case Some(i) =>
        assert forall j :: 0 <= j < i + 1 ==> !OccursAt(s, d, j) by {
          forall j | 0 <= j < i + 1 ensures !OccursAt(s, d, j) {
            if j > 0 { assert !OccursAt(s[1..], d, j - 1); }
          }
        }
        Some(i + 1)
  }

  /** String.prototype.includes. */
  predicate Contains(s: string, d: string)
  {
    Find(s, d).Some?
  }

  predicate StartsWith(s: string, p: string)
  {
    |p| <= |s| && s[..|p|] == p
  }

  /** indexOf finds an occurrence that nothing earlier precedes. */
  lemma FindFirstAt(s: string, d: string, j: nat)
    requires OccursAt(s, d, j)
    requires forall k :: 0 <= k < j ==> !OccursAt(s, d, k)
    ensures Find(s, d) == Some(j)
  {
  }

  /** String.prototype.split with a non-empty literal separator. */
  function Split(s: string, d: string): (r: seq<string>)
    requires |d| > 0
    ensures |r| >= 1
    decreases |s|
  {
    match Find(s, d)
    case None => [s]
    case Some(i) => [s[..i]] + Split(s[i + |d|..], d)
  }

  /** Array.prototype.join. */
  function Join(parts: seq<string>, sep: string): string
  {
    if parts == [] then ""
    else if |parts| == 1 then parts[0]
    else parts[0] + sep + Join(parts[1..], sep)
  }

  /** Joining the pieces of a split with the same separator gives back the string. */
  lemma {:induction false} SplitJoin(s: string, d: string)
    requires |d| > 0
    ensures Join(Split(s, d), d) == s
    decreases |s|
  {
    match Find(s, d)
    case None =>
    case Some(i) =>
      var rest := s[i + |d|..];
      var tail := Split(rest, d);
      SplitJoin(rest, d);
      assert Split(s, d) == [s[..i]] + tail;
      assert Join([s[..i]] + tail, d) == s[..i] + d + Join(tail, d);
      assert s == s[..i] + d + rest;
  }

  /** No piece of a split contains the separator. */
  lemma {:induction false} SplitPiecesFree(s: string, d: string)
    requires |d| > 0
    ensures forall k :: 0 <= k < |Split(s, d)| ==> !Contains(Split(s, d)[k], d)
    decreases |s|
  {
    match Find(s, d)
    case None =>
    case Some(i) =>
      var p := s[..i];
      if Contains(p, d) {
        var j := Find(p, d).value;
        assert p[j..j + |d|] == s[j..j + |d|];
        assert OccursAt(s, d, j);
        assert false;
      }
      SplitPiecesFree(s[i + |d|..], d);
  }

  /** String.prototype.replace with a string pattern: only the first occurrence. */
  function ReplaceFirst(s: string, pat: string, rep: string): string
  {
    match Find(s, pat)
    case None => s
    case Some(i) => s[..i] + rep + s[i + |pat|..]
  }

  /** Removing a prefix with replace(prefix, '') recovers the rest, whatever it contains. */
  lemma StripPrefix(p: string, x: string)
    ensures ReplaceFirst(p + x, p, "") == x
  {
    assert (p + x)[..|p|] == p;
    assert (p + x)[|p|..] == x;
  }

  predicate IsDigit(c: char)
  {
    '0' <= c <= '9'
  }

  function DigitChar(d: nat): (c: char)
    requires d < 10
    ensures IsDigit(c)
  {
    ('0' as int + d) as char
  }

  /** Decimal rendering of a natural number (template-literal interpolation). */
  function NatToString(n: nat): (r: string)
    ensures |r| >= 1
    ensures forall i :: 0 <= i < |r| ==> IsDigit(r[i])
    decreases n
  {
    if n < 10 then [DigitChar(n)] else NatToString(n / 10) + [DigitChar(n % 10)]
  }

  /** The longest prefix of `s` made of decimal digits. */
  function LeadingDigits(s: string): (r: string)
    ensures |r| <= |s| && r == s[..|r|]
    ensures forall i :: 0 <= i < |r| ==> IsDigit(r[i])
    ensures |r| < |s| ==> !IsDigit(s[|r|])
  {
    if s != [] && IsDigit(s[0]) then [s[0]] + LeadingDigits(s[1..]) else []
  }

  function DigitValue(c: char): nat
    requires IsDigit(c)
  {
    c as int - '0' as int
  }

  function DigitsValue(ds: string): nat
    requires forall i :: 0 <= i < |ds| ==> IsDigit(ds[i])
  {
    if ds == [] then 0
    else DigitsValue(ds[..|ds| - 1]) * 10 + DigitValue(ds[|ds| - 1])
  }

  /**
   * parseInt(s, 10): leading white space, an optional sign, then the longest
   * run of digits; None stands for NaN (no digit at all).
   */
  function ParseInt(s: string): Option<int>
  {
    var t := TrimStart(s);
    var negative := t != [] && t[0] == '-';
    var body := if t != [] && (t[0] == '-' || t[0] == '+') then t[1..] else t;
    var ds := LeadingDigits(body);
    if ds == [] then None
    else
      var v: int := DigitsValue(ds);
      if negative then Some(-v) else Some(v)
  }

  /** A number starts here: a digit, or a sign followed by a digit. */
  predicate NumberStart(t: string)
  {
    t != [] && (IsDigit(t[0]) || (|t| >= 2 && (t[0] == '-' || t[0] == '+') && IsDigit(t[1])))
  }

  /** After some white space, a number starts. */
  predicate StartsWithNumber(s: string)
  {
    exists k :: 0 <= k < |s| && Blank(s[..k]) && NumberStart(s[k..])
  }

  /** parseInt yields a number exactly when one starts after the leading white space; otherwise NaN. */
  lemma ParseIntDefined(s: string)
    ensures ParseInt(s).Some? <==> StartsWithNumber(s)
  {
    ParseIntSeesNumberStart(s);
    NumberAfterSpace(s);
  }

  lemma ParseIntSeesNumberStart(s: string)
    ensures ParseInt(s).Some? <==> NumberStart(TrimStart(s))
  {
    var t := TrimStart(s);
    var body := if t != [] && (t[0] == '-' || t[0] == '+') then t[1..] else t;
    assert LeadingDigits(body) != [] <==> body != [] && IsDigit(body[0]);
  }

  /** A number starts after some white space exactly when it starts where trimStart stops. */
  lemma NumberAfterSpace(s: string)
    ensures StartsWithNumber(s) <==> NumberStart(TrimStart(s))
  {
    var t := TrimStart(s);
    TrimStartFacts(s);
    var k0 := |s| - |t|;
    assert s[k0..] == t;
    if NumberStart(t) {
      assert Blank(s[..k0]);
    }
    if StartsWithNumber(s) {
      var k :| 0 <= k < |s| && Blank(s[..k]) && NumberStart(s[k..]);
      assert !IsSpace(s[k]);
    }
  }

  lemma {:induction false} DigitsOfNat(n: nat)
    ensures DigitsValue(NatToString(n)) == n
    decreases n
  {
    var s := NatToString(n);
    if n >= 10 {
      DigitsOfNat(n / 10);
      assert s[..|s| - 1] == NatToString(n / 10);
    }
  }

  lemma {:induction false} LeadingDigitsAll(s: string)
    requires forall i :: 0 <= i < |s| ==> IsDigit(s[i])
    ensures LeadingDigits(s) == s
  {
    if s != [] {
      LeadingDigitsAll(s[1..]);
    }
  }

  /** The run of leading digits ends at the first character that is not a digit. */
  lemma {:induction false} LeadingDigitsStop(ds: string, rest: string)
    requires forall i :: 0 <= i < |ds| ==> IsDigit(ds[i])
    requires rest != [] && !IsDigit(rest[0])
    ensures LeadingDigits(ds + rest) == ds
  {
    if ds != [] {
      assert (ds + rest)[1..] == ds[1..] + rest;
      LeadingDigitsStop(ds[1..], rest);
    } else {
      assert ds + rest == rest;
    }
  }

  /** parseInt reads back every number that NatToString writes. */
  lemma ParseIntRoundTrip(n: nat)
    ensures ParseInt(NatToString(n)) == Some(n)
  {
    var s := NatToString(n);
    assert IsDigit(s[0]);
    assert !IsSpace(s[0]);
    assert TrimStart(s) == s;
    assert s[0] != '-' && s[0] != '+';
    LeadingDigitsAll(s);
    DigitsOfNat(n);
  }

  /**
   * `s.length > max ? s.substring(0, keep) + '...' : s`, the shortening the
   * menus and previews apply.
   */
  function Truncate(s: string, max: nat, keep: nat): (r: string)
    requires keep <= max
    ensures |s| <= max ==> r == s
    ensures |s| > max ==> s[..keep] <= r && |r| == keep + 3
  {
    if |s| > max then s[..keep] + "..." else s
  }

  /** When the ellipsis fits within the limit, a truncated string never exceeds it. */
  lemma TruncateBound(s: string, max: nat, keep: nat)
    requires keep + 3 <= max
    ensures |Truncate(s, max, keep)| <= max
    ensures Truncate(s, max, keep) == s <==> |s| <= max
  {
  }
}
