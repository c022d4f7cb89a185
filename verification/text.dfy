/** ASCII renderings of the Go `strings` and `strconv` helpers the core relies on. */
module Text {
  import opened Wrappers

  /** strings.HasPrefix */
  predicate HasPrefix(s: string, p: string) {
    |p| <= |s| && s[..|p|] == p
  }

  /** strings.HasSuffix */
  predicate HasSuffix(s: string, suf: string) {
    |suf| <= |s| && s[|s| - |suf|..] == suf
  }

  /** strings.TrimSuffix: removes one trailing occurrence of `suf`, if any. */
  function TrimSuffix(s: string, suf: string): (r: string)
    ensures HasSuffix(s, suf) ==> r + suf == s
    ensures !HasSuffix(s, suf) ==> r == s
  {
    if HasSuffix(s, suf) then s[..|s| - |suf|] else s
  }

  lemma PrefixOfConcat(a: string, b: string)
    ensures HasPrefix(a + b, a)
  {
    assert (a + b)[..|a|] == a;
  }

  lemma SuffixOfConcat(a: string, b: string)
    ensures HasSuffix(a + b, b)
  {
    assert (a + b)[|a + b| - |b|..] == b;
  }

  /** Removing a suffix that was just appended gives the original back. */
  lemma TrimSuffixOfConcat(a: string, b: string)
    ensures TrimSuffix(a + b, b) == a
  {
    SuffixOfConcat(a, b);
    var t := TrimSuffix(a + b, b);
    assert t + b == a + b;
    assert t == (t + b)[..|t|] == (a + b)[..|a|] == a;
  }

  /** strings.Contains */
  predicate Contains(s: string, sub: string)
    decreases |s|
  {
    HasPrefix(s, sub) || (|s| > 0 && Contains(s[1..], sub))
  }

  /** `b` occurs in any text that has it in the middle. */
  lemma {:induction false} ContainsInfix(a: string, b: string, c: string, s: string)
    requires s == a + b + c
    ensures Contains(s, b)
    decreases |a|
  {
    if a == [] {
      assert s[..|b|] == b;
    } else {
      assert s[1..] == a[1..] + b + c;
      ContainsInfix(a[1..], b, c, s[1..]);
    }
  }

  /** unicode.IsSpace restricted to ASCII: space, \t, \n, \v, \f, \r. */
  predicate IsSpace(c: char) {
    c == ' ' || ('\t' <= c <= '\r')
  }

  predicate IsDigit(c: char) {
    '0' <= c <= '9'
  }

  function LowerChar(c: char): char {
    if 'A' <= c <= 'Z' then (c as int + 32) as char else c
  }

  function UpperChar(c: char): char {
    if 'a' <= c <= 'z' then (c as int - 32) as char else c
  }

  /** strings.ToLower on ASCII text. */
  function ToLower(s: string): (r: string)
    ensures |r| == |s|
  {
    seq(|s|, i requires 0 <= i < |s| => LowerChar(s[i]))
  }

  /** strings.ToUpper on ASCII text. */
  function ToUpper(s: string): (r: string)
    ensures |r| == |s|
  {
    seq(|s|, i requires 0 <= i < |s| => UpperChar(s[i]))
  }

  /** strings.EqualFold on ASCII text. */
  predicate EqualFold(a: string, b: string) {
    ToLower(a) == ToLower(b)
  }

  function TrimLeftSpace(s: string): (r: string)
    ensures |r| <= |s|
    decreases |s|
  {
    if |s| > 0 && IsSpace(s[0]) then TrimLeftSpace(s[1..]) else s
  }

  function TrimRightSpace(s: string): (r: string)
    ensures |r| <= |s|
    decreases |s|
  {
    if |s| > 0 && IsSpace(s[|s| - 1]) then TrimRightSpace(s[..|s| - 1]) else s
  }

  /** strings.TrimSpace */
  function TrimSpace(s: string): (r: string)
    ensures |r| <= |s|
  {
    TrimRightSpace(TrimLeftSpace(s))
  }

  /** strings.Trim(s, cutset) for a one-character cutset. */
  function TrimChar(s: string, c: char): (r: string)
    ensures |r| <= |s|
    decreases |s|
  {
    if |s| > 0 && s[0] == c then TrimChar(s[1..], c)
    else if |s| > 0 && s[|s| - 1] == c then TrimChar(s[..|s| - 1], c)
    else s
  }

  /** strings.ReplaceAll(s, c, "") for a one-character pattern. */
  function RemoveChar(s: string, c: char): (r: string)
    ensures c !in r
    ensures |r| <= |s|
  {
    if s == [] then []
    else (if s[0] == c then [] else [s[0]]) + RemoveChar(s[1..], c)
  }

  /** strings.Index(s, string(c)), -1 when absent. */
  function IndexOfChar(s: string, c: char): (r: int)
    ensures -1 <= r < |s|
    ensures r == -1 <==> c !in s
    ensures r >= 0 ==> s[r] == c && c !in s[..r]
  {
    if s == [] then -1
    else if s[0] == c then 0
    else
      var k := IndexOfChar(s[1..], c);
      if k == -1 then -1 else k + 1
  }

  /** The first occurrence found by IndexOfChar. */
  lemma IndexOfCharFirst(s: string, c: char, k: nat)
    requires k < |s| && s[k] == c && c !in s[..k]
    ensures IndexOfChar(s, c) == k
  {
    assert s[k] in s;
    assert s[..IndexOfChar(s, c)] <= s && s[..k] <= s;
  }

  /** strings.Join */
  function Join(parts: seq<string>, sep: string): string {
    if parts == [] then ""
    else if |parts| == 1 then parts[0]
    else parts[0] + sep + Join(parts[1..], sep)
  }

  /** Joining one more part appends the separator and the part. */
  lemma {:induction false} JoinSnoc(parts: seq<string>, x: string, sep: string)
    requires parts != []
    ensures Join(parts + [x], sep) == Join(parts, sep) + sep + x
    decreases |parts|
  {
    if |parts| == 1 {
      assert (parts + [x])[1..] == [x];
    } else {
      assert (parts + [x])[1..] == parts[1..] + [x];
      JoinSnoc(parts[1..], x, sep);
    }
  }

  /** What a loop that writes each part followed by `sep`, and the last part followed by
      `last` instead, has produced after `n` parts. */
  function Written(parts: seq<string>, n: nat, sep: string, last: string): string
    requires n <= |parts|
  {
    if n == 0 then ""
    else Written(parts, n - 1, sep, last) + parts[n - 1] + (if n == |parts| then last else sep)
  }

  /** Such a loop produces the parts joined by `sep`, then `last`. */
  lemma {:induction false} WrittenIsJoin(parts: seq<string>, n: nat, sep: string, last: string)
    requires 1 <= n <= |parts|
    ensures Written(parts, n, sep, last) == Join(parts[..n], sep) + (if n == |parts| then last else sep)
    decreases n
  {
    if n == 1 {
      assert parts[..1] == [parts[0]];
    } else {
      WrittenIsJoin(parts, n - 1, sep, last);
      assert parts[..n] == parts[..n - 1] + [parts[n - 1]];
      JoinSnoc(parts[..n - 1], parts[n - 1], sep);
    }
  }

  function DigitChar(d: nat): char
    requires d < 10
  {
    ('0' as int + d) as char
  }

  function NatToString(n: nat): (r: string)
    ensures |r| > 0
  {
    if n < 10 then [DigitChar(n)] else NatToString(n / 10) + [DigitChar(n % 10)]
  }

  /** fmt.Sprintf("%d", n) */
  function IntToString(n: int): (r: string)
    ensures |r| > 0
  {
    if n < 0 then "-" + NatToString(-n) else NatToString(n)
  }

  predicate AllDigits(s: string) {
    forall i :: 0 <= i < |s| ==> IsDigit(s[i])
  }

  function DigitsValue(s: string): nat
    requires AllDigits(s)
  {
    if s == [] then 0 else DigitsValue(s[..|s| - 1]) * 10 + (s[|s| - 1] as int - '0' as int)
  }

  /** The decimal rendering of a natural number is all digits and reads back as the number. */
  lemma {:induction false} NatToStringDigits(n: nat)
    ensures AllDigits(NatToString(n)) && DigitsValue(NatToString(n)) == n
    decreases n
  {
    var r := NatToString(n);
    if n >= 10 {
      NatToStringDigits(n / 10);
      assert r[..|r| - 1] == NatToString(n / 10);
    }
  }

  const MinInt64: int := -0x8000_0000_0000_0000
  const MaxInt64: int := 0x7FFF_FFFF_FFFF_FFFF

  /** strconv.ParseInt(s, 10, 64) (also strconv.Atoi on a 64-bit platform):
      an optional sign, at least one decimal digit, and a value that fits in int64. */
  function ParseInt64(s: string): (r: Option<int>)
    ensures r.Some? ==> MinInt64 <= r.value <= MaxInt64
  {
    var neg := |s| > 0 && s[0] == '-';
    var digits := if |s| > 0 && (s[0] == '-' || s[0] == '+') then s[1..] else s;
    if digits == [] || !AllDigits(digits) then None
    else
      var v: int := if neg then 0 - (DigitsValue(digits) as int) else DigitsValue(digits) as int;
      if MinInt64 <= v <= MaxInt64 then Some(v) else None
  }

  /** fmt's %d output of an int64 parses back to the same value. */
  lemma IntToStringParses(n: int)
    requires MinInt64 <= n <= MaxInt64
    ensures ParseInt64(IntToString(n)) == Some(n)
  {
    if n < 0 {
      NatToStringDigits(-n);
      assert IntToString(n)[1..] == NatToString(-n);
    } else {
      NatToStringDigits(n);
      assert IsDigit(NatToString(n)[0]);
    }
  }
}
