/** Small shared datatypes and string helpers. */
module Common {

  datatype Option<+T> = None | Some(value: T)

  /** A managed hosts record: a domain pointing at an address. */
  datatype HostEntry = HostEntry(domain: string, ip: string)

  function Digits(n: nat): string {
    var digit := ["0123456789"[n % 10]];
    if n < 10 then digit else Digits(n / 10) + digit
  }

  /** A number in decimal notation. */
  function Decimal(n: int): string { if n < 0 then "-" + Digits(-n) else Digits(n) }

  predicate IsNumeral(s: string) { forall i :: 0 <= i < |s| ==> '0' <= s[i] <= '9' }

  /** What a numeral stands for, read from the left. */
  function Number(s: string): nat
    requires IsNumeral(s)
  {
    if s == "" then 0 else 10 * Number(s[..|s| - 1]) + (s[|s| - 1] - '0') as nat
  }

  /** A printed number is a numeral without leading zeros, and reads back as the number. */
  lemma {:induction false} DigitsReadBack(n: nat)
    ensures IsNumeral(Digits(n)) && Number(Digits(n)) == n
    ensures Digits(n) != "" && (1 < |Digits(n)| ==> Digits(n)[0] != '0') && (n > 0 ==> Digits(n)[0] != '0')
  {
    var s := Digits(n);
    assert s[|s| - 1] == "0123456789"[n % 10] && (s[|s| - 1] - '0') as nat == n % 10;
    if n < 10 {
      assert s[..|s| - 1] == "";
    } else {
      DigitsReadBack(n / 10);
      assert s[..|s| - 1] == Digits(n / 10);
    }
  }

  /** So two numbers printed alike are the same. */
  lemma DecimalIsInjective(a: nat, b: nat)
    requires Decimal(a) == Decimal(b)
    ensures a == b
  {
    DigitsReadBack(a);
    DigitsReadBack(b);
  }

  /** Lower case of the ASCII letters. */
  function Lower(s: string): (r: string)
    ensures |r| == |s|
  {
    seq(|s|, i requires 0 <= i < |s| => if 'A' <= s[i] <= 'Z' then s[i] - 'A' + 'a' else s[i])
  }

  /** Upper-case ASCII letters become lower-case ones, everything else stays. */
  lemma LowerMeaning(s: string, i: nat)
    requires i < |s|
    ensures Lower(s)[i] == if s[i] in "ABCDEFGHIJKLMNOPQRSTUVWXYZ" then s[i] + ' ' else s[i]
    ensures Lower(s)[i] !in "ABCDEFGHIJKLMNOPQRSTUVWXYZ" && Lower(Lower(s)) == Lower(s)
  {
    LettersAreTheRange(s[i]);
    LettersAreTheRange(Lower(s)[i]);
    forall k | 0 <= k < |s| ensures Lower(Lower(s))[k] == Lower(s)[k] { LettersAreTheRange(s[k]); }
  }

  lemma LettersAreTheRange(c: char)
    ensures c in "ABCDEFGHIJKLMNOPQRSTUVWXYZ" <==> 'A' <= c <= 'Z'
  {
    var letters := "ABCDEFGHIJKLMNOPQRSTUVWXYZ";
    if 'A' <= c <= 'Z' { assert letters[(c - 'A') as int] == c; }
  }

  /** unicode.IsSpace. */
  predicate IsSpace(c: char) {
    || '\t' <= c <= '\r' || c == ' ' || c == '\U{0085}' || c == '\U{00A0}' || c == '\U{1680}'
    || '\U{2000}' <= c <= '\U{200A}' || c == '\U{2028}' || c == '\U{2029}' || c == '\U{202F}'
    || c == '\U{205F}' || c == '\U{3000}'
  }

  function TrimLeft(s: string): string {
    if s != "" && IsSpace(s[0]) then TrimLeft(s[1..]) else s
  }

  function TrimRight(s: string): string {
    if s != "" && IsSpace(s[|s| - 1]) then TrimRight(s[..|s| - 1]) else s
  }

  function Trim(s: string): string { TrimRight(TrimLeft(s)) }

  predicate AllSpace(s: string) { forall i :: 0 <= i < |s| ==> IsSpace(s[i]) }

  lemma {:induction false} TrimLeftMeaning(s: string)
    ensures var t := TrimLeft(s);
      && |t| <= |s| && s[|s| - |t|..] == t && AllSpace(s[..|s| - |t|]) && (t != "" ==> !IsSpace(t[0]))
  {
    if s != "" && IsSpace(s[0]) {
      var t := TrimLeft(s[1..]);
      TrimLeftMeaning(s[1..]);
      assert s[..|s| - |t|] == [s[0]] + s[1..][..|s| - 1 - |t|];
    }
  }

  lemma {:induction false} TrimRightMeaning(s: string)
    ensures var t := TrimRight(s);
      && |t| <= |s| && s[..|t|] == t && AllSpace(s[|t|..]) && (t != "" ==> !IsSpace(t[|t| - 1]))
  {
    if s != "" && IsSpace(s[|s| - 1]) {
      var n := |s| - 1;
      var t := TrimRight(s[..n]);
      TrimRightMeaning(s[..n]);
      assert s[|t|..] == s[..n][|t|..] + [s[n]];
    }
  }

  /** Trimming takes white space away at both ends, all of it and nothing else. */
  lemma TrimMeaning(s: string)
    ensures exists a: nat, b: nat ::
      && a <= b <= |s| && s[a..b] == Trim(s) && AllSpace(s[..a]) && AllSpace(s[b..])
      && (a < b ==> !IsSpace(s[a]) && !IsSpace(s[b - 1]))
  {
    TrimLeftMeaning(s);
    var l := TrimLeft(s);
    TrimRightMeaning(l);
    var a := |s| - |l|;
    var b := a + |Trim(s)|;
    assert s[a..b] == l[..|Trim(s)|];
    assert s[b..] == l[|Trim(s)|..];
  }

  /** So there is nothing left to trim. */
  lemma TrimTwice(s: string)
    ensures Trim(Trim(s)) == Trim(s)
  {
    TrimMeaning(s);
  }
}
