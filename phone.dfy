/**
 * Normalisation and validation of the mobile number typed at signup
 * (`clean_num_input`, `format_phone_num`, `check_phone_num_validity`).
 */
module Phone {
  import opened Strings

  predicate IsAsciiDigit(c: char) {
    '0' <= c <= '9'
  }

  /** Entry `k` of the translation table: Arabic-Indic digit `k` (U+0660 + k) ... */
  function EasternDigit(k: nat): char
    requires k < 10
  {
    (0x660 + k) as char
  }

  /** ... and the Western digit it becomes. */
  function WesternDigit(k: nat): char
    requires k < 10
  {
    ('0' as int + k) as char
  }

  predicate IsEasternDigit(c: char) {
    0x660 <= c as int < 0x66A
  }

  /** A character after the first `k` entries of the table have been applied to it. */
  function TranslatedUpTo(c: char, k: nat): char
    requires k <= 10
  {
    if 0x660 <= c as int < 0x660 + k then WesternDigit(c as int - 0x660) else c
  }

  /** A character after the whole table: Eastern digits become Western ones, nothing else changes. */
  function ToWestern(c: char): (w: char)
    ensures IsEasternDigit(c) ==> IsAsciiDigit(w) && w as int - '0' as int == c as int - 0x660
    ensures !IsEasternDigit(c) ==> w == c
  {
    TranslatedUpTo(c, 10)
  }

  function Westernized(s: string): (r: string)
    ensures |r| == |s| && forall i :: 0 <= i < |s| ==> r[i] == ToWestern(s[i])
  {
    if s == [] then [] else [ToWestern(s[0])] + Westernized(s[1..])
  }

  /** `re.sub("[^0-9]", "", s)`: the ASCII digits of `s`, in order. */
  function KeepAsciiDigits(s: string): (r: string)
    ensures |r| <= |s|
    ensures forall i :: 0 <= i < |r| ==> IsAsciiDigit(r[i])
  {
    if s == [] then []
    else (if IsAsciiDigit(s[0]) then [s[0]] else []) + KeepAsciiDigits(s[1..])
  }

  /** Filtering distributes over concatenation: the kept digits stay in their order. */
  lemma {:induction false} KeepAsciiDigitsAppend(a: string, b: string)
    ensures KeepAsciiDigits(a + b) == KeepAsciiDigits(a) + KeepAsciiDigits(b)
    decreases |a|
  {
    if a == [] {
      assert a + b == b;
    } else {
      assert (a + b)[0] == a[0];
      assert (a + b)[1..] == a[1..] + b;
      KeepAsciiDigitsAppend(a[1..], b);
    }
  }

  /** What `clean_num_input` returns: digits only, Eastern digits translated. */
  function Cleaned(s: string): string {
    KeepAsciiDigits(Westernized(s))
  }

  /**
   * `clean_num_input`: applies the ten entries of the translation table one
   * after the other (`str.replace`), then drops every non-ASCII-digit.
   */
  method CleanNumInput(input: string) returns (r: string)
    ensures r == Cleaned(input)
    ensures forall i :: 0 <= i < |r| ==> IsAsciiDigit(r[i])
  {
    var s := input;
    for k := 0 to 10
      invariant |s| == |input|
      invariant forall i :: 0 <= i < |s| ==> s[i] == TranslatedUpTo(input[i], k)
    {
      s := ReplaceChar(s, EasternDigit(k), WesternDigit(k));
    }
    assert s == Westernized(input);
    r := KeepAsciiDigits(s);
  }

  /**
   * Lines 101-109 of `format_phone_num`: from nine digits on, an international
   * prefix `218` or `00218`, or a missing trunk `0` before a leading `9`,
   * is rewritten to the local leading `0`.
   */
  function LocalForm(p: string): (r: string)
    ensures |p| < 9 ==> r == p
    ensures (forall i :: 0 <= i < |p| ==> IsAsciiDigit(p[i])) ==>
              forall i :: 0 <= i < |r| ==> IsAsciiDigit(r[i])
  {
    if |p| >= 9 then
      if p[..3] == "218" then "0" + p[3..]
      else if p[..5] == "00218" then "0" + p[5..]
      else if p[0] == '9' then "0" + p
      else p
    else p
  }

  /** `format_phone_num`. */
  method FormatPhoneNum(input: string) returns (r: string)
    ensures r == LocalForm(Cleaned(input))
    ensures forall i :: 0 <= i < |r| ==> IsAsciiDigit(r[i])
  {
    var cleaned := CleanNumInput(input);
    r := LocalForm(cleaned);
  }

  /** `check_phone_num_validity`: ten characters starting with `09`. */
  predicate IsValidPhoneNum(p: string)
    ensures IsValidPhoneNum(p) ==> |p| == 10 && p[0] == '0' && p[1] == '9'
  {
    |p| == 10 && p[..2] == "09"
  }

  /** A valid number is already in local form: formatting leaves it unchanged. */
  lemma ValidIsLocal(p: string)
    requires IsValidPhoneNum(p)
    ensures LocalForm(p) == p
  {
  }

  /**
   * Exactly four shapes of cleaned input give a valid number: the local
   * `09` + 8 digits, `9` + 8, `218` + `9` + 8 and `00218` + `9` + 8.
   */
  lemma ValidAfterLocalForm(p: string)
    ensures IsValidPhoneNum(LocalForm(p)) <==>
      || (|p| == 10 && p[..2] == "09")
      || (|p| == 9 && p[0] == '9')
      || (|p| == 12 && p[..4] == "2189")
      || (|p| == 14 && p[..6] == "002189")
  {
    var r := LocalForm(p);
    if |p| >= 9 {
      var p0, p1, p2, p3, p4, p5 := p[0], p[1], p[2], p[3], p[4], p[5];
      assert p[..2] == [p0, p1] && p[..3] == [p0, p1, p2] && p[..4] == [p0, p1, p2, p3];
      assert p[..5] == [p0, p1, p2, p3, p4] && p[..6] == [p0, p1, p2, p3, p4, p5];
      if p[..3] == "218" {
        assert r == "0" + p[3..] && r[1] == p3;
        assert r[..2] == [r[0], r[1]];
      } else if p[..5] == "00218" {
        assert r == "0" + p[5..] && r[1] == p5;
        assert r[..2] == [r[0], r[1]];
      } else if p0 == '9' {
        assert r == "0" + p;
      } else {
        assert r == p;
      }
    }
  }

  /** A valid number reaches the same local form from all four ways of writing it. */
  lemma LocalFormsAgree(n: string)
    requires IsValidPhoneNum(n)
    ensures LocalForm(n) == n
    ensures LocalForm(n[1..]) == n
    ensures LocalForm("218" + n[1..]) == n
    ensures LocalForm("00218" + n[1..]) == n
  {
    assert n[..2][0] == n[0] == '0' && n[..2][1] == n[1] == '9';
    assert n == "0" + n[1..];
    assert n[..3][0] == '0' && n[..5][0] == '0';
    var trunkless := n[1..];
    assert trunkless[..3][0] == '9' && trunkless[..5][0] == '9' && trunkless[0] == '9';
    var national := "218" + n[1..];
    assert national[..3] == "218" && national[3..] == n[1..];
    var international := "00218" + n[1..];
    assert international[..3][0] == '0' && international[..5] == "00218";
    assert international[5..] == n[1..];
  }

  /** ASCII digits pass through cleaning unchanged. */
  lemma {:induction false} CleanedKeepsAsciiDigits(s: string)
    requires forall i :: 0 <= i < |s| ==> IsAsciiDigit(s[i])
    ensures Cleaned(s) == s
  {
    if s != [] {
      CleanedKeepsAsciiDigits(s[1..]);
      assert Westernized(s) == [s[0]] + Westernized(s[1..]);
      assert [s[0]] + s[1..] == s;
    }
  }

  /** Cleaning an all-Eastern-digit string translates it digit by digit. */
  lemma {:induction false} CleanedTranslatesEasternDigits(s: string)
    requires forall i :: 0 <= i < |s| ==> IsEasternDigit(s[i])
    ensures |Cleaned(s)| == |s|
    ensures forall i :: 0 <= i < |s| ==> Cleaned(s)[i] as int - '0' as int == s[i] as int - 0x660
  {
    if s != [] {
      CleanedTranslatesEasternDigits(s[1..]);
      assert Westernized(s)[1..] == Westernized(s[1..]);
      assert Cleaned(s) == [ToWestern(s[0])] + Cleaned(s[1..]);
    }
  }

  /**
   * Every written form of a valid all-digit number, with the `00218` or
   * `218` country prefix or without the trunk `0`, formats to that number
   * (so `00218912345678` gives `0912345678`).
   */
  lemma WrittenFormsFormat(n: string)
    requires IsValidPhoneNum(n) && forall i :: 0 <= i < |n| ==> IsAsciiDigit(n[i])
    ensures LocalForm(Cleaned(n)) == n
    ensures LocalForm(Cleaned(n[1..])) == n
    ensures LocalForm(Cleaned("218" + n[1..])) == n
    ensures LocalForm(Cleaned("00218" + n[1..])) == n
  {
    LocalFormsAgree(n);
    CleanedKeepsAsciiDigits(n);
    AllDigitsWithPrefix("", n[1..]);
    assert "" + n[1..] == n[1..];
    AllDigitsWithPrefix("218", n[1..]);
    AllDigitsWithPrefix("00218", n[1..]);
  }

  /** A digit prefix followed by digits cleans to itself. */
  lemma AllDigitsWithPrefix(prefix: string, rest: string)
    requires forall i :: 0 <= i < |prefix| ==> prefix[i] in "0123456789"
    requires forall i :: 0 <= i < |rest| ==> IsAsciiDigit(rest[i])
    ensures Cleaned(prefix + rest) == prefix + rest
  {
    var s := prefix + rest;
    forall i | 0 <= i < |s| ensures IsAsciiDigit(s[i]) {
      if i < |prefix| {
        assert s[i] == prefix[i];
      } else {
        assert s[i] == rest[i - |prefix|];
      }
    }
    CleanedKeepsAsciiDigits(s);
  }
}
