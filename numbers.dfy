/**
 * Turning a captured amount token into a number: the token loses its commas
 * (and any `S$`), and Python's `float()` parses what is left; a token that
 * does not parse counts as 0.0.
 *
 * Numbers are exact reals. This abstracts Python's binary `float`: no
 * rounding of decimal fractions and no overflow to infinity.
 */
module Numbers {
  import opened Wrappers
  import opened TextUtil

  function DigitValue(c: char): (v: nat)
    requires IsDigit(c)
    ensures v < 10
  {
    c as int - '0' as int
  }

  function Digit(v: nat): (c: char)
    requires v < 10
    ensures IsDigit(c) && DigitValue(c) == v
  {
    ('0' as int + v) as char
  }

  /** The value of a string of decimal digits; the empty string is worth 0. */
  function DigitsValue(s: string): nat
    requires AllDigits(s)
  {
    if |s| == 0 then 0 else DigitsValue(s[..|s| - 1]) * 10 + DigitValue(s[|s| - 1])
  }

  function Pow10(n: nat): (r: nat)
    ensures r > 0
  {
    if n == 0 then 1 else 10 * Pow10(n - 1)
  }

  /** The position of the first `c` in `s`, or `|s|` when there is none. */
  function IndexOf(s: string, c: char): (i: nat)
    ensures i <= |s|
    ensures forall k :: 0 <= k < i ==> s[k] != c
    ensures i < |s| ==> s[i] == c
  {
    if |s| == 0 then 0 else if s[0] == c then 0 else 1 + IndexOf(s[1..], c)
  }

  // ---------------------------------------------------------------------------
  // What `float()` accepts

  /** `d+(.d*)?|.d+`: digits with at most one point and at least one digit. */
  ghost predicate IsUnsignedLiteral(u: string) {
    || (|u| > 0 && AllDigits(u))
    || exists i: nat :: i < |u| && u[i] == '.' && AllDigits(u[..i]) && AllDigits(u[i + 1..]) && |u| > 1
  }

  /** `-?(d+(.d*)?|.d+)`: the strings over `{0-9 . -}` that Python's `float()` accepts. */
  ghost predicate IsFloatLiteral(s: string) {
    IsUnsignedLiteral(s) || (|s| > 0 && s[0] == '-' && IsUnsignedLiteral(s[1..]))
  }

  /** `float()` on a string without a sign. */
  function ParseUnsigned(u: string): Option<real> {
    var i := IndexOf(u, '.');
    if i == |u| then
      if |u| > 0 && AllDigits(u) then Some(DigitsValue(u) as real) else None
    else
      var whole := u[..i];
      var frac := u[i + 1..];
      if AllDigits(whole) && AllDigits(frac) && |u| > 1
      then Some(DigitsValue(whole) as real + DigitsValue(frac) as real / Pow10(|frac|) as real)
      else None
  }

  /** Python's `float(s)` for a string over `{0-9 . -}`; None stands for `ValueError`. */
  function ParseFloat(s: string): Option<real> {
    if |s| > 0 && s[0] == '-' then
      match ParseUnsigned(s[1..])
      case None => None
      case Some(v) => Some(-v)
    else ParseUnsigned(s)
  }

  lemma ParseUnsignedAccepts(u: string)
    ensures ParseUnsigned(u).Some? <==> IsUnsignedLiteral(u)
  {
    var i := IndexOf(u, '.');
    if i < |u| {
      assert !IsDigit(u[i]);
      forall j: nat | i < j < |u| && AllDigits(u[..j]) ensures false {
      }
    }
  }

  /** `float()` succeeds on a string over `{0-9 . -}` exactly when it has the form `-?(d+(.d*)?|.d+)`. */
  lemma ParseFloatAccepts(s: string)
    ensures ParseFloat(s).Some? <==> IsFloatLiteral(s)
  {
    ParseUnsignedAccepts(s);
    if |s| > 0 {
      ParseUnsignedAccepts(s[1..]);
      if s[0] == '-' {
        assert !IsDigit(s[0]);
        forall i: nat | 0 < i <= |s| && AllDigits(s[..i]) ensures false {
        }
      }
    }
  }

  // ---------------------------------------------------------------------------
  // The token's value

  /** `token.replace(',', '').replace('S$', '')`. */
  function Clean(token: string): string {
    RemoveAll(RemoveAll(token, ","), "S$")
  }

  /** The value recorded for a token: the number its cleaned text spells when
      that text is a float literal, and 0.0 (the `ValueError` branch) otherwise. */
  function TokenValue(token: string): (v: real)
    ensures IsFloatLiteral(Clean(token)) ==> Some(v) == ParseFloat(Clean(token))
    ensures !IsFloatLiteral(Clean(token)) ==> v == 0.0
  {
    ParseFloatAccepts(Clean(token));
    match ParseFloat(Clean(token))
    case None => 0.0
    case Some(v) => v
  }

  /** The `S$` removal never changes a captured token: `[\d,.-]` contains neither `S` nor `$`. */
  lemma CleanOnlyDropsCommas(token: string)
    requires AllAmountChars(token)
    ensures Clean(token) == RemoveAll(token, ",")
    ensures AllAmountChars(Clean(token)) && ',' !in Clean(token)
  {
    RemoveCharKeepsOthers(token, ',');
    var t := RemoveAll(token, ",");
    assert 'S' !in token by {
      forall k | 0 <= k < |token| ensures token[k] != 'S' {
        assert IsAmountChar(token[k]);
      }
    }
    assert 'S' !in t;
    RemoveAllAbsent(t, "S$");
    forall k | 0 <= k < |t| ensures IsAmountChar(t[k]) {
      var c := t[k];
      assert c in multiset(t);
      assert c != ',';
      assert c in multiset(token);
      var j :| 0 <= j < |token| && token[j] == c;
      assert IsAmountChar(token[j]);
    }
  }

  /** For a captured token the value depends only on the token without its
      commas: its number when that is a float literal, 0.0 when it is not. */
  lemma CapturedTokenValue(token: string)
    requires AllAmountChars(token)
    ensures IsFloatLiteral(RemoveAll(token, ",")) ==> Some(TokenValue(token)) == ParseFloat(RemoveAll(token, ","))
    ensures !IsFloatLiteral(RemoveAll(token, ",")) ==> TokenValue(token) == 0.0
  {
    CleanOnlyDropsCommas(token);
  }

  /** A string with neither commas nor `S` comes out of `Clean` as it went in. */
  lemma CleanKeeps(s: string)
    requires ',' !in s && 'S' !in s
    ensures Clean(s) == s
  {
    RemoveAllAbsent(s, ",");
    RemoveAllAbsent(s, "S$");
  }

  /** A token that does not parse is recorded as 0.0 ... */
  lemma UnparsableTokensAreZero()
    ensures TokenValue("-") == 0.0
    ensures TokenValue(".") == 0.0
    ensures TokenValue("1.2.3") == 0.0
    ensures TokenValue("5-") == 0.0
  {
    LoneSignIsZero();
    LonePointIsZero();
    TwoPointsIsZero();
    TrailingSignIsZero();
  }

  lemma LoneSignIsZero()
    ensures TokenValue("-") == 0.0
  {
    CleanKeeps("-");
    assert "-"[1..] == "";
  }

  lemma LonePointIsZero()
    ensures TokenValue(".") == 0.0
  {
    CleanKeeps(".");
    assert IndexOf(".", '.') == 0;
  }

  lemma TwoPointsIsZero()
    ensures TokenValue("1.2.3") == 0.0
  {
    CleanKeeps("1.2.3");
    TwoPointsDoNotParse();
    ParseFloatAccepts("1.2.3");
  }

  lemma TwoPointsDoNotParse()
    ensures ParseFloat("1.2.3").None?
  {
    var s := "1.2.3";
    assert IndexOf(s, '.') == 1 by { assert s[1] == '.' && s[0] != '.'; }
    assert s[2..] == "2.3";
    assert !IsDigit(s[2..][1]);
  }

  lemma TrailingSignIsZero()
    ensures TokenValue("5-") == 0.0
  {
    var s := "5-";
    CleanKeeps(s);
    assert IndexOf(s, '.') == 2 by { assert s[0] != '.' && s[1] != '.'; }
    assert !IsDigit(s[1]);
  }

  /** ... and so cannot be told apart from a true zero. */
  lemma UnparsableLooksLikeZero()
    ensures TokenValue("-") == TokenValue("0.00")
  {
    LoneSignIsZero();
    ZeroIsZero();
  }

  lemma ZeroIsZero()
    ensures TokenValue("0.00") == 0.0
  {
    AmountRoundTrip(0);
    assert NatDigits(0) == "0";
    assert PrintedAmount(0) == "0.00";
  }

  // ---------------------------------------------------------------------------
  // How a statement prints an amount, and reading it back

  /** The decimal digits of `n`, without leading zeros. */
  function NatDigits(n: nat): (s: string)
    ensures |s| > 0 && AllDigits(s)
  {
    if n < 10 then [Digit(n)] else NatDigits(n / 10) + [Digit(n % 10)]
  }

  lemma {:induction false} NatDigitsValue(n: nat)
    ensures DigitsValue(NatDigits(n)) == n
  {
    if n >= 10 {
      NatDigitsValue(n / 10);
      var s := NatDigits(n);
      assert s[..|s| - 1] == NatDigits(n / 10);
    }
  }

  /** Digits with a comma before every group of three, counted from the right. */
  function Group3(ds: string): (s: string)
    requires AllDigits(ds)
    ensures AllAmountChars(s)
    decreases |ds|
  {
    if |ds| <= 3 then ds else Group3(ds[..|ds| - 3]) + "," + ds[|ds| - 3..]
  }

  lemma NoCommaInDigits(ds: string)
    requires AllDigits(ds)
    ensures ',' !in ds && 'S' !in ds && '.' !in ds
  {
  }

  /** Taking the commas out of grouped digits gives the digits back. */
  lemma {:induction false} Group3Ungroup(ds: string)
    requires AllDigits(ds)
    ensures RemoveAll(Group3(ds), ",") == ds
    decreases |ds|
  {
    NoCommaInDigits(ds);
    if |ds| <= 3 {
      RemoveAllAbsent(ds, ",");
    } else {
      var hi, lo := ds[..|ds| - 3], ds[|ds| - 3..];
      Group3Ungroup(hi);
      assert ',' !in lo by { NoCommaInDigits(lo); }
      RemoveAllAbsent(lo, ",");
      RemoveCharAppend(Group3(hi) + ",", lo, ',');
      RemoveCharAppend(Group3(hi), ",", ',');
      assert RemoveAll(",", ",") == "";
      assert hi + lo == ds;
    }
  }

  /** The two decimals of an amount whose cents part is `r`. */
  function Cents(r: nat): (s: string)
    requires r < 100
    ensures |s| == 2 && AllDigits(s)
  {
    [Digit(r / 10), Digit(r % 10)]
  }

  lemma CentsValue(r: nat)
    requires r < 100
    ensures DigitsValue(Cents(r)) == r
  {
    var s := Cents(r);
    assert s[..1][..0] == [];
    assert DigitsValue(s[..1]) == r / 10;
  }

  /** An amount of `c` cents as `f"{x:,.2f}"` prints it: sign, grouped units, two decimals. */
  function PrintedAmount(c: int): (s: string)
    ensures AllAmountChars(s)
  {
    var m := if c < 0 then -c else c;
    (if c < 0 then "-" else "") + Group3(NatDigits(m / 100)) + "." + Cents(m % 100)
  }

  /** The first point in digits, a point and more is the one after the digits. */
  lemma IndexOfAfterDigits(whole: string, rest: string)
    requires AllDigits(whole) && |rest| > 0 && rest[0] == '.'
    ensures IndexOf(whole + rest, '.') == |whole|
  {
    var u := whole + rest;
    var i := IndexOf(u, '.');
    assert u[|whole|] == '.';
  }

  lemma CentsArithmetic(m: nat)
    ensures (m / 100) as real + (m % 100) as real / 100.0 == m as real / 100.0
  {
    assert m == (m / 100) * 100 + m % 100;
  }

  /** The unsigned part of a printed amount, commas taken out, parses to the amount. */
  lemma PlainAmountParses(m: nat)
    ensures ParseUnsigned(NatDigits(m / 100) + "." + Cents(m % 100)) == Some(m as real / 100.0)
  {
    var whole := NatDigits(m / 100);
    var frac := Cents(m % 100);
    var u := whole + "." + frac;
    IndexOfAfterDigits(whole, "." + frac);
    assert u == whole + ("." + frac);
    assert u[..|whole|] == whole;
    assert u[|whole| + 1..] == frac;
    NatDigitsValue(m / 100);
    CentsValue(m % 100);
    assert Pow10(2) == 100;
    CentsArithmetic(m);
  }

  /** Taking the commas out of a printed amount leaves sign, digits, point and decimals. */
  lemma AmountCleans(c: int)
    ensures var m := if c < 0 then -c else c;
            Clean(PrintedAmount(c)) == (if c < 0 then "-" else "") + (NatDigits(m / 100) + "." + Cents(m % 100))
  {
    var m := if c < 0 then -c else c;
    var whole := NatDigits(m / 100);
    var sign := if c < 0 then "-" else "";
    var tail := "." + Cents(m % 100);
    assert PrintedAmount(c) == sign + Group3(whole) + tail;
    NoCommaInDigits(Cents(m % 100));
    assert ',' !in sign && ',' !in tail;
    RemoveAllAbsent(sign, ",");
    RemoveAllAbsent(tail, ",");
    Group3Ungroup(whole);
    RemoveCharAppend(sign + Group3(whole), tail, ',');
    RemoveCharAppend(sign, Group3(whole), ',');
    assert RemoveAll(PrintedAmount(c), ",") == sign + (whole + "." + Cents(m % 100));
    CleanOnlyDropsCommas(PrintedAmount(c));
  }

  /** Reading back a printed amount gives the amount: the commas the statement
      prints are exactly what the extractor removes. */
  lemma AmountRoundTrip(c: int)
    ensures TokenValue(PrintedAmount(c)) == c as real / 100.0
  {
    var m := if c < 0 then -c else c;
    var u := NatDigits(m / 100) + "." + Cents(m % 100);
    AmountCleans(c);
    PlainAmountParses(m);
    if c < 0 {
      assert ("-" + u)[1..] == u;
    } else {
      assert "" + u == u;
      assert u[0] == NatDigits(m / 100)[0];
    }
  }
}
