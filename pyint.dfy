/**
 * Python's built-in `int(s)` on a `str` (base 10), and the decimal rendering of an integer.
 *
 * `int(s)` strips surrounding whitespace, accepts one optional sign and then
 * decimal digits, where a single underscore may separate two digits; any other
 * text makes it raise `ValueError`, modelled here as `None`.
 */
module PyInt {
  import opened Wrappers

  /** The ASCII whitespace `int()` strips: space, \t, \n, \v, \f and \r. */
  predicate IsSpace(c: char) {
    c == ' ' || c == '\t' || c == '\n' || c == '\U{0B}' || c == '\U{0C}' || c == '\r'
  }

  predicate IsDigit(c: char) {
    '0' <= c <= '9'
  }

  /** A character that can never occur in a string `int()` accepts. */
  predicate IsForeign(c: char) {
    !IsDigit(c) && !IsSpace(c) && c != '_' && c != '+' && c != '-'
  }

  function DigitValue(c: char): (d: nat)
    requires IsDigit(c)
    ensures d < 10
  {
    c as int - '0' as int
  }

  function DigitChar(d: nat): (c: char)
    requires d < 10
    ensures IsDigit(c) && DigitValue(c) == d
  {
    ('0' as int + d) as char
  }

  /** Drops leading whitespace. */
  function TrimLeft(s: string): string {
    if |s| > 0 && IsSpace(s[0]) then TrimLeft(s[1..]) else s
  }

  /** Drops trailing whitespace. */
  function TrimRight(s: string): string {
    if |s| > 0 && IsSpace(s[|s| - 1]) then TrimRight(s[..|s| - 1]) else s
  }

  /** `TrimLeft` leaves a suffix that does not start with whitespace, and drops only whitespace. */
  lemma {:induction false} TrimLeftSuffix(s: string)
    ensures |TrimLeft(s)| <= |s| && TrimLeft(s) == s[|s| - |TrimLeft(s)|..]
    ensures forall k :: 0 <= k < |s| - |TrimLeft(s)| ==> IsSpace(s[k])
    ensures TrimLeft(s) == [] || !IsSpace(TrimLeft(s)[0])
  {
    if |s| > 0 && IsSpace(s[0]) {
      TrimLeftSuffix(s[1..]);
    }
  }

  /** `TrimRight` leaves a prefix that does not end with whitespace, and drops only whitespace. */
  lemma {:induction false} TrimRightPrefix(s: string)
    ensures |TrimRight(s)| <= |s| && TrimRight(s) == s[..|TrimRight(s)|]
    ensures forall k :: |TrimRight(s)| <= k < |s| ==> IsSpace(s[k])
    ensures TrimRight(s) == [] || !IsSpace(TrimRight(s)[|TrimRight(s)| - 1])
  {
    if |s| > 0 && IsSpace(s[|s| - 1]) {
      TrimRightPrefix(s[..|s| - 1]);
      assert s[..|s| - 1][..|TrimRight(s)|] == s[..|TrimRight(s)|];
    }
  }

  /** Python's `str.strip()` restricted to the ASCII whitespace above. */
  function Strip(s: string): string {
    TrimRight(TrimLeft(s))
  }

  /**
   * The value of a digit string in which a single `_` may separate two
   * digits ("2_024"); `None` for anything else, the empty string included.
   */
  function ParseDigits(s: string): Option<nat>
    decreases |s|
  {
    if |s| == 0 || !IsDigit(s[|s| - 1]) then None
    else
      var d := DigitValue(s[|s| - 1]);
      var init := s[..|s| - 1];
      if |init| == 0 then Some(d)
      else
        var body := if init[|init| - 1] == '_' then init[..|init| - 1] else init;
        match ParseDigits(body)
        case None => None
        case Some(v) => Some(10 * v + d)
  }

  /**
   * Python's default limit on the digits `int()` converts from a decimal
   * string (`sys.int_info.default_max_str_digits`); longer strings raise.
   */
  const MaxStrDigits := 4300

  /** The number of decimal digits in `s` (underscores and signs do not count). */
  function DigitCount(s: string): nat
    decreases |s|
  {
    if |s| == 0 then 0
    else DigitCount(s[..|s| - 1]) + if IsDigit(s[|s| - 1]) then 1 else 0
  }

  /**
   * `int(s)`: `Some(n)` when Python returns `n`, `None` when it raises
   * `ValueError`. A result needs a non-blank string, and only a leading
   * minus sign makes it negative.
   */
  function ParseInt(s: string): (r: Option<int>)
    ensures r.Some? ==> Strip(s) != []
    ensures r.Some? && r.value < 0 ==> Strip(s)[0] == '-'
    ensures r.Some? && Strip(s)[0] == '-' ==> r.value <= 0
  {
    var t := Strip(s);
    var signed := |t| > 0 && (t[0] == '+' || t[0] == '-');
    var body := if signed then t[1..] else t;
    match ParseDigits(body)
    case None => None
    case Some(v) =>
      if DigitCount(body) > MaxStrDigits then None
      else Some(if signed && t[0] == '-' then -(v as int) else v as int)
  }

  /** The decimal digits of `n`, most significant first, without leading zeros. */
  function Decimal(n: nat): string
    decreases n
  {
    if n < 10 then [DigitChar(n)] else Decimal(n / 10) + [DigitChar(n % 10)]
  }

  /** The decimal rendering of `i` (Python's `str(i)` up to 4300 digits). */
  function Show(i: int): string {
    if i < 0 then "-" + Decimal(-i) else Decimal(i)
  }

  lemma {:induction false} DecimalIsDigits(n: nat)
    ensures |Decimal(n)| > 0
    ensures forall k :: 0 <= k < |Decimal(n)| ==> IsDigit(Decimal(n)[k])
    decreases n
  {
    if n >= 10 {
      DecimalIsDigits(n / 10);
    }
  }

  lemma {:induction false} ParseDigitsDecimal(n: nat)
    ensures ParseDigits(Decimal(n)) == Some(n)
    decreases n
  {
    if n >= 10 {
      ParseDigitsDecimal(n / 10);
      DecimalIsDigits(n / 10);
      var s := Decimal(n);
      var init := Decimal(n / 10);
      assert s[..|s| - 1] == init;
      assert init[|init| - 1] != '_';
    }
  }

  lemma {:induction false} DigitCountDecimal(n: nat)
    ensures DigitCount(Decimal(n)) == |Decimal(n)|
    decreases n
  {
    var s := Decimal(n);
    if n >= 10 {
      DigitCountDecimal(n / 10);
      assert s[..|s| - 1] == Decimal(n / 10);
    } else {
      assert s[..0] == [];
    }
  }

  /**
   * Round trip: `int(str(i)) == i` for every integer of at most 4300 digits;
   * for a longer one `int()` raises.
   */
  lemma ParseIntShow(i: int)
    ensures var m := if i < 0 then -i else i;
      ParseInt(Show(i)) == if |Decimal(m)| <= MaxStrDigits then Some(i) else None
  {
    var s := Show(i);
    var m := if i < 0 then -i else i;
    DecimalIsDigits(m);
    ParseDigitsDecimal(m);
    DigitCountDecimal(m);
    assert !IsSpace(s[0]) && !IsSpace(s[|s| - 1]);
    assert Strip(s) == s;
    if i < 0 {
      assert s[1..] == Decimal(m);
    }
  }

  /** Only digits and underscores survive `ParseDigits`. */
  lemma {:induction false} ParseDigitsAlphabet(s: string, k: nat)
    requires k < |s| && ParseDigits(s).Some?
    ensures IsDigit(s[k]) || s[k] == '_'
    decreases |s|
  {
    if k < |s| - 1 {
      var init := s[..|s| - 1];
      if |init| > 0 {
        if init[|init| - 1] == '_' {
          if k < |init| - 1 {
            ParseDigitsAlphabet(init[..|init| - 1], k);
          }
        } else {
          ParseDigitsAlphabet(init, k);
        }
      }
    }
  }

  /** A string holding any foreign character ("abc", "12a") makes `int()` raise. */
  lemma ParseIntRejectsForeign(s: string, k: nat)
    requires k < |s| && IsForeign(s[k])
    ensures ParseInt(s) == None
  {
    var l := TrimLeft(s);
    var t := Strip(s);
    TrimLeftSuffix(s);
    TrimRightPrefix(l);
    var kl := k - (|s| - |l|);
    assert 0 <= kl < |l| && l[kl] == s[k];
    assert kl < |t| && t[kl] == s[k];
    if |t| > 0 && (t[0] == '+' || t[0] == '-') {
      assert kl > 0 && t[1..][kl - 1] == s[k];
      if ParseDigits(t[1..]).Some? {
        ParseDigitsAlphabet(t[1..], kl - 1);
      }
    } else if ParseDigits(t).Some? {
      ParseDigitsAlphabet(t, kl);
    }
  }
}
