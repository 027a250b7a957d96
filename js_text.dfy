/** The few pieces of JavaScript string behaviour the core relies on:
    rendering an integer in decimal (`${n}`, `n.toString()`), `padStart(2, '0')`,
    `trim()`, `includes`, `startsWith`, and a reader that turns the decimal
    text back into the number (the partner of every formatting function). */
module JsText {
  import opened Wrappers

  predicate IsDigit(c: char) {
    '0' <= c <= '9'
  }

  predicate AllDigits(s: string) {
    forall i :: 0 <= i < |s| ==> IsDigit(s[i])
  }

  function DigitChar(d: int): (c: char)
    requires 0 <= d < 10
    ensures IsDigit(c) && c as int - '0' as int == d
  {
    "0123456789"[d]
  }

  function DigitValue(c: char): (d: nat)
    requires IsDigit(c)
    ensures d < 10
  {
    c as int - '0' as int
  }

  /** Decimal rendering of a non-negative integer, without leading zeros. */
  function NatToString(n: nat): (s: string)
    ensures 1 <= |s|
    ensures AllDigits(s)
    ensures n < 10 <==> |s| == 1
    ensures |s| == 1 ==> s == [DigitChar(n % 10)]
  {
    if n < 10 then [DigitChar(n)] else NatToString(n / 10) + [DigitChar(n % 10)]
  }

  /** Decimal rendering of any integer, as `String(n)` gives it for integers. */
  function IntToString(n: int): (s: string)
    ensures 1 <= |s|
    ensures n >= 0 ==> s == NatToString(n)
    ensures n < 0 ==> s == "-" + NatToString(-n)
  {
    if n < 0 then "-" + NatToString(-n) else NatToString(n)
  }

  /** Reads a run of decimal digits (leading zeros allowed). */
  function ParseDigits(s: string): nat
    requires AllDigits(s)
  {
    if |s| == 0 then 0 else ParseDigits(s[..|s| - 1]) * 10 + DigitValue(s[|s| - 1])
  }

  lemma {:induction false} ParseNatToString(n: nat)
    ensures ParseDigits(NatToString(n)) == n
  {
    var s := NatToString(n);
    if n >= 10 {
      assert s[..|s| - 1] == NatToString(n / 10);
      ParseNatToString(n / 10);
    }
  }

  /** `s.padStart(2, '0')`. */
  function PadStart2(s: string): (r: string)
    ensures |s| >= 2 ==> r == s
    ensures |s| < 2 ==> |r| == 2 && r[2 - |s|..] == s && forall i :: 0 <= i < 2 - |s| ==> r[i] == '0'
  {
    if |s| >= 2 then s else if |s| == 1 then "0" + s else "00"
  }

  /** A two-digit field: the rendering of a value below 100, padded. */
  function TwoDigits(n: nat): string {
    PadStart2(NatToString(n))
  }

  lemma TwoDigitsRead(n: nat)
    requires n < 100
    ensures AllDigits(TwoDigits(n)) && |TwoDigits(n)| == 2
    ensures ParseDigits(TwoDigits(n)) == n
  {
    ParsePadded(n);
  }

  /** The two-digit rendering of a value below 100 reads back as that value. */
  lemma ParsePadded(n: nat)
    requires n < 100
    ensures |PadStart2(NatToString(n))| == 2
    ensures AllDigits(PadStart2(NatToString(n)))
    ensures ParseDigits(PadStart2(NatToString(n))) == n
  {
    var s := NatToString(n);
    ParseNatToString(n);
    if n < 10 {
      var p := PadStart2(s);
      assert p == ['0', DigitChar(n)];
      assert p[..1] == ['0'];
      assert ParseDigits(p[..1]) == ParseDigits([]) * 10 + 0;
    } else {
      assert n / 10 < 10;
      assert s == [DigitChar(n / 10), DigitChar(n % 10)];
    }
  }

  /** A few renderings spelled out. */
  lemma SmallNumerals()
    ensures NatToString(0) == "0" && NatToString(1) == "1"
    ensures NatToString(30) == "30" && NatToString(90) == "90"
    ensures TwoDigits(0) == "00" && TwoDigits(30) == "30"
  {
    assert NatToString(3) == "3";
    assert NatToString(9) == "9";
  }

  lemma NatToStringInjective(a: nat, b: nat)
    requires NatToString(a) == NatToString(b)
    ensures a == b
  {
    ParseNatToString(a);
    ParseNatToString(b);
  }

  /** The rendering starts with a minus sign exactly for negative numbers. */
  lemma IntToStringSign(n: int)
    ensures IntToString(n)[0] == '-' <==> n < 0
  {
    if n >= 0 {
      var t := NatToString(n);
      assert IsDigit(t[0]);
    }
  }

  /** Different integers render differently. */
  lemma IntToStringInjective(a: int, b: int)
    requires IntToString(a) == IntToString(b)
    ensures a == b
  {
    IntToStringSign(a);
    IntToStringSign(b);
    if a >= 0 && b >= 0 {
      NatToStringInjective(a, b);
    } else if a < 0 && b < 0 {
      var sa, sb := NatToString(-a), NatToString(-b);
      assert ("-" + sa)[1..] == sa && ("-" + sb)[1..] == sb;
      NatToStringInjective(-a, -b);
    }
  }

  /** JavaScript's `a % b` for a positive divisor: the remainder takes the sign of `a`. */
  function JsRem(a: int, b: int): (r: int)
    requires b > 0
    ensures a >= 0 ==> r == a % b
    ensures -b < r < b
  {
    if a >= 0 then a % b else -((-a) % b)
  }

  /** `Math.floor(a / b)` for a positive divisor (Dafny's `/` already floors here). */
  function FloorDiv(a: int, b: int): (q: int)
    requires b > 0
    ensures q * b <= a < q * b + b
  {
    a / b
  }

  // ---------------------------------------------------------------
  // Searching inside strings
  // ---------------------------------------------------------------

  predicate StartsWith(s: string, prefix: string) {
    |prefix| <= |s| && s[..|prefix|] == prefix
  }

  /** `s.includes(sub)`. */
  predicate Contains(s: string, sub: string)
    decreases |s|
  {
    StartsWith(s, sub) || (|s| > 0 && Contains(s[1..], sub))
  }

  /** Whatever surrounds it, a message built around `sub` contains `sub`. */
  lemma {:induction false} ContainsInfix(a: string, sub: string, b: string)
    ensures Contains(a + sub + b, sub)
  {
    var s := a + sub + b;
    if |a| == 0 {
      assert s[..|sub|] == sub;
    } else {
      ContainsInfix(a[1..], sub, b);
      assert s[1..] == a[1..] + sub + b;
    }
  }

  /** Nothing contains a string longer than itself. */
  lemma {:induction false} ContainsNeedsRoom(s: string, sub: string)
    requires Contains(s, sub)
    ensures |sub| <= |s|
  {
    if !StartsWith(s, sub) {
      ContainsNeedsRoom(s[1..], sub);
    }
  }

  /** The characters `String.prototype.trim` removes (ECMAScript WhiteSpace and LineTerminator). */
  predicate IsJsWhitespace(c: char) {
    var k := c as int;
    (9 <= k <= 13) || k == 32 || k == 0xA0 || k == 0x1680 || (0x2000 <= k <= 0x200A)
    || k == 0x2028 || k == 0x2029 || k == 0x202F || k == 0x205F || k == 0x3000 || k == 0xFEFF
  }

  function TrimStart(s: string): (r: string)
    ensures |r| <= |s| && r == s[|s| - |r|..]
    ensures r == [] || !IsJsWhitespace(r[0])
  {
    if |s| > 0 && IsJsWhitespace(s[0]) then TrimStart(s[1..]) else s
  }

  function TrimEnd(s: string): (r: string)
    ensures |r| <= |s| && r == s[..|r|]
    ensures r == [] || !IsJsWhitespace(r[|r| - 1])
  {
    if |s| > 0 && IsJsWhitespace(s[|s| - 1]) then TrimEnd(s[..|s| - 1]) else s
  }

  /** `s.trim()`. */
  function Trim(s: string): string {
    TrimEnd(TrimStart(s))
  }

  /** `!s.trim()` holds exactly when every character of `s` is white space. */
  lemma {:induction false} TrimEmptyIffBlank(s: string)
    ensures Trim(s) == "" <==> forall i :: 0 <= i < |s| ==> IsJsWhitespace(s[i])
  {
    if |s| > 0 && IsJsWhitespace(s[0]) {
      TrimEmptyIffBlank(s[1..]);
      assert forall i :: 1 <= i < |s| ==> s[i] == s[1..][i - 1];
    } else if |s| > 0 {
      assert TrimStart(s) == s;
      TrimEndKeepsNonBlank(s);
    }
  }

  lemma {:induction false} TrimEndKeepsNonBlank(s: string)
    requires |s| > 0 && !IsJsWhitespace(s[0])
    ensures TrimEnd(s) != ""
  {
    if IsJsWhitespace(s[|s| - 1]) {
      TrimEndKeepsNonBlank(s[..|s| - 1]);
    }
  }

  // ---------------------------------------------------------------
  // Reading a clock face back ("H:MM:SS", "MM:SS", "M:SS")
  // ---------------------------------------------------------------

  /** The last position of `c` in `s`, if any. */
  function LastIndexOf(s: string, c: char): (r: Option<nat>)
    ensures r.Some? ==> r.value < |s|
  {
    LastIndexBelow(s, c, |s|)
  }

  /** The last position of `c` among the first `n` characters of `s`. */
  function LastIndexBelow(s: string, c: char, n: nat): (r: Option<nat>)
    requires n <= |s|
    ensures r.Some? ==> r.value < n
    decreases n
  {
    if n == 0 then None
    else if s[n - 1] == c then Some(n - 1)
    else LastIndexBelow(s, c, n - 1)
  }

  /** Reads colon-separated decimal fields as a count in base 60, so that
      "1:30:00" is 5400 and "90:00" is 5400 as well. */
  function ParseClock(s: string): Option<nat>
    decreases |s|
  {
    match LastIndexOf(s, ':')
    case None => if AllDigits(s) && |s| > 0 then Some(ParseDigits(s)) else None
    case Some(i) =>
      var field := s[i + 1..];
      if AllDigits(field) && |field| > 0 then
        match ParseClock(s[..i])
        case Some(v) => Some(v * 60 + ParseDigits(field))
        case None => None
      else None
  }

  /** Appending ":" and a run of digits adds one base-60 field: `t` is the
      front's value times 60 plus the field's. */
  lemma ParseClockJoin(s: string, front: string, field: string, v: nat, d: nat, t: nat)
    requires s == front + ":" + field
    requires ParseClock(front) == Some(v)
    requires AllDigits(field) && |field| > 0 && ParseDigits(field) == d
    requires t == v * 60 + d
    ensures ParseClock(s) == Some(t)
  {
    assert ':' !in field by {
      forall i | 0 <= i < |field| ensures field[i] != ':' {
        assert IsDigit(field[i]);
      }
    }
    LastIndexPast(front, ':', field);
    assert s[|front| + 1..] == field;
    assert s[..|front|] == front;
    ParseClockAt(s, |front|, v, d, t);
  }

  /** Two digit runs joined by a colon read back as `x * 60 + y`. */
  lemma TwoFieldsRead(s: string, a: string, b: string, x: nat, y: nat, t: nat)
    requires AllDigits(a) && |a| > 0 && ParseDigits(a) == x
    requires AllDigits(b) && |b| > 0 && ParseDigits(b) == y
    requires s == a + ":" + b
    requires t == x * 60 + y
    ensures ParseClock(s) == Some(t)
  {
    ParseClockDigits(a);
    ParseClockJoin(s, a, b, x, y, t);
  }

  /** Three digit runs joined by colons read back as `(x * 60 + y) * 60 + z`. */
  lemma ThreeFieldsRead(s: string, a: string, b: string, c: string, x: nat, y: nat, z: nat, t: nat)
    requires AllDigits(a) && |a| > 0 && ParseDigits(a) == x
    requires AllDigits(b) && |b| > 0 && ParseDigits(b) == y
    requires AllDigits(c) && |c| > 0 && ParseDigits(c) == z
    requires s == a + ":" + b + ":" + c
    requires t == (x * 60 + y) * 60 + z
    ensures ParseClock(s) == Some(t)
  {
    var m := a + ":" + b;
    var v := x * 60 + y;
    TwoFieldsRead(m, a, b, x, y, v);
    ParseClockJoin(s, m, c, v, z, t);
  }

  /** One unfolding of `ParseClock` at a known last colon. */
  lemma ParseClockAt(s: string, i: nat, v: nat, d: nat, t: nat)
    requires LastIndexOf(s, ':') == Some(i)
    requires i < |s| && ParseClock(s[..i]) == Some(v)
    requires AllDigits(s[i + 1..]) && |s[i + 1..]| > 0 && ParseDigits(s[i + 1..]) == d
    requires t == v * 60 + d
    ensures ParseClock(s) == Some(t)
  {
  }

  /** The last `c` of `a + [c] + b` is the one after `a` when `b` has none. */
  lemma LastIndexPast(a: string, c: char, b: string)
    requires c !in b
    ensures LastIndexOf(a + [c] + b, c) == Some(|a|)
  {
    var s := a + [c] + b;
    forall j | |a| < j < |s| ensures s[j] != c {
      assert s[j] == b[j - |a| - 1];
    }
    BelowPast(s, c, |a|, |s|);
  }

  lemma {:induction false} BelowPast(s: string, c: char, k: nat, n: nat)
    requires k < n <= |s| && s[k] == c
    requires forall j :: k < j < |s| ==> s[j] != c
    ensures LastIndexBelow(s, c, n) == Some(k)
    decreases n
  {
    if n - 1 != k {
      BelowPast(s, c, k, n - 1);
    }
  }

  lemma ParseClockDigits(s: string)
    requires AllDigits(s) && |s| > 0
    ensures ParseClock(s) == Some(ParseDigits(s))
  {
    assert ':' !in s by {
      forall i | 0 <= i < |s| ensures s[i] != ':' {
        assert IsDigit(s[i]);
      }
    }
    LastIndexAbsent(s, ':');
  }

  /** A character that does not occur has no last position. */
  lemma LastIndexAbsent(s: string, c: char)
    requires c !in s
    ensures LastIndexOf(s, c) == None
  {
    BelowAbsent(s, c, |s|);
  }

  lemma {:induction false} BelowAbsent(s: string, c: char, n: nat)
    requires n <= |s| && c !in s
    ensures LastIndexBelow(s, c, n) == None
    decreases n
  {
    if n > 0 {
      assert s[n - 1] in s;
      BelowAbsent(s, c, n - 1);
    }
  }
}
