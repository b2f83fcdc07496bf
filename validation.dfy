/**
 * The input validators of the backend. The regular-expression validators are
 * predicates stating what their pattern matches (a JavaScript RegExp without
 * flags, anchored by ^ and $), each with a lemma that characterises the
 * accepted strings in plain terms. The throwing validators return a Result
 * whose error is the ValidationError the source throws.
 */
module Validation {
  import opened Wrappers
  import opened Text
  import opened Errors

  // ---------------------------------------------------------------------------
  // JavaScript values as they reach a validator typed `any`
  // ---------------------------------------------------------------------------

  /** A JavaScript value: numbers are modelled as integers, plus `NaN`,
      whose `typeof` is also 'number'. */
  datatype JsValue =
    | Undefined
    | Null
    | Bool(b: bool)
    | Num(n: int)
    | NaN
    | Str(s: string)
    | Arr(items: seq<JsValue>)
    | Obj

  /** JavaScript truthiness. */
  predicate Truthy(v: JsValue)
  {
    match v
    case Undefined => false
    case Null => false
    case Bool(b) => b
    case Num(n) => n != 0
    case NaN => false
    case Str(s) => s != ""
    case Arr(_) => true
    case Obj => true
  }

  /** `String(v)`, the coercion `RegExp.prototype.test` applies to its argument. */
  function ToJsString(v: JsValue): string
    decreases v, 1
  {
    match v
    case Undefined => "undefined"
    case Null => "null"
    case Bool(b) => if b then "true" else "false"
    case Num(n) => IntToString(n)
    case NaN => "NaN"
    case Str(s) => s
    case Arr(items) => JoinElements(items, v)
    case Obj => "[object Object]"
  }

  /** `items.join(',')`, where null and undefined elements print as "". */
  function JoinElements(items: seq<JsValue>, ghost whole: JsValue): string
    requires forall i :: 0 <= i < |items| ==> items[i] < whole
    decreases whole, 0, |items|
  {
    if items == [] then ""
    else
      var first := if items[0].Undefined? || items[0].Null? then "" else ToJsString(items[0]);
      if |items| == 1 then first else first + "," + JoinElements(items[1..], whole)
  }

  // ---------------------------------------------------------------------------
  // Character classes of the patterns
  // ---------------------------------------------------------------------------

  /** The characters `\s` matches in a JavaScript RegExp. */
  predicate IsSpace(c: char)
  {
    || c == ' ' || c == '\t' || c == '\n' || c == '\r' || c == '\U{000B}' || c == '\U{000C}'
    || c == '\U{00A0}' || c == '\U{1680}' || ('\U{2000}' <= c <= '\U{200A}')
    || c == '\U{2028}' || c == '\U{2029}' || c == '\U{202F}' || c == '\U{205F}'
    || c == '\U{3000}' || c == '\U{FEFF}'
  }

  /** The characters `.` does not match. */
  predicate IsLineTerminator(c: char)
  {
    c == '\n' || c == '\r' || c == '\U{2028}' || c == '\U{2029}'
  }

  // ---------------------------------------------------------------------------
  // validatePhoneNumber: /^\+?[1-9]\d{1,14}$/
  // ---------------------------------------------------------------------------

  /** What follows the optional leading '+'. */
  function PhoneDigits(s: string): string
  {
    if |s| > 0 && s[0] == '+' then s[1..] else s
  }

  predicate ValidatePhoneNumber(s: string)
  {
    var d := PhoneDigits(s);
    2 <= |d| <= 15 && '1' <= d[0] <= '9' && AllDigits(d)
  }

  /** A valid phone number is an optional '+' followed by the decimal text of
      a number with 2 to 15 digits, and every such string is valid. */
  lemma PhoneNumberIsDecimal(s: string)
    ensures ValidatePhoneNumber(s) <==>
      || (exists n: nat :: 10 <= n < Pow10(15) && s == NatToString(n))
      || (exists n: nat :: 10 <= n < Pow10(15) && s == "+" + NatToString(n))
  {
    if ValidatePhoneNumber(s) {
      var n := PhoneNumberValue(s);
    } else {
      forall n: nat | 10 <= n < Pow10(15)
        ensures s != NatToString(n) && s != "+" + NatToString(n)
      {
        DecimalPhoneNumber(n);
      }
    }
  }

  /** The number a valid phone number spells. */
  lemma PhoneNumberValue(s: string) returns (n: nat)
    requires ValidatePhoneNumber(s)
    ensures 10 <= n < Pow10(15)
    ensures s == NatToString(n) || s == "+" + NatToString(n)
  {
    var d := PhoneDigits(s);
    NatToStringParse(d);
    n := ParseNat(d);
    Pow10Monotone(|d|, 15);
    assert Pow10(1) == 10;
    Pow10Monotone(1, |d| - 1);
    if |s| > 0 && s[0] == '+' {
      assert s == "+" + d;
    }
  }

  /** The decimal text of a number with 2 to 15 digits is a valid phone
      number, with or without a leading '+'. */
  lemma DecimalPhoneNumber(n: nat)
    requires 10 <= n < Pow10(15)
    ensures ValidatePhoneNumber(NatToString(n)) && ValidatePhoneNumber("+" + NatToString(n))
  {
    NatToStringFirst(n);
    DigitCountAbove(n, 1);
    DigitCountBelow(n, 15);
    PhoneDigitsValid(NatToString(n));
  }

  lemma PhoneDigitsValid(t: string)
    requires 2 <= |t| <= 15 && '1' <= t[0] <= '9' && AllDigits(t)
    ensures ValidatePhoneNumber(t) && ValidatePhoneNumber("+" + t)
  {
    assert PhoneDigits("+" + t) == t;
  }

  /** The empty string and numbers with a leading zero are rejected. */
  lemma PhoneNumberRejects(s: string)
    requires s == "" || s[0] == '0' || (|s| > 1 && s[0] == '+' && s[1] == '0')
    ensures !ValidatePhoneNumber(s)
  {
  }

  // ---------------------------------------------------------------------------
  // validateEmail: /^[^\s@]+@[^\s@]+\.[^\s@]+$/
  // ---------------------------------------------------------------------------

  predicate PlainChar(c: char) { !IsSpace(c) && c != '@' }

  /** The string matches `[^\s@]*`. */
  predicate Plain(t: string) { forall k :: 0 <= k < |t| ==> PlainChar(t[k]) }

  /** s splits as `[^\s@]+ @ [^\s@]+ \. [^\s@]+` with the '@' at i and the '.' at j. */
  predicate EmailSplit(s: string, i: nat, j: nat)
  {
    && 0 < i && i + 1 < j && j + 1 < |s|
    && s[i] == '@' && s[j] == '.'
    && Plain(s[..i]) && Plain(s[i + 1..j]) && Plain(s[j + 1..])
  }

  predicate ValidateEmail(s: string)
  {
    exists i: nat, j: nat | i < |s| && j < |s| :: EmailSplit(s, i, j)
  }

  /** An email is accepted exactly when it has no whitespace, exactly one '@'
      with something before it, and after the '@' a '.' with at least one
      character on each side. */
  lemma EmailShape(s: string)
    ensures ValidateEmail(s) <==>
      && (forall k :: 0 <= k < |s| ==> !IsSpace(s[k]))
      && exists i :: 0 < i < |s| && s[i] == '@'
           && (forall k :: 0 <= k < |s| && s[k] == '@' ==> k == i)
           && exists j :: i + 1 < j < |s| - 1 && s[j] == '.'
  {
    if ValidateEmail(s) {
      var i: nat, j: nat :| i < |s| && j < |s| && EmailSplit(s, i, j);
      forall k | 0 <= k < |s| ensures !IsSpace(s[k]) && (s[k] == '@' ==> k == i) {
        if k < i {
          assert s[..i][k] == s[k];
        } else if i < k < j {
          assert s[i + 1..j][k - i - 1] == s[k];
        } else if k > j {
          assert s[j + 1..][k - j - 1] == s[k];
        }
      }
    } else {
      if && (forall k :: 0 <= k < |s| ==> !IsSpace(s[k]))
         && exists i :: 0 < i < |s| && s[i] == '@'
              && (forall k :: 0 <= k < |s| && s[k] == '@' ==> k == i)
              && exists j :: i + 1 < j < |s| - 1 && s[j] == '.'
      {
        var i :| 0 < i < |s| && s[i] == '@'
              && (forall k :: 0 <= k < |s| && s[k] == '@' ==> k == i)
              && exists j :: i + 1 < j < |s| - 1 && s[j] == '.';
        var j :| i + 1 < j < |s| - 1 && s[j] == '.';
        assert EmailSplit(s, i, j);
        assert false;
      }
    }
  }

  // ---------------------------------------------------------------------------
  // validatePassword:
  //   /^(?=.*[a-z])(?=.*[A-Z])(?=.*\d)(?=.*[@$!%*?&])[A-Za-z\d@$!%*?&]{8,}$/
  // ---------------------------------------------------------------------------

  /** The character classes the four lookaheads search for. */
  datatype PasswordClass = LowerCase | UpperCase | DigitClass | Special

  predicate IsSpecial(c: char) { c in "@$!%*?&" }

  predicate InClass(c: char, k: PasswordClass)
  {
    match k
    case LowerCase => IsLower(c)
    case UpperCase => IsUpper(c)
    case DigitClass => IsDigit(c)
    case Special => IsSpecial(c)
  }

  predicate PasswordChar(c: char) { IsLetter(c) || IsDigit(c) || IsSpecial(c) }

  /** `(?=.*[class])` at the start of s: a character of the class occurs before
      any line terminator. */
  predicate Lookahead(s: string, k: PasswordClass)
  {
    exists i :: 0 <= i < |s| && InClass(s[i], k)
      && forall j :: 0 <= j < i ==> !IsLineTerminator(s[j])
  }

  predicate ValidatePassword(s: string)
  {
    && Lookahead(s, LowerCase) && Lookahead(s, UpperCase)
    && Lookahead(s, DigitClass) && Lookahead(s, Special)
    && |s| >= 8 && forall i :: 0 <= i < |s| ==> PasswordChar(s[i])
  }

  /** A password is accepted exactly when it has at least 8 characters, all
      letters, digits or one of @$!%*?&, and contains a lowercase letter, an
      uppercase letter, a digit and a special character. */
  lemma PasswordShape(s: string)
    ensures ValidatePassword(s) <==>
      && |s| >= 8
      && (forall i :: 0 <= i < |s| ==> PasswordChar(s[i]))
      && (exists i :: 0 <= i < |s| && IsLower(s[i]))
      && (exists i :: 0 <= i < |s| && IsUpper(s[i]))
      && (exists i :: 0 <= i < |s| && IsDigit(s[i]))
      && (exists i :: 0 <= i < |s| && IsSpecial(s[i]))
  {
    if && (forall i :: 0 <= i < |s| ==> PasswordChar(s[i])) {
      forall k: PasswordClass
        ensures Lookahead(s, k) <==> exists i :: 0 <= i < |s| && InClass(s[i], k)
      {
        if exists i :: 0 <= i < |s| && InClass(s[i], k) {
          var i :| 0 <= i < |s| && InClass(s[i], k);
          forall j | 0 <= j < i ensures !IsLineTerminator(s[j]) {
            assert PasswordChar(s[j]);
          }
        }
      }
      assert Lookahead(s, LowerCase) <==> exists i :: 0 <= i < |s| && IsLower(s[i]);
      assert Lookahead(s, UpperCase) <==> exists i :: 0 <= i < |s| && IsUpper(s[i]);
      assert Lookahead(s, DigitClass) <==> exists i :: 0 <= i < |s| && IsDigit(s[i]);
      assert Lookahead(s, Special) <==> exists i :: 0 <= i < |s| && IsSpecial(s[i]);
    }
  }

  // ---------------------------------------------------------------------------
  // validateTime: /^([01]\d|2[0-3]):([0-5]\d)$/
  // ---------------------------------------------------------------------------

  predicate ValidateTime(s: string)
  {
    && |s| == 5
    && (('0' <= s[0] <= '1' && IsDigit(s[1])) || (s[0] == '2' && '0' <= s[1] <= '3'))
    && s[2] == ':'
    && '0' <= s[3] <= '5' && IsDigit(s[4])
  }

  /** Two-digit zero-padded decimal text. */
  function Pad2(n: nat): string { PadStart(NatToString(n), 2, '0') }

  /** The accepted times are exactly HH:MM for hours 0..23 and minutes 0..59,
      each written with two digits. */
  lemma TimeShape(s: string)
    ensures ValidateTime(s) <==>
      exists h: nat, m: nat :: h < 24 && m < 60 && s == Pad2(h) + ":" + Pad2(m)
  {
    if ValidateTime(s) {
      var h, m := TimeParts(s);
    } else {
      forall h: nat, m: nat | h < 24 && m < 60 ensures s != Pad2(h) + ":" + Pad2(m) {
        TimeOfValid(h, m);
      }
    }
  }

  /** The hour and minute a valid time denotes. */
  lemma TimeParts(s: string) returns (h: nat, m: nat)
    requires ValidateTime(s)
    ensures h < 24 && m < 60 && s == Pad2(h) + ":" + Pad2(m)
  {
    h := TwoDigitValue(s[0], s[1]);
    m := TwoDigitValue(s[3], s[4]);
    SplitTime(s, Pad2(h), Pad2(m));
  }

  lemma SplitTime(s: string, p: string, q: string)
    requires |s| == 5 && s[2] == ':' && p == [s[0], s[1]] && q == [s[3], s[4]]
    ensures s == p + ":" + q
  {
    assert s == [s[0], s[1]] + ":" + [s[3], s[4]];
  }

  /** Two digit characters read as a number whose Pad2 gives them back. */
  lemma TwoDigitValue(a: char, b: char) returns (n: nat)
    requires IsDigit(a) && IsDigit(b)
    ensures n == DigitValue(a) * 10 + DigitValue(b) && n < 100
    ensures Pad2(n) == [a, b]
  {
    n := DigitValue(a) * 10 + DigitValue(b);
    assert n / 10 == DigitValue(a) && n % 10 == DigitValue(b);
    TwoDigits(n);
  }

  lemma TimeOfValid(h: nat, m: nat)
    requires h < 24 && m < 60
    ensures ValidateTime(Pad2(h) + ":" + Pad2(m))
  {
    TwoDigits(h);
    TwoDigits(m);
    assert h / 10 <= 2 && (h / 10 == 2 ==> h % 10 <= 3) && m / 10 <= 5;
  }

  // ---------------------------------------------------------------------------
  // validateDate / validateDateTime: the pattern, then JavaScript's Date parser
  // ---------------------------------------------------------------------------

  /** /^\d{4}-\d{2}-\d{2}$/ */
  predicate DateShape(s: string)
  {
    && |s| == 10 && s[4] == '-' && s[7] == '-'
    && forall i :: 0 <= i < 10 && i != 4 && i != 7 ==> IsDigit(s[i])
  }

  /** `validateDate`: the calendar check (`!isNaN(new Date(s).getTime())`) is
      the `parses` argument. */
  function ValidateDate(s: string, parses: string -> bool): (r: bool)
    ensures r <==> DateShape(s) && parses(s)
    ensures r ==> |s| == 10 && s[4] == '-' && s[7] == '-'
  {
    DateShape(s) && parses(s)
  }

  /** /^\d{4}-\d{2}-\d{2}T([01]\d|2[0-3]):([0-5]\d):([0-5]\d)Z$/ */
  predicate DateTimeShape(s: string)
  {
    && |s| == 20
    && DateShape(s[..10])
    && s[10] == 'T'
    && ValidateTime(s[11..16])
    && s[16] == ':' && '0' <= s[17] <= '5' && IsDigit(s[18])
    && s[19] == 'Z'
  }

  function ValidateDateTime(s: string, parses: string -> bool): (r: bool)
    ensures r <==> DateTimeShape(s) && parses(s)
    ensures r ==> |s| == 20 && s[10] == 'T' && s[19] == 'Z' && ValidateTime(s[11..16])
  {
    DateTimeShape(s) && parses(s)
  }

  /** Four-digit zero-padded decimal text. */
  function Pad4(n: nat): string { PadStart(NatToString(n), 4, '0') }

  /** Four-digit zero padding of a number below 10000 is its four digits. */
  lemma FourDigits(n: nat)
    requires n < 10000
    ensures Pad4(n) == [DigitChar(n / 1000), DigitChar(n / 100 % 10), DigitChar(n / 10 % 10), DigitChar(n % 10)]
  {
    HundredsSplit(n);
    TwoDigits(n / 100);
    TwoDigits(n % 100);
    PadFourSplit(n);
  }

  /** Four-digit padding is the two-digit padding of the hundreds followed by
      that of the rest. */
  lemma PadFourSplit(n: nat)
    requires n < 10000
    ensures Pad4(n) == Pad2(n / 100) + Pad2(n % 100)
  {
    var q := n / 100;
    TwoDigits(q);
    TwoDigits(n % 100);
    if n >= 100 {
      NatToStringHundreds(n);
      PadFourOfParts(NatToString(n), NatToString(q), Pad2(n % 100));
    } else {
      assert q == 0 && n % 100 == n;
      PadFourShort(NatToString(n));
      assert Pad2(0) == "00";
    }
  }

  /** Text of one or two leading characters and two more, padded to four,
      is the leading part padded to two followed by the rest. */
  lemma PadFourOfParts(t: string, hi: string, lo: string)
    requires t == hi + lo && |lo| == 2 && 1 <= |hi| <= 2
    ensures PadStart(t, 4, '0') == PadStart(hi, 2, '0') + lo
  {
    if |hi| == 2 {
      PadStartFull(t, 4, '0');
      PadStartFull(hi, 2, '0');
    } else {
      PadStartCons(t, 4, '0');
      PadStartFull(t, 3, '0');
      PadStartCons(hi, 2, '0');
      PadStartFull(hi, 1, '0');
    }
  }

  /** Text of at most two characters, padded to four, is two zeros followed
      by its padding to two. */
  lemma PadFourShort(t: string)
    requires |t| <= 2
    ensures PadStart(t, 4, '0') == "00" + PadStart(t, 2, '0')
  {
    PadStartCons(t, 4, '0');
    PadStartCons(t, 3, '0');
  }

  /** Padding text that already has the width changes nothing. */
  lemma PadStartFull(s: string, width: nat, fill: char)
    requires |s| >= width
    ensures PadStart(s, width, fill) == s
  {
  }

  /** Padding text shorter than the width puts one fill character in front of
      the padding to one less. */
  lemma PadStartCons(s: string, width: nat, fill: char)
    requires |s| < width
    ensures PadStart(s, width, fill) == [fill] + PadStart(s, width - 1, fill)
  {
    var r := PadStart(s, width, fill);
    var t := [fill] + PadStart(s, width - 1, fill);
    assert |r| == |t| == width;
    forall i | 0 <= i < width ensures r[i] == t[i] {
      if i >= width - |s| {
        assert r[i] == r[width - |s|..][i - (width - |s|)];
        assert t[i] == t[width - |s|..][i - (width - |s|)];
      }
    }
  }

  /** The four digits of a number below 10000, by its hundreds and its rest. */
  lemma HundredsSplit(n: nat)
    requires n < 10000
    ensures n / 100 < 100
    ensures n / 1000 == n / 100 / 10
    ensures n / 10 % 10 == n % 100 / 10 && n % 10 == n % 100 % 10
  {
  }

  /** The decimal text of a number of three digits or more is that of its
      hundreds followed by its last two digits. */
  lemma NatToStringHundreds(n: nat)
    requires n >= 100
    ensures NatToString(n) == NatToString(n / 100) + Pad2(n % 100)
  {
    TwoDigits(n % 100);
    assert n / 10 / 10 == n / 100 && n / 10 % 10 == n % 100 / 10 && n % 10 == n % 100 % 10;
    assert NatToString(n) == NatToString(n / 10) + [DigitChar(n % 10)];
    assert NatToString(n / 10) == NatToString(n / 100) + [DigitChar(n / 10 % 10)];
  }

  /** Four digit characters read as a number whose Pad4 gives them back. */
  lemma FourDigitValue(a: char, b: char, c: char, d: char) returns (n: nat)
    requires IsDigit(a) && IsDigit(b) && IsDigit(c) && IsDigit(d)
    ensures n < 10000 && Pad4(n) == [a, b, c, d]
  {
    var hi := TwoDigitValue(a, b);
    var lo := TwoDigitValue(c, d);
    n := hi * 100 + lo;
    assert n / 100 == hi && n % 100 == lo;
    PadFourSplit(n);
  }

  /** The text of a date from its fields. */
  function DateText(y: nat, mo: nat, d: nat): string
  {
    Pad4(y) + "-" + Pad2(mo) + "-" + Pad2(d)
  }

  /** The year, month and day fields of a string of the date shape. */
  lemma DateParts(s: string) returns (y: nat, mo: nat, d: nat)
    requires DateShape(s)
    ensures y < 10000 && mo < 100 && d < 100
    ensures s == DateText(y, mo, d)
  {
    assert IsDigit(s[0]) && IsDigit(s[1]) && IsDigit(s[2]) && IsDigit(s[3]);
    assert IsDigit(s[5]) && IsDigit(s[6]) && IsDigit(s[8]) && IsDigit(s[9]);
    y := FourDigitValue(s[0], s[1], s[2], s[3]);
    mo := TwoDigitValue(s[5], s[6]);
    d := TwoDigitValue(s[8], s[9]);
    SplitDate(s, Pad4(y), Pad2(mo), Pad2(d));
  }

  lemma SplitDate(s: string, p: string, q: string, r: string)
    requires |s| == 10 && s[4] == '-' && s[7] == '-'
    requires p == [s[0], s[1], s[2], s[3]] && q == [s[5], s[6]] && r == [s[8], s[9]]
    ensures s == p + "-" + q + "-" + r
  {
    assert s == s[..4] + [s[4]] + s[5..7] + [s[7]] + s[8..];
  }

  /** Every year below 10000 and month and day below 100, padded, has the
      date shape. */
  lemma DateOfFields(y: nat, mo: nat, d: nat)
    requires y < 10000 && mo < 100 && d < 100
    ensures DateShape(DateText(y, mo, d))
  {
    FourDigits(y);
    TwoDigits(mo);
    TwoDigits(d);
    JoinedDateShape(Pad4(y), Pad2(mo), Pad2(d));
  }

  lemma JoinedDateShape(p: string, q: string, r: string)
    requires |p| == 4 && |q| == 2 && |r| == 2 && AllDigits(p) && AllDigits(q) && AllDigits(r)
    ensures DateShape(p + "-" + q + "-" + r)
  {
    var s := p + "-" + q + "-" + r;
    assert s[..4] == p && s[5..7] == q && s[8..] == r;
    forall i | 0 <= i < 10 && i != 4 && i != 7 ensures IsDigit(s[i]) {
      if i < 4 { assert s[i] == p[i]; }
      else if i < 7 { assert s[i] == q[i - 5]; }
      else { assert s[i] == r[i - 8]; }
    }
  }

  /** The date shape accepts exactly a four-digit year, a dash, a two-digit
      month, a dash and a two-digit day; the pattern bounds neither the month
      nor the day, which is left to the calendar check. */
  lemma DateShapeSpec(s: string)
    ensures DateShape(s) <==>
      exists y: nat, mo: nat, d: nat :: y < 10000 && mo < 100 && d < 100 && s == DateText(y, mo, d)
  {
    if DateShape(s) {
      var y, mo, d := DateParts(s);
    } else {
      forall y: nat, mo: nat, d: nat | y < 10000 && mo < 100 && d < 100
        ensures s != DateText(y, mo, d)
      {
        DateOfFields(y, mo, d);
      }
    }
  }

  /** The text of a date-time from its fields. */
  function DateTimeText(y: nat, mo: nat, d: nat, h: nat, mi: nat, sec: nat): string
  {
    DateText(y, mo, d) + "T" + Pad2(h) + ":" + Pad2(mi) + ":" + Pad2(sec) + "Z"
  }

  /** The fields of a string of the date-time shape. */
  lemma DateTimeParts(s: string) returns (y: nat, mo: nat, d: nat, h: nat, mi: nat, sec: nat)
    requires DateTimeShape(s)
    ensures y < 10000 && mo < 100 && d < 100 && h < 24 && mi < 60 && sec < 60
    ensures s == DateTimeText(y, mo, d, h, mi, sec)
  {
    y, mo, d := DateParts(s[..10]);
    h, mi := TimeParts(s[11..16]);
    sec := TwoDigitValue(s[17], s[18]);
    SplitDateTime(s, DateText(y, mo, d), Pad2(h), Pad2(mi), Pad2(sec));
  }

  lemma SplitDateTime(s: string, date: string, hh: string, mm: string, r: string)
    requires |s| == 20 && s[10] == 'T' && s[16] == ':' && s[19] == 'Z'
    requires date == s[..10] && hh + ":" + mm == s[11..16] && r == [s[17], s[18]]
    ensures s == date + "T" + hh + ":" + mm + ":" + r + "Z"
  {
    assert s == s[..10] + [s[10]] + s[11..16] + [s[16]] + s[17..19] + [s[19]];
  }

  /** Every date-time built from in-range fields has the date-time shape. */
  lemma DateTimeOfFields(y: nat, mo: nat, d: nat, h: nat, mi: nat, sec: nat)
    requires y < 10000 && mo < 100 && d < 100 && h < 24 && mi < 60 && sec < 60
    ensures DateTimeShape(DateTimeText(y, mo, d, h, mi, sec))
  {
    DateOfFields(y, mo, d);
    TimeOfValid(h, mi);
    SecondsText(sec);
    TwoDigits(h);
    TwoDigits(mi);
    JoinedDateTimeShape(DateText(y, mo, d), Pad2(h), Pad2(mi), Pad2(sec));
  }

  /** Two-digit seconds below 60 start with a digit no greater than 5. */
  lemma SecondsText(sec: nat)
    requires sec < 60
    ensures |Pad2(sec)| == 2 && '0' <= Pad2(sec)[0] <= '5' && IsDigit(Pad2(sec)[1])
  {
    TwoDigits(sec);
  }

  lemma JoinedDateTimeShape(date: string, hh: string, mm: string, r: string)
    requires DateShape(date) && |hh| == 2 && |mm| == 2 && ValidateTime(hh + ":" + mm)
    requires |r| == 2 && '0' <= r[0] <= '5' && IsDigit(r[1])
    ensures DateTimeShape(date + "T" + hh + ":" + mm + ":" + r + "Z")
  {
    var s := date + "T" + hh + ":" + mm + ":" + r + "Z";
    assert s[..10] == date && s[11..16] == hh + ":" + mm && s[17] == r[0] && s[18] == r[1];
  }

  /** The date-time shape accepts exactly a padded date, `T`, an hour below
      24, a minute and a second below 60, each two digits, and `Z`. */
  lemma DateTimeShapeSpec(s: string)
    ensures DateTimeShape(s) <==>
      exists y: nat, mo: nat, d: nat, h: nat, mi: nat, sec: nat ::
        y < 10000 && mo < 100 && d < 100 && h < 24 && mi < 60 && sec < 60 && s == DateTimeText(y, mo, d, h, mi, sec)
  {
    if DateTimeShape(s) {
      var y, mo, d, h, mi, sec := DateTimeParts(s);
    } else {
      forall y: nat, mo: nat, d: nat, h: nat, mi: nat, sec: nat
        | y < 10000 && mo < 100 && d < 100 && h < 24 && mi < 60 && sec < 60
        ensures s != DateTimeText(y, mo, d, h, mi, sec)
      {
        DateTimeOfFields(y, mo, d, h, mi, sec);
      }
    }
  }

  /** `validateDateRange`: both strings go through JavaScript's Date parser,
      here the `timeOf` argument (None for an Invalid Date, whose comparisons
      are all false), and the range is valid when start is not after end. */
  function ValidateDateRange(startDate: string, endDate: string, timeOf: string -> Option<int>): (r: bool)
    ensures r <==> timeOf(startDate).Some? && timeOf(endDate).Some? && timeOf(startDate).value <= timeOf(endDate).value
    ensures timeOf(startDate).Some? && startDate == endDate ==> r
  {
    var start := timeOf(startDate);
    var end := timeOf(endDate);
    start.Some? && end.Some? && start.value <= end.value
  }

  // ---------------------------------------------------------------------------
  // Throwing validators
  // ---------------------------------------------------------------------------

  /** The error every single-field validator throws: note that the key is the
      literal string "fieldName", not the field's name. */
  function FieldError(message: string): (t: Thrown)
    ensures t.App? && t.err.cls == Validation && t.err.errors == map["fieldName" := [message]]
  {
    App(ValidationError(map["fieldName" := [message]]))
  }

  function ValidateRequired(value: JsValue, fieldName: string): (r: Result<()>)
    ensures r.Err? <==> value.Undefined? || value.Null? || value == Str("")
    ensures r.Err? ==> r.error == FieldError(fieldName + " is required")
  {
    if value.Undefined? || value.Null? || value == Str("") then Err(FieldError(fieldName + " is required"))
    else Ok(())
  }

  /** `validateLength`, over JavaScript's length in UTF-16 code units. */
  function ValidateLength(value: string, fieldName: string, min: int, max: int): (r: Result<()>)
    ensures r.Ok? <==> min <= Utf16Length(value) <= max
    ensures r.Err? ==> r.error == FieldError(
      fieldName + " must be between " + IntToString(min) + " and " + IntToString(max) + " characters")
  {
    if Utf16Length(value) < min || Utf16Length(value) > max then
      Err(FieldError(fieldName + " must be between " + IntToString(min) + " and " + IntToString(max) + " characters"))
    else Ok(())
  }

  /** Three emoji are six code units long, so they fail a limit of five
      characters, while a string without astral characters is measured by its
      characters. */
  lemma AstralLength(value: string, fieldName: string)
    ensures ValidateLength("\U{1F600}\U{1F600}\U{1F600}", fieldName, 1, 5).Err?
    ensures (forall i :: 0 <= i < |value| ==> !Astral(value[i])) ==>
      (ValidateLength(value, fieldName, 1, 5).Ok? <==> 1 <= |value| <= 5)
  {
    Utf16LengthAstral("\U{1F600}\U{1F600}\U{1F600}");
    if forall i :: 0 <= i < |value| ==> !Astral(value[i]) {
      Utf16LengthBmp(value);
    }
  }

  function ValidateEnum(value: string, fieldName: string, enumValues: seq<string>): (r: Result<()>)
    ensures r.Ok? <==> value in enumValues
    ensures r.Err? ==> r.error == FieldError(fieldName + " must be one of: " + Join(enumValues, ", "))
  {
    if value !in enumValues then Err(FieldError(fieldName + " must be one of: " + Join(enumValues, ", ")))
    else Ok(())
  }

  function NotNumberMessage(fieldName: string): string { fieldName + " must be a number" }
  function BelowMinMessage(fieldName: string, min: int): string
  {
    fieldName + " must be greater than or equal to " + IntToString(min)
  }
  function AboveMaxMessage(fieldName: string, max: int): string
  {
    fieldName + " must be less than or equal to " + IntToString(max)
  }

  /** `validateNumber`: the type check (which `NaN` fails too), then the
      lower bound, then the upper bound; the first failing check decides the
      one message. */
  function ValidateNumber(value: JsValue, fieldName: string, min: Option<int>, max: Option<int>): (r: Result<()>)
    ensures r.Ok? <==> value.Num? && (min.Some? ==> min.value <= value.n) && (max.Some? ==> value.n <= max.value)
    ensures !value.Num? ==> r == Err(FieldError(NotNumberMessage(fieldName)))
    ensures value.NaN? ==> r == Err(FieldError(NotNumberMessage(fieldName)))
    ensures value.Num? && min.Some? && value.n < min.value ==>
      r == Err(FieldError(BelowMinMessage(fieldName, min.value)))
    ensures value.Num? && (min.Some? ==> min.value <= value.n) && max.Some? && value.n > max.value ==>
      r == Err(FieldError(AboveMaxMessage(fieldName, max.value)))
  {
    if !value.Num? then Err(FieldError(NotNumberMessage(fieldName)))
    else if min.Some? && value.n < min.value then Err(FieldError(BelowMinMessage(fieldName, min.value)))
    else if max.Some? && value.n > max.value then Err(FieldError(AboveMaxMessage(fieldName, max.value)))
    else Ok(())
  }

  function NotArrayMessage(fieldName: string): string { fieldName + " must be an array" }
  function TooFewMessage(fieldName: string, min: int): string
  {
    fieldName + " must have at least " + IntToString(min) + " items"
  }
  function TooManyMessage(fieldName: string, max: int): string
  {
    fieldName + " must have at most " + IntToString(max) + " items"
  }

  /** `validateArray`: same structure as ValidateNumber, over the length. */
  function ValidateArray(value: JsValue, fieldName: string, minLength: Option<int>, maxLength: Option<int>): (r: Result<()>)
    ensures r.Ok? <==>
      value.Arr? && (minLength.Some? ==> minLength.value <= |value.items|)
      && (maxLength.Some? ==> |value.items| <= maxLength.value)
    ensures !value.Arr? ==> r == Err(FieldError(NotArrayMessage(fieldName)))
    ensures value.Arr? && minLength.Some? && |value.items| < minLength.value ==>
      r == Err(FieldError(TooFewMessage(fieldName, minLength.value)))
    ensures (value.Arr? && (minLength.Some? ==> minLength.value <= |value.items|)
             && maxLength.Some? && |value.items| > maxLength.value) ==>
      r == Err(FieldError(TooManyMessage(fieldName, maxLength.value)))
  {
    if !value.Arr? then Err(FieldError(NotArrayMessage(fieldName)))
    else if minLength.Some? && |value.items| < minLength.value then
      Err(FieldError(TooFewMessage(fieldName, minLength.value)))
    else if maxLength.Some? && |value.items| > maxLength.value then
      Err(FieldError(TooManyMessage(fieldName, maxLength.value)))
    else Ok(())
  }

  /** Whichever validator failed, the error map has the single key
      "fieldName" holding a single message, and the response is a 422. */
  lemma SingleFieldErrorShape(r: Result<()>, message: string)
    requires r == Err(FieldError(message))
    ensures HandleError(r.error).statusCode == 422 && HandleError(r.error).status == Fail
    ensures HandleError(r.error).errors == Some(map["fieldName" := [message]])
    ensures |HandleError(r.error).errors.value.Keys| == 1
  {
    assert HandleError(r.error).errors.value.Keys == {"fieldName"};
  }

  // ---------------------------------------------------------------------------
  // Boolean bound and membership checks
  // ---------------------------------------------------------------------------

  function ValidatePagination(page: int, limit: int): (r: bool)
    ensures r <==> 0 < page && 0 < limit <= 100
  {
    page > 0 && limit > 0 && limit <= 100
  }

  const CallStatuses: seq<string> := ["pending", "in_progress", "completed", "failed"]
  const SubscriptionStatuses: seq<string> := ["active", "canceled", "past_due", "trialing"]
  const SubscriptionPlans: seq<string> := ["free", "basic", "premium", "enterprise"]
  const AnalyticsIntervals: seq<string> := ["day", "week", "month"]
  const Sentiments: seq<string> := ["positive", "neutral", "negative"]

  predicate ValidateCallStatus(status: string) { status in CallStatuses }
  predicate ValidateBulkCallStatus(status: string) { status in CallStatuses }
  predicate ValidateSubscriptionStatus(status: string) { status in SubscriptionStatuses }
  predicate ValidateSubscriptionPlan(plan: string) { plan in SubscriptionPlans }
  predicate ValidateAnalyticsInterval(interval: string) { interval in AnalyticsIntervals }
  predicate ValidateSentiment(sentiment: string) { sentiment in Sentiments }

  /** The membership checks accept exactly their listed values; in particular
      the analytics interval list has no "hour", although the trend routes
      accept one, and bulk-call statuses are the call statuses. */
  lemma MembershipChecks(s: string)
    ensures ValidateCallStatus(s) <==> s == "pending" || s == "in_progress" || s == "completed" || s == "failed"
    ensures ValidateBulkCallStatus(s) <==> ValidateCallStatus(s)
    ensures ValidateSubscriptionStatus(s) <==> s == "active" || s == "canceled" || s == "past_due" || s == "trialing"
    ensures ValidateSubscriptionPlan(s) <==> s == "free" || s == "basic" || s == "premium" || s == "enterprise"
    ensures ValidateAnalyticsInterval(s) <==> s == "day" || s == "week" || s == "month"
    ensures ValidateSentiment(s) <==> s == "positive" || s == "neutral" || s == "negative"
    ensures !ValidateAnalyticsInterval("hour")
  {
  }

  // ---------------------------------------------------------------------------
  // The composite validators
  // ---------------------------------------------------------------------------

  datatype SettingsInput = SettingsInput(
    language: JsValue,
    timezone: JsValue,
    notificationEmail: JsValue,
    notificationPhone: JsValue)

  predicate LanguageFails(v: JsValue) { Truthy(v) && !v.Str? }
  predicate TimezoneFails(v: JsValue) { Truthy(v) && !v.Str? }
  predicate NotificationEmailFails(v: JsValue) { Truthy(v) && !ValidateEmail(ToJsString(v)) }
  predicate NotificationPhoneFails(v: JsValue) { Truthy(v) && !ValidatePhoneNumber(ToJsString(v)) }

  /** The names of the fields whose check failed. */
  function FailedSettings(language: bool, timezone: bool, email: bool, phone: bool): set<string>
  {
    (if language then {"language"} else {})
    + (if timezone then {"timezone"} else {})
    + (if email then {"notificationEmail"} else {})
    + (if phone then {"notificationPhone"} else {})
  }

  /** The names of the settings fields that fail their check. */
  function SettingsFailures(s: SettingsInput): set<string>
  {
    FailedSettings(LanguageFails(s.language), TimezoneFails(s.timezone),
                   NotificationEmailFails(s.notificationEmail), NotificationPhoneFails(s.notificationPhone))
  }

  /** The `errors` object `validateUserSettings` builds from the outcome of
      each field's check. */
  method CollectSettingsErrors(language: bool, timezone: bool, email: bool, phone: bool)
    returns (errors: ErrorMap)
    ensures errors.Keys == FailedSettings(language, timezone, email, phone)
    ensures "language" in errors ==> errors["language"] == ["Language must be a string"]
    ensures "timezone" in errors ==> errors["timezone"] == ["Timezone must be a string"]
    ensures "notificationEmail" in errors ==> errors["notificationEmail"] == ["Invalid email format"]
    ensures "notificationPhone" in errors ==> errors["notificationPhone"] == ["Invalid phone number format"]
  {
    errors := map[];
    if language {
      errors := errors["language" := ["Language must be a string"]];
    }
    if timezone {
      errors := errors["timezone" := ["Timezone must be a string"]];
    }
    if email {
      errors := errors["notificationEmail" := ["Invalid email format"]];
    }
    if phone {
      errors := errors["notificationPhone" := ["Invalid phone number format"]];
    }
  }

  /** `validateUserSettings`: every failing field is reported, in one error. */
  method ValidateUserSettings(settings: SettingsInput) returns (r: Result<()>)
    ensures r.Ok? <==> SettingsFailures(settings) == {}
    ensures r.Err? ==> r.error.App? && r.error.err.cls == Validation
    ensures r.Err? ==> r.error.err.errors.Keys == SettingsFailures(settings)
    ensures r.Err? && "language" in r.error.err.errors ==>
      r.error.err.errors["language"] == ["Language must be a string"]
    ensures r.Err? && "timezone" in r.error.err.errors ==>
      r.error.err.errors["timezone"] == ["Timezone must be a string"]
    ensures r.Err? && "notificationEmail" in r.error.err.errors ==>
      r.error.err.errors["notificationEmail"] == ["Invalid email format"]
    ensures r.Err? && "notificationPhone" in r.error.err.errors ==>
      r.error.err.errors["notificationPhone"] == ["Invalid phone number format"]
  {
    var errors := CollectSettingsErrors(
      LanguageFails(settings.language), TimezoneFails(settings.timezone),
      NotificationEmailFails(settings.notificationEmail), NotificationPhoneFails(settings.notificationPhone));
    assert |errors| == 0 <==> errors == map[];
    if |errors| > 0 {
      r := Err(App(ValidationError(errors)));
    } else {
      r := Ok(());
    }
  }

  /** A field that is absent, null, false, 0 or the empty string never fails. */
  lemma FalsySettingsNeverFail(s: SettingsInput)
    ensures !Truthy(s.language) ==> "language" !in SettingsFailures(s)
    ensures !Truthy(s.timezone) ==> "timezone" !in SettingsFailures(s)
    ensures !Truthy(s.notificationEmail) ==> "notificationEmail" !in SettingsFailures(s)
    ensures !Truthy(s.notificationPhone) ==> "notificationPhone" !in SettingsFailures(s)
    ensures SettingsFailures(SettingsInput(Undefined, Undefined, Undefined, Undefined)) == {}
  {
  }

  datatype ProfileInput = ProfileInput(name: JsValue, email: JsValue)

  predicate NameFails(v: JsValue) { !Truthy(v) || !v.Str? }
  predicate EmailFails(v: JsValue) { !Truthy(v) || !ValidateEmail(ToJsString(v)) }

  function ProfileFailures(p: ProfileInput): set<string>
  {
    (if NameFails(p.name) then {"name"} else {}) + (if EmailFails(p.email) then {"email"} else {})
  }

  /** `validateUserProfile` */
  method ValidateUserProfile(profile: ProfileInput) returns (r: Result<()>)
    ensures r.Ok? <==> ProfileFailures(profile) == {}
    ensures r.Err? ==> r.error.App? && r.error.err.cls == Validation
    ensures r.Err? ==> r.error.err.errors.Keys == ProfileFailures(profile)
    ensures r.Err? && "name" in r.error.err.errors ==>
      r.error.err.errors["name"] == ["Name is required and must be a string"]
    ensures r.Err? && "email" in r.error.err.errors ==>
      r.error.err.errors["email"] == ["Valid email is required"]
  {
    var errors: ErrorMap := map[];
    if NameFails(profile.name) {
      errors := errors["name" := ["Name is required and must be a string"]];
    }
    if EmailFails(profile.email) {
      errors := errors["email" := ["Valid email is required"]];
    }
    assert errors.Keys == ProfileFailures(profile);
    assert |errors| == 0 <==> errors == map[];
    if |errors| > 0 {
      r := Err(App(ValidationError(errors)));
    } else {
      r := Ok(());
    }
  }

  /** The profile passes exactly when the name is a non-empty string and the
      email is a string the email check accepts. */
  lemma ProfileAccepts(p: ProfileInput)
    ensures ProfileFailures(p) == {} <==>
      p.name.Str? && p.name.s != "" && Truthy(p.email) && ValidateEmail(ToJsString(p.email))
  {
    if ProfileFailures(p) == {} {
      assert "name" !in ProfileFailures(p);
      assert "email" !in ProfileFailures(p);
    }
  }
}
