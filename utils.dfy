/** The display and validation helpers of `sample-code/utils.js`:
    `formatPhoneNumber` and `isValidEmail`. */
module Utils {
  import opened Js

  // ---------------------------------------------------------------------
  // formatPhoneNumber
  // ---------------------------------------------------------------------

  /** A character matched by the regular-expression class `\d` (ASCII digits only). */
  predicate IsDigit(c: char) {
    '0' <= c <= '9'
  }

  predicate AllDigits(s: string) {
    forall i :: 0 <= i < |s| ==> IsDigit(s[i])
  }

  /** `s.replace(/\D/g, '')`: the digits of `s`, in order. */
  function Digits(s: string): (d: string)
    ensures |d| <= |s|
    ensures AllDigits(d)
  {
    if s == [] then []
    else if IsDigit(s[0]) then [s[0]] + Digits(s[1..])
    else Digits(s[1..])
  }

  /** Removing non-digits distributes over concatenation. */
  lemma {:induction false} DigitsAppend(a: string, b: string)
    ensures Digits(a + b) == Digits(a) + Digits(b)
  {
    if a == [] {
      assert a + b == b;
    } else {
      assert (a + b)[0] == a[0];
      assert (a + b)[1..] == a[1..] + b;
      DigitsAppend(a[1..], b);
    }
  }

  /** A string made of digits only is left as it is. */
  lemma {:induction false} DigitsOfDigits(s: string)
    requires AllDigits(s)
    ensures Digits(s) == s
  {
    if s != [] {
      DigitsOfDigits(s[1..]);
    }
  }

  /** A string without digits has no digits to keep. */
  lemma {:induction false} DigitsOfNonDigits(s: string)
    requires forall i :: 0 <= i < |s| ==> !IsDigit(s[i])
    ensures Digits(s) == ""
  {
    if s != [] {
      DigitsOfNonDigits(s[1..]);
    }
  }

  /** The positions of the display form `(AAA) BBB-CCCC` that hold digits. */
  predicate IsDigitSlot(i: int) {
    1 <= i < 4 || 6 <= i < 9 || 10 <= i < 14
  }

  /** `r` has the display form `(AAA) BBB-CCCC`. */
  predicate IsFormatted(r: string) {
    |r| == 14 && r[0] == '(' && r[4] == ')' && r[5] == ' ' && r[9] == '-' &&
    forall i :: 0 <= i < 14 && IsDigitSlot(i) ==> IsDigit(r[i])
  }

  /** The template `(${d.slice(0, 3)}) ${d.slice(3, 6)}-${d.slice(6)}`. */
  function Render(d: string): string
    requires |d| == 10
  {
    "(" + d[..3] + ") " + d[3..6] + "-" + d[6..]
  }

  /** The digits of `(a) b-c`, for digit strings `a`, `b`, `c`, are `a + b + c`. */
  lemma DigitsOfDisplay(a: string, b: string, c: string)
    requires AllDigits(a) && AllDigits(b) && AllDigits(c)
    ensures Digits("(" + a + ") " + b + "-" + c) == a + b + c
  {
    var open, close, dash := "(", ") ", "-";
    DigitsOfNonDigits(open);
    DigitsOfNonDigits(close);
    DigitsOfNonDigits(dash);
    DigitsOfDigits(a);
    DigitsOfDigits(b);
    DigitsOfDigits(c);
    var p1 := open + a;
    DigitsAppend(open, a);
    assert Digits(p1) == a;
    var p2 := p1 + close;
    DigitsAppend(p1, close);
    assert Digits(p2) == a;
    var p3 := p2 + b;
    DigitsAppend(p2, b);
    assert Digits(p3) == a + b;
    var p4 := p3 + dash;
    DigitsAppend(p3, dash);
    assert Digits(p4) == a + b;
    DigitsAppend(p4, c);
  }

  /** Rendering ten digits gives the display form, and keeps the digits in order. */
  lemma RenderDigits(d: string)
    requires |d| == 10 && AllDigits(d)
    ensures IsFormatted(Render(d))
    ensures Digits(Render(d)) == d
  {
    var r := Render(d);
    forall i | 0 <= i < 14 && IsDigitSlot(i)
      ensures IsDigit(r[i])
    {
      if i < 4 { assert r[i] == d[i - 1]; }
      else if i < 9 { assert r[i] == d[i - 3]; }
      else { assert r[i] == d[i - 4]; }
    }
    DigitsOfDisplay(d[..3], d[3..6], d[6..]);
    assert d[..3] + d[3..6] + d[6..] == d;
  }

  /** A string already in display form is the rendering of its own digits. */
  lemma FormattedIsRendered(r: string)
    requires IsFormatted(r)
    ensures |Digits(r)| == 10
    ensures Render(Digits(r)) == r
  {
    var a, b, c := r[1..4], r[6..9], r[10..];
    assert AllDigits(a) by {
      forall i | 0 <= i < 3 ensures IsDigit(a[i]) { assert IsDigitSlot(i + 1); }
    }
    assert AllDigits(b) by {
      forall i | 0 <= i < 3 ensures IsDigit(b[i]) { assert IsDigitSlot(i + 6); }
    }
    assert AllDigits(c) by {
      forall i | 0 <= i < 4 ensures IsDigit(c[i]) { assert IsDigitSlot(i + 10); }
    }
    assert r == "(" + a + ") " + b + "-" + c;
    DigitsOfDisplay(a, b, c);
    var d := a + b + c;
    assert d[..3] == a && d[3..6] == b && d[6..] == c;
  }

  /** `formatPhoneNumber(phone)`: `''` for a falsy input; the display form
      `(AAA) BBB-CCCC` of its digits when it has exactly ten; otherwise the
      input itself. */
  function FormatPhoneNumber(phone: Value): (r: string)
    ensures !Truthy(phone) ==> r == ""
    ensures phone.Str? && |Digits(phone.s)| != 10 ==> r == phone.s
    ensures phone.Str? && |Digits(phone.s)| == 10 ==>
              IsFormatted(r) && Digits(r) == Digits(phone.s)
  {
    if !Truthy(phone) then ""
    else
      var cleaned := Digits(phone.s);
      if |cleaned| == 10 then
        RenderDigits(cleaned);
        Render(cleaned)
      else phone.s
  }

  /** Every string in display form is left unchanged by formatting. */
  lemma FormattedIsFixpoint(r: string)
    requires IsFormatted(r)
    ensures FormatPhoneNumber(Str(r)) == r
  {
    FormattedIsRendered(r);
  }

  /** Formatting an already formatted number changes nothing. */
  lemma FormatIdempotent(phone: Value)
    ensures FormatPhoneNumber(Str(FormatPhoneNumber(phone))) == FormatPhoneNumber(phone)
  {
    var r := FormatPhoneNumber(phone);
    if phone.Str? && |Digits(phone.s)| == 10 {
      FormattedIsFixpoint(r);
    }
  }

  /** In the ten-digit case the output is exactly the digits, in order, in their slots. */
  lemma FormattedDigitsInSlots(phone: string)
    requires |Digits(phone)| == 10
    ensures var r, d := FormatPhoneNumber(Str(phone)), Digits(phone);
      |r| == 14 &&
      (forall i :: 0 <= i < 3 ==> r[i + 1] == d[i]) &&
      (forall i :: 3 <= i < 6 ==> r[i + 3] == d[i]) &&
      (forall i :: 6 <= i < 10 ==> r[i + 4] == d[i])
  {
  }

  /** Ten bare digits are rendered in display form. */
  lemma FormatTenDigits(d: string)
    requires |d| == 10 && AllDigits(d)
    ensures FormatPhoneNumber(Str(d)) == Render(d)
  {
    DigitsOfDigits(d);
  }

  lemma RenderDocExample()
    ensures Render("1234567890") == "(123) 456-7890"
  {
  }

  /** The example of the doc comment: `"1234567890"` becomes `"(123) 456-7890"`. */
  lemma FormatDocExample()
    ensures FormatPhoneNumber(Str("1234567890")) == "(123) 456-7890"
  {
    assert AllDigits("1234567890");
    FormatTenDigits("1234567890");
    RenderDocExample();
  }

  /** A number that is not ten digits long comes back as it was. */
  lemma FormatShortExample()
    ensures FormatPhoneNumber(Str("123")) == "123"
  {
    assert AllDigits("123");
    DigitsOfDigits("123");
  }

  // ---------------------------------------------------------------------
  // isValidEmail
  // ---------------------------------------------------------------------

  /** A character matched by `\s`: the WhiteSpace and LineTerminator code
      points of ECMAScript (section 22.2.2.9 of ECMA-262). */
  predicate IsWhitespace(c: char) {
    c == '\t' || c == '\n' || c == '\U{000B}' || c == '\U{000C}' || c == '\r' ||
    c == ' ' || c == '\U{00A0}' || c == '\U{1680}' || ('\U{2000}' <= c <= '\U{200A}') ||
    c == '\U{2028}' || c == '\U{2029}' || c == '\U{202F}' || c == '\U{205F}' ||
    c == '\U{3000}' || c == '\U{FEFF}'
  }

  /** A character matched by the class `[^\s@]`. */
  predicate IsPlain(c: char) {
    !IsWhitespace(c) && c != '@'
  }

  /** `/^[^\s@]+@[^\s@]+\.[^\s@]+$/.test(s)`: `s` splits as
      local `@` head `.` tail, the three parts non-empty and plain. */
  ghost predicate MatchesEmailRegex(s: string) {
    exists at, dot ::
      0 < at && at + 1 < dot && dot + 1 < |s| && s[at] == '@' && s[dot] == '.' &&
      forall k :: 0 <= k < |s| && k != at ==> IsPlain(s[k])
  }

  /** The index of the first `c` in `s`, or `|s|` when there is none. */
  function IndexOf(s: string, c: char): (i: nat)
    ensures i <= |s|
    ensures i < |s| ==> s[i] == c
    ensures forall k :: 0 <= k < i ==> s[k] != c
  {
    if s == [] then 0
    else if s[0] == c then 0
    else 1 + IndexOf(s[1..], c)
  }

  /** `d` holds a `.` that is neither its first nor its last character. */
  predicate HasInnerDot(d: string) {
    exists k :: 0 < k < |d| - 1 && d[k] == '.'
  }

  /** `isValidEmail(email)`: exactly one `@`, no whitespace, a non-empty part
      before the `@`, and a `.` after it that is neither next to the `@`
      nor last. */
  predicate IsValidEmail(email: string) {
    var at := IndexOf(email, '@');
    0 < at < |email| &&
    (forall k :: at < k < |email| ==> email[k] != '@') &&
    (forall k :: 0 <= k < |email| ==> !IsWhitespace(email[k])) &&
    HasInnerDot(email[at + 1..])
  }

  /** The structural reading of the address agrees with the regular expression. */
  lemma ValidEmailIffRegex(email: string)
    ensures IsValidEmail(email) <==> MatchesEmailRegex(email)
  {
    var at := IndexOf(email, '@');
    if IsValidEmail(email) {
      var k :| 0 < k < |email[at + 1..]| - 1 && email[at + 1..][k] == '.';
      var dot := at + 1 + k;
      assert email[dot] == '.';
      assert forall j :: 0 <= j < |email| && j != at ==> IsPlain(email[j]);
    }
    if MatchesEmailRegex(email) {
      var i, dot :|
        0 < i && i + 1 < dot && dot + 1 < |email| && email[i] == '@' && email[dot] == '.' &&
        forall k :: 0 <= k < |email| && k != i ==> IsPlain(email[k]);
      assert forall k :: 0 <= k < i ==> email[k] != '@';
      assert at == i;
      assert email[at + 1..][dot - at - 1] == '.';
    }
  }

  /** A valid address holds a single `@`. */
  lemma ValidEmailHasOneAt(email: string, p: int, q: int)
    requires IsValidEmail(email)
    requires 0 <= p < |email| && 0 <= q < |email| && email[p] == '@' && email[q] == '@'
    ensures p == q
  {
  }

  /** Whitespace anywhere, or no `@` at all, makes an address invalid. */
  lemma InvalidEmails(email: string)
    requires (exists k :: 0 <= k < |email| && IsWhitespace(email[k])) || '@' !in email
    ensures !IsValidEmail(email)
  {
  }

  /** The examples: `a@b.com` is valid, `not-an-email` is not. */
  lemma EmailExamples()
    ensures IsValidEmail("a@b.com")
    ensures !IsValidEmail("not-an-email")
  {
    assert "a@b.com"[2..][1] == '.';
    assert '@' !in "not-an-email";
  }
}
