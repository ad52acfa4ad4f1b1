/**
 * The Indian phone-number check shared by both contact forms
 * (`validatePhoneNumber`). The source is one anchored regular expression,
 *
 *     ^(?:(?:\+|0{0,2})91(\s*[-]\s*)?|[0]?)?[6789]\d{9}$
 *
 * written here as a value of a small regular-expression datatype whose
 * meaning is the set of strings it matches. Because `[6789]\d{9}` has fixed
 * length and the expression is anchored, the match splits at the last ten
 * characters; `ValidatePhoneNumber` is the explicit recogniser built on that
 * split, and `ValidateMatchesRegex` proves it accepts exactly the language of
 * the expression.
 */
module PhoneNumber {
  import opened JsString
  import opened Wrappers

  // ----- Regular expressions -----

  datatype CharClass =
    | Literal(c: char)       // an ordinary character such as `+` or `9`
    | OneOf(cs: seq<char>)   // a bracket class such as `[6789]`
    | Digit                  // `\d`
    | Space                  // `\s`

  predicate InClass(cls: CharClass, c: char) {
    match cls
    case Literal(d) => c == d
    case OneOf(cs) => c in cs
    case Digit => IsAsciiDigit(c)
    case Space => IsWhitespace(c)
  }

  datatype Regex =
    | Empty                     // matches only the empty string
    | Class(cls: CharClass)     // exactly one character of the class
    | Cat(left: Regex, right: Regex)
    | Alt(left: Regex, right: Regex)
    | Star(body: Regex)

  /** Whether `r` matches the whole of `s` (the expression is anchored with `^` and `$`). */
  ghost predicate Matches(r: Regex, s: string)
    decreases r, |s|
  {
    match r
    case Empty => s == []
    case Class(cls) => |s| == 1 && InClass(cls, s[0])
    case Cat(a, b) => exists k :: 0 <= k <= |s| && Matches(a, s[..k]) && Matches(b, s[k..])
    case Alt(a, b) => Matches(a, s) || Matches(b, s)
    case Star(a) => s == [] || exists k :: 0 < k <= |s| && Matches(a, s[..k]) && Matches(Star(a), s[k..])
  }

  /** `r?` */
  function Opt(r: Regex): Regex {
    Alt(r, Empty)
  }

  /** `r{n}` */
  function Repeat(r: Regex, n: nat): Regex {
    if n == 0 then Empty else Cat(r, Repeat(r, n - 1))
  }

  /** `r{0,n}` */
  function UpTo(r: Regex, n: nat): Regex {
    if n == 0 then Empty else Alt(Empty, Cat(r, UpTo(r, n - 1)))
  }

  /** `\s*[-]\s*` */
  function DashSeparator(): Regex {
    Cat(Star(Class(Space)), Cat(Class(OneOf("-")), Star(Class(Space))))
  }

  /** `(?:\+|0{0,2})`. */
  function Lead(): Regex {
    Alt(Class(Literal('+')), UpTo(Class(Literal('0')), 2))
  }

  /** `91(\s*[-]\s*)?`. */
  function NinetyOne(): Regex {
    Cat(Class(Literal('9')), Cat(Class(Literal('1')), Opt(DashSeparator())))
  }

  /** `(?:\+|0{0,2})91(\s*[-]\s*)?` */
  function CountryCode(): Regex {
    Cat(Lead(), NinetyOne())
  }

  /** `(?:<country code>|[0]?)?` */
  function PrefixRegex(): Regex {
    Opt(Alt(CountryCode(), Opt(Class(OneOf("0")))))
  }

  /** `[6789]\d{9}` */
  function SubscriberRegex(): Regex {
    Cat(Class(OneOf("6789")), Repeat(Class(Digit), 9))
  }

  /** The expression of ContactPage.tsx and Contact.tsx, line 37 of each. */
  function PhoneRegex(): Regex {
    Cat(PrefixRegex(), SubscriberRegex())
  }

  // ----- The explicit recogniser -----

  /** Ten ASCII digits, the first of them 6, 7, 8 or 9. */
  predicate IsSubscriberNumber(d: string) {
    && |d| == 10
    && d[0] in "6789"
    && forall i :: 0 <= i < |d| ==> IsAsciiDigit(d[i])
  }

  /** Whitespace, one `-`, whitespace. */
  predicate IsDashSeparator(t: string) {
    var i := LeadingWhitespace(t);
    i < |t| && t[i] == '-' && AllWhitespace(t[i + 1..])
  }

  /** Where the `91` of a country code starts: after "", "+", "0" or "00". */
  function CountryCodeStart(p: string): (n: Option<nat>)
    ensures n.Some? ==> n.value <= 2 && n.value + 2 <= |p| && p[n.value] == '9' && p[n.value + 1] == '1'
  {
    if |p| >= 2 && p[0] == '9' && p[1] == '1' then Some(0)
    else if |p| >= 3 && (p[0] == '+' || p[0] == '0') && p[1] == '9' && p[2] == '1' then Some(1)
    else if |p| >= 4 && p[0] == '0' && p[1] == '0' && p[2] == '9' && p[3] == '1' then Some(2)
    else None
  }

  /** Nothing, or a dash separator. */
  predicate IsOptionalSeparator(t: string) {
    t == "" || IsDashSeparator(t)
  }

  /** A country code, "91" after one of its leads, then nothing or a dash separator. */
  predicate HasCountryCode(p: string) {
    match CountryCodeStart(p)
    case Some(n) => IsOptionalSeparator(p[n + 2..])
    case None => false
  }

  /** What may precede the subscriber number: "", "0", or a country code. */
  predicate IsValidPrefix(p: string) {
    p == "" || p == "0" || HasCountryCode(p)
  }

  /** `validatePhoneNumber`: the last ten characters are a subscriber number and the rest is a valid prefix. */
  predicate ValidatePhoneNumber(s: string) {
    |s| >= 10 && IsSubscriberNumber(s[|s| - 10..]) && IsValidPrefix(s[..|s| - 10])
  }

  // ----- The recogniser accepts exactly the language of the expression -----

  predicate AllInClass(cls: CharClass, s: string) {
    forall i :: 0 <= i < |s| ==> InClass(cls, s[i])
  }

  /** A single-character class followed by `b`. */
  lemma CatClassLeft(cls: CharClass, b: Regex, s: string)
    ensures Matches(Cat(Class(cls), b), s) <==> |s| >= 1 && InClass(cls, s[0]) && Matches(b, s[1..])
  {
    if |s| >= 1 && InClass(cls, s[0]) && Matches(b, s[1..]) {
      assert Matches(Class(cls), s[..1]);
    }
  }

  lemma {:induction false} RepeatClass(cls: CharClass, n: nat, s: string)
    ensures Matches(Repeat(Class(cls), n), s) <==> |s| == n && AllInClass(cls, s)
  {
    if n > 0 {
      CatClassLeft(cls, Repeat(Class(cls), n - 1), s);
      if |s| >= 1 {
        RepeatClass(cls, n - 1, s[1..]);
        assert AllInClass(cls, s) <==> InClass(cls, s[0]) && AllInClass(cls, s[1..]) by {
          if InClass(cls, s[0]) && AllInClass(cls, s[1..]) {
            forall i | 0 <= i < |s| ensures InClass(cls, s[i]) {
              if i > 0 { assert s[1..][i - 1] == s[i]; }
            }
          }
        }
      }
    }
  }

  lemma {:induction false} StarClass(cls: CharClass, s: string)
    ensures Matches(Star(Class(cls)), s) <==> AllInClass(cls, s)
    decreases |s|
  {
    if s != [] {
      if Matches(Star(Class(cls)), s) {
        var k :| 0 < k <= |s| && Matches(Class(cls), s[..k]) && Matches(Star(Class(cls)), s[k..]);
        assert k == 1;
        StarClass(cls, s[1..]);
        forall i | 0 <= i < |s| ensures InClass(cls, s[i]) {
          if i == 0 { assert s[..k][0] == s[0]; } else { assert s[1..][i - 1] == s[i]; }
        }
      }
      if AllInClass(cls, s) {
        StarClass(cls, s[1..]);
        assert Matches(Class(cls), s[..1]);
        assert AllInClass(cls, s[1..]) by {
          forall i | 0 <= i < |s| - 1 ensures InClass(cls, s[1..][i]) { assert s[1..][i] == s[i + 1]; }
        }
      }
    }
  }

  lemma SubscriberExact(d: string)
    ensures Matches(SubscriberRegex(), d) <==> IsSubscriberNumber(d)
  {
    CatClassLeft(OneOf("6789"), Repeat(Class(Digit), 9), d);
    if |d| >= 1 {
      RepeatClass(Digit, 9, d[1..]);
      if IsSubscriberNumber(d) {
        forall i | 0 <= i < |d| - 1 ensures IsAsciiDigit(d[1..][i]) { assert d[1..][i] == d[i + 1]; }
      }
      if Matches(SubscriberRegex(), d) {
        forall i | 0 <= i < |d| ensures IsAsciiDigit(d[i]) {
          if i > 0 { assert d[1..][i - 1] == d[i]; }
        }
      }
    }
  }

  /** The leading whitespace run ends at the first character that is not whitespace. */
  lemma LeadingWhitespaceAt(t: string, k: nat)
    requires k < |t| && !IsWhitespace(t[k])
    requires forall i :: 0 <= i < k ==> IsWhitespace(t[i])
    ensures LeadingWhitespace(t) == k
  {
  }

  lemma SeparatorExact(t: string)
    ensures Matches(DashSeparator(), t) <==> IsDashSeparator(t)
  {
    var dashThenSpace := Cat(Class(OneOf("-")), Star(Class(Space)));
    if Matches(DashSeparator(), t) {
      var k :| 0 <= k <= |t| && Matches(Star(Class(Space)), t[..k]) && Matches(dashThenSpace, t[k..]);
      StarClass(Space, t[..k]);
      CatClassLeft(OneOf("-"), Star(Class(Space)), t[k..]);
      StarClass(Space, t[k..][1..]);
      assert t[k..][1..] == t[k + 1..];
      forall i | 0 <= i < k ensures IsWhitespace(t[i]) { assert t[..k][i] == t[i]; }
      LeadingWhitespaceAt(t, k);
    }
    if IsDashSeparator(t) {
      var k := LeadingWhitespace(t);
      StarClass(Space, t[..k]);
      CatClassLeft(OneOf("-"), Star(Class(Space)), t[k..]);
      StarClass(Space, t[k..][1..]);
      assert t[k..][1..] == t[k + 1..];
      assert Matches(Star(Class(Space)), t[..k]);
      assert Matches(dashThenSpace, t[k..]);
    }
  }

  /** `91(\s*[-]\s*)?` */
  lemma NinetyOneExact(t: string)
    ensures Matches(NinetyOne(), t)
        <==> |t| >= 2 && t[0] == '9' && t[1] == '1' && IsOptionalSeparator(t[2..])
  {
    CatClassLeft(Literal('9'), Cat(Class(Literal('1')), Opt(DashSeparator())), t);
    if |t| >= 1 {
      CatClassLeft(Literal('1'), Opt(DashSeparator()), t[1..]);
      if |t| >= 2 {
        assert t[1..][1..] == t[2..];
        SeparatorExact(t[2..]);
      }
    }
  }

  /** `\+|0{0,2}` */
  lemma LeadExact(x: string)
    ensures Matches(Lead(), x)
        <==> x == "" || x == "+" || x == "0" || x == "00"
  {
    var zero := Class(Literal('0'));
    var upToOne := Alt(Empty, Cat(zero, Empty));
    assert UpTo(zero, 2) == Alt(Empty, Cat(zero, upToOne));
    forall y: string ensures Matches(upToOne, y) <==> y == "" || y == "0" {
      CatClassLeft(Literal('0'), Empty, y);
      if |y| >= 1 { assert y == [y[0]] + y[1..]; }
    }
    CatClassLeft(Literal('0'), upToOne, x);
    assert Matches(Class(Literal('+')), x) <==> x == "+" by {
      if |x| == 1 { assert x == [x[0]]; }
    }
    assert Matches(UpTo(zero, 2), x) <==> x == "" || (|x| >= 1 && x[0] == '0' && Matches(upToOne, x[1..]));
    if x == "0" { assert x[1..] == ""; }
    if x == "00" { assert x[1..] == "0"; }
    if |x| >= 1 { assert x == [x[0]] + x[1..]; }
  }

  lemma CountryCodeSound(p: string)
    requires Matches(CountryCode(), p)
    ensures HasCountryCode(p)
  {
    var k :| 0 <= k <= |p| && Matches(Lead(), p[..k]) && Matches(NinetyOne(), p[k..]);
    LeadExact(p[..k]);
    NinetyOneExact(p[k..]);
    assert p[k..][2..] == p[k + 2..];
    assert p[k..][0] == p[k] && p[k..][1] == p[k + 1];
    if k == 1 {
      assert p[..k][0] == p[0];
      assert p[0] == '+' || p[0] == '0';
    } else if k == 2 {
      assert p[..k][0] == p[0] && p[..k][1] == p[1];
      assert p[0] == '0' && p[1] == '0';
    }
    assert CountryCodeStart(p) == Some(k);
  }

  lemma CountryCodeComplete(p: string)
    requires HasCountryCode(p)
    ensures Matches(CountryCode(), p)
  {
    var n := CountryCodeStart(p).value;
    LeadExact(p[..n]);
    NinetyOneExact(p[n..]);
    assert p[n..][2..] == p[n + 2..];
    assert p[n..][0] == p[n] && p[n..][1] == p[n + 1];
    assert Matches(Lead(), p[..n]) by {
      if n == 1 { assert p[..n] == [p[0]]; }
      if n == 2 { assert p[..n] == [p[0], p[1]]; }
    }
    assert Matches(NinetyOne(), p[n..]);
  }

  lemma PrefixExact(p: string)
    ensures Matches(PrefixRegex(), p) <==> IsValidPrefix(p)
  {
    if Matches(CountryCode(), p) { CountryCodeSound(p); }
    if HasCountryCode(p) { CountryCodeComplete(p); }
    var zeroOrNothing := Opt(Class(OneOf("0")));
    assert Matches(zeroOrNothing, p) <==> p == "" || p == "0" by {
      assert Matches(Class(OneOf("0")), p) <==> p == "0" by {
        if |p| == 1 { assert p == [p[0]]; }
      }
    }
    assert Matches(PrefixRegex(), p) <==> Matches(CountryCode(), p) || Matches(zeroOrNothing, p) || p == "";
  }

  /** `ValidatePhoneNumber` accepts exactly the strings the expression matches. */
  lemma ValidateMatchesRegex(s: string)
    ensures ValidatePhoneNumber(s) <==> Matches(PhoneRegex(), s)
  {
    if Matches(PhoneRegex(), s) {
      var k :| 0 <= k <= |s| && Matches(PrefixRegex(), s[..k]) && Matches(SubscriberRegex(), s[k..]);
      SubscriberExact(s[k..]);
      PrefixExact(s[..k]);
    }
    if ValidatePhoneNumber(s) {
      var k := |s| - 10;
      SubscriberExact(s[k..]);
      PrefixExact(s[..k]);
    }
  }

  // ----- What the validator accepts and rejects -----

  /** Every bare ten-digit number starting with 6, 7, 8 or 9 is accepted. */
  lemma MobileNumberAccepted(s: string)
    requires IsSubscriberNumber(s)
    ensures ValidatePhoneNumber(s) && Matches(PhoneRegex(), s)
  {
    assert s[..0] == "" && s[0..] == s;
    ValidateMatchesRegex(s);
  }

  /** Fewer than ten characters, the empty string among them, never match. */
  lemma ShortRejected(s: string)
    requires |s| < 10
    ensures !ValidatePhoneNumber(s) && !Matches(PhoneRegex(), s)
  {
    ValidateMatchesRegex(s);
  }

  /** A whitespace run always has its whole length as leading whitespace. */
  lemma {:induction false} LeadingWhitespaceOfBlank(w: string)
    requires AllWhitespace(w)
    ensures LeadingWhitespace(w) == |w|
  {
    if w != [] {
      assert AllWhitespace(w[1..]) by {
        forall i | 0 <= i < |w| - 1 ensures IsWhitespace(w[1..][i]) { assert w[1..][i] == w[i + 1]; }
      }
      LeadingWhitespaceOfBlank(w[1..]);
    }
  }

  /** "91" separated from the subscriber number by whitespace alone, without a dash, is rejected. */
  lemma SpaceWithoutDashRejected(w: string, d: string)
    requires |w| >= 1 && AllWhitespace(w)
    requires IsSubscriberNumber(d)
    ensures !ValidatePhoneNumber("91" + w + d) && !Matches(PhoneRegex(), "91" + w + d)
  {
    var s := "91" + w + d;
    var p := s[..|s| - 10];
    assert p == "91" + w;
    assert p[2..] == w;
    LeadingWhitespaceOfBlank(w);
    ValidateMatchesRegex(s);
  }

  /** Any valid prefix followed by a subscriber number is accepted. */
  lemma PrefixThenSubscriberAccepted(p: string, d: string)
    requires IsValidPrefix(p) && IsSubscriberNumber(d)
    ensures ValidatePhoneNumber(p + d) && Matches(PhoneRegex(), p + d)
  {
    var s := p + d;
    assert s[..|s| - 10] == p && s[|s| - 10..] == d;
    ValidateMatchesRegex(s);
  }

  /** Concrete inputs: the bare number, and with a trunk `0`. */
  lemma LocalExamplesAccepted()
    ensures ValidatePhoneNumber("9876543210") && Matches(PhoneRegex(), "9876543210")
    ensures ValidatePhoneNumber("09876543210") && Matches(PhoneRegex(), "09876543210")
  {
    var d := "9876543210";
    assert IsSubscriberNumber(d);
    assert ValidatePhoneNumber("9876543210") by {
      assert "9876543210"[..0] == "";
    }
    assert ValidatePhoneNumber("09876543210") by {
      var s := "09876543210";
      assert s[..|s| - 10] == "0" && s[|s| - 10..] == d;
    }
    ValidateMatchesRegex("9876543210");
    ValidateMatchesRegex("09876543210");
  }

  /** Concrete inputs with a country code. */
  lemma CountryCodeExamplesAccepted()
    ensures ValidatePhoneNumber("+919876543210")
    ensures ValidatePhoneNumber("00919876543210")
  {
    var d := "9876543210";
    assert IsSubscriberNumber(d);
    assert ValidatePhoneNumber("+919876543210") by {
      var s := "+919876543210";
      assert s[..|s| - 10] == "+91" && s[|s| - 10..] == d;
      assert CountryCodeStart("+91") == Some(1);
    }
    assert ValidatePhoneNumber("00919876543210") by {
      var s := "00919876543210";
      assert s[..|s| - 10] == "0091" && s[|s| - 10..] == d;
      assert CountryCodeStart("0091") == Some(2);
    }
  }

  /** Concrete inputs with a country code and a dash separator. */
  lemma DashExamplesAccepted()
    ensures ValidatePhoneNumber("+91 - 9876543210")
    ensures ValidatePhoneNumber("+91-9876543210")
  {
    var d := "9876543210";
    assert IsSubscriberNumber(d);
    assert ValidatePhoneNumber("+91 - 9876543210") by {
      var s := "+91 - 9876543210";
      assert s[..|s| - 10] == "+91 - " && s[|s| - 10..] == d;
      assert CountryCodeStart("+91 - ") == Some(1) && "+91 - "[3..] == " - ";
      assert LeadingWhitespace(" - ") == 1;
    }
    assert ValidatePhoneNumber("+91-9876543210") by {
      var s := "+91-9876543210";
      assert s[..|s| - 10] == "+91-" && s[|s| - 10..] == d;
      assert CountryCodeStart("+91-") == Some(1) && "+91-"[3..] == "-";
      assert LeadingWhitespace("-") == 0;
    }
  }

  /** "+91" then a space and no dash is rejected. */
  lemma SpaceExampleRejected()
    ensures !ValidatePhoneNumber("+91 9876543210") && !Matches(PhoneRegex(), "+91 9876543210")
  {
    var s := "+91 9876543210";
    assert s[..|s| - 10] == "+91 " && s[|s| - 10..] == "9876543210";
    assert CountryCodeStart("+91 ") == Some(1) && "+91 "[3..] == " ";
    assert LeadingWhitespace(" ") == 1;
    ValidateMatchesRegex(s);
  }

  /** A subscriber number starting with 5 is rejected. */
  lemma LeadingFiveRejected()
    ensures !ValidatePhoneNumber("5876543210") && !Matches(PhoneRegex(), "5876543210")
  {
    var s := "5876543210";
    assert s[|s| - 10..] == s && s[0] == '5';
    ValidateMatchesRegex(s);
  }

  /** Nine digits are rejected. */
  lemma NineDigitsRejected()
    ensures !ValidatePhoneNumber("987654321") && !Matches(PhoneRegex(), "987654321")
  {
    ShortRejected("987654321");
  }
}
