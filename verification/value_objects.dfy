/** The two validated value objects of the domain: `EmailAddress`, checked
    against the pattern `^[^@\s]+@[^@\s]+\.[^@\s]+$`, and `Money`, a
    non-negative amount with a currency. Construction either yields the
    value or fails with the `ValidationError` message. */
module ValueObjects {
  import opened Basics
  import Text

  const EmailEmpty := "Email address cannot be empty."
  const EmailInvalidPrefix := "Invalid email address: "

  datatype EmailAddress = EmailAddress(value: string)

  /** The class `[^@\s]`: neither '@' nor white space. */
  predicate IsAddressChar(c: char) {
    c != '@' && !Text.IsWhiteSpace(c)
  }

  /** The pattern's three runs fitted to the whole of `s`, with its '@' at
      `at` and its literal '.' at `dot`: each run is non-empty and every
      other character belongs to the class. */
  predicate FitsAt(s: string, at: int, dot: int) {
    && 0 < at && at + 1 < dot && dot + 1 < |s|
    && s[at] == '@' && s[dot] == '.'
    && (forall j :: 0 <= j < |s| && j != at ==> IsAddressChar(s[j]))
  }

  /** The pattern matches `s` from its first to its last character. */
  predicate PatternMatches(s: string) {
    exists at, dot :: 0 < at < |s| && 0 < dot < |s| && FitsAt(s, at, dot)
  }

  /** What `Regex.IsMatch` answers for the pattern as written: in .NET,
      `$` without the multi-line option matches at the very end and also
      just before a final '\n', so one trailing newline is let through. */
  predicate MatchesAsWritten(s: string) {
    || PatternMatches(s)
    || (|s| > 0 && s[|s| - 1] == '\n' && PatternMatches(s[..|s| - 1]))
  }

  /** The address shape the pattern is meant to describe: exactly one '@',
      not first; no white space anywhere; and after the '@' a '.' that is
      neither the first nor the last character of the domain. */
  predicate IsEmail(s: string) {
    var at := Text.IndexOf(s, '@');
    && at > 0
    && (forall j :: 0 <= j < |s| ==> !Text.IsWhiteSpace(s[j]))
    && (forall j :: at < j < |s| ==> s[j] != '@')
    && (exists dot :: at + 1 < dot < |s| - 1 && s[dot] == '.')
  }

  /** The anchored pattern and the address shape agree on every string. */
  lemma PatternIsEmail(s: string)
    ensures PatternMatches(s) <==> IsEmail(s)
  {
    if PatternMatches(s) {
      var at: int, dot: int :| FitsAt(s, at, dot);
      assert FitsAt(s, at, dot);
      assert Text.IndexOf(s, '@') == at;
      assert at + 1 < dot < |s| - 1 && s[dot] == '.';
    }
    if IsEmail(s) {
      var at := Text.IndexOf(s, '@');
      var dot :| at + 1 < dot < |s| - 1 && s[dot] == '.';
      assert FitsAt(s, at, dot);
    }
  }

  /** `new EmailAddress(value)` as the evidently intended check: a blank
      value is rejected first, then anything the anchored pattern does not
      match; an accepted value is stored unchanged. */
  function CreateEmail(value: Option<string>): (r: Result<EmailAddress, string>)
    ensures Text.IsNullOrWhiteSpace(value) ==> r == Failure(EmailEmpty)
    ensures !Text.IsNullOrWhiteSpace(value) ==>
      && (r.Success? <==> PatternMatches(value.value))
      && (r.Success? ==> r.value.value == value.value)
      && (r.Failure? ==> r.error == EmailInvalidPrefix + value.value)
  {
    if Text.IsNullOrWhiteSpace(value) then Failure(EmailEmpty)
    else
      PatternIsEmail(value.value);
      if IsEmail(value.value) then Success(EmailAddress(value.value))
      else Failure(EmailInvalidPrefix + value.value)
  }

  /** `new EmailAddress(value)` as written, with .NET's `$`. */
  function CreateEmailAsWritten(value: Option<string>): (r: Result<EmailAddress, string>)
    ensures Text.IsNullOrWhiteSpace(value) ==> r == Failure(EmailEmpty)
    ensures !Text.IsNullOrWhiteSpace(value) ==>
      && (r.Success? <==> MatchesAsWritten(value.value))
      && (r.Success? ==> r.value.value == value.value)
      && (r.Failure? ==> r.error == EmailInvalidPrefix + value.value)
  {
    if Text.IsNullOrWhiteSpace(value) then Failure(EmailEmpty)
    else if MatchesAsWritten(value.value) then Success(EmailAddress(value.value))
    else Failure(EmailInvalidPrefix + value.value)
  }

  /** `ToString()`. */
  function EmailToString(e: EmailAddress): string {
    e.value
  }

  /** `implicit operator string`. */
  function EmailAsString(e: EmailAddress): string {
    e.value
  }

  /** An accepted address gives back exactly the text it was created from,
      through `ToString` and through the conversion, and that text is
      accepted again as the same address. */
  lemma EmailRoundTrip(v: string)
    requires CreateEmail(Some(v)).Success?
    ensures var e := CreateEmail(Some(v)).value;
      && EmailToString(e) == v
      && EmailAsString(e) == v
      && CreateEmail(Some(EmailToString(e))) == Success(e)
  {
  }

  /** As written, the constructor accepts exactly what the intended one
      accepts, plus those texts followed by a single '\n'. */
  lemma {:induction false} AsWrittenAddsTrailingNewline(v: string)
    ensures CreateEmailAsWritten(Some(v)).Success? <==>
      || CreateEmail(Some(v)).Success?
      || (|v| > 0 && v[|v| - 1] == '\n' && CreateEmail(Some(v[..|v| - 1])).Success?)
  {
    if |v| > 0 && v[|v| - 1] == '\n' && PatternMatches(v[..|v| - 1]) {
      var at: int, dot: int :| FitsAt(v[..|v| - 1], at, dot);
      assert !Text.IsWhiteSpace(v[0]);
    }
  }

  /** The counterexample: "a@b.c" followed by a newline is accepted as
      written, and stored with the newline, while the intended check
      rejects it. */
  lemma TrailingNewlineAccepted()
    ensures CreateEmailAsWritten(Some("a@b.c\n")) == Success(EmailAddress("a@b.c\n"))
    ensures CreateEmail(Some("a@b.c\n")) == Failure(EmailInvalidPrefix + "a@b.c\n")
  {
    var s := "a@b.c\n";
    assert !Text.IsWhiteSpace(s[0]);
    assert s[..|s| - 1] == "a@b.c";
    assert FitsAt("a@b.c", 1, 3);
    PatternIsEmail(s);
    assert Text.IsWhiteSpace(s[5]);
  }

  const NegativeAmount := "Money amount cannot be negative."
  const CurrencyRequired := "Currency is required."

  /** An amount of money. The amount is a .NET `decimal`, which compares
      exactly, so it is a real here. */
  datatype Money = Money(amount: real, currency: string)

  /** `new Money(amount, currency)`: a negative amount is rejected first,
      then a blank currency; zero is a valid amount; valid inputs are
      stored unchanged. */
  function CreateMoney(amount: real, currency: Option<string>): (r: Result<Money, string>)
    ensures r.Success? <==> amount >= 0.0 && !Text.IsNullOrWhiteSpace(currency)
    ensures amount < 0.0 ==> r == Failure(NegativeAmount)
    ensures amount >= 0.0 && Text.IsNullOrWhiteSpace(currency) ==> r == Failure(CurrencyRequired)
    ensures r.Success? ==> r.value.amount == amount && r.value.currency == currency.value
  {
    if amount < 0.0 then Failure(NegativeAmount)
    else if Text.IsNullOrWhiteSpace(currency) then Failure(CurrencyRequired)
    else Success(Money(amount, currency.value))
  }

  /** A valid amount of money is rebuilt unchanged from its own fields, and
      every constructed amount satisfies the invariant. */
  lemma MoneyRoundTrip(m: Money)
    ensures CreateMoney(m.amount, Some(m.currency)).Success? <==>
      m.amount >= 0.0 && !Text.IsNullOrWhiteSpace(Some(m.currency))
    ensures CreateMoney(m.amount, Some(m.currency)).Success? ==>
      CreateMoney(m.amount, Some(m.currency)) == Success(m)
  {
  }
}
