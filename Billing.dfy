/** The `billinginfo` entry of a reminder's template data, built from the user's
    last order: the card and its expiry, a warning when the card runs out soon,
    or else the payment type; wrapped in a paragraph unless nothing was found. */
module Billing {
  import opened Common

  /** The fields of the last member order the text is built from; a null field is "". */
  datatype Order = Order(
    cardType: string,
    accountNumber: string,
    expirationMonth: string,
    expirationYear: string,
    paymentType: string)

  const UpdateWarning: string := "Please make sure your billing information is up to date."

  predicate HasCard(o: Order) {
    !Empty(o.cardType) && !Empty(o.accountNumber)
  }

  predicate HasExpiry(o: Order) {
    !Empty(o.expirationMonth) && !Empty(o.expirationYear)
  }

  function CardLine(o: Order): string {
    o.cardType + ": " + o.accountNumber + "<br />"
  }

  function ExpiryLine(o: Order): string {
    "Expires: " + o.expirationMonth + "/" + o.expirationYear + "<br />"
  }

  /** strtotime("<year>-<month>-01"): the first second of the expiry month. */
  function Expires(o: Order, cal: Calendar): int {
    cal.firstOfMonth(o.expirationYear, o.expirationMonth)
  }

  /** The expiry test as the source writes it: `($expires - $now) * 3600 * 24 < 60`.
      The product is a multiple of 86400, so the test only passes once the month
      has already begun. */
  function ExpiringSoonAsWritten(expires: int, now: int): (soon: bool)
    ensures soon <==> expires <= now
  {
    (expires - now) * 3600 * 24 < 60
  }

  /** The expiry test as intended: fewer than 60 days left. PHP's `/` gives a float
      here; comparing its floor with the integer 60 gives the same answer. */
  function ExpiringSoon(expires: int, now: int): (soon: bool)
    ensures soon <==> expires - now < 60 * SecondsPerDay
  {
    (expires - now) / SecondsPerDay < 60
  }

  /** Which expiry test the builder applies: the one line 184 writes, or the intended one. */
  datatype ExpiryTest = AsWritten | Intended

  function SoonBy(test: ExpiryTest, expires: int, now: int): (soon: bool)
    ensures test == AsWritten ==> (soon <==> expires <= now)
    ensures test == Intended ==> (soon <==> expires - now < 60 * SecondsPerDay)
  {
    match test
    case AsWritten => ExpiringSoonAsWritten(expires, now)
    case Intended => ExpiringSoon(expires, now)
  }

  /** A card whose expiry month starts in 30 days gets no warning from the test as
      written, though fewer than 60 days are left. */
  lemma AsWrittenMissesSoonExpiry(now: int)
    ensures ExpiringSoon(now + 30 * SecondsPerDay, now)
    ensures !ExpiringSoonAsWritten(now + 30 * SecondsPerDay, now)
  {
  }

  /** The paragraph's contents, for a warning text `w`. */
  function Body(o: Order, soon: bool, w: string): string {
    if HasCard(o) then
      CardLine(o) + (if HasExpiry(o) then ExpiryLine(o) + (if soon then w else "") else "")
    else if !Empty(o.paymentType) then
      "Payment Type: " + o.paymentType
    else
      ""
  }

  predicate IsPrefix(p: string, s: string) {
    |p| <= |s| && s[..|p|] == p
  }

  predicate IsSuffix(p: string, s: string) {
    |p| <= |s| && s[|s| - |p|..] == p
  }

  /** The warning does not end in a line break: its sixth character from the end is not '<'. */
  predicate PlainEnding(w: string) {
    |w| >= 6 && w[|w| - 6] != '<'
  }

  lemma WarningIsPlain()
    ensures PlainEnding(UpdateWarning)
  {
  }

  /** The text stored as `billinginfo`, with the expiry test `test`. */
  function BillingInfo(o: Order, now: int, cal: Calendar, test: ExpiryTest): (info: string)
    ensures info == "" <==> !HasCard(o) && Empty(o.paymentType)
    ensures info != "" ==> IsPrefix("<p>", info) && IsSuffix("</p>", info)
    ensures HasCard(o) ==> IsPrefix("<p>" + CardLine(o), info)
    ensures HasCard(o) && HasExpiry(o) ==> IsPrefix("<p>" + CardLine(o) + ExpiryLine(o), info)
    ensures HasCard(o) && HasExpiry(o) ==>
      info == "<p>" + CardLine(o) + ExpiryLine(o)
              + ((if SoonBy(test, Expires(o, cal), now) then UpdateWarning else "") + "</p>")
    ensures HasCard(o) && !HasExpiry(o) ==> info == "<p>" + CardLine(o) + "</p>"
    ensures HasCard(o) ==>
      (IsSuffix(UpdateWarning + "</p>", info) <==> HasExpiry(o) && SoonBy(test, Expires(o, cal), now))
    ensures !HasCard(o) && !Empty(o.paymentType) ==> info == "<p>Payment Type: " + o.paymentType + "</p>"
  {
    var soon := SoonBy(test, Expires(o, cal), now);
    WarningIsPlain();
    BodyShape(o, soon, UpdateWarning);
    Wrap(Body(o, soon, UpdateWarning))
  }

  /** What BillingInfo promises, for any warning text that does not end in a line break. */
  lemma BodyShape(o: Order, soon: bool, w: string)
    requires PlainEnding(w)
    ensures var info := Wrap(Body(o, soon, w));
      && (info == "" <==> !HasCard(o) && Empty(o.paymentType))
      && (info != "" ==> IsPrefix("<p>", info) && IsSuffix("</p>", info))
      && (HasCard(o) ==> IsPrefix("<p>" + CardLine(o), info))
      && (HasCard(o) && HasExpiry(o) ==> IsPrefix("<p>" + CardLine(o) + ExpiryLine(o), info))
      && (HasCard(o) && HasExpiry(o) ==>
            info == "<p>" + CardLine(o) + ExpiryLine(o) + ((if soon then w else "") + "</p>"))
      && (HasCard(o) && !HasExpiry(o) ==> info == "<p>" + CardLine(o) + "</p>")
      && (HasCard(o) ==> (IsSuffix(w + "</p>", info) <==> HasExpiry(o) && soon))
      && (!HasCard(o) && !Empty(o.paymentType) ==> info == "<p>Payment Type: " + o.paymentType + "</p>")
  {
    EmptyBody(o, soon, w);
    WrapShape(Body(o, soon, w));
    if HasCard(o) && HasExpiry(o) {
      CardWithExpiryShape(o, soon, w);
    } else if HasCard(o) {
      CardWithoutExpiryShape(o, soon, w);
    }
  }

  lemma PrefixOfConcat(a: string, b: string, c: string)
    ensures IsPrefix(a, a + b + c)
    ensures IsPrefix(a + b, a + b + c)
  {
    assert (a + b + c)[..|a|] == a;
    assert (a + b + c)[..|a + b|] == a + b;
  }

  /** A text ending in a line break cannot end in the warning. */
  lemma NoWarningAfterBreak(x: string, w: string)
    requires PlainEnding(w)
    ensures !IsSuffix(w + "</p>", x + "<br /></p>")
  {
    var s := x + "<br /></p>";
    var wp := w + "</p>";
    assert s[|s| - 10] == '<';
    assert wp[|wp| - 10] == w[|w| - 6];
  }

  function Wrap(body: string): string {
    if Empty(body) then "" else "<p>" + body + "</p>"
  }

  lemma WrapLong(body: string)
    requires |body| > 1
    ensures Wrap(body) == "<p>" + body + "</p>"
  {
  }

  lemma WrapShape(body: string)
    ensures Wrap(body) != "" ==> IsPrefix("<p>", Wrap(body)) && IsSuffix("</p>", Wrap(body))
  {
    if !Empty(body) {
      var info := "<p>" + body + "</p>";
      PrefixOfConcat("<p>", body, "</p>");
      assert info[|info| - 4..] == "</p>";
    }
  }

  lemma CardWithExpiryShape(o: Order, soon: bool, w: string)
    requires HasCard(o) && HasExpiry(o) && PlainEnding(w)
    ensures var info := Wrap(Body(o, soon, w));
      && IsPrefix("<p>" + CardLine(o), info)
      && IsPrefix("<p>" + CardLine(o) + ExpiryLine(o), info)
      && info == "<p>" + CardLine(o) + ExpiryLine(o) + ((if soon then w else "") + "</p>")
      && (IsSuffix(w + "</p>", info) <==> soon)
  {
    var tail := if soon then w else "";
    var body := Body(o, soon, w);
    assert body == CardLine(o) + ExpiryLine(o) + tail;
    assert |body| > 1;
    WrapLong(body);
    assert "<p>" + body + "</p>" == "<p>" + CardLine(o) + ExpiryLine(o) + (tail + "</p>");
    CardWithExpiryText(o, tail);
    if soon {
      SuffixOfConcat("<p>" + CardLine(o) + ExpiryLine(o), w + "</p>");
    } else {
      ExpiryEndsInBreak(o, w);
    }
  }

  lemma ExpiryEndsInBreak(o: Order, w: string)
    requires PlainEnding(w)
    ensures !IsSuffix(w + "</p>", "<p>" + CardLine(o) + ExpiryLine(o) + ("" + "</p>"))
  {
    var line := "<p>" + CardLine(o) + "Expires: " + o.expirationMonth + "/" + o.expirationYear;
    assert "<p>" + CardLine(o) + ExpiryLine(o) + ("" + "</p>") == line + "<br /></p>";
    NoWarningAfterBreak(line, w);
  }

  lemma CardWithExpiryText(o: Order, tail: string)
    ensures var info := "<p>" + CardLine(o) + ExpiryLine(o) + (tail + "</p>");
      && IsPrefix("<p>" + CardLine(o), info)
      && IsPrefix("<p>" + CardLine(o) + ExpiryLine(o), info)
  {
    PrefixOfConcat("<p>" + CardLine(o), ExpiryLine(o), tail + "</p>");
    PrefixOfConcat("<p>", CardLine(o), ExpiryLine(o) + (tail + "</p>"));
  }

  lemma SuffixOfConcat(a: string, b: string)
    ensures IsSuffix(b, a + b)
  {
    assert (a + b)[|a + b| - |b|..] == b;
  }

  lemma CardWithoutExpiryShape(o: Order, soon: bool, w: string)
    requires HasCard(o) && !HasExpiry(o) && PlainEnding(w)
    ensures var info := Wrap(Body(o, soon, w));
      && info == "<p>" + CardLine(o) + "</p>"
      && IsPrefix("<p>" + CardLine(o), info)
      && !IsSuffix(w + "</p>", info)
  {
    var info := Wrap(Body(o, soon, w));
    assert Body(o, soon, w) == CardLine(o);
    assert |CardLine(o)| > 1;
    assert info == "<p>" + CardLine(o) + "</p>";
    PrefixOfConcat("<p>", CardLine(o), "</p>");
    assert info == ("<p>" + o.cardType + ": " + o.accountNumber) + "<br /></p>";
    NoWarningAfterBreak("<p>" + o.cardType + ": " + o.accountNumber, w);
  }

  lemma EmptyBody(o: Order, soon: bool, w: string)
    ensures Empty(Body(o, soon, w)) <==> !HasCard(o) && Empty(o.paymentType)
  {
    if HasCard(o) {
      assert |Body(o, soon, w)| >= |CardLine(o)| > 1;
    } else if !Empty(o.paymentType) {
      assert |Body(o, soon, w)| > 1;
    }
  }

  /** The builder appending to the text piece by piece; with `AsWritten` it is the
      source's builder, with `Intended` the corrected one. */
  method BuildBillingInfo(o: Order, now: int, cal: Calendar, test: ExpiryTest) returns (billinginfo: string)
    ensures billinginfo == BillingInfo(o, now, cal, test)
  {
    ghost var soon := SoonBy(test, Expires(o, cal), now);
    billinginfo := "";
    if !Empty(o.cardType) && !Empty(o.accountNumber) {
      billinginfo := billinginfo + o.cardType + ": " + o.accountNumber + "<br />";
      assert billinginfo == CardLine(o);
      if !Empty(o.expirationMonth) && !Empty(o.expirationYear) {
        billinginfo := billinginfo + "Expires: " + o.expirationMonth + "/" + o.expirationYear + "<br />";
        assert billinginfo == CardLine(o) + ExpiryLine(o);
        var expires := cal.firstOfMonth(o.expirationYear, o.expirationMonth);
        var daysLeft := if test == AsWritten then (expires - now) * 3600 * 24 else (expires - now) / SecondsPerDay;
        if daysLeft < 60 {
          billinginfo := billinginfo + UpdateWarning;
        }
        assert billinginfo == CardLine(o) + ExpiryLine(o) + (if soon then UpdateWarning else "");
      }
    } else if !Empty(o.paymentType) {
      billinginfo := billinginfo + "Payment Type: " + o.paymentType;
    }
    assert billinginfo == Body(o, soon, UpdateWarning);
    if !Empty(billinginfo) {
      billinginfo := "<p>" + billinginfo + "</p>";
    } else {
      billinginfo := "";
    }
  }

  /** The finding in terms of the stored text: for a card whose expiry month starts
      30 days after the run, the source's text has no warning and the corrected one
      ends in it. */
  lemma BillingTextsDiffer(o: Order, now: int, cal: Calendar)
    requires HasCard(o) && HasExpiry(o) && Expires(o, cal) == now + 30 * SecondsPerDay
    ensures !IsSuffix(UpdateWarning + "</p>", BillingInfo(o, now, cal, AsWritten))
    ensures IsSuffix(UpdateWarning + "</p>", BillingInfo(o, now, cal, Intended))
    ensures BillingInfo(o, now, cal, AsWritten) != BillingInfo(o, now, cal, Intended)
  {
    AsWrittenMissesSoonExpiry(now);
  }
}
