/**
 * What particular reports of the backend and of the logo operation
 * become under the classifier, stated for concrete errors.
 */
module ServiceExamples {
  import opened Wrappers
  import opened Text
  import opened GeminiService

  // Facts about the characters of a literal are stated one small set of
  // characters at a time; everything else is derived from them.

  const ExpiredKeyReport: string := "API key expired"

  lemma ExpiredKeyLacks(c: char)
    requires c in "lLqQ_4vVfF"
    ensures c !in ExpiredKeyReport
  {
  }

  lemma ExpiredKeyLacksMore(c: char)
    requires c in "wWbBcC"
    ensures c !in ExpiredKeyReport
  {
  }

  /** What the classifier reads of the expired-key report, before lower-casing. */
  function ExpiredKeyText(): string {
    ExpiredKeyReport + " " + ""
  }

  lemma ExpiredKeyMentionsKey()
    ensures Includes(Lower(ExpiredKeyText()), "api key")
  {
    assert ExpiredKeyText() == "" + "API key" + " expired ";
    assert Lower("API key") == "api key";
    IncludesLowerAt("", "API key", " expired ", "api key");
  }

  lemma ExpiredKeyNotRateLimited()
    ensures !RateLimitSignal(Lower(ExpiredKeyText()))
  {
    var t := ExpiredKeyText();
    ExpiredKeyLacks('l');
    ExpiredKeyLacks('L');
    ExpiredKeyLacks('q');
    ExpiredKeyLacks('Q');
    ExpiredKeyLacks('_');
    ExpiredKeyLacks('4');
    assert "" + t == t;
    NotRateLimited("", t);
  }

  lemma ExpiredKeyNotInvalidKey()
    ensures !InvalidKeySignal(Lower(ExpiredKeyText()))
  {
    var t := ExpiredKeyText();
    ExpiredKeyLacks('v');
    ExpiredKeyLacks('V');
    ExpiredKeyLacks('f');
    ExpiredKeyLacks('F');
    LacksNotIncluded(t, "invalid", 2);
    LacksNotIncluded(t, "not found", 4);
  }

  lemma ExpiredKeyNotBlockedOrBilling()
    ensures !BlockedSignal(Lower(ExpiredKeyText())) && !BillingSignal(Lower(ExpiredKeyText()))
  {
    var t := ExpiredKeyText();
    ExpiredKeyLacks('f');
    ExpiredKeyLacks('F');
    ExpiredKeyLacksMore('w');
    ExpiredKeyLacksMore('W');
    ExpiredKeyLacksMore('b');
    ExpiredKeyLacksMore('B');
    ExpiredKeyLacksMore('c');
    ExpiredKeyLacksMore('C');
    assert t + "" == t;
    NotBlocked(t, "");
    NotBilling(t);
  }

  /** "api key" alone falls through: an expired-key report gets the generic message. */
  lemma ApiKeyAloneFallsThrough(context: string)
    ensures var e := ErrorRecord(Some(ExpiredKeyReport), None);
      Includes(FullErrorString(e), "api key")
      && HandleGeminiError(e, context) == FallbackMessage(context)
  {
    FullErrorStringLower(ExpiredKeyReport, "");
    ExpiredKeyMentionsKey();
    ExpiredKeyNotRateLimited();
    ExpiredKeyNotInvalidKey();
    ExpiredKeyNotBlockedOrBilling();
  }

  /** A keyword may straddle the space that joins `message` and `details`. */
  lemma KeywordMayStraddleFields(context: string)
    ensures var e := ErrorRecord(Some("Rate"), Some("Limit hit"));
      !Includes(Lower("Rate"), "rate limit") && !Includes(Lower("Limit hit"), "rate limit")
      && HandleGeminiError(e, context) == RateLimitMessage
  {
    var e := ErrorRecord(Some("Rate"), Some("Limit hit"));
    assert Lower("Rate") == "rate";
    assert Lower("Limit hit") == "limit hit";
    assert FullErrorString(e) == "" + "rate limit" + " hit";
    IncludesAt("", "rate limit", " hit");
    MissingCharNotIncluded("limit hit", "rate limit", 0);
  }

  /** What the classifier reads of the "no images" error, before lower-casing. */
  function NoImagesErrorText(): string {
    NoImagesMessage + " " + ""
  }

  lemma NoImagesLacks(c: char)
    requires c in "qQkK"
    ensures c !in NoImagesMessage
  {
  }

  lemma NoImagesLacksMore(c: char)
    requires c in "wWbB"
    ensures c !in NoImagesMessage
  {
  }

  lemma NoImagesLacksSymbols(c: char)
    requires c in "cC_4"
    ensures c !in NoImagesMessage
  {
  }

  /** The message after "The model " lacks an "l"... */
  lemma NoImagesAfterModelLacks(c: char)
    requires c in "lL"
    ensures c !in NoImagesMiddle + NoImagesEnd
  {
  }

  /** ...and before "different" an "f". */
  lemma NoImagesBeforeDifferentLacks(c: char)
    requires c in "fF"
    ensures c !in NoImagesLead + NoImagesMiddle
  {
  }

  lemma NoImagesNotRateLimited()
    ensures !RateLimitSignal(Lower(NoImagesErrorText()))
  {
    var a := NoImagesLead;
    var b := NoImagesMiddle + NoImagesEnd;
    assert NoImagesMessage == a + b;
    NoImagesAfterModelLacks('l');
    NoImagesAfterModelLacks('L');
    NoImagesLacks('q');
    NoImagesLacks('Q');
    NoImagesLacksSymbols('_');
    NoImagesLacksSymbols('4');
    assert NoImagesErrorText() == a + (b + " " + "");
    NotRateLimited(a, b + " " + "");
  }

  lemma NoImagesNotBlocked()
    ensures !BlockedSignal(Lower(NoImagesErrorText()))
  {
    var a := NoImagesLead + NoImagesMiddle;
    var b := NoImagesEnd;
    assert NoImagesMessage == a + b;
    NoImagesBeforeDifferentLacks('f');
    NoImagesBeforeDifferentLacks('F');
    NoImagesLacksMore('w');
    NoImagesLacksMore('W');
    assert NoImagesErrorText() == a + (b + " " + "");
    NotBlocked(a, b + " " + "");
  }

  /** The "no images" error carries no keyword, so it reaches the user as the generic message. */
  lemma NoImagesIsFallback(response: ImageResponse)
    requires response.ImageReply? && !HasImages(response)
    ensures GenerateLogoConcept(response) == Failure(FallbackMessage(LogoContext))
  {
    FullErrorStringLower(NoImagesMessage, "");
    NoImagesNotRateLimited();
    NoImagesLacks('k');
    NoImagesLacks('K');
    NotInvalidKey(NoImagesErrorText());
    NoImagesNotBlocked();
    NoImagesLacksMore('b');
    NoImagesLacksMore('B');
    NoImagesLacksSymbols('c');
    NoImagesLacksSymbols('C');
    NotBilling(NoImagesErrorText());
  }
}
