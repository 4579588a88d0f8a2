/**
 * The AI-service wrapper: the classifier that turns any failure of the
 * generative backend into one of five user-facing messages, and the
 * shaping of the three operations' replies. The backend and `JSON.parse`
 * are inputs: a reply value and a parsing function.
 */
module GeminiService {
  import opened Wrappers
  import opened Text

  // ---------------------------------------------------------------------
  // Errors and their classification
  // ---------------------------------------------------------------------

  /**
   * What the classifier reads of a thrown value: `error?.message` and
   * `error?.details`. A thrown `null` or a value without these fields is
   * `ErrorRecord(None, None)`.
   */
  datatype ErrorRecord = ErrorRecord(message: Option<string>, details: Option<string>)

  /** The five kinds of failure, in the order the classifier tests them. */
  datatype Category = RateLimited | InvalidKey | Blocked | Billing | Unknown

  // The messages are written as short pieces, named where a proof about
  // the characters of a message takes it apart, so that those facts can be
  // established piece by piece.

  const RateLimitHead: string :=
    "You've made " + "too many " + "requests " + "in a short " + "period. "
  const RateLimitTail: string :=
    "Please wait " + "a minute " + "before " + "trying again."
  const RateLimitMessage: string := RateLimitHead + RateLimitTail

  const InvalidKeyHead: string := "Your "
  const InvalidKeyTail: string :=
    " is invalid " + "or has " + "expired. " + "Please try " + "entering it " + "again."
  const InvalidKeyMessage: string := InvalidKeyHead + "API key" + InvalidKeyTail

  const BlockedHead: string := "Your prompt " + "was blocked "
  const BlockedTail: string :=
    "for safety " + "reasons. " + "Please " + "modify your " + "request and " + "try again."
  const BlockedMessage: string := BlockedHead + BlockedTail

  const BillingHead: string := "There might " + "be an issue " + "with your " + "billing "
  const BillingMiddle: string := "account. " + "Please check "
  const BillingTail: string := "your Google " + "Cloud " + "project " + "settings."
  const BillingMessage: string := BillingHead + BillingMiddle + BillingTail

  const FallbackSuffixHead: string := ". The model " + "may be busy "
  const FallbackSuffixTail: string :=
    "or the " + "prompt could " + "be too " + "complex. " + "Please try " + "again."
  const FallbackSuffix: string := FallbackSuffixHead + FallbackSuffixTail

  /** The initial value of `userFriendlyMessage`, kept when no keyword matches. */
  function FallbackMessage(context: string): string {
    "Failed to " + context + FallbackSuffix
  }

  /** The context strings the three operations pass. */
  const WebsiteContext: string := "generate website concept"
  const LogoContext: string := "generate logos"
  const IdeasContext: string := "generate creative ideas"

  /** `field || ''`. */
  function FieldText(field: Option<string>): string {
    match field
    case Some(s) => s
    case None => ""
  }

  /** `${errorMessage} ${errorDetails}`, both lower-cased. */
  function FullErrorString(error: ErrorRecord): (t: string)
    ensures |t| == |FieldText(error.message)| + 1 + |FieldText(error.details)|
    ensures t[|FieldText(error.message)|] == ' '
    ensures Lower(t) == t
  {
    var m := Lower(FieldText(error.message));
    var d := Lower(FieldText(error.details));
    LowerAppend(m + " ", d);
    LowerAppend(m, " ");
    LowerIdempotent(FieldText(error.message));
    LowerIdempotent(FieldText(error.details));
    assert Lower(" ") == " ";
    m + " " + d
  }

  predicate RateLimitSignal(s: string) {
    Includes(s, "rate limit") || Includes(s, "quota") || Includes(s, "resource_exhausted") || Includes(s, "429")
  }

  predicate InvalidKeySignal(s: string) {
    Includes(s, "api key") && (Includes(s, "invalid") || Includes(s, "not found"))
  }

  predicate BlockedSignal(s: string) {
    Includes(s, "prompt was blocked") || Includes(s, "safety")
  }

  predicate BillingSignal(s: string) {
    Includes(s, "billing") || Includes(s, "account")
  }

  /** The if / else-if chain: the first branch whose test holds decides. */
  function Classify(s: string): (c: Category)
    ensures c == RateLimited <==> RateLimitSignal(s)
    ensures c == InvalidKey ==> InvalidKeySignal(s)
    ensures c == Blocked ==> BlockedSignal(s)
    ensures c == Billing ==> BillingSignal(s)
    ensures c == Unknown <==> !RateLimitSignal(s) && !InvalidKeySignal(s) && !BlockedSignal(s) && !BillingSignal(s)
  {
    if RateLimitSignal(s) then RateLimited
    else if InvalidKeySignal(s) then InvalidKey
    else if BlockedSignal(s) then Blocked
    else if BillingSignal(s) then Billing
    else Unknown
  }

  function UserMessage(category: Category, context: string): string {
    match category
    case RateLimited => RateLimitMessage
    case InvalidKey => InvalidKeyMessage
    case Blocked => BlockedMessage
    case Billing => BillingMessage
    case Unknown => FallbackMessage(context)
  }

  /** The five strings the classifier can produce for a given context. */
  function UserMessages(context: string): set<string> {
    {RateLimitMessage, InvalidKeyMessage, BlockedMessage, BillingMessage, FallbackMessage(context)}
  }

  /** `handleGeminiError(error, context).message`. */
  function HandleGeminiError(error: ErrorRecord, context: string): (message: string)
    ensures message in UserMessages(context)
    ensures message != ""
  {
    UserMessage(Classify(FullErrorString(error)), context)
  }

  /** The five messages are pairwise different, whatever the context. */
  lemma MessagesDistinct(context: string)
    ensures |UserMessages(context)| == 5
  {
    assert FallbackMessage(context)[0] == 'F';
    assert RateLimitMessage[0] == 'Y' && RateLimitMessage[3] == '\'';
    assert InvalidKeyMessage[0] == 'Y' && InvalidKeyMessage[3] == 'r' && InvalidKeyMessage[5] == 'A';
    assert BlockedMessage[0] == 'Y' && BlockedMessage[3] == 'r' && BlockedMessage[5] == 'p';
    assert BillingMessage[0] == 'T';
  }

  /** The message names its category: the classifier's output can be read back. */
  lemma UserMessageInjective(c1: Category, c2: Category, context: string)
    requires UserMessage(c1, context) == UserMessage(c2, context)
    ensures c1 == c2
  {
    MessagesDistinct(context);
  }

  lemma ClassifiedAs(error: ErrorRecord, context: string, c: Category)
    ensures HandleGeminiError(error, context) == UserMessage(c, context) <==> Classify(FullErrorString(error)) == c
  {
    if HandleGeminiError(error, context) == UserMessage(c, context) {
      UserMessageInjective(Classify(FullErrorString(error)), c, context);
    }
  }

  /** Rate-limit keywords decide, whatever else the error mentions. */
  lemma RateLimitIff(error: ErrorRecord, context: string)
    ensures HandleGeminiError(error, context) == RateLimitMessage
        <==> RateLimitSignal(FullErrorString(error))
  {
    ClassifiedAs(error, context, RateLimited);
  }

  /** The invalid-key message needs "api key" together with "invalid" or "not found", and no rate-limit keyword. */
  lemma InvalidKeyIff(error: ErrorRecord, context: string)
    ensures var s := FullErrorString(error);
      (HandleGeminiError(error, context) == InvalidKeyMessage)
        <==> (!RateLimitSignal(s) && Includes(s, "api key") && (Includes(s, "invalid") || Includes(s, "not found")))
  {
    ClassifiedAs(error, context, InvalidKey);
  }

  lemma BlockedIff(error: ErrorRecord, context: string)
    ensures var s := FullErrorString(error);
      (HandleGeminiError(error, context) == BlockedMessage)
        <==> (!RateLimitSignal(s) && !InvalidKeySignal(s)
              && (Includes(s, "prompt was blocked") || Includes(s, "safety")))
  {
    ClassifiedAs(error, context, Blocked);
  }

  lemma BillingIff(error: ErrorRecord, context: string)
    ensures var s := FullErrorString(error);
      (HandleGeminiError(error, context) == BillingMessage)
        <==> (!RateLimitSignal(s) && !InvalidKeySignal(s) && !BlockedSignal(s)
              && (Includes(s, "billing") || Includes(s, "account")))
  {
    ClassifiedAs(error, context, Billing);
  }

  /** The generic message is produced exactly when no keyword test succeeds. */
  lemma FallbackIff(error: ErrorRecord, context: string)
    ensures var s := FullErrorString(error);
      (HandleGeminiError(error, context) == FallbackMessage(context))
        <==> (!RateLimitSignal(s) && !InvalidKeySignal(s) && !BlockedSignal(s) && !BillingSignal(s))
  {
    ClassifiedAs(error, context, Unknown);
  }

  // ---------------------------------------------------------------------
  // The same classifier as a prioritised rule table
  // ---------------------------------------------------------------------

  /**
   * A rule holds when every clause has at least one keyword in the text;
   * the first rule that holds gives the category.
   */
  datatype Rule = Rule(category: Category, clauses: seq<seq<string>>)

  const Rules: seq<Rule> := [
    Rule(RateLimited, [["rate limit", "quota", "resource_exhausted", "429"]]),
    Rule(InvalidKey, [["api key"], ["invalid", "not found"]]),
    Rule(Blocked, [["prompt was blocked", "safety"]]),
    Rule(Billing, [["billing", "account"]])
  ]

  function AnyIncluded(s: string, keywords: seq<string>): bool {
    exists i :: 0 <= i < |keywords| && Includes(s, keywords[i])
  }

  function RuleHolds(s: string, rule: Rule): bool {
    forall i :: 0 <= i < |rule.clauses| ==> AnyIncluded(s, rule.clauses[i])
  }

  function FirstMatch(rules: seq<Rule>, s: string): Category {
    if rules == [] then Unknown
    else if RuleHolds(s, rules[0]) then rules[0].category
    else FirstMatch(rules[1..], s)
  }

  lemma AnyIncluded1(s: string, a: string)
    ensures AnyIncluded(s, [a]) <==> Includes(s, a)
  {
    if Includes(s, a) { assert [a][0] == a; }
  }

  lemma AnyIncluded2(s: string, a: string, b: string)
    ensures AnyIncluded(s, [a, b]) <==> Includes(s, a) || Includes(s, b)
  {
    if Includes(s, a) { assert [a, b][0] == a; }
    if Includes(s, b) { assert [a, b][1] == b; }
  }

  lemma AnyIncluded4(s: string, a: string, b: string, c: string, d: string)
    ensures AnyIncluded(s, [a, b, c, d]) <==> Includes(s, a) || Includes(s, b) || Includes(s, c) || Includes(s, d)
  {
    var ks := [a, b, c, d];
    if Includes(s, a) { assert ks[0] == a; }
    if Includes(s, b) { assert ks[1] == b; }
    if Includes(s, c) { assert ks[2] == c; }
    if Includes(s, d) { assert ks[3] == d; }
  }

  /** The if / else-if chain and the rule table classify every text alike. */
  lemma ClassifyAgreesWithRules(s: string)
    ensures Classify(s) == FirstMatch(Rules, s)
  {
    var r0 := Rule(RateLimited, [["rate limit", "quota", "resource_exhausted", "429"]]);
    var r1 := Rule(InvalidKey, [["api key"], ["invalid", "not found"]]);
    var r2 := Rule(Blocked, [["prompt was blocked", "safety"]]);
    var r3 := Rule(Billing, [["billing", "account"]]);
    assert Rules == [r0, r1, r2, r3];
    AnyIncluded4(s, "rate limit", "quota", "resource_exhausted", "429");
    AnyIncluded1(s, "api key");
    AnyIncluded2(s, "invalid", "not found");
    AnyIncluded2(s, "prompt was blocked", "safety");
    AnyIncluded2(s, "billing", "account");
    assert RuleHolds(s, r0) <==> AnyIncluded(s, r0.clauses[0]);
    assert RuleHolds(s, r1) <==> AnyIncluded(s, r1.clauses[0]) && AnyIncluded(s, r1.clauses[1]);
    assert RuleHolds(s, r2) <==> AnyIncluded(s, r2.clauses[0]);
    assert RuleHolds(s, r3) <==> AnyIncluded(s, r3.clauses[0]);
    assert [r3][1..] == [];
    assert FirstMatch([r3], s) == if RuleHolds(s, r3) then Billing else Unknown;
    assert [r2, r3][1..] == [r3];
    assert FirstMatch([r2, r3], s) == if RuleHolds(s, r2) then Blocked else FirstMatch([r3], s);
    assert [r1, r2, r3][1..] == [r2, r3];
    assert FirstMatch([r1, r2, r3], s) == if RuleHolds(s, r1) then InvalidKey else FirstMatch([r2, r3], s);
    assert [r0, r1, r2, r3][1..] == [r1, r2, r3];
  }

  // ---------------------------------------------------------------------
  // Concrete classifications
  // ---------------------------------------------------------------------

  /** The classifier's input as one lower-cased string. */
  lemma FullErrorStringLower(message: string, details: string)
    ensures FullErrorString(ErrorRecord(Some(message), Some(details))) == Lower(message + " " + details)
    ensures FullErrorString(ErrorRecord(Some(message), None)) == Lower(message + " " + "")
    ensures FullErrorString(ErrorRecord(None, Some(details))) == Lower("" + " " + details)
    ensures FullErrorString(ErrorRecord(None, None)) == " "
  {
    LowerAppend(message + " ", details);
    LowerAppend(message, " ");
    LowerAppend(message + " ", "");
    LowerAppend(" ", details);
    LowerAppend("", " ");
    assert Lower(" ") == " ";
    assert Lower("") == "";
    assert "" + " " == " ";
  }

  // Each test of the chain fails on a text that lacks, in either case, one
  // character of each keyword it looks for, or, for "rate limit" and
  // "safety", a character of the keyword's head in one part of the text and
  // one of its tail in the rest.

  lemma NotRateLimited(a: string, b: string)
    requires Lacks(a, 'r') && Lacks(b, 'l')
    requires Lacks(a + b, 'q') && Lacks(a + b, '_') && Lacks(a + b, '4')
    ensures !RateLimitSignal(Lower(a + b))
  {
    NotIncludedTwo(a, b, "rate limit", 0, 5);
    LacksNotIncluded(a + b, "quota", 0);
    LacksNotIncluded(a + b, "resource_exhausted", 8);
    LacksNotIncluded(a + b, "429", 0);
  }

  lemma NotInvalidKey(t: string)
    requires Lacks(t, 'k')
    ensures !InvalidKeySignal(Lower(t))
  {
    LacksNotIncluded(t, "api key", 4);
  }

  lemma NotBlocked(a: string, b: string)
    requires Lacks(a, 'f') && Lacks(b, 'y') && Lacks(a + b, 'w')
    ensures !BlockedSignal(Lower(a + b))
  {
    NotIncludedTwo(a, b, "safety", 2, 5);
    LacksNotIncluded(a + b, "prompt was blocked", 7);
  }

  lemma NotBilling(t: string)
    requires Lacks(t, 'b') && Lacks(t, 'c')
    ensures !BillingSignal(Lower(t))
  {
    LacksNotIncluded(t, "billing", 0);
    LacksNotIncluded(t, "account", 1);
  }

  // ---------------------------------------------------------------------
  // Characters the messages lack
  // ---------------------------------------------------------------------

  // Facts about the characters of a literal are stated one small set of
  // characters at a time; everything else is derived from them.

  lemma RateLimitHeadLacks(c: char)
    requires c in "kK"
    ensures c !in RateLimitHead
  {
  }

  lemma RateLimitTailLacks(c: char)
    requires c in "kK"
    ensures c !in RateLimitTail
  {
  }

  lemma BlockedHeadLacks(c: char)
    requires c in "iI"
    ensures c !in BlockedHead
  {
  }

  lemma BlockedTailLacks(c: char)
    requires c in "kK"
    ensures c !in BlockedTail
  {
  }

  lemma BillingHeadLacks(c: char)
    requires c in "pP"
    ensures c !in BillingHead
  {
  }

  lemma BillingMiddleLacks(c: char)
    requires c in "iI"
    ensures c !in BillingMiddle
  {
  }

  lemma BillingTailLacks(c: char)
    requires c in "kK"
    ensures c !in BillingTail
  {
  }

  lemma FallbackHeadLacks(c: char)
    requires c in "kK"
    ensures c !in "Failed to " + IdeasContext + FallbackSuffixHead
  {
  }

  lemma FallbackTailLacks(c: char)
    requires c in "kK"
    ensures c !in FallbackSuffixTail
  {
  }

  /** The generic message of the ideas operation, split where its characters are examined. */
  lemma FallbackSplits()
    ensures FallbackMessage(IdeasContext) == ("Failed to " + IdeasContext + FallbackSuffixHead) + FallbackSuffixTail
  {
  }

  // ---------------------------------------------------------------------
  // Shaping the replies
  // ---------------------------------------------------------------------

  /** A reply of `generateContent`: a backend failure, or a response whose `text` may be undefined. */
  datatype TextResponse = TextFailure(error: ErrorRecord) | TextReply(text: Option<string>)

  /** What `JSON.parse` gives: a value, or the `SyntaxError` it throws. */
  datatype Parsed<+P> = Parsed(value: P) | ParseError(error: ErrorRecord)

  /** `response.text.trim()` on an undefined `text` throws this `TypeError` (V8's wording). */
  const MissingTextError: ErrorRecord :=
    ErrorRecord(Some("Cannot read properties of undefined (reading 'trim')"), None)

  /**
   * The shared body of the two text operations: trim the text, parse it,
   * and report any failure through the classifier with `context`.
   */
  function ParseReply<P>(response: TextResponse, parse: string -> Parsed<P>, context: string): (r: Result<P>)
    ensures r.Success? <==> response.TextReply? && response.text.Some? && parse(Trim(response.text.value)).Parsed?
    ensures r.Success? ==> r.value == parse(Trim(response.text.value)).value
    ensures r.Failure? ==> r.message in UserMessages(context) && r.message != ""
    ensures response.TextFailure? ==> r == Failure(HandleGeminiError(response.error, context))
    ensures response.TextReply? && response.text.None? ==> r == Failure(HandleGeminiError(MissingTextError, context))
    ensures response.TextReply? && response.text.Some? && parse(Trim(response.text.value)).ParseError? ==>
      r == Failure(HandleGeminiError(parse(Trim(response.text.value)).error, context))
  {
    match response
    case TextFailure(error) => Failure(HandleGeminiError(error, context))
    case TextReply(None) => Failure(HandleGeminiError(MissingTextError, context))
    case TextReply(Some(text)) =>
      match parse(Trim(text))
      case Parsed(value) => Success(value)
      case ParseError(error) => Failure(HandleGeminiError(error, context))
  }

  /** The three code blobs the website operation asks for. */
  datatype WebsiteConcept = WebsiteConcept(html: string, css: string, js: string)

  /** `generateWebsiteConcept`: the parsed payload is returned as it is, whatever its shape. */
  function GenerateWebsiteConcept<P>(response: TextResponse, parse: string -> Parsed<P>): (r: Result<P>)
    ensures r.Success? <==> response.TextReply? && response.text.Some? && parse(Trim(response.text.value)).Parsed?
    ensures r.Success? ==> r.value == parse(Trim(response.text.value)).value
    ensures r.Failure? ==> r.message in UserMessages(WebsiteContext)
    ensures response.TextFailure? ==> r == Failure(HandleGeminiError(response.error, WebsiteContext))
    ensures response.TextReply? && response.text.None? ==> r == Failure(HandleGeminiError(MissingTextError, WebsiteContext))
    ensures response.TextReply? && response.text.Some? && parse(Trim(response.text.value)).ParseError? ==>
      r == Failure(HandleGeminiError(parse(Trim(response.text.value)).error, WebsiteContext))
  {
    ParseReply(response, parse, WebsiteContext)
  }

  /** A schema-conforming payload comes back field for field. */
  lemma WebsiteConceptUnchanged(text: string, parse: string -> Parsed<WebsiteConcept>, html: string, css: string, js: string)
    requires parse(Trim(text)) == Parsed(WebsiteConcept(html, css, js))
    ensures GenerateWebsiteConcept(TextReply(Some(text)), parse) == Success(WebsiteConcept(html, css, js))
  {
  }

  /** The parsed ideas payload: `ideas` may be absent. */
  datatype IdeasPayload = IdeasPayload(ideas: Option<seq<string>>)

  /** `generateCreativeIdeas`: `result.ideas || []`. */
  function GenerateCreativeIdeas(response: TextResponse, parse: string -> Parsed<IdeasPayload>): (r: Result<seq<string>>)
    ensures r.Success? <==> response.TextReply? && response.text.Some? && parse(Trim(response.text.value)).Parsed?
    ensures r.Success? ==> var payload := parse(Trim(response.text.value)).value;
      r.value == FieldIdeas(payload.ideas)
    ensures r.Failure? ==> r.message in UserMessages(IdeasContext) && r.message != ""
    ensures response.TextFailure? ==> r == Failure(HandleGeminiError(response.error, IdeasContext))
    ensures response.TextReply? && response.text.None? ==> r == Failure(HandleGeminiError(MissingTextError, IdeasContext))
    ensures response.TextReply? && response.text.Some? && parse(Trim(response.text.value)).ParseError? ==>
      r == Failure(HandleGeminiError(parse(Trim(response.text.value)).error, IdeasContext))
  {
    match ParseReply(response, parse, IdeasContext)
    case Success(payload) => Success(FieldIdeas(payload.ideas))
    case Failure(message) => Failure(message)
  }

  /** `ideas || []`: an absent list reads as the empty one, a present list as itself. */
  function FieldIdeas(ideas: Option<seq<string>>): (list: seq<string>)
    ensures ideas.Some? ==> list == ideas.value
    ensures list == [] <==> ideas.None? || ideas.value == []
  {
    match ideas
    case Some(list) => list
    case None => []
  }

  /** A payload without `ideas` degrades to the empty list instead of failing. */
  lemma MissingIdeasIsEmpty(text: string, parse: string -> Parsed<IdeasPayload>)
    requires parse(Trim(text)) == Parsed(IdeasPayload(None))
    ensures GenerateCreativeIdeas(TextReply(Some(text)), parse) == Success([])
  {
  }

  /** The coffee-subscription scenario: the five taglines come back exactly, in order. */
  lemma TaglinesScenario(text: string, parse: string -> Parsed<IdeasPayload>)
    requires parse(Trim(text)) == Parsed(IdeasPayload(Some(["Brew Better.", "Coffee, Conscious.",
      "Sip Sustainably.", "Ground for Good.", "Pour It Forward."])))
    ensures GenerateCreativeIdeas(TextReply(Some(text)), parse) == Success(["Brew Better.", "Coffee, Conscious.",
      "Sip Sustainably.", "Ground for Good.", "Pour It Forward."])
  {
  }

  /** One generated image; `imageBytes` is its base64 text. */
  datatype GeneratedImage = GeneratedImage(imageBytes: string)

  /** A reply of `generateImages`: a backend failure, or a response whose `generatedImages` may be undefined. */
  datatype ImageResponse = ImageFailure(error: ErrorRecord) | ImageReply(generatedImages: Option<seq<GeneratedImage>>)

  const NoImagesLead: string := "The model "
  const NoImagesMiddle: string := "did not " + "return " + "any images. " + "Try a "
  const NoImagesEnd: string := "different " + "prompt."
  /** The text of the error thrown when the reply holds no image. */
  const NoImagesMessage: string := NoImagesLead + NoImagesMiddle + NoImagesEnd

  const DataUriPrefix: string := "data:image/png;base64,"

  /** `generatedImages.map(img => `data:image/png;base64,${img.image.imageBytes}`)`. */
  function DataUris(images: seq<GeneratedImage>): (uris: seq<string>)
    ensures |uris| == |images|
    ensures forall i :: 0 <= i < |images| ==> uris[i] == DataUriPrefix + images[i].imageBytes
  {
    if images == [] then [] else [DataUriPrefix + images[0].imageBytes] + DataUris(images[1..])
  }

  predicate HasImages(response: ImageResponse) {
    response.ImageReply? && response.generatedImages.Some? && |response.generatedImages.value| > 0
  }

  /** `generateLogoConcept`: no images is an error; otherwise one data URI per image, in order. */
  function GenerateLogoConcept(response: ImageResponse): (r: Result<seq<string>>)
    ensures r.Success? <==> HasImages(response)
    ensures r.Success? ==> var images := response.generatedImages.value;
      |r.value| == |images| && forall i :: 0 <= i < |images| ==> r.value[i] == DataUriPrefix + images[i].imageBytes
    ensures r.Failure? ==> r.message in UserMessages(LogoContext)
    ensures response.ImageFailure? ==> r == Failure(HandleGeminiError(response.error, LogoContext))
    ensures response.ImageReply? && !HasImages(response) ==>
      r == Failure(HandleGeminiError(ErrorRecord(Some(NoImagesMessage), None), LogoContext))
  {
    match response
    case ImageFailure(error) => Failure(HandleGeminiError(error, LogoContext))
    case ImageReply(images) =>
      if !HasImages(response) then
        Failure(HandleGeminiError(ErrorRecord(Some(NoImagesMessage), None), LogoContext))
      else
        Success(DataUris(images.value))
  }
}
