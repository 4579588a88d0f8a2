/**
 * The idea-generator page: its form state, the guarded submit that starts
 * a request, the completion that ends it, and the key reset. The request
 * itself is not made here: `Submit` hands it back, and `Complete` takes
 * whatever the service settled to.
 */
module IdeaGenerator {
  import opened Wrappers
  import opened Text
  import opened GeminiService

  /** The three entries of `ideaTypes`. */
  datatype IdeaType = Slogans | Taglines | Features {
    /** The value kept in `selectedType` and sent to the service. */
    function Key(): string {
      match this
      case Slogans => "Slogans"
      case Taglines => "Taglines"
      case Features => "Features"
    }

    /** The text of the selection button. */
    function Label(): string {
      match this
      case Slogans => "Brand Slogans"
      case Taglines => "Marketing Taglines"
      case Features => "Unique Website Features"
    }
  }

  /** `ideaTypes`, in display order. */
  const IdeaTypes: seq<IdeaType> := [Slogans, Taglines, Features]

  /** The choices are listed once each, and a key names exactly one of them. */
  lemma IdeaTypesListed()
    ensures |IdeaTypes| == 3 && IdeaTypes[0] == Slogans
    ensures forall t: IdeaType :: t in IdeaTypes
    ensures forall i, j :: 0 <= i < |IdeaTypes| && 0 <= j < |IdeaTypes| && IdeaTypes[i].Key() == IdeaTypes[j].Key() ==> i == j
    ensures forall t: IdeaType :: t.Key() in {"Slogans", "Taglines", "Features"}
  {
    forall t: IdeaType ensures t in IdeaTypes {
      match t
      case Slogans => assert IdeaTypes[0] == t;
      case Taglines => assert IdeaTypes[1] == t;
      case Features => assert IdeaTypes[2] == t;
    }
    forall i, j | 0 <= i < |IdeaTypes| && 0 <= j < |IdeaTypes| && IdeaTypes[i].Key() == IdeaTypes[j].Key()
      ensures i == j
    {
      assert "Slogans"[0] == 'S' && "Taglines"[0] == 'T' && "Features"[0] == 'F';
    }
  }

  const MissingKeyHead: string := "Please set your "
  const MissingKeyTail: string := " before generating ideas."
  const MissingKeyMessage: string := MissingKeyHead + "API key" + MissingKeyTail
  const EmptyPromptMessage: string := "Please describe " + "your business " + "or product."
  const UnexpectedMessage: string := "An unexpected " + "error occurred."

  /** The arguments of the `generateCreativeIdeas` call an accepted submit makes. */
  datatype Request = Request(prompt: string, ideaType: string, apiKey: string)

  /** `!apiKey` is false: a key is set and is not the empty string. */
  predicate HasKey(apiKey: Option<string>)
    ensures HasKey(apiKey) ==> apiKey.Some? && |apiKey.value| > 0
  {
    apiKey.Some? && apiKey.value != ""
  }

  /** `null` and the empty string are falsy; every other string is truthy. */
  lemma KeyTruthiness(key: string)
    ensures !HasKey(None) && !HasKey(Some(""))
    ensures HasKey(Some(key)) <==> key != ""
  {
  }

  /** `err.message || 'An unexpected error occurred.'`. */
  function ShownError(message: string): (shown: string)
    ensures shown != ""
    ensures message != "" ==> shown == message
    ensures message == "" ==> shown == UnexpectedMessage
  {
    if message == "" then UnexpectedMessage else message
  }

  /** `error && error.toLowerCase().includes('api key')`. */
  predicate MentionsApiKey(error: Option<string>)
    ensures MentionsApiKey(error) ==> error.Some? && |error.value| >= |"api key"|
  {
    error.Some? && Includes(Lower(error.value), "api key")
  }

  /** The test is blind to case: a message and its lower-cased form pass it alike. */
  lemma MentionIgnoresCase(message: string)
    ensures MentionsApiKey(Some(message)) <==> MentionsApiKey(Some(Lower(message)))
  {
    LowerIdempotent(message);
  }

  /** The page's `useState` fields, and the `localStorage` entry for the key. */
  class IdeaGeneratorPage {
    var prompt: string
    var selectedType: IdeaType
    var isLoading: bool
    var error: Option<string>
    var results: seq<string>
    var apiKey: Option<string>
    /** The `google-ai-api-key` entry of `localStorage`. */
    var storedKey: Option<string>

    /**
     * While a request runs no results are shown, and an error that is set
     * is never the empty string (see `RenderingFacts`).
     */
    predicate Valid()
      reads this
    {
      && (isLoading ==> results == [])
      && (error.Some? ==> error.value != "")
    }

    /** The "brainstorming" indicator's condition, `isLoading && results.length === 0`. */
    predicate Brainstorming()
      reads this
    {
      isLoading && results == []
    }

    /** The error box's condition, `{error && …}`: a set error that is not the empty string. */
    predicate ErrorShown()
      reads this
    {
      error.Some? && error.value != ""
    }

    /** In every reachable state the indicator is on exactly while loading, and the error box shows exactly a set error. */
    lemma RenderingFacts()
      requires Valid()
      ensures Brainstorming() <==> isLoading
      ensures ErrorShown() <==> error.Some?
    {
    }

    /** The first render: every field at its initial value; the store is as the browser has it. */
    constructor (stored: Option<string>)
      ensures Valid()
      ensures prompt == "" && selectedType == IdeaTypes[0] && !isLoading
      ensures error == None && results == [] && apiKey == None && storedKey == stored
    {
      prompt := "";
      selectedType := Slogans;
      isLoading := false;
      error := None;
      results := [];
      apiKey := None;
      storedKey := stored;
    }

    /** The mount effect: a saved key that is not empty becomes the current key. */
    method RestoreSavedKey()
      requires Valid()
      modifies this
      ensures Valid()
      ensures apiKey == (if HasKey(storedKey) then storedKey else old(apiKey))
      ensures prompt == old(prompt) && selectedType == old(selectedType) && isLoading == old(isLoading)
      ensures error == old(error) && results == old(results) && storedKey == old(storedKey)
    {
      if HasKey(storedKey) {
        apiKey := storedKey;
      }
    }

    /** `onKeySaved={setApiKey}`: the key manager hands over a key. */
    method KeySaved(key: string)
      requires Valid()
      modifies this
      ensures Valid()
      ensures apiKey == Some(key)
      ensures prompt == old(prompt) && selectedType == old(selectedType) && isLoading == old(isLoading)
      ensures error == old(error) && results == old(results) && storedKey == old(storedKey)
    {
      apiKey := Some(key);
    }

    /** The textarea's `onChange`. */
    method SetPrompt(text: string)
      requires Valid()
      modifies this
      ensures Valid()
      ensures prompt == text
      ensures selectedType == old(selectedType) && isLoading == old(isLoading) && apiKey == old(apiKey)
      ensures error == old(error) && results == old(results) && storedKey == old(storedKey)
    {
      prompt := text;
    }

    /** A selection button's `onClick`. */
    method SelectType(t: IdeaType)
      requires Valid()
      modifies this
      ensures Valid()
      ensures selectedType == t && selectedType.Key() in {"Slogans", "Taglines", "Features"}
      ensures prompt == old(prompt) && isLoading == old(isLoading) && apiKey == old(apiKey)
      ensures error == old(error) && results == old(results) && storedKey == old(storedKey)
    {
      selectedType := t;
      IdeaTypesListed();
    }

    /**
     * `handleSubmit` up to the service call. The key is checked before the
     * prompt; a rejected submit changes only `error`. An accepted one starts
     * loading, clears the error and the results, and returns the request.
     */
    method Submit() returns (call: Option<Request>)
      requires Valid()
      modifies this
      ensures Valid()
      ensures prompt == old(prompt) && selectedType == old(selectedType)
      ensures apiKey == old(apiKey) && storedKey == old(storedKey)
      ensures !HasKey(apiKey) ==>
        call == None && error == Some(MissingKeyMessage)
        && isLoading == old(isLoading) && results == old(results)
      ensures HasKey(apiKey) && Trim(prompt) == "" ==>
        call == None && error == Some(EmptyPromptMessage)
        && isLoading == old(isLoading) && results == old(results)
      ensures HasKey(apiKey) && Trim(prompt) != "" ==>
        call == Some(Request(prompt, selectedType.Key(), apiKey.value))
        && isLoading && error == None && results == []
    {
      if !HasKey(apiKey) {
        error := Some(MissingKeyMessage);
        return None;
      }
      if Trim(prompt) == "" {
        error := Some(EmptyPromptMessage);
        return None;
      }
      isLoading := true;
      error := None;
      results := [];
      call := Some(Request(prompt, selectedType.Key(), apiKey.value));
    }

    /**
     * The rest of `handleSubmit`, once the call has settled: the ideas on
     * success, the thrown message (or the stock one) on failure, and in
     * both cases the end of loading.
     */
    method Complete(outcome: Result<seq<string>>)
      requires Valid()
      modifies this
      ensures Valid()
      ensures !isLoading
      ensures outcome.Success? ==> results == outcome.value && error == old(error)
      ensures outcome.Failure? ==> error == Some(ShownError(outcome.message)) && results == old(results)
      ensures prompt == old(prompt) && selectedType == old(selectedType)
      ensures apiKey == old(apiKey) && storedKey == old(storedKey)
    {
      match outcome {
        case Success(ideas) =>
          results := ideas;
        case Failure(message) =>
          error := Some(ShownError(message));
      }
      isLoading := false;
    }

    /** `handleResetApiKey`: forget the key, here and in the store, and clear the error. */
    method ResetApiKey()
      requires Valid()
      modifies this
      ensures Valid()
      ensures storedKey == None && apiKey == None && error == None
      ensures prompt == old(prompt) && selectedType == old(selectedType)
      ensures isLoading == old(isLoading) && results == old(results)
    {
      storedKey := None;
      apiKey := None;
      error := None;
    }

    /** Whether the "Reset API Key" button is offered: only with an error set, and always for the invalid-key message. */
    predicate IsApiKeyError()
      reads this
      ensures IsApiKeyError() ==> error.Some?
      ensures error == Some(InvalidKeyMessage) ==> IsApiKeyError()
      ensures error == Some(RateLimitMessage) ==> !IsApiKeyError()
    {
      InvalidKeyMentionsKey();
      RateLimitNoKeyMention();
      MentionsApiKey(error)
    }
  }

  // ---------------------------------------------------------------------
  // Which messages offer the key reset
  // ---------------------------------------------------------------------

  lemma PageMessagesLack(c: char)
    requires c in "kK"
    ensures c !in EmptyPromptMessage && c !in UnexpectedMessage
  {
  }

  lemma RateLimitNoKeyMention()
    ensures !MentionsApiKey(Some(RateLimitMessage))
  {
    RateLimitHeadLacks('k');
    RateLimitHeadLacks('K');
    RateLimitTailLacks('k');
    RateLimitTailLacks('K');
    LacksNotIncluded(RateLimitHead + RateLimitTail, "api key", 4);
  }

  lemma BlockedNoKeyMention()
    ensures !MentionsApiKey(Some(BlockedMessage))
  {
    BlockedHeadLacks('i');
    BlockedHeadLacks('I');
    BlockedTailLacks('k');
    BlockedTailLacks('K');
    NotIncludedTwo(BlockedHead, BlockedTail, "api key", 2, 4);
  }

  lemma BillingNoKeyMention()
    ensures !MentionsApiKey(Some(BillingMessage))
  {
    BillingHeadLacks('p');
    BillingHeadLacks('P');
    BillingMiddleLacks('i');
    BillingMiddleLacks('I');
    BillingTailLacks('k');
    BillingTailLacks('K');
    NotIncludedThree(BillingHead, BillingMiddle, BillingTail, "api key", 1, 2, 4);
  }

  lemma FallbackNoKeyMention()
    ensures !MentionsApiKey(Some(FallbackMessage(IdeasContext)))
  {
    var a := "Failed to " + IdeasContext + FallbackSuffixHead;
    var b := FallbackSuffixTail;
    FallbackSplits();
    FallbackHeadLacks('k');
    FallbackHeadLacks('K');
    FallbackTailLacks('k');
    FallbackTailLacks('K');
    LacksNotIncluded(a + b, "api key", 4);
  }

  lemma InvalidKeyMentionsKey()
    ensures MentionsApiKey(Some(InvalidKeyMessage))
  {
    assert Lower("API key") == "api key";
    IncludesLowerAt(InvalidKeyHead, "API key", InvalidKeyTail, "api key");
  }

  /**
   * Of the messages a failed idea request can show, only the invalid-key
   * one offers the key reset.
   */
  lemma ResetOfferedOnlyForInvalidKey(message: string)
    requires message in UserMessages(IdeasContext)
    ensures MentionsApiKey(Some(ShownError(message))) <==> message == InvalidKeyMessage
  {
    InvalidKeyMentionsKey();
    RateLimitNoKeyMention();
    BlockedNoKeyMention();
    BillingNoKeyMention();
    FallbackNoKeyMention();
  }

  /** The page's own messages: the missing-key one offers the reset, the other two do not. */
  lemma PageMessagesAndReset()
    ensures MentionsApiKey(Some(MissingKeyMessage))
    ensures !MentionsApiKey(Some(EmptyPromptMessage)) && !MentionsApiKey(Some(UnexpectedMessage))
  {
    assert Lower("API key") == "api key";
    IncludesLowerAt(MissingKeyHead, "API key", MissingKeyTail, "api key");
    PageMessagesLack('k');
    PageMessagesLack('K');
    LacksNotIncluded(EmptyPromptMessage, "api key", 4);
    LacksNotIncluded(UnexpectedMessage, "api key", 4);
  }

  /**
   * A failure of the idea service is shown as it is: its message is never
   * empty, so the stock message does not appear.
   */
  lemma ServiceFailureShownAsIs(response: TextResponse, parse: string -> Parsed<IdeasPayload>)
    requires GenerateCreativeIdeas(response, parse).Failure?
    ensures var m := GenerateCreativeIdeas(response, parse).message;
      ShownError(m) == m && m != UnexpectedMessage
  {
    var m := GenerateCreativeIdeas(response, parse).message;
    MessagesDistinct(IdeasContext);
    assert UnexpectedMessage[0] == 'A';
    assert m in UserMessages(IdeasContext);
  }
}
