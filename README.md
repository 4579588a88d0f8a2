# A verified model of the AI-service wrapper, the idea-generator page and the hash router

The site is a single-page React application. Three small parts of it carry
behaviour worth stating and proving; this project models each of them in
Dafny and proves what they promise.

- **The AI-service wrapper** (`services/geminiService.ts`). `handleGeminiError`
  reads `error?.message` and `error?.details`, lower-cases both, joins them
  with a space and runs a prioritised chain of substring tests. The first
  test that succeeds picks one of four fixed messages; the fifth one,
  `Failed to <context>. …`, is kept when no test succeeds. Around it, the
  three operations shape the backend's reply:
  - the website concept is the parsed JSON, returned as it is;
  - the creative ideas are `result.ideas || []`;
  - the logo concept is one `data:image/png;base64,` URI per generated image,
    or a failure when there are none.

  Every failure the model represents goes through the classifier with the
  operation's own context string; the two ways a throw escapes it in the
  program (a throw from `new GoogleGenAI`, and an error field that is present
  but not a string) are listed under "## Left out". The backend and
  `JSON.parse` are inputs here: a reply value (`TextResponse`,
  `ImageResponse`) and a parsing function that either gives a value or
  reports an error record.

  The classifier's pieces: `FieldText` is `field || ''`; the four tests
  `RateLimitSignal`, `InvalidKeySignal`, `BlockedSignal` and `BillingSignal`
  are the four `if` conditions; `UserMessage` maps each category to its
  message, `FallbackMessage(context)` being the initial
  `userFriendlyMessage`. `HasImages` is the negation of the
  no-images guard, and `IsJsWhitespace` is the set of characters `trim`
  removes.
- **The idea-generator page** (`components/IdeaGenerator.tsx`), a class with
  the page's state fields (`prompt`, `selectedType`, `isLoading`, `error`,
  `results`, `apiKey`) and the `localStorage` key entry. `handleSubmit` is
  split at its `await`:
  - `Submit` runs the two guards, key first, and when they pass starts
    loading and returns the request it would send;
  - `Complete` takes whatever the service settled to.

  `ResetApiKey` is `handleResetApiKey`. The derived predicate
  `isApiKeyError` is `MentionsApiKey(error)`.
- **The hash router** (`App.tsx`): the route is the hash without its first
  character, or `/` when that is empty. The page is looked up in an
  eleven-entry table, with the home page as the fallback. The `Router` class
  renders the corrected lookup of the "## Findings" row (`Resolve`); the
  lookup as written is `PageAsWritten`, and the two are proved equal on
  every route except the names inherited from `Object.prototype`.

The modules follow the program. `Text` holds the three JavaScript string
operations the core uses:
- `toLowerCase`, on ASCII letters;
- `includes`;
- `trim`, with the full ECMAScript WhiteSpace and LineTerminator set.

`GeminiService` is the classifier and the reply shaping. `ServiceExamples`
states what concrete reports become under the classifier. `IdeaGenerator` is the page
and `App` is the router. `Wrappers` holds `Option` and `Result`.

A `Result` is what an `async` call settles to: a value, or a thrown `Error`
with its message. Absent JavaScript values (`undefined`, `null`) are `None`.

The message constants are written as concatenations of short pieces. Facts
about which characters a message lacks are proved one piece and a few
characters at a time, and `includes` on a concrete message is decided by a
chain argument over these facts (`Text.ChainNotIncluded`). Suppose a text
splits into pieces and piece *i* lacks keyword character `k[j_i]`, with the
positions `j_i` never decreasing. Then the keyword fits nowhere in the text.

## Model

| member | source | states |
|---|---|---|
| Text.Lower | services/geminiService.ts:9-10 | `toLowerCase` keeps the length of the string |
| Text.LowerAppend | services/geminiService.ts:11 | lower-casing the joined string is joining the lower-cased parts |
| Text.LowerIdempotent | services/geminiService.ts:9-10 | lower-casing twice is lower-casing once |
| Text.LowerHasNoUpper | services/geminiService.ts:9-10 | a lower-cased string has no upper-case ASCII letter |
| Text.LowerAbsent | services/geminiService.ts:9-10 | a character is missing from the lower-cased text when it and its upper-case form are missing from the text |
| Text.Includes | services/geminiService.ts:13 | `includes` finds a keyword only when it fits in the text, and always finds the empty keyword |
| Text.IncludesIffSplit | services/geminiService.ts:13 | `includes` holds exactly when the text is the keyword with some text before and after it |
| Text.IncludesAt | services/geminiService.ts:13 | a keyword placed anywhere in a text is found by `includes` |
| Text.ChainNotIncluded | services/geminiService.ts:13-20 | `includes` is false when the pieces of the text lack keyword characters at non-decreasing positions |
| Text.LacksNotIncluded | services/geminiService.ts:13-20 | a keyword one of whose characters the text lacks in both cases is not found in the lower-cased text |
| Text.TrimStart | services/geminiService.ts:68 | the result is a suffix of the input, what was dropped is whitespace, and the result starts with a non-blank |
| Text.TrimEnd | services/geminiService.ts:140 | the result is a prefix of the input, what was dropped is whitespace, and the result ends with a non-blank |
| Text.Trim | services/geminiService.ts:68 | the trimmed text occurs in the original and neither starts nor ends with whitespace |
| Text.TrimEmptyIff | components/IdeaGenerator.tsx:35 | `trim` gives the empty string exactly when every character is whitespace |
| Text.TrimKeepsCore | services/geminiService.ts:68 | `trim` removes the blank margins and keeps what lies between the first and last non-blank |
| GeminiService.FullErrorString | services/geminiService.ts:9-11 | the classified text is the message, one space, then the details, and lower-casing it changes nothing |
| GeminiService.Classify | services/geminiService.ts:13-21 | the rate-limit category exactly when its test holds, each other category only when its own test holds, and the generic one exactly when none holds |
| GeminiService.HandleGeminiError | services/geminiService.ts:3-24 | the message is always one of the five fixed messages for the context, and never empty |
| GeminiService.MessagesDistinct | services/geminiService.ts:6-20 | the five messages are pairwise different for every context |
| GeminiService.UserMessageInjective | services/geminiService.ts:13-21 | the message determines the branch that produced it |
| GeminiService.ClassifiedAs | services/geminiService.ts:13-23 | the output is a given category's message exactly when the chain picks that category |
| GeminiService.RateLimitIff | services/geminiService.ts:13-14 | the rate-limit message comes out exactly when the text has "rate limit", "quota", "resource_exhausted" or "429", whatever else it has |
| GeminiService.InvalidKeyIff | services/geminiService.ts:15-16 | the invalid-key message comes out exactly when there is no rate-limit keyword and the text has "api key" together with "invalid" or "not found" |
| GeminiService.BlockedIff | services/geminiService.ts:17-18 | the safety message comes out exactly when neither earlier test holds and the text has "prompt was blocked" or "safety" |
| GeminiService.BillingIff | services/geminiService.ts:19-20 | the billing message comes out exactly when no earlier test holds and the text has "billing" or "account" |
| GeminiService.FallbackIff | services/geminiService.ts:6-23 | the generic `Failed to <context>` message comes out exactly when no keyword test holds |
| GeminiService.ClassifyAgreesWithRules | services/geminiService.ts:13-21 | the if / else-if chain agrees on every text with a first-match table of keyword rules |
| GeminiService.FullErrorStringLower | services/geminiService.ts:9-11 | the classified text is the lower-cased `message + " " + details`, with a missing `message` or `details` read as "" |
| GeminiService.ParseReply | services/geminiService.ts:68-74 | success exactly when the reply has text and the trimmed text parses, with the parsed value; a backend error, a missing text and a parse error each fail with the classifier's message for that very error and the context |
| GeminiService.GenerateWebsiteConcept | services/geminiService.ts:68-74 | the parsed payload is returned unchanged; a backend error, a missing text and a parse error each fail with the classification of that error in the website context |
| GeminiService.WebsiteConceptUnchanged | services/geminiService.ts:68-71 | a payload with `html`, `css` and `js` comes back field for field |
| GeminiService.GenerateCreativeIdeas | services/geminiService.ts:140-146 | success gives the parsed `ideas`, or the empty list when they are absent; a backend error, a missing text and a parse error each fail with the classification of that error in the ideas context |
| GeminiService.FieldIdeas | services/geminiService.ts:143 | a present list is kept as it is; the result is empty exactly when the list is absent or empty |
| GeminiService.MissingIdeasIsEmpty | services/geminiService.ts:143 | a payload without `ideas` gives the empty list, not a failure |
| GeminiService.TaglinesScenario | services/geminiService.ts:140-143 | five parsed taglines come back exactly and in order |
| GeminiService.DataUris | services/geminiService.ts:99 | one URI per image, in order, each the PNG data-URI prefix followed by the image's bytes |
| GeminiService.GenerateLogoConcept | services/geminiService.ts:95-103 | success exactly when there is at least one image, with the URIs in image order; a backend error fails with its classification in the logo context, and a reply without images with the classification of the "no images" error |
| ServiceExamples.ApiKeyAloneFallsThrough | services/geminiService.ts:15-16 | "API key expired" contains "api key" but gets the generic message, for any context |
| ServiceExamples.KeywordMayStraddleFields | services/geminiService.ts:9-14 | `message` "Rate" and `details` "Limit hit" give the rate-limit message, though neither field has "rate limit" |
| ServiceExamples.NoImagesIsFallback | services/geminiService.ts:95-102 | a reply without images ends in the generic "Failed to generate logos" message, since the inner error has no keyword |
| IdeaGenerator.IdeaTypesListed | components/IdeaGenerator.tsx:7-11 | three choices, "Slogans" first; each choice listed, keys distinct and within "Slogans", "Taglines", "Features" |
| IdeaGenerator.HasKey | components/IdeaGenerator.tsx:31 | a key that passes `!apiKey` is set and not empty |
| IdeaGenerator.KeyTruthiness | components/IdeaGenerator.tsx:31 | `null` and "" fail the key test; every other string passes it |
| IdeaGenerator.MentionsApiKey | components/IdeaGenerator.tsx:60 | the test holds only for a set error at least as long as "api key" |
| IdeaGenerator.MentionIgnoresCase | components/IdeaGenerator.tsx:60 | a message passes the test exactly when its lower-cased form does |
| IdeaGenerator.ShownError | components/IdeaGenerator.tsx:48 | the shown error is the thrown message, or the stock message when that is empty; never empty |
| IdeaGenerator.IdeaGeneratorPage.constructor | components/IdeaGenerator.tsx:14-19 | the first render: empty prompt, "Slogans" selected, not loading, no error, no results, no key |
| IdeaGenerator.IdeaGeneratorPage.RestoreSavedKey | components/IdeaGenerator.tsx:21-26 | a saved key that is not empty becomes the key; nothing else changes |
| IdeaGenerator.IdeaGeneratorPage.KeySaved | components/IdeaGenerator.tsx:76 | the key handed over becomes the key; nothing else changes |
| IdeaGenerator.IdeaGeneratorPage.SetPrompt | components/IdeaGenerator.tsx:84 | the prompt becomes the typed text; nothing else changes |
| IdeaGenerator.IdeaGeneratorPage.SelectType | components/IdeaGenerator.tsx:98 | the selection becomes the clicked choice, always one of the three keys; nothing else changes |
| IdeaGenerator.IdeaGeneratorPage.Submit | components/IdeaGenerator.tsx:29-42 | without a key only `error` changes, to the missing-key message; with a key and a blank prompt only `error` changes, to the describe message; otherwise loading starts, error and results are cleared and the request carries prompt, selected key and key |
| IdeaGenerator.IdeaGeneratorPage.Complete | components/IdeaGenerator.tsx:44-51 | loading ends in both outcomes; success sets the results; failure sets the shown error and keeps the results |
| IdeaGenerator.IdeaGeneratorPage.ResetApiKey | components/IdeaGenerator.tsx:54-58 | stored key, key and error are cleared; prompt, selection, loading and results are kept |
| IdeaGenerator.IdeaGeneratorPage.RenderingFacts | components/IdeaGenerator.tsx:118-133 | in every state the page keeps, the "brainstorming" indicator is on exactly while loading and the error box shows exactly when an error is set |
| IdeaGenerator.IdeaGeneratorPage.IsApiKeyError | components/IdeaGenerator.tsx:60 | the reset is offered only while an error is set; always for the invalid-key message, never for the rate-limit one |
| IdeaGenerator.ResetOfferedOnlyForInvalidKey | components/IdeaGenerator.tsx:60 | among the messages a failed idea request can show, the "Reset API Key" test holds exactly for the invalid-key message |
| IdeaGenerator.PageMessagesAndReset | components/IdeaGenerator.tsx:31-38 | the missing-key message passes the "api key" test; the describe message and the stock message do not |
| IdeaGenerator.ServiceFailureShownAsIs | components/IdeaGenerator.tsx:47-48 | a failure of the idea service is shown with its own message, never the stock one |
| App.RouteOfHash | App.tsx:32 | the route is never empty |
| App.RouteOfHashInverts | App.tsx:36 | `#` followed by a non-empty route reads back as that route; an empty hash and a bare `#` read as `/` |
| App.Resolve | App.tsx:17-29 | a key of the table gives exactly its page; anything else gives the home page |
| App.PathOf | App.tsx:17-29 | every page has a key in the table that maps back to it |
| App.RoutesBijective | App.tsx:17-29 | keys and pages correspond one to one: resolving a page's key gives the page, and different keys name different pages |
| App.HomeIsTheFallback | App.tsx:55 | a route outside the table shows the home page; an empty hash and `#/` show the home page |
| App.RoutesIndex | App.tsx:55 | `routes[name]` is a component exactly for the table's keys, and an inherited member exactly for the inherited names outside them |
| App.PageAsWritten | App.tsx:55 | the written expression never yields `undefined` |
| App.AsWrittenAgreesOffPrototype | App.tsx:55 | away from the inherited names the written expression is the table lookup with its home-page fallback |
| App.ConstructorHashIsNotAPage | App.tsx:55 | the hash `#constructor` yields the inherited `constructor`, neither a page nor the fallback |
| App.Router.constructor | App.tsx:32 | the initial route is the route of the hash |
| App.Router.HandleHashChange | App.tsx:35-38 | the route becomes the route of the new hash, computed exactly as on first load; the page shown is its own-key resolution, which off the inherited names is the page the written lookup gives |
| App.Router.CurrentPage | App.tsx:55 | a table key shows its page and any other route the home page; off the inherited names this is what `routes[activeRoute] \|\| routes['/']` gives |

## Left out

- The Gemini SDK (`GoogleGenAI`, `generateContent`, `generateImages`) is a foreign call. Its reply is an input: a text that may be undefined, an image list that may be undefined, or a thrown error record.
- ErrorRecord assumes `message` and `details` are strings when present. A truthy non-string field (a numeric `message`, an object `details`) makes `.toLowerCase` throw inside `handleGeminiError` itself, so the operation's `catch` rethrows a raw `TypeError` that bypasses the classifier and is shown as it is.
- `new GoogleGenAI({ apiKey })` is left out. It runs outside each operation's `try`, so a throw from it would bypass the classifier. `IdeaGeneratorPage.Complete` accepts any thrown message for this reason.
- `JSON.parse` and the response schemas are left out. Parsing is a function parameter that gives a value or an error record.
- In the ideas operation, a parse result of `null` and an `ideas` value that is not an array are not modelled. In the program `result.ideas` on `null` throws inside the `try` and is classified, a truthy non-array `ideas` is returned as it is, and a falsy one (`0`, `false`, `""`) gives `[]`. The website operation returns any parse result, `null` included, as it is; its generic payload type covers that.
- `img.image` being undefined in `generateLogoConcept` is not modelled. An image is reduced to its `imageBytes` text.
- `MissingTextError` assumes the wording of V8's `TypeError` for a `trim` of undefined. The engine's wording is not part of the program.
- The prompt templates, the model names and the generation settings are free text sent to the backend and carry no promise.
- Async scheduling, `console.error` and `window.scrollTo` are left out. Event-listener registration is left out too.
- `window.location.hash` is an input string. The hash setter used by `setRoute` and the browser's percent-encoding of fragments are not modelled. `App.RouteOfHashInverts` states the round trip for the hash `#` + route.
- `localStorage` is the field `storedKey`. Storage failures and other tabs are not modelled.
- Text.Lower: `toLowerCase` is modelled on ASCII letters only; non-ASCII letters are left as they are.
- The `disabled` attributes that block the textarea, the choice buttons and the submit button while loading are rendering. The methods do not check `isLoading`.
- The APIKeyManager component is not part of this model; only its `onKeySaved` callback is (`KeySaved`).
- `components/Contact.tsx` and `types.ts` hold no behaviour of the core.
- JSX rendering and styling are not modelled. Of the rendering, only the conditions `IdeaGeneratorPage.Brainstorming`, `IdeaGeneratorPage.ErrorShown` and `IdeaGeneratorPage.IsApiKeyError` are kept.
- App.RoutesBijective: states the one-to-one correspondence between keys and the eleven `Page` values, and not the count of keys as a number.
- IdeaGenerator.ResetOfferedOnlyForInvalidKey: proved for the context of the idea service, the only one the page calls. It is not proved for arbitrary contexts, since a context that itself contains "api key" would change the answer.

## Findings

| source | as written | input that shows it | evidently intended | confidence | as-written member | corrected member |
|---|---|---|---|---|---|---|
| App.tsx:55 | `routes[activeRoute] \|\| routes['/']` also finds the members every object inherits from `Object.prototype` | the hash `#constructor`: the route is "constructor" and `routes["constructor"]` is the `Object` function, which is rendered as the page instead of the home-page fallback | only the table's own keys name pages; every other route falls back to the home page, as the comment on the line says | medium, not executed | App.ConstructorHashIsNotAPage | App.Resolve |
