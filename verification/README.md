# Cultura Atlas — a Dafny model of its deterministic core

Cultura Atlas is a Next.js app that plans trips from a user's cultural
tastes. A person lists things they love: a band, a dish, a film. The
server looks those up in the Qloo taste service and asks Google Gemini to
write an itinerary. A chat panel lets them talk about the plan.

Almost all of it is glue around those two services. This project models
the parts whose behaviour can be stated exactly, and proves their
properties in Dafny:

- **Group preference merging** (`GroupMerge`): the `union` and
  `intersection` strategies of `mergeGroupPreferences`. Preferences are
  keyed by the string `name + "-" + category`, and a JavaScript `Map`
  keeps insertion order.
- **The Qloo gateway** (`Qloo`):
  - recommendations are shaped from search results with a constant score;
  - a first round with no entities short-cuts to an empty response;
  - `analyzeTasteProfile` builds one insight per preference;
  - `generateTasteProfile` fills its text template.
- **The Gemini gateway** (`Gemini`):
  - the `detectAction` keyword classifier;
  - greedy `{…}` extraction and default filling in `parseItineraryResponse`;
  - the slicing caps of the three prompt builders;
  - the fields that `generateItinerary`, `refineItinerary` and
    `chatResponse` take from their arguments rather than from the
    generated text.
- **The three API endpoints** (`Routes`): each is a function from the
  parsed request body and the upstream results to an HTTP status and a
  JSON body.
- **The client state machines**:
  - the page's preference list, generate flow and section tabs (`Page`);
  - the preference form (`TasteForm`);
  - the chat log (`Chat`).
- **Display helpers** (`Display`): the time and category icons and the
  PDF file name.

Upstream services are parameters of the functions that call them:

- the Qloo entity search: `Qloo.Search`, from a query to a result or an
  error message;
- the Gemini text generator: `Gemini.Generator`, from a structured prompt
  to a result, where the text may be empty;
- `JSON.parse`: `Gemini.JsonParser`.

Clock readings (`Date.now()`, `toISOString()`) are passed in as
`Types.Clock`. Its two millisecond readings are independent, because
an operation that reads `Date.now()` twice may see the clock tick. A thrown JavaScript error is the `Err` case of
`Wrappers.Result`, carrying the error's message.

Helper modules:

- `Wrappers`: `Option` and `Result`.
- `Seqs`: sequences, including `Distinct`, which is iteration order of a
  `Set` built from a list.
- `Text`: ECMAScript `trim`, `toLowerCase` on ASCII, and `includes`.
- `Assoc`: an insertion-ordered map as an association list.

## Model

| member | source | states |
|---|---|---|
| Types.Days | types/index.ts:79 | each of the seven durations lasts between 1 and 7 days |
| Types.DurationLabelSpellsDays | types/index.ts:79 | every duration label is its day count as one digit followed by `-day` |
| Types.ParseDuration | types/index.ts:79 | a string names a duration only when it is exactly that duration's label |
| Types.DurationLabelRoundTrip | types/index.ts:79 | every duration's label parses back to the same duration |
| Seqs.Distinct | lib/qloo-api.ts:133 | `Array.from(new Set(xs))` holds no duplicates and exactly the elements of `xs` |
| Seqs.DistinctFirstOccurrenceOrder | lib/qloo-api.ts:133 | the distinct elements come in the order of their first occurrence in the input |
| Text.Trim | components/TasteInputForm.tsx:45 | the trimmed text is empty iff the input is all whitespace; otherwise it starts and ends with non-whitespace and is the input minus its leading and trailing whitespace |
| GroupMerge.KeyCollision | lib/qloo-api.ts:169 | the key is a concatenated string, so ("a-b", "c") and ("a", "b-c") collide |
| GroupMerge.MergeUnion | lib/qloo-api.ts:166-174 | union yields one entry per key, keys in first-occurrence order; each entry is an input element whose confidence (missing = 0) beats every earlier entry with its key and is not beaten by any later one |
| GroupMerge.UnionTableCorrect | lib/qloo-api.ts:167-173 | the `forEach` over the `Map` keeps, per key, the first entry of maximal confidence, and keys stay at their first insertion position even when the value is replaced |
| GroupMerge.UnionKeepsMoreConfident | lib/qloo-api.ts:170-171 | two entries with one key and confidences 0.4 then 0.9 merge to the 0.9 entry alone |
| GroupMerge.TallyTableCorrect | lib/qloo-api.ts:178-185 | the counting pass records, per key, the first entry with that key and the number of entries sharing the key |
| GroupMerge.MergeIntersection | lib/qloo-api.ts:176-189 | the counting fold equals an independent definition: for each distinct key in first-occurrence order, its first entry if the key occurs at least twice |
| GroupMerge.IntersectionMembers | lib/qloo-api.ts:176-189 | an entry is in the intersection iff it is the first entry of a key that occurs at least twice |
| GroupMerge.IntersectionOfDistinctKeysIsEmpty | lib/qloo-api.ts:186-189 | input whose keys are all different merges to the empty list |
| GroupMerge.IntersectionKeepsTheRepeat | lib/qloo-api.ts:176-189 | of three entries where exactly two share a key, only the first of that pair is kept |
| GroupMerge.Merge | lib/qloo-api.ts:162-191 | either strategy returns input elements with pairwise different keys; union keeps every key of the input, intersection only keys occurring at least twice |
| Qloo.SearchAll | lib/qloo-api.ts:63-64 | the fan-out succeeds iff every search does, giving the per-query results in query order; a failure carries some failing search's message |
| Qloo.GetRecommendations | lib/qloo-api.ts:58-75 | the recommendations are the per-id search results concatenated in id order, each scored 1.0 with the fixed reasoning, and `total` is their number; a failure carries the message of one of the searches that failed |
| Qloo.GetCrossDomainRecommendations | lib/qloo-api.ts:77-94 | no entity in the first round gives `{recommendations: [], total: 0}`; otherwise the result is the second-round search over the first round's entity ids; it succeeds iff both rounds do, and a failure carries the message of a failed search, from the first round when that round failed |
| Qloo.NoPreferencesNoRecommendations | lib/qloo-api.ts:89-91 | an empty preference list yields the empty response |
| Qloo.ExampleNames | lib/qloo-api.ts:117 | the examples are the names of the first three recommendations, or of all when fewer |
| Qloo.CollectInsights | lib/qloo-api.ts:106-120 | the insight loop fails iff some preference's lookup fails; otherwise there is one insight per position whose lookup found something, in preference order and with repeated preferences counted once per position, each built from that lookup's first recommendations; a failure carries the message of a failed per-preference lookup |
| Qloo.RepeatedPreferenceGivesTwoInsights | lib/qloo-api.ts:106-119 | a preference listed twice whose lookup finds something yields two insights |
| Qloo.InsightsCons | lib/qloo-api.ts:106-120 | handling one more preference at the front keeps those properties |
| Qloo.InsightBounds | lib/qloo-api.ts:106-120 | there are at most as many insights as preferences, each with one to three examples |
| Qloo.TasteProfile | lib/qloo-api.ts:131-148 | the profile opens with the sentence listing the distinct categories and ends with the eclectic sentence for more than three preferences, the focused one otherwise; with an insight, the category sentence is followed by the cross-cultural opening and the first insight's reasoning lower-cased and closed by ". "; without one, the profile is just the category sentence and the closing |
| Qloo.ProfileEclecticIff | lib/qloo-api.ts:141-145 | the profile ends with the eclectic sentence iff there are more than three preferences |
| Qloo.ProfileConnectionsIff | lib/qloo-api.ts:137-139 | the cross-cultural sentence follows the category sentence iff there is at least one insight |
| Qloo.AnalyzeTasteProfile | lib/qloo-api.ts:96-129 | the analysis succeeds iff the overall lookup and the insight loop do; it returns the overall lookup's recommendations, the loop's insights and the profile built from them; a failure carries the overall lookup's error when that failed and the loop's error otherwise |
| Gemini.DetectAction | lib/gemini-api.ts:204-210 | the action is generate iff a generate keyword occurs in the lower-cased message, else modify iff a modify keyword occurs, else explain iff an explain keyword occurs, else refine |
| Gemini.DetectActionIgnoresCase | lib/gemini-api.ts:205 | lower-casing the message first does not change the action |
| Gemini.JsonSpan | lib/gemini-api.ts:219-222 | there is no span iff no `{` has a `}` after it; otherwise the span starts at the first `{` and ends at the last `}` after it |
| Gemini.ExtractJson | lib/gemini-api.ts:219-222 | extraction fails iff no `{` has a `}` after it; otherwise the extracted text is the greedy match, from the first `{` to the last `}` after it |
| Gemini.OrDefault | lib/gemini-api.ts:228-230 | a present, non-empty field is kept; a missing or empty one becomes the fallback |
| Gemini.ParseItineraryResponse | lib/gemini-api.ts:212-242 | parsing fails with the fixed message iff extraction or `JSON.parse` fails; on success duration, preferences and location are the arguments whatever the text says, title, description and theme fall back to the fixed defaults, missing items become empty, and the id, the creation time and the share URL come from three separate clock readings |
| Gemini.TakeLast | lib/gemini-api.ts:161 | `slice(-n)` is the last `min(n, length)` elements |
| Gemini.TakeFirst | lib/gemini-api.ts:100 | `slice(0, n)` is the first `min(n, length)` elements |
| Gemini.BuildItineraryPrompt | lib/gemini-api.ts:90-102 | the itinerary prompt embeds exactly the first min(15, n) recommendations, with all the preferences, the duration and the location |
| Gemini.BuildChatPrompt | lib/gemini-api.ts:149-181 | the chat prompt embeds the message, exactly the last min(3, n) history messages and the first min(10, n) recommendations, and an itinerary summary iff there is a current itinerary |
| Gemini.BuildRefinementPrompt | lib/gemini-api.ts:183-202 | the refinement prompt embeds the user's request, the current itinerary's items and any new recommendations |
| Gemini.GenerateAndParse | lib/gemini-api.ts:25-35 | a generation succeeds iff the generator answers and its text parses; any failure carries the caller's fixed message |
| Gemini.GenerateItinerary | lib/gemini-api.ts:15-36 | generation succeeds iff the generator answers the itinerary prompt and its text holds parseable JSON, and then the result is that text's parsed itinerary with the requested duration, preferences and location; failure is the fixed "Failed to generate itinerary" |
| Gemini.RefineItinerary | lib/gemini-api.ts:70-88 | refinement succeeds iff the generator answers the refinement prompt and its text holds parseable JSON, and then the result is that text's parsed itinerary, keeping the current itinerary's preferences, duration and location; failure is the fixed "Failed to refine itinerary" |
| Gemini.ChatResponse | lib/gemini-api.ts:38-68 | a reply fails iff the generator does; a reply is from the assistant, its action is the detected action, it carries the preferences, and its context is `itinerary_exists` iff there is a current itinerary, `new_conversation` otherwise |
| Routes.GenerateItineraryRoute | app/api/generate-itinerary/route.ts:6-52 | status 400 iff the preferences are missing, not an array or empty; 404 iff the lookup finds no recommendations; on 200 the itinerary has the requested duration (default `1-day`), preferences and location, and the response carries the lookup's list and total; past those checks, the answer is 200 iff the itinerary generator succeeds, with its itinerary in the body; an unparseable body, a failed lookup or a failed generation answers 500 with that error's message |
| Routes.GenerateBadRequestIsUpstreamFree | app/api/generate-itinerary/route.ts:11-16 | a rejected preference list gets the same 400 whatever the upstream services would do |
| Routes.GenerateLookupFailureIs500 | app/api/generate-itinerary/route.ts:18-51 | a failed lookup answers 500 carrying the message of a search that failed, as the catch does with the thrown error |
| Routes.GenerateNotFoundSkipsGenerator | app/api/generate-itinerary/route.ts:25-30 | an empty lookup gets the same 404 whatever the generator and parser would do |
| Routes.ChatRoute | app/api/chat/route.ts:6-44 | status 400 iff the message is missing or empty or the preferences are not an array, so an empty array passes; on 200 the reply is generated with the lookup's list, which the response also carries, a missing itinerary as none and a missing history as empty; a valid request whose lookup succeeds answers 200 iff the reply is generated; an unparseable body, a failed lookup or a failed reply answers 500 with that error's message |
| Routes.ChatGeneratorFailureIs500 | app/api/chat/route.ts:37-43 | a failing reply generator gives 500 with the generator's message; no apology is produced by the endpoint |
| Routes.AnalyzeTasteRoute | app/api/analyze-taste/route.ts:5-37 | status 400 iff the preferences are missing, not an array or empty; on 200 the summary counts the preferences, lists the distinct categories and counts the insights of the analysis returned; a non-empty list answers 200 iff the analysis succeeds; an unparseable body or a failed analysis answers 500 with that error's message |
| Routes.AnalyzeSummaryCategories | app/api/analyze-taste/route.ts:25 | the summary's categories are exactly the input's categories, each once, in first-occurrence order |
| Page.NewPreference | app/page.tsx:61-65 | the new preference's id is `pref-` plus the clock's milliseconds and its name is the input text; its category is the input's when non-empty and `general` otherwise |
| Page.AddPreference | app/page.tsx:60-67 | adding appends exactly that preference and changes nothing else |
| Page.Without | app/page.tsx:70 | the filter keeps the other elements in order and with their multiplicities, and drops every element with the id |
| Page.RemovePreference | app/page.tsx:69-71 | removing drops every preference with the id, keeps the rest in order, and changes nothing else |
| Page.RemoveUndoesAdd | app/page.tsx:60-71 | removing a just-added preference by its id restores the list, when no earlier preference had that id |
| Page.SameMillisecondRemovesBoth | app/page.tsx:60-71 | two preferences added in the same millisecond share an id, and removing it removes both |
| Page.ClearAll | app/page.tsx:73-78 | clearing leaves no preferences, no itinerary, no error and the input section, and keeps only the loading flag |
| Page.BeginGenerate | app/page.tsx:23-43 | with no preferences only the error changes and no request is sent; otherwise loading starts, the error clears, and the request carries the preferences, duration and location |
| Page.ReplyOf | app/page.tsx:45-49 | the page takes the itinerary from a 2xx response that carries one and the error text from a response that carries one; a 2xx without an itinerary is read as a failure (see Left out) |
| Page.CompleteGenerate | app/page.tsx:45-57 | loading ends; success replaces the itinerary and shows the results; failure keeps the itinerary and section and sets a non-empty error, the endpoint's own when it sent one |
| Page.HandleGenerate | app/page.tsx:23-58 | the whole handler: the guard, then the request, then the reply; loading is off afterwards whenever a request was made |
| Page.SentRequestsAreWellFormed | app/page.tsx:33-43 | a request the page sends never gets a 400, and a 200 itinerary has the page's duration and preferences |
| Page.EndpointRepliesAreReadByStatus | app/page.tsx:45-52 | on every response the endpoint gives, the page reads a delivered itinerary exactly when the status is 2xx, which is the `response.ok` test |
| Page.NotFoundIsShown | app/page.tsx:47-54 | when the lookup finds nothing the page shows the endpoint's "No recommendations found" message |
| Page.SelectSection | app/page.tsx:100-110 | the results tab cannot be chosen while there is no itinerary |
| Page.HandlersKeepConsistent | app/page.tsx:100-110 | every handler keeps the results section backed by an itinerary |
| Page.SubmitAddsTrimmedPreference | components/TasteInputForm.tsx:43-49 | a submitted form adds a preference named by the trimmed, non-empty input and filed under the selected category |
| Page.FormGenerateRequest | components/TasteInputForm.tsx:52-54 | the request carries the form's duration, and an empty location is left out |
| TasteForm.Submit | components/TasteInputForm.tsx:43-50 | a whitespace-only input changes nothing and sends nothing; otherwise the trimmed text goes out with the selected category, and the input and category reset to empty and `general` |
| TasteForm.GenerateArgs | components/TasteInputForm.tsx:52-54 | the form's duration is passed, and the location is passed as absent iff it is empty |
| TasteForm.SliderLabelParses | components/TasteInputForm.tsx:162-166 | for every slider value 1 to 7, `"<v>-day"` names a duration of `v` days |
| TasteForm.Slide | components/TasteInputForm.tsx:157-166 | moving the slider to `v` sets the duration labelled `"<v>-day"` and nothing else |
| TasteForm.HandlersKeepSliderInSync | components/TasteInputForm.tsx:40-41 | the slider position and the duration agree initially and after every handler |
| Chat.UserMessage | components/ChatInterface.tsx:34-39 | the user's message has id `user-` plus the clock's milliseconds and the trimmed input as content |
| Chat.ApologyMessage | components/ChatInterface.tsx:67-72 | the failure message is an assistant message with the fixed apology text |
| Chat.BeginSend | components/ChatInterface.tsx:31-57 | a blank input or a request in flight changes nothing; otherwise the user message is appended, the input cleared, loading set, and the request sends the trimmed text with the log as it was before the append |
| Chat.OutcomeOf | components/ChatInterface.tsx:59-65 | the panel takes the reply from a 2xx response that carries one and treats anything else as a failure; a 2xx without a message is read as a failure (see Left out) |
| Chat.CompleteSend | components/ChatInterface.tsx:59-76 | exactly one message is appended, the reply or the apology, and loading ends |
| Chat.SendMessage | components/ChatInterface.tsx:31-77 | a send appends exactly two messages, the first the user's, without touching the earlier log, and leaves the input empty and loading off |
| Chat.SendAll | components/ChatInterface.tsx:31-77 | over any number of sends the earlier log is a prefix of the later one |
| Chat.EndpointRepliesAreReadByStatus | components/ChatInterface.tsx:57-65 | on every response the endpoint gives, the panel reads an answer exactly when the status is 2xx, which is the `response.ok` test |
| Chat.SentMessagesAreWellFormed | components/ChatInterface.tsx:46-65 | a message the panel sends never gets a 400, and a 200 reply is logged exactly as the endpoint produced it |
| Chat.FailureAppendsApology | components/ChatInterface.tsx:66-73 | a failed send leaves the user's message followed by the apology |
| Display.TimeIconOf | components/ItineraryDisplay.tsx:13-19 | the icon is the first of morning, afternoon, evening, night occurring in the lower-cased label, in that order, with the clock otherwise |
| Display.TimeIconIgnoresCase | components/ItineraryDisplay.tsx:14-17 | labels that agree after lower-casing get the same icon |
| Display.MorningAnywhereWins | components/ItineraryDisplay.tsx:14 | a label containing "morning" anywhere, in any case, gets the morning icon whatever else it mentions |
| Display.ClockFaceIffNoWord | components/ItineraryDisplay.tsx:13-19 | the clock icon appears iff none of the four words occurs anywhere in the lower-cased label |
| Display.TableIcon | components/ItineraryDisplay.tsx:22-33 | the record has an icon exactly for its ten keys, and none of them is the pin |
| Display.CategoryIconOf | components/ItineraryDisplay.tsx:21-35 | the pin is shown iff the lower-cased category is not one of the ten keys; otherwise that key's icon |
| Display.RestaurantAndFoodShareIcon | components/ItineraryDisplay.tsx:23-24 | restaurant and food, in any letter case, share the plate icon |
| Display.PropertyOf | components/ItineraryDisplay.tsx:34 | indexing the record finds an own icon for the ten keys, an inherited member for the names `Object.prototype` provides, and nothing otherwise |
| Display.CategoryIconAsWritten | components/ItineraryDisplay.tsx:34 | as written the lookup never falls through to nothing, and yields an inherited member iff the lower-cased category is a prototype name outside the table |
| Display.ConstructorEscapesFallback | components/ItineraryDisplay.tsx:34 | the category "constructor" gets `Object.prototype.constructor` instead of the pin |
| Display.AsWrittenAgreesOffPrototype | components/ItineraryDisplay.tsx:21-35 | away from the prototype's names the code as written agrees with the intended lookup |
| Display.Underscored | components/ItineraryDisplay.tsx:68 | every character that is not an ASCII letter or digit becomes `_`, and the length is unchanged |
| Display.PdfStem | components/ItineraryDisplay.tsx:68 | the stem has the title's length and only `[a-z0-9_]`; each ASCII letter or digit is kept lower-cased and every other character is `_` |
| Display.PdfFileName | components/ItineraryDisplay.tsx:68 | the file name is the stem followed by `_itinerary.pdf`; app/page.tsx:289 builds it the same way |
| Display.PdfStemIdempotent | components/ItineraryDisplay.tsx:68 | sanitising a stem again leaves it unchanged |
| Display.PdfFileNameCollisions | components/ItineraryDisplay.tsx:68 | titles that differ only in letter case, or only in which non-alphanumeric characters they contain, share a file name |

## Left out

- The HTTP and SDK plumbing (`fetchQloo`, `searchEntities`, `searchTags`, `getInsights`, Gemini's `generateContent`) is replaced by the oracle parameters. Environment-variable checks and the test-api.js and test-keys.js probes are left out too.
- `Promise.all` is modelled as a sequential all-or-nothing map. When several searches fail, the model reports the first failure in input order; which rejection wins in the real concurrent run is not modelled.
- `JSON.parse` and `request.json()` are oracles. A request body that is not valid JSON appears as `Err` with the parser's message.
- Prompt wording is left out. `Gemini.Prompt` records only what each prompt embeds. The `filters` and `insights` arguments of `buildItineraryPrompt` are not modelled; no caller passes them.
- The `targetCategories` argument of the Qloo gateway is accepted by the source but never used. The model has no such parameter.
- `getGroupRecommendations` is modelled (`Qloo.GetGroupRecommendations`) without a contract of its own. It is the merge followed by the cross-domain lookup, and both of those carry the properties.
- `Date.now()` and `toISOString()` are the `Clock` parameter. The page and chat ids that depend on them are built from it. `parseItineraryResponse` reads the clock three times, for the id, the creation time and the share URL; each reading is a separate `Clock` field.
- PDF paging arithmetic uses floating-point canvas sizes and the html2canvas and jsPDF libraries, so it is left out. So is all rendering: components/Header.tsx, TasteInsights.tsx, MapDisplay.tsx, React markup, scrolling and the marketing sections.
- The page's `insights` state is never assigned, and the chat panel's `onItineraryUpdate` is never called. Neither is modelled.
- The form's and chat panel's `disabled` attributes are not modelled; neither is typing into the inputs or picking a suggested question. Each handler is modelled as it runs once invoked.
- Fields no modelled operation reads are dropped from the records: image URLs, entity metadata, budget range, group profile, price range, tags, booking URL and item coordinates. An item's location is kept as a place name only.
- Gemini.DetectAction: lower-cases ASCII letters only, where `toLowerCase` also folds other scripts. So do Display.TimeIconOf and Display.CategoryIconOf. Their keys are ASCII.
- Qloo.TasteProfile: the first insight's reasoning is lower-cased on ASCII letters only. It quotes a preference name and an upstream category, so a name like "Édith Piaf" keeps its "É" in the model, where JavaScript writes "é".
- Display.PdfStem: writes one underscore per Unicode scalar value. JavaScript's regular expression replaces each UTF-16 code unit, so it writes two for a character outside the Basic Multilingual Plane.
- GroupMerge.MergeUnion: confidences are real numbers. A JavaScript `NaN` confidence, which `|| 0` also maps to 0, is not representable.
- Routes.GenerateItineraryRoute: a `duration` outside the seven labels is not modelled. The endpoint would pass it through unchecked.
- Routes.ChatRoute: a message that is a non-string truthy JSON value is not modelled.
- Page.ReplyOf: a 2xx response whose body holds no itinerary is read as a failure. The page would instead store `undefined` as the itinerary and switch to the results tab. The endpoint never sends such a response (Page.EndpointRepliesAreReadByStatus), so only foreign responses are affected.
- Chat.OutcomeOf: a 2xx response whose body holds no message is read as a failure and gets the apology. The panel would instead append `undefined` to the log. The endpoint never sends such a response (Chat.EndpointRepliesAreReadByStatus).
- Routes.ChatRoute: a failed reply answers 500. The apology is added by the chat panel (`Chat.CompleteSend`), not by the endpoint.

## Findings

| source | as written | input that shows it | evidently intended | confidence | as-written member | corrected member |
|---|---|---|---|---|---|---|
| components/ItineraryDisplay.tsx:34 | the icon lookup indexes a plain object literal, so names inherited from `Object.prototype` count as hits and are truthy, and they bypass the pin fallback | a category of "constructor" (or "__proto__") yields a function (or the prototype object) instead of an icon | every category outside the ten table keys shows the pin | medium; not executed | Display.CategoryIconAsWritten | Display.CategoryIconOf |
