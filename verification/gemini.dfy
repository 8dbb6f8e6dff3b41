/** The narrative generator (lib/gemini-api.ts): what the prompts embed,
    how an itinerary is cut out of free text and default-filled, the
    chat reply and its metadata, and the intent classifier. The
    generation call is the oracle `generate`, `JSON.parse` the oracle
    `parse`, and the clock readings are parameters. */
module Gemini {
  import opened Wrappers
  import opened Types
  import opened Seqs
  import opened Text

  // ----------------------------------------------------------- intent

  predicate AsksToGenerate(lower: string) {
    Contains(lower, "generate") || Contains(lower, "create") || Contains(lower, "plan")
  }

  predicate AsksToModify(lower: string) {
    Contains(lower, "change") || Contains(lower, "modify") || Contains(lower, "update")
  }

  predicate AsksToExplain(lower: string) {
    Contains(lower, "explain") || Contains(lower, "why") || Contains(lower, "tell me more")
  }

  /** `detectAction(message)`: case-insensitive keyword search with
      generate before modify before explain, refine otherwise. */
  function DetectAction(message: string): (a: Action)
    ensures var lower := ToLower(message);
      && (a == Generate <==> AsksToGenerate(lower))
      && (a == Modify <==> !AsksToGenerate(lower) && AsksToModify(lower))
      && (a == Explain <==> !AsksToGenerate(lower) && !AsksToModify(lower) && AsksToExplain(lower))
      && (a == Refine <==> !AsksToGenerate(lower) && !AsksToModify(lower) && !AsksToExplain(lower))
  {
    var lower := ToLower(message);
    if AsksToGenerate(lower) then Generate
    else if AsksToModify(lower) then Modify
    else if AsksToExplain(lower) then Explain
    else Refine
  }

  /** The classification ignores letter case. */
  lemma DetectActionIgnoresCase(message: string)
    ensures DetectAction(ToLower(message)) == DetectAction(message)
  {
    ToLowerIdempotent(message);
  }

  // ------------------------------------------------------ JSON cut-out

  /** A `{` at `i` and a `}` at `j` after it: a match of `/\{[\s\S]*\}/`
      spanning `i..j`. */
  ghost predicate BraceSpan(s: string, i: int, j: int) {
    0 <= i < j < |s| && s[i] == '{' && s[j] == '}'
  }

  datatype Span = Span(start: nat, end: nat)

  function FirstIndexOf(s: string, c: char): (r: Option<nat>)
    ensures r.None? ==> forall i :: 0 <= i < |s| ==> s[i] != c
    ensures r.Some? ==> r.value < |s| && s[r.value] == c
    ensures r.Some? ==> forall i :: 0 <= i < r.value ==> s[i] != c
  {
    if |s| == 0 then None
    else if s[0] == c then Some(0)
    else
      match FirstIndexOf(s[1..], c)
      case None => None
      case Some(k) => Some(k + 1)
  }

  function LastIndexOf(s: string, c: char): (r: Option<nat>)
    ensures r.None? ==> forall i :: 0 <= i < |s| ==> s[i] != c
    ensures r.Some? ==> r.value < |s| && s[r.value] == c
    ensures r.Some? ==> forall i :: r.value < i < |s| ==> s[i] != c
  {
    if |s| == 0 then None
    else if s[|s| - 1] == c then Some(|s| - 1)
    else LastIndexOf(s[..|s| - 1], c)
  }

  /** Where `response.match(/\{[\s\S]*\}/)` matches: the leftmost start
      that admits a match and, from it, the longest (greedy) match; none
      when no `{` has a `}` after it. */
  function JsonSpan(s: string): (r: Option<Span>)
    ensures r.None? <==> forall i, j :: !BraceSpan(s, i, j)
    ensures r.Some? ==> BraceSpan(s, r.value.start, r.value.end)
    ensures r.Some? ==> forall i, j :: BraceSpan(s, i, j) ==> r.value.start <= i
    ensures r.Some? ==> forall j :: BraceSpan(s, r.value.start, j) ==> j <= r.value.end
  {
    match FirstIndexOf(s, '{')
    case None => None
    case Some(i) =>
      match LastIndexOf(s, '}')
      case None => None
      case Some(j) =>
        if i < j then
          assert BraceSpan(s, i, j);
          Some(Span(i, j))
        else None
  }

  /** The matched text, from the first `{` to the last `}`. */
  function ExtractJson(s: string): (r: Option<string>)
    ensures r.None? <==> forall i, j :: !BraceSpan(s, i, j)
    ensures r.Some? ==> |r.value| >= 2 && r.value[0] == '{' && r.value[|r.value| - 1] == '}'
    ensures r.Some? ==> JsonSpan(s).Some? && r.value == s[JsonSpan(s).value.start..JsonSpan(s).value.end + 1]
  {
    match JsonSpan(s)
    case None => None
    case Some(sp) => Some(s[sp.start..sp.end + 1])
  }

  // ----------------------------------------------------------- parsing

  /** The fields `JSON.parse` yields that the code reads. A field that is
      missing, `null` or otherwise falsy is `None` or the empty string. */
  datatype ParsedItinerary = ParsedItinerary(
    title: Option<string>,
    description: Option<string>,
    theme: Option<string>,
    items: Option<seq<ItineraryItem>>)

  /** `JSON.parse`: `None` when it throws. */
  type JsonParser = string -> Option<ParsedItinerary>

  const DefaultTitle := "Your Personalized Trip"
  const DefaultDescription := "A curated experience based on your tastes"
  const DefaultTheme := "Cultural Discovery"
  const ParseFailure := "Failed to parse generated itinerary"
  const ShareBase := "https://culturaatlas.app/share/"

  /** `field || fallback` on an optional string. */
  function OrDefault(field: Option<string>, fallback: string): (r: string)
    ensures field.Some? && field.value != "" ==> r == field.value
    ensures field.None? || field.value == "" ==> r == fallback
  {
    if field.Some? && field.value != "" then field.value else fallback
  }

  /** The parsed object for `response`, when both the cut-out and the
      parse succeed. */
  function ParsedFrom(response: string, parse: JsonParser): Option<ParsedItinerary> {
    match ExtractJson(response)
    case None => None
    case Some(text) => parse(text)
  }

  /** `parseItineraryResponse`: the duration, preferences and location
      are the arguments whatever the text says; title, description and
      theme fall back to fixed strings; missing items become empty; the
      id and the share URL come from two separate millisecond readings. */
  function ParseItineraryResponse(response: string, prefs: seq<Preference>, duration: Duration,
                                  location: Option<string>, parse: JsonParser, clock: Clock): (r: Result<Itinerary>)
    ensures r.Err? <==> ParsedFrom(response, parse).None?
    ensures r.Err? ==> r.error == ParseFailure
    ensures r.Ok? ==>
      (r.value.duration == duration && r.value.userPreferences == prefs && r.value.location == location)
    ensures r.Ok? ==>
      var p := ParsedFrom(response, parse).value;
      && r.value.title == OrDefault(p.title, DefaultTitle)
      && r.value.description == OrDefault(p.description, DefaultDescription)
      && r.value.theme == Some(OrDefault(p.theme, DefaultTheme))
      && r.value.items == p.items.GetOr([])
    ensures r.Ok? ==>
      (r.value.id == "itinerary-" + clock.millis && r.value.createdAt == clock.iso
       && r.value.shareUrl == Some(ShareBase + clock.laterMillis))
  {
    match ParsedFrom(response, parse)
    case None => Err(ParseFailure)
    case Some(p) =>
      Ok(Itinerary(
        id := "itinerary-" + clock.millis,
        title := OrDefault(p.title, DefaultTitle),
        description := OrDefault(p.description, DefaultDescription),
        duration := duration,
        items := p.items.GetOr([]),
        createdAt := clock.iso,
        userPreferences := prefs,
        location := location,
        theme := Some(OrDefault(p.theme, DefaultTheme)),
        shareUrl := Some(ShareBase + clock.laterMillis)))
  }

  // ----------------------------------------------------------- prompts

  /** `s.slice(-n)`: the last `n` elements, or all of them. */
  function TakeLast<T>(s: seq<T>, n: nat): (r: seq<T>)
    ensures |r| == Min(n, |s|)
    ensures r == s[|s| - |r|..]
  {
    s[|s| - Min(n, |s|)..]
  }

  /** `s.slice(0, n)`. */
  function TakeFirst<T>(s: seq<T>, n: nat): (r: seq<T>)
    ensures |r| == Min(n, |s|)
    ensures r <= s
  {
    s[..Min(n, |s|)]
  }

  const ItineraryRecommendationCap: nat := 15
  const ChatHistoryCap: nat := 3
  const ChatRecommendationCap: nat := 10

  datatype ItinerarySummary = ItinerarySummary(title: string, description: string)

  /** What each prompt embeds; the surrounding wording is not modelled. */
  datatype Prompt =
    | ItineraryPrompt(preferences: seq<Preference>, recommendations: seq<Recommendation>,
                      duration: Duration, location: Option<string>)
    | ChatPrompt(message: string, itinerary: Option<ItinerarySummary>, preferences: seq<Preference>,
                 history: seq<ChatMessage>, recommendations: seq<Recommendation>)
    | RefinementPrompt(request: string, currentItems: seq<ItineraryItem>,
                       newRecommendations: Option<seq<Recommendation>>)

  /** `buildItineraryPrompt`: at most the first 15 recommendations. */
  function BuildItineraryPrompt(recs: seq<Recommendation>, prefs: seq<Preference>, duration: Duration,
                                location: Option<string>): (p: Prompt)
    ensures p.ItineraryPrompt? && p.preferences == prefs && p.duration == duration && p.location == location
    ensures p.recommendations <= recs && |p.recommendations| == Min(ItineraryRecommendationCap, |recs|)
    ensures |recs| <= ItineraryRecommendationCap ==> p.recommendations == recs
  {
    ItineraryPrompt(prefs, TakeFirst(recs, ItineraryRecommendationCap), duration, location)
  }

  /** `buildChatPrompt`: the last 3 history messages, the first 10
      recommendations and, when there is one, the itinerary's title and
      description. */
  function BuildChatPrompt(message: string, current: Option<Itinerary>, prefs: seq<Preference>,
                           recs: seq<Recommendation>, history: seq<ChatMessage>): (p: Prompt)
    ensures p.ChatPrompt? && p.message == message && p.preferences == prefs
    ensures p.itinerary.Some? <==> current.Some?
    ensures current.Some? ==> p.itinerary.value == ItinerarySummary(current.value.title, current.value.description)
    ensures |p.history| == Min(ChatHistoryCap, |history|)
    ensures p.history == history[|history| - |p.history|..]
    ensures |history| <= ChatHistoryCap ==> p.history == history
    ensures p.recommendations <= recs && |p.recommendations| == Min(ChatRecommendationCap, |recs|)
    ensures |recs| <= ChatRecommendationCap ==> p.recommendations == recs
  {
    var summary := match current
      case None => None
      case Some(it) => Some(ItinerarySummary(it.title, it.description));
    ChatPrompt(message, summary, prefs, TakeLast(history, ChatHistoryCap), TakeFirst(recs, ChatRecommendationCap))
  }

  /** `buildRefinementPrompt`: every current item and every new
      recommendation, uncapped. */
  function BuildRefinementPrompt(current: Itinerary, request: string,
                                 newRecs: Option<seq<Recommendation>>): (p: Prompt)
    ensures p.RefinementPrompt? && p.request == request
    ensures p.currentItems == current.items && p.newRecommendations == newRecs
  {
    RefinementPrompt(request, current.items, newRecs)
  }

  // -------------------------------------------------------- operations

  /** `ai.models.generateContent`: the reply's text (`None` when the
      reply has none), or the failure. */
  type Generator = Prompt -> Result<Option<string>>

  const GenerateFailure := "Failed to generate itinerary"
  const ChatFailure := "Failed to generate chat response"
  const RefineFailure := "Failed to refine itinerary"

  /** Run `prompt` and parse the reply; any failure, of the call or of
      the parse, is rethrown as `failure`. */
  function GenerateAndParse(prompt: Prompt, prefs: seq<Preference>, duration: Duration, location: Option<string>,
                            failure: string, generate: Generator, parse: JsonParser, clock: Clock): (r: Result<Itinerary>)
    ensures r.Err? ==> r.error == failure
    ensures r.Ok? <==>
      (generate(prompt).Ok? &&
       ParseItineraryResponse(generate(prompt).value.GetOr(""), prefs, duration, location, parse, clock).Ok?)
    ensures r.Ok? ==> r == ParseItineraryResponse(generate(prompt).value.GetOr(""), prefs, duration, location, parse, clock)
  {
    match generate(prompt)
    case Err(_) => Err(failure)
    case Ok(text) =>
      match ParseItineraryResponse(text.GetOr(""), prefs, duration, location, parse, clock)
      case Err(_) => Err(failure)
      case Ok(it) => Ok(it)
  }

  /** `generateItinerary`: the itinerary carries the requested duration,
      the given preferences and location. */
  function GenerateItinerary(recs: seq<Recommendation>, prefs: seq<Preference>, duration: Duration,
                             location: Option<string>, generate: Generator, parse: JsonParser,
                             clock: Clock): (r: Result<Itinerary>)
    ensures r.Err? ==> r.error == GenerateFailure
    ensures r.Ok? ==>
      (r.value.duration == duration && r.value.userPreferences == prefs && r.value.location == location)
    ensures r.Ok? ==> generate(BuildItineraryPrompt(recs, prefs, duration, location)).Ok?
    ensures var p := BuildItineraryPrompt(recs, prefs, duration, location);
      r.Ok? <==> generate(p).Ok? && ParsedFrom(generate(p).value.GetOr(""), parse).Some?
    ensures var p := BuildItineraryPrompt(recs, prefs, duration, location);
      r.Ok? ==> r == ParseItineraryResponse(generate(p).value.GetOr(""), prefs, duration, location, parse, clock)
  {
    GenerateAndParse(BuildItineraryPrompt(recs, prefs, duration, location), prefs, duration, location,
                     GenerateFailure, generate, parse, clock)
  }

  /** `refineItinerary`: the refined itinerary keeps the current one's
      preferences, duration and location. */
  function RefineItinerary(current: Itinerary, request: string, newRecs: Option<seq<Recommendation>>,
                           generate: Generator, parse: JsonParser, clock: Clock): (r: Result<Itinerary>)
    ensures r.Err? ==> r.error == RefineFailure
    ensures r.Ok? ==>
      (r.value.userPreferences == current.userPreferences
       && r.value.duration == current.duration && r.value.location == current.location)
    ensures var p := BuildRefinementPrompt(current, request, newRecs);
      r.Ok? <==> generate(p).Ok? && ParsedFrom(generate(p).value.GetOr(""), parse).Some?
    ensures var p := BuildRefinementPrompt(current, request, newRecs);
      r.Ok? ==> r == ParseItineraryResponse(generate(p).value.GetOr(""), current.userPreferences,
                                            current.duration, current.location, parse, clock)
  {
    GenerateAndParse(BuildRefinementPrompt(current, request, newRecs), current.userPreferences,
                     current.duration, current.location, RefineFailure, generate, parse, clock)
  }

  const ItineraryExists := "itinerary_exists"
  const NewConversation := "new_conversation"

  /** `chatResponse`: the reply text wrapped as an assistant message,
      tagged with the detected intent, the preferences and whether an
      itinerary exists. */
  function ChatResponse(message: string, current: Option<Itinerary>, prefs: seq<Preference>,
                        recs: seq<Recommendation>, history: seq<ChatMessage>,
                        generate: Generator, clock: Clock): (r: Result<ChatMessage>)
    ensures r.Err? <==> generate(BuildChatPrompt(message, current, prefs, recs, history)).Err?
    ensures r.Err? ==> r.error == ChatFailure
    ensures r.Ok? ==> r.value.role == Assistant && r.value.metadata.Some?
    ensures r.Ok? ==> r.value.content == generate(BuildChatPrompt(message, current, prefs, recs, history)).value.GetOr("")
    ensures r.Ok? ==> var md := r.value.metadata.value;
      && md.action == Some(DetectAction(message))
      && md.preferences == Some(prefs)
      && (md.context == Some(ItineraryExists) <==> current.Some?)
      && (md.context == Some(NewConversation) <==> current.None?)
  {
    match generate(BuildChatPrompt(message, current, prefs, recs, history))
    case Err(_) => Err(ChatFailure)
    case Ok(text) =>
      var context := if current.Some? then ItineraryExists else NewConversation;
      Ok(ChatMessage(
        id := "msg-" + clock.millis,
        role := Assistant,
        content := text.GetOr(""),
        timestamp := clock.iso,
        metadata := Some(Metadata(Some(DetectAction(message)), Some(prefs), Some(context)))))
  }
}
