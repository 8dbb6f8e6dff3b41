/** The three API endpoints (the `route.ts` file under each of app/api) as functions from the
    parsed request body and the upstream oracles to a status and a JSON
    body. A body that is not valid JSON is `Err` carrying the parse
    error's message. */
module Routes {
  import opened Wrappers
  import opened Types
  import opened Seqs
  import Qloo
  import Gemini

  /** A request field that should hold an array. */
  datatype ArrayField<T> = Absent | NotAnArray | AnArray(items: seq<T>)

  /** `field && Array.isArray(field) && field.length > 0`. */
  predicate NonEmptyArray<T>(f: ArrayField<T>) {
    f.AnArray? && |f.items| > 0
  }

  datatype Summary = Summary(totalPreferences: nat, categories: seq<string>, crossDomainConnections: nat)

  datatype Body =
    | ErrorBody(error: string)
    | ItineraryBody(itinerary: Itinerary, recommendations: seq<Recommendation>, totalRecommendations: nat)
    | ChatBody(message: ChatMessage, recommendations: seq<Recommendation>)
    | AnalysisBody(profile: string, insights: seq<Insight>, lookup: RecsResponse, summary: Summary)  // `lookup` is the JSON `recommendations`

  datatype Response = Response(status: nat, body: Body)

  /** The 500 response for a caught error: its message, or `fallback`
      when the message is empty. */
  function Failure(message: string, fallback: string): (r: Response)
    ensures r.status == 500 && r.body.ErrorBody?
  {
    Response(500, ErrorBody(MessageOr(message, fallback)))
  }

  // --------------------------------------------------- generate-itinerary

  datatype GenerateRequest = GenerateRequest(
    preferences: ArrayField<Preference>,
    duration: Option<Duration>,
    location: Option<string>)

  const GenerateBadRequest := "Preferences are required and must be an array"
  const GenerateNotFound := "No recommendations found for the given preferences"
  const GenerateFallback := "Failed to generate itinerary"

  /** The recommendations the endpoint looks up for `prefs`. */
  function Lookup(prefs: seq<Preference>, search: Qloo.Search): Result<RecsResponse> {
    Qloo.GetCrossDomainRecommendations(Names(prefs), search)
  }

  /** `POST /api/generate-itinerary`. */
  function GenerateItineraryRoute(request: Result<GenerateRequest>, search: Qloo.Search,
                                  generate: Gemini.Generator, parse: Gemini.JsonParser,
                                  clock: Clock): (resp: Response)
    ensures resp.status in {200, 400, 404, 500}
    ensures resp.status == 400 <==> request.Ok? && !NonEmptyArray(request.value.preferences)
    ensures resp.status == 404 <==>
      (request.Ok? && NonEmptyArray(request.value.preferences)
       && Lookup(request.value.preferences.items, search).Ok?
       && |Lookup(request.value.preferences.items, search).value.recommendations| == 0)
    ensures resp.status == 200 ==>
      && request.Ok? && NonEmptyArray(request.value.preferences)
      && Lookup(request.value.preferences.items, search).Ok? && resp.body.ItineraryBody?
    ensures resp.status == 200 ==>
      var prefs := request.value.preferences.items;
      var found := Lookup(prefs, search).value;
      && resp.body.itinerary.duration == request.value.duration.GetOr(OneDay)
      && resp.body.itinerary.userPreferences == prefs
      && resp.body.itinerary.location == request.value.location
      && resp.body.recommendations == found.recommendations
      && resp.body.totalRecommendations == found.total
      && resp.body.totalRecommendations == |resp.body.recommendations|
    ensures resp.status == 500 ==> resp.body.ErrorBody? && resp.body.error != ""
    ensures request.Err? ==> resp == Failure(request.error, GenerateFallback)
    ensures request.Ok? && NonEmptyArray(request.value.preferences) ==>
      var found := Lookup(request.value.preferences.items, search);
      found.Err? ==> resp == Failure(found.error, GenerateFallback)
    ensures request.Ok? && NonEmptyArray(request.value.preferences) ==>
      var req := request.value;
      var prefs := req.preferences.items;
      var found := Lookup(prefs, search);
      found.Ok? && |found.value.recommendations| > 0 ==>
      var made := Gemini.GenerateItinerary(found.value.recommendations, prefs, req.duration.GetOr(OneDay),
                                           req.location, generate, parse, clock);
      && (resp.status == 200 <==> made.Ok?)
      && (made.Ok? ==> resp.body == ItineraryBody(made.value, found.value.recommendations, found.value.total))
      && (made.Err? ==> resp == Failure(made.error, GenerateFallback))
  {
    match request
    case Err(e) => Failure(e, GenerateFallback)
    case Ok(req) =>
      var duration := req.duration.GetOr(OneDay);
      if !NonEmptyArray(req.preferences) then Response(400, ErrorBody(GenerateBadRequest))
      else
        var prefs := req.preferences.items;
        match Lookup(prefs, search)
        case Err(e) => Failure(e, GenerateFallback)
        case Ok(found) =>
          if |found.recommendations| == 0 then Response(404, ErrorBody(GenerateNotFound))
          else
            match Gemini.GenerateItinerary(found.recommendations, prefs, duration, req.location, generate, parse, clock)
            case Err(e) => Failure(e, GenerateFallback)
            case Ok(it) => Response(200, ItineraryBody(it, found.recommendations, found.total))
  }

  /** A rejected preference list is answered without consulting any
      upstream service: the response is the same whatever they do. */
  lemma GenerateBadRequestIsUpstreamFree(request: GenerateRequest,
                                         search1: Qloo.Search, generate1: Gemini.Generator, parse1: Gemini.JsonParser,
                                         search2: Qloo.Search, generate2: Gemini.Generator, parse2: Gemini.JsonParser,
                                         clock1: Clock, clock2: Clock)
    requires !NonEmptyArray(request.preferences)
    ensures GenerateItineraryRoute(Ok(request), search1, generate1, parse1, clock1)
         == GenerateItineraryRoute(Ok(request), search2, generate2, parse2, clock2)
         == Response(400, ErrorBody(GenerateBadRequest))
  {
  }

  /** When the lookup finds nothing the generator is never consulted. */
  lemma GenerateNotFoundSkipsGenerator(request: GenerateRequest, search: Qloo.Search,
                                       generate1: Gemini.Generator, parse1: Gemini.JsonParser,
                                       generate2: Gemini.Generator, parse2: Gemini.JsonParser,
                                       clock1: Clock, clock2: Clock)
    requires NonEmptyArray(request.preferences)
    requires Lookup(request.preferences.items, search).Ok?
    requires |Lookup(request.preferences.items, search).value.recommendations| == 0
    ensures GenerateItineraryRoute(Ok(request), search, generate1, parse1, clock1)
         == GenerateItineraryRoute(Ok(request), search, generate2, parse2, clock2)
         == Response(404, ErrorBody(GenerateNotFound))
  {
  }

  /** A failed lookup answers 500 with the message of a search that
      failed (or the fallback when that message is empty). */
  lemma GenerateLookupFailureIs500(request: GenerateRequest, search: Qloo.Search,
                                   generate: Gemini.Generator, parse: Gemini.JsonParser, clock: Clock)
    requires NonEmptyArray(request.preferences)
    requires Lookup(request.preferences.items, search).Err?
    ensures var e := Lookup(request.preferences.items, search).error;
      && GenerateItineraryRoute(Ok(request), search, generate, parse, clock) == Failure(e, GenerateFallback)
      && exists q :: search(q) == Err(e)
  {
    var texts := Names(request.preferences.items);
    if Qloo.AllSucceed(texts, search) {
      var ids := Qloo.FirstRoundIds(texts, search);
      var i :| 0 <= i < |ids| && search(ids[i]) == Err(Lookup(request.preferences.items, search).error);
    } else {
      var i :| 0 <= i < |texts| && search(texts[i]) == Err(Lookup(request.preferences.items, search).error);
    }
  }

  // ----------------------------------------------------------------- chat

  datatype ChatRequest = ChatRequest(
    message: Option<string>,
    currentItinerary: Option<Itinerary>,
    userPreferences: ArrayField<Preference>,
    chatHistory: Option<seq<ChatMessage>>)

  const ChatBadRequest := "Message and user preferences are required"
  const ChatFallback := "Failed to process chat message"

  /** `message && userPreferences && Array.isArray(userPreferences)`;
      an empty preference array passes. */
  predicate ChatRequestValid(req: ChatRequest) {
    req.message.Some? && req.message.value != "" && req.userPreferences.AnArray?
  }

  /** `POST /api/chat`. A missing itinerary is `null` and a missing
      history is `[]` by the time the reply is generated. */
  function ChatRoute(request: Result<ChatRequest>, search: Qloo.Search, generate: Gemini.Generator,
                     clock: Clock): (resp: Response)
    ensures resp.status in {200, 400, 500}
    ensures resp.status == 400 <==> request.Ok? && !ChatRequestValid(request.value)
    ensures resp.status == 200 ==>
      request.Ok? && ChatRequestValid(request.value) && resp.body.ChatBody? &&
      var req := request.value;
      var prefs := req.userPreferences.items;
      var found := Lookup(prefs, search);
      && found.Ok?
      && resp.body.recommendations == found.value.recommendations
      && Gemini.ChatResponse(req.message.value, req.currentItinerary, prefs, found.value.recommendations,
                             req.chatHistory.GetOr([]), generate, clock) == Ok(resp.body.message)
    ensures resp.status == 500 ==> resp.body.ErrorBody?
    ensures request.Err? ==> resp == Failure(request.error, ChatFallback)
    ensures request.Ok? && ChatRequestValid(request.value) ==>
      var req := request.value;
      var prefs := req.userPreferences.items;
      var found := Lookup(prefs, search);
      && (found.Err? ==> resp == Failure(found.error, ChatFallback))
      && (found.Ok? ==>
            var reply := Gemini.ChatResponse(req.message.value, req.currentItinerary, prefs, found.value.recommendations,
                                             req.chatHistory.GetOr([]), generate, clock);
            && (resp.status == 200 <==> reply.Ok?)
            && (reply.Err? ==> resp == Failure(reply.error, ChatFallback)))
  {
    match request
    case Err(e) => Failure(e, ChatFallback)
    case Ok(req) =>
      if !ChatRequestValid(req) then Response(400, ErrorBody(ChatBadRequest))
      else
        var prefs := req.userPreferences.items;
        match Lookup(prefs, search)
        case Err(e) => Failure(e, ChatFallback)
        case Ok(found) =>
          match Gemini.ChatResponse(req.message.value, req.currentItinerary, prefs, found.recommendations,
                                    req.chatHistory.GetOr([]), generate, clock)
          case Err(e) => Failure(e, ChatFallback)
          case Ok(msg) => Response(200, ChatBody(msg, found.recommendations))
  }

  /** A failed reply generation is a 500 carrying the generator's
      message; the apology text is not produced here. */
  lemma ChatGeneratorFailureIs500(req: ChatRequest, search: Qloo.Search, generate: Gemini.Generator, clock: Clock)
    requires ChatRequestValid(req) && Lookup(req.userPreferences.items, search).Ok?
    requires Gemini.ChatResponse(req.message.value, req.currentItinerary, req.userPreferences.items,
                                 Lookup(req.userPreferences.items, search).value.recommendations,
                                 req.chatHistory.GetOr([]), generate, clock).Err?
    ensures ChatRoute(Ok(req), search, generate, clock) == Response(500, ErrorBody(Gemini.ChatFailure))
  {
  }

  // -------------------------------------------------------- analyze-taste

  datatype AnalyzeRequest = AnalyzeRequest(preferences: ArrayField<Preference>)

  const AnalyzeBadRequest := "Preferences array is required"
  const AnalyzeFallback := "Failed to analyze taste profile"

  /** `POST /api/analyze-taste`. */
  function AnalyzeTasteRoute(request: Result<AnalyzeRequest>, search: Qloo.Search): (resp: Response)
    ensures resp.status in {200, 400, 500}
    ensures resp.status == 400 <==> request.Ok? && !NonEmptyArray(request.value.preferences)
    ensures resp.status == 200 ==>
      request.Ok? && resp.body.AnalysisBody? &&
      var prefs := request.value.preferences.items;
      && resp.body.summary.totalPreferences == |prefs|
      && resp.body.summary.categories == Qloo.Categories(prefs)
      && resp.body.summary.crossDomainConnections == |resp.body.insights|
      && Qloo.AnalyzeTasteProfile(prefs, search)
         == Ok(Qloo.TasteAnalysis(resp.body.profile, resp.body.insights, resp.body.lookup))
    ensures resp.status == 500 ==> resp.body.ErrorBody?
    ensures request.Err? ==> resp == Failure(request.error, AnalyzeFallback)
    ensures request.Ok? && NonEmptyArray(request.value.preferences) ==>
      var analysis := Qloo.AnalyzeTasteProfile(request.value.preferences.items, search);
      && (resp.status == 200 <==> analysis.Ok?)
      && (analysis.Err? ==> resp == Failure(analysis.error, AnalyzeFallback))
  {
    match request
    case Err(e) => Failure(e, AnalyzeFallback)
    case Ok(req) =>
      if !NonEmptyArray(req.preferences) then Response(400, ErrorBody(AnalyzeBadRequest))
      else
        var prefs := req.preferences.items;
        match Qloo.AnalyzeTasteProfile(prefs, search)
        case Err(e) => Failure(e, AnalyzeFallback)
        case Ok(analysis) =>
          var summary := Summary(|prefs|, Qloo.Categories(prefs), |analysis.insights|);
          Response(200, AnalysisBody(analysis.profile, analysis.insights, analysis.recommendations, summary))
  }

  /** The summary's categories are the distinct categories in order of
      first occurrence. */
  lemma AnalyzeSummaryCategories(request: AnalyzeRequest, search: Qloo.Search)
    ensures var resp := AnalyzeTasteRoute(Ok(request), search);
      resp.status == 200 ==>
      var cats := resp.body.summary.categories;
      var all := CategoriesOf(request.preferences.items);
      && NoDup(cats)
      && (forall c :: c in all <==> c in cats)
      && (forall i, j :: 0 <= i < j < |cats| ==> IndexOf(all, cats[i]) < IndexOf(all, cats[j]))
  {
    if request.preferences.AnArray? {
      DistinctFirstOccurrenceOrder(CategoriesOf(request.preferences.items));
    }
  }
}
