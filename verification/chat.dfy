/** The chat panel (components/ChatInterface.tsx): its message log, input
    box and loading flag, and `sendMessage` split at the network round
    trip. */
module Chat {
  import opened Wrappers
  import opened Types
  import opened Text
  import Routes
  import Qloo
  import Gemini

  datatype ChatState = ChatState(messages: seq<ChatMessage>, input: string, loading: bool)

  const InitialChat := ChatState([], "", false)

  const Apology := "Sorry, I couldn't process your message. Please try again."

  /** The guard at the top of `sendMessage`. */
  predicate CanSend(s: ChatState) {
    !IsBlank(s.input) && !s.loading
  }

  /** The user's message as logged, stamped with the clock reading taken
      when it is sent. */
  function UserMessage(text: string, clock: Clock): (m: ChatMessage)
    ensures m.role == User && m.content == text && m.id == "user-" + clock.millis
    ensures m.timestamp == clock.iso && m.metadata.None?
  {
    ChatMessage("user-" + clock.millis, User, text, clock.iso, None)
  }

  /** The apology logged when the round trip fails for any reason. */
  function ApologyMessage(clock: Clock): (m: ChatMessage)
    ensures m.role == Assistant && m.content == Apology && m.id == "error-" + clock.millis
    ensures m.timestamp == clock.iso && m.metadata.None?
  {
    ChatMessage("error-" + clock.millis, Assistant, Apology, clock.iso, None)
  }

  /** `sendMessage` up to the request: the state while it is in flight
      and the request body sent, if any. The history sent is the log
      before the new message. */
  function BeginSend(s: ChatState, prefs: seq<Preference>, itinerary: Option<Itinerary>, clock: Clock)
    : (r: (ChatState, Option<Routes.ChatRequest>))
    ensures r.1.None? <==> !CanSend(s)
    ensures r.1.None? ==> r.0 == s
    ensures r.1.Some? ==>
      && r.0 == ChatState(s.messages + [UserMessage(Trim(s.input), clock)], "", true)
      && r.1.value.message == Some(Trim(s.input))
      && r.1.value.chatHistory == Some(s.messages)
      && r.1.value.userPreferences == Routes.AnArray(prefs)
      && r.1.value.currentItinerary == itinerary
  {
    if !CanSend(s) then (s, None)
    else
      var text := Trim(s.input);
      (ChatState(s.messages + [UserMessage(text, clock)], "", true),
       Some(Routes.ChatRequest(Some(text), itinerary, Routes.AnArray(prefs), Some(s.messages))))
  }

  /** How the round trip ended, as the panel sees it. */
  datatype ChatOutcome = Answered(message: ChatMessage) | Failed

  /** What the panel reads from the endpoint's response: any non-2xx
      status is thrown and caught as a failure. */
  function OutcomeOf(resp: Routes.Response): (r: ChatOutcome)
    ensures r.Answered? <==> 200 <= resp.status < 300 && resp.body.ChatBody?
    ensures r.Answered? ==> r.message == resp.body.message
  {
    if 200 <= resp.status < 300 && resp.body.ChatBody? then Answered(resp.body.message) else Failed
  }

  /** Every response the endpoint gives is read as answered exactly when
      its status is 2xx: a 2xx always carries the reply. */
  lemma EndpointRepliesAreReadByStatus(request: Result<Routes.ChatRequest>, search: Qloo.Search,
                                       generate: Gemini.Generator, clock: Clock)
    ensures var resp := Routes.ChatRoute(request, search, generate, clock);
      OutcomeOf(resp).Answered? <==> 200 <= resp.status < 300
  {
  }

  /** The rest of `sendMessage`: one message appended and loading off. */
  function CompleteSend(s: ChatState, outcome: ChatOutcome, clock: Clock): (r: ChatState)
    ensures !r.loading && r.input == s.input
    ensures |r.messages| == |s.messages| + 1 && r.messages[..|s.messages|] == s.messages
    ensures outcome.Answered? ==> r.messages[|s.messages|] == outcome.message
    ensures outcome.Failed? ==> r.messages[|s.messages|] == ApologyMessage(clock)
  {
    var reply := match outcome
      case Answered(m) => m
      case Failed => ApologyMessage(clock);
    ChatState(s.messages + [reply], s.input, false)
  }

  /** The whole of `sendMessage`, with the network round trip as a
      parameter and two clock readings: one when sending, one when the
      failure is caught. */
  function SendMessage(s: ChatState, prefs: seq<Preference>, itinerary: Option<Itinerary>,
                       respond: Routes.ChatRequest -> ChatOutcome, sent: Clock, caught: Clock): (r: ChatState)
    ensures !CanSend(s) ==> r == s
    ensures CanSend(s) ==>
      && |r.messages| == |s.messages| + 2
      && r.messages[..|s.messages|] == s.messages
      && r.messages[|s.messages|] == UserMessage(Trim(s.input), sent)
      && r.input == "" && !r.loading
  {
    var (mid, request) := BeginSend(s, prefs, itinerary, sent);
    match request
    case None => mid
    case Some(req) =>
      var r := CompleteSend(mid, respond(req), caught);
      assert r.messages[..|s.messages|] == mid.messages[..|s.messages|];
      r
  }

  /** The log only grows: no message is removed or edited by any number
      of sends. */
  function SendAll(s: ChatState, prefs: seq<Preference>, itinerary: Option<Itinerary>,
                   respond: Routes.ChatRequest -> ChatOutcome, inputs: seq<string>, clocks: seq<Clock>): (r: ChatState)
    requires |clocks| == 2 * |inputs|
    ensures s.messages <= r.messages
    ensures s.loading ==> r == s.(input := r.input)
    decreases |inputs|
  {
    if |inputs| == 0 then s
    else
      var typed := s.(input := inputs[0]);
      var next := SendMessage(typed, prefs, itinerary, respond, clocks[0], clocks[1]);
      assert s.messages <= next.messages;
      SendAll(next, prefs, itinerary, respond, inputs[1..], clocks[2..])
  }

  /** A message the panel sends is never rejected as malformed, and a
      successful reply is logged exactly as the endpoint produced it. */
  lemma SentMessagesAreWellFormed(s: ChatState, prefs: seq<Preference>, itinerary: Option<Itinerary>,
                                  search: Qloo.Search, generate: Gemini.Generator, sent: Clock, caught: Clock)
    requires CanSend(s)
    ensures var request := BeginSend(s, prefs, itinerary, sent).1.value;
      var resp := Routes.ChatRoute(Ok(request), search, generate, sent);
      && resp.status != 400
      && (resp.status == 200 ==>
            SendMessage(s, prefs, itinerary, req => OutcomeOf(resp), sent, caught).messages[|s.messages| + 1]
            == resp.body.message)
  {
    var request := BeginSend(s, prefs, itinerary, sent).1.value;
    assert Routes.ChatRequestValid(request);
  }

  /** A failing endpoint leaves the user's message followed by the
      apology. */
  lemma FailureAppendsApology(s: ChatState, prefs: seq<Preference>, itinerary: Option<Itinerary>,
                              sent: Clock, caught: Clock)
    requires CanSend(s)
    ensures SendMessage(s, prefs, itinerary, req => Failed, sent, caught).messages
         == s.messages + [UserMessage(Trim(s.input), sent), ApologyMessage(caught)]
  {
  }
}
