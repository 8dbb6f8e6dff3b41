/** The home page's session state (app/page.tsx): the preference list,
    the current itinerary, the loading flag, the error banner and the
    visible section, with the handlers that move between them. */
module Page {
  import opened Wrappers
  import opened Types
  import opened Seqs
  import opened Text
  import TasteForm
  import Routes
  import Qloo
  import Gemini

  datatype Section = InputSection | ResultsSection

  datatype PageState = PageState(
    preferences: seq<Preference>,
    itinerary: Option<Itinerary>,
    loading: bool,
    error: Option<string>,
    section: Section)

  const InitialPage := PageState([], None, false, None, InputSection)

  const NoPreferencesError := "Please add at least one preference"
  const GenerateFallback := "Failed to generate itinerary"
  const UnexpectedFailure := "Something went wrong"

  /** The results section is only shown with an itinerary to show. */
  predicate Consistent(s: PageState) {
    s.section == ResultsSection ==> s.itinerary.Some?
  }

  // ------------------------------------------------------ preference list

  /** The preference `addPreference` builds from a form input at clock
      reading `clock`; an absent or empty category becomes `general`. */
  function NewPreference(input: TasteInput, clock: Clock): (p: Preference)
    ensures p.id == "pref-" + clock.millis && p.name == input.text
    ensures p.category != ""
    ensures input.category.Some? && input.category.value != "" ==> p.category == input.category.value
    ensures input.category.None? || input.category.value == "" ==> p.category == TasteForm.DefaultCategory
    ensures p.description.None? && p.confidence.None?
  {
    var category := MessageOr(input.category.GetOr(""), TasteForm.DefaultCategory);
    Preference("pref-" + clock.millis, input.text, category, None, None)
  }

  /** `addPreference`: exactly one preference appended at the end. */
  function AddPreference(s: PageState, input: TasteInput, clock: Clock): (r: PageState)
    ensures |r.preferences| == |s.preferences| + 1
    ensures r.preferences[..|s.preferences|] == s.preferences
    ensures r.preferences[|s.preferences|] == NewPreference(input, clock)
    ensures r == s.(preferences := r.preferences)
  {
    s.(preferences := s.preferences + [NewPreference(input, clock)])
  }

  /** `prev.filter(p => p.id !== id)`. */
  function Without(ps: seq<Preference>, id: string): (r: seq<Preference>)
    ensures IsSubseq(r, ps)
    ensures forall p | p in r :: p in ps && p.id != id
    ensures forall p: Preference :: p.id != id ==> multiset(r)[p] == multiset(ps)[p]
  {
    if |ps| == 0 then []
    else
      var rest := Without(ps[1..], id);
      assert ps == [ps[0]] + ps[1..];
      if ps[0].id == id then rest
      else
        var r := [ps[0]] + rest;
        assert r[1..] == rest;
        r
  }

  /** What `Without` keeps of a leading element. */
  function Kept(x: Preference, id: string): seq<Preference> {
    if x.id == id then [] else [x]
  }

  lemma WithoutCons(x: Preference, rest: seq<Preference>, id: string)
    ensures Without([x] + rest, id) == Kept(x, id) + Without(rest, id)
  {
    assert ([x] + rest)[1..] == rest;
  }

  lemma {:induction false} WithoutAppend(a: seq<Preference>, b: seq<Preference>, id: string)
    ensures Without(a + b, id) == Without(a, id) + Without(b, id)
  {
    if |a| > 0 {
      var x, tail := a[0], a[1..];
      assert a == [x] + tail;
      assert a + b == [x] + (tail + b);
      WithoutCons(x, tail + b, id);
      WithoutCons(x, tail, id);
      WithoutAppend(tail, b, id);
    } else {
      assert a + b == b;
    }
  }

  lemma {:induction false} WithoutAbsent(ps: seq<Preference>, id: string)
    requires forall p | p in ps :: p.id != id
    ensures Without(ps, id) == ps
  {
    if |ps| > 0 {
      WithoutAbsent(ps[1..], id);
      assert ps == [ps[0]] + ps[1..];
    }
  }

  /** `removePreference`: every preference with the id goes, the others
      stay in order. */
  function RemovePreference(s: PageState, id: string): (r: PageState)
    ensures IsSubseq(r.preferences, s.preferences)
    ensures forall p | p in r.preferences :: p.id != id
    ensures forall p: Preference :: p.id != id ==> multiset(r.preferences)[p] == multiset(s.preferences)[p]
    ensures r == s.(preferences := r.preferences)
  {
    s.(preferences := Without(s.preferences, id))
  }

  /** Removing a freshly added preference by its id restores the list,
      provided no earlier preference had that id. */
  lemma RemoveUndoesAdd(s: PageState, input: TasteInput, clock: Clock)
    requires forall p | p in s.preferences :: p.id != "pref-" + clock.millis
    ensures RemovePreference(AddPreference(s, input, clock), "pref-" + clock.millis) == s
  {
    var id := "pref-" + clock.millis;
    WithoutAppend(s.preferences, [NewPreference(input, clock)], id);
    WithoutAbsent(s.preferences, id);
  }

  /** Two preferences added within the same millisecond share an id, and
      removing either removes both. */
  lemma SameMillisecondRemovesBoth(s: PageState, a: TasteInput, b: TasteInput, clock: Clock)
    ensures var t := AddPreference(AddPreference(s, a, clock), b, clock);
      var id := "pref-" + clock.millis;
      && t.preferences[|s.preferences|].id == t.preferences[|s.preferences| + 1].id
      && RemovePreference(t, id).preferences == Without(s.preferences, id)
  {
    var id := "pref-" + clock.millis;
    var pa, pb := NewPreference(a, clock), NewPreference(b, clock);
    var t := AddPreference(AddPreference(s, a, clock), b, clock);
    assert t.preferences == (s.preferences + [pa]) + [pb];
    WithoutAppend(s.preferences + [pa], [pb], id);
    WithoutAppend(s.preferences, [pa], id);
    assert Without([pa], id) == [] && Without([pb], id) == [];
  }

  /** `clearAll`: the loading flag is the only thing it keeps. */
  function ClearAll(s: PageState): (r: PageState)
    ensures r == InitialPage.(loading := s.loading)
    ensures Consistent(r)
  {
    PageState([], None, s.loading, None, InputSection)
  }

  // --------------------------------------------------------- generation

  /** `handleGenerateItinerary` up to the request: the state while it is
      in flight and the request body sent, if any. */
  function BeginGenerate(s: PageState, duration: Duration, location: Option<string>)
    : (r: (PageState, Option<Routes.GenerateRequest>))
    ensures r.1.None? <==> |s.preferences| == 0
    ensures r.1.None? ==> r.0 == s.(error := Some(NoPreferencesError))
    ensures r.1.Some? ==>
      && r.0 == s.(loading := true, error := None)
      && r.1.value.preferences == Routes.AnArray(s.preferences)
      && r.1.value.duration == Some(duration)
      && r.1.value.location == location
  {
    if |s.preferences| == 0 then (s.(error := Some(NoPreferencesError)), None)
    else (s.(loading := true, error := None),
          Some(Routes.GenerateRequest(Routes.AnArray(s.preferences), Some(duration), location)))
  }

  /** How the request ended, as the page sees it. */
  datatype GenerateReply =
    | Delivered(itinerary: Itinerary)
    | Rejected(error: Option<string>)    // a non-2xx status; the body's `error`, if any
    | Threw(message: string)             // the fetch or `response.json()` failed

  /** What the page reads from the endpoint's response. */
  function ReplyOf(resp: Routes.Response): (r: GenerateReply)
    ensures r.Delivered? <==> 200 <= resp.status < 300 && resp.body.ItineraryBody?
    ensures r.Rejected? && r.error.Some? ==> resp.body.ErrorBody? && r.error.value == resp.body.error
  {
    if 200 <= resp.status < 300 && resp.body.ItineraryBody? then Delivered(resp.body.itinerary)
    else if resp.body.ErrorBody? then Rejected(Some(resp.body.error))
    else Rejected(None)
  }

  /** The rest of `handleGenerateItinerary`: the state once the reply is in. */
  function CompleteGenerate(s: PageState, reply: GenerateReply): (r: PageState)
    ensures !r.loading
    ensures r.preferences == s.preferences
    ensures reply.Delivered? ==>
      r.itinerary == Some(reply.itinerary) && r.section == ResultsSection && r.error == s.error
    ensures !reply.Delivered? ==>
      r.itinerary == s.itinerary && r.section == s.section && r.error.Some? && r.error.value != ""
    ensures reply.Rejected? && reply.error.Some? && reply.error.value != "" ==> r.error == reply.error
    ensures Consistent(s) ==> Consistent(r)
  {
    match reply
    case Delivered(it) => s.(itinerary := Some(it), section := ResultsSection, loading := false)
    case Rejected(e) =>
      // the thrown Error's message is never empty, so the catch keeps it
      s.(error := Some(MessageOr(e.GetOr(""), GenerateFallback)), loading := false)
    case Threw(m) => s.(error := Some(MessageOr(m, UnexpectedFailure)), loading := false)
  }

  /** The whole handler, with the network round trip as a parameter. */
  function HandleGenerate(s: PageState, duration: Duration, location: Option<string>,
                          respond: Routes.GenerateRequest -> GenerateReply): (r: PageState)
    ensures |s.preferences| == 0 ==> r == s.(error := Some(NoPreferencesError))
    ensures |s.preferences| > 0 ==>
      r == CompleteGenerate(BeginGenerate(s, duration, location).0,
                            respond(BeginGenerate(s, duration, location).1.value))
    ensures |s.preferences| > 0 ==> !r.loading
    ensures Consistent(s) ==> Consistent(r)
  {
    var (mid, request) := BeginGenerate(s, duration, location);
    match request
    case None => mid
    case Some(req) => CompleteGenerate(mid, respond(req))
  }

  /** A request the page sends is never rejected as malformed, and the
      endpoint generates for the duration the page chose. */
  lemma SentRequestsAreWellFormed(s: PageState, duration: Duration, location: Option<string>,
                                  search: Qloo.Search, generate: Gemini.Generator,
                                  parse: Gemini.JsonParser, clock: Clock)
    requires BeginGenerate(s, duration, location).1.Some?
    ensures var resp := Routes.GenerateItineraryRoute(Ok(BeginGenerate(s, duration, location).1.value),
                                                      search, generate, parse, clock);
      && resp.status != 400
      && (resp.status == 200 ==> resp.body.itinerary.duration == duration
                                 && resp.body.itinerary.userPreferences == s.preferences)
  {
  }

  /** Every response the endpoint gives is read as delivered exactly
      when its status is 2xx: a 2xx always carries an itinerary. */
  lemma EndpointRepliesAreReadByStatus(request: Result<Routes.GenerateRequest>, search: Qloo.Search,
                                       generate: Gemini.Generator, parse: Gemini.JsonParser, clock: Clock)
    ensures var resp := Routes.GenerateItineraryRoute(request, search, generate, parse, clock);
      ReplyOf(resp).Delivered? <==> 200 <= resp.status < 300
  {
  }

  /** When the lookup finds nothing the page ends up showing the 404's
      message. */
  lemma NotFoundIsShown(s: PageState, duration: Duration, location: Option<string>,
                        search: Qloo.Search, generate: Gemini.Generator,
                        parse: Gemini.JsonParser, clock: Clock)
    requires |s.preferences| > 0
    requires Routes.Lookup(s.preferences, search).Ok?
    requires |Routes.Lookup(s.preferences, search).value.recommendations| == 0
    ensures var request := BeginGenerate(s, duration, location).1.value;
      var resp := Routes.GenerateItineraryRoute(Ok(request), search, generate, parse, clock);
      HandleGenerate(s, duration, location, req => ReplyOf(resp)).error == Some(Routes.GenerateNotFound)
  {
    var request := BeginGenerate(s, duration, location).1.value;
    Routes.GenerateNotFoundSkipsGenerator(request, search, generate, parse, generate, parse, clock, clock);
  }

  // ----------------------------------------------------- the section tabs

  /** The "Your Itinerary" tab is disabled while there is no itinerary. */
  function SelectSection(s: PageState, section: Section): (r: PageState)
    ensures Consistent(s) ==> Consistent(r)
    ensures r.section == section || (section == ResultsSection && s.itinerary.None? && r == s)
    ensures r == s.(section := r.section)
  {
    if section == ResultsSection && s.itinerary.None? then s else s.(section := section)
  }

  /** Every handler keeps the results section backed by an itinerary. */
  lemma HandlersKeepConsistent(s: PageState, input: TasteInput, clock: Clock, id: string,
                               duration: Duration, location: Option<string>)
    requires Consistent(s)
    ensures Consistent(InitialPage)
    ensures Consistent(AddPreference(s, input, clock))
    ensures Consistent(RemovePreference(s, id))
    ensures Consistent(ClearAll(s))
    ensures Consistent(BeginGenerate(s, duration, location).0)
  {
  }

  // ----------------------------------------------- form to page, end to end

  /** A submitted form adds a preference named by the trimmed input and
      filed under the selected category. */
  lemma SubmitAddsTrimmedPreference(s: PageState, f: TasteForm.FormState, clock: Clock)
    requires !IsBlank(f.input)
    ensures TasteForm.Submit(f).1.Some?
    ensures var p := AddPreference(s, TasteForm.Submit(f).1.value, clock).preferences[|s.preferences|];
      && p.name == Trim(f.input) && p.name != ""
      && (f.category != "" ==> p.category == f.category)
  {
  }

  /** The form's generate button sends the slider's duration, and an empty
      location is left out of the request. */
  lemma FormGenerateRequest(s: PageState, f: TasteForm.FormState)
    requires |s.preferences| > 0
    ensures var (duration, location) := TasteForm.GenerateArgs(f);
      var request := BeginGenerate(s, duration, location).1.value;
      && request.duration == Some(f.duration)
      && (request.location.None? <==> f.location == "")
  {
  }
}
