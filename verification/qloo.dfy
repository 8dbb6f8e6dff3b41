/** The recommendation gateway (lib/qloo-api.ts): flattening per-query
    search results into recommendations, the cross-domain two-round
    search, per-preference insights and the templated taste profile.
    The HTTP search call is the oracle `search`. */
module Qloo {
  import opened Wrappers
  import opened Types
  import opened Seqs
  import opened Text
  import GroupMerge

  /** `searchEntities(query)`: the entities found, or the failed request. */
  type Search = string -> Result<seq<Entity>>

  /** The entities a search found, or nothing when it failed. */
  function Found(r: Result<seq<Entity>>): seq<Entity> {
    if r.Ok? then r.value else []
  }

  /** The per-query results, in query order. */
  function Hits(queries: seq<string>, search: Search): (hs: seq<seq<Entity>>)
    ensures |hs| == |queries|
    ensures forall i :: 0 <= i < |queries| ==> hs[i] == Found(search(queries[i]))
  {
    seq(|queries|, i requires 0 <= i < |queries| => Found(search(queries[i])))
  }

  predicate AllSucceed(queries: seq<string>, search: Search) {
    forall i :: 0 <= i < |queries| ==> search(queries[i]).Ok?
  }

  /** `Promise.all(queries.map(search))`, all-or-nothing; when several
      searches fail, the first failing query in order gives the error. */
  function SearchAll(queries: seq<string>, search: Search): (r: Result<seq<seq<Entity>>>)
    ensures r.Ok? <==> AllSucceed(queries, search)
    ensures r.Ok? ==> r.value == Hits(queries, search)
    ensures r.Err? ==> exists i :: 0 <= i < |queries| && search(queries[i]) == Err(r.error)
  {
    if |queries| == 0 then Ok([])
    else
      match search(queries[0])
      case Err(e) => Err(e)
      case Ok(es) =>
        var rest := SearchAll(queries[1..], search);
        assert forall i :: 1 <= i < |queries| ==> queries[1..][i - 1] == queries[i];
        match rest
        case Err(e) => Err(e)
        case Ok(hs) => Ok([es] + hs)
  }

  function EntitiesOf(recs: seq<Recommendation>): (es: seq<Entity>)
    ensures |es| == |recs|
    ensures forall i :: 0 <= i < |recs| ==> es[i] == recs[i].entity
  {
    seq(|recs|, i requires 0 <= i < |recs| => recs[i].entity)
  }

  function IdsOf(es: seq<Entity>): (ids: seq<string>)
    ensures |ids| == |es|
    ensures forall i :: 0 <= i < |es| ==> ids[i] == es[i].id
  {
    seq(|es|, i requires 0 <= i < |es| => es[i].id)
  }

  const SearchReasoning := "Based on search results"

  /** A recommendation with the constant placeholder score. */
  function FromSearch(e: Entity): Recommendation {
    Recommendation(e, 1.0, Some(SearchReasoning))
  }

  /** A well-shaped gateway response: every entry scored 1.0 with the
      search reasoning, and `total` counting the entries. */
  predicate Shaped(r: RecsResponse) {
    r.total == |r.recommendations| &&
    forall i :: 0 <= i < |r.recommendations| ==>
      r.recommendations[i] == FromSearch(r.recommendations[i].entity)
  }

  /** `getRecommendations(entityIds)`: one search per id, results
      concatenated in id order. */
  function GetRecommendations(ids: seq<string>, search: Search): (r: Result<RecsResponse>)
    ensures r.Ok? <==> AllSucceed(ids, search)
    ensures r.Ok? ==> Shaped(r.value)
    ensures r.Ok? ==> EntitiesOf(r.value.recommendations) == Flatten(Hits(ids, search))
    ensures r.Err? ==> exists i :: 0 <= i < |ids| && search(ids[i]) == Err(r.error)
  {
    match SearchAll(ids, search)
    case Err(e) => Err(e)
    case Ok(results) =>
      var all := Flatten(results);
      var recs := seq(|all|, i requires 0 <= i < |all| => FromSearch(all[i]));
      assert EntitiesOf(recs) == all;
      Ok(RecsResponse(recs, |all|))
  }

  /** The ids the first round of the cross-domain search yields. */
  function FirstRoundIds(prefTexts: seq<string>, search: Search): seq<string> {
    IdsOf(Flatten(Hits(prefTexts, search)))
  }

  /** `getCrossDomainRecommendations(preferences)`: search each text,
      then search again by each entity id found; no entity in the first
      round short-cuts to the empty response. The target categories the
      source accepts are never used and are not parameters here. */
  function GetCrossDomainRecommendations(prefTexts: seq<string>, search: Search): (r: Result<RecsResponse>)
    ensures AllSucceed(prefTexts, search) && |FirstRoundIds(prefTexts, search)| == 0 ==>
      r == Ok(RecsResponse([], 0))
    ensures r.Ok? <==>
      (AllSucceed(prefTexts, search) && AllSucceed(FirstRoundIds(prefTexts, search), search))
    ensures r.Ok? ==> Shaped(r.value)
    ensures r.Ok? ==>
      EntitiesOf(r.value.recommendations) == Flatten(Hits(FirstRoundIds(prefTexts, search), search))
    ensures r.Err? && !AllSucceed(prefTexts, search) ==>
      exists i :: 0 <= i < |prefTexts| && search(prefTexts[i]) == Err(r.error)
    ensures r.Err? && AllSucceed(prefTexts, search) ==>
      var ids := FirstRoundIds(prefTexts, search);
      exists i :: 0 <= i < |ids| && search(ids[i]) == Err(r.error)
  {
    match SearchAll(prefTexts, search)
    case Err(e) => Err(e)
    case Ok(results) =>
      var ids := IdsOf(Flatten(results));
      if |ids| == 0 then
        assert Flatten(Hits(ids, search)) == [];
        Ok(RecsResponse([], 0))
      else GetRecommendations(ids, search)
  }

  /** An empty preference list yields the empty response. */
  lemma NoPreferencesNoRecommendations(search: Search)
    ensures GetCrossDomainRecommendations([], search) == Ok(RecsResponse([], 0))
  {
    assert Flatten(Hits([], search)) == [];
  }

  // ------------------------------------------------------------- insights

  /** The names of the first three recommendations. */
  function ExampleNames(recs: seq<Recommendation>): (names: seq<string>)
    ensures |names| == Min(3, |recs|)
    ensures forall i :: 0 <= i < |names| ==> names[i] == recs[i].entity.name
  {
    var top := recs[..Min(3, |recs|)];
    seq(|top|, i requires 0 <= i < |top| => top[i].entity.name)
  }

  /** The insight built from the first recommendation for `p`. */
  function MakeInsight(p: Preference, recs: seq<Recommendation>): Insight
    requires |recs| > 0
  {
    var category := recs[0].entity.category;
    Insight(p, category, "Your love for " + p.name + " connects to " + category + " culture", ExampleNames(recs))
  }

  /** The per-preference cross-domain lookup. */
  function Probe(p: Preference, search: Search): Result<RecsResponse> {
    GetCrossDomainRecommendations([p.name], search)
  }

  /** `p` yields an insight: its lookup succeeded with results. */
  predicate Inspiring(p: Preference, search: Search) {
    Probe(p, search).Ok? && |Probe(p, search).value.recommendations| > 0
  }

  /** The inspiring preferences, in order and with their repeats: one
      entry per position whose lookup found something. */
  function InspiringOf(prefs: seq<Preference>, search: Search): seq<Preference> {
    if |prefs| == 0 then []
    else (if Inspiring(prefs[0], search) then [prefs[0]] else []) + InspiringOf(prefs[1..], search)
  }

  function Sources(insights: seq<Insight>): (ps: seq<Preference>)
    ensures |ps| == |insights|
    ensures forall i :: 0 <= i < |insights| ==> ps[i] == insights[i].source
  {
    seq(|insights|, i requires 0 <= i < |insights| => insights[i].source)
  }

  /** Every insight comes from an inspiring preference and is the one
      built from that preference's lookup. */
  ghost predicate InsightsInspired(insights: seq<Insight>, search: Search) {
    forall i :: 0 <= i < |insights| ==>
      Inspiring(insights[i].source, search) &&
      insights[i] == MakeInsight(insights[i].source, Probe(insights[i].source, search).value.recommendations)
  }

  /** Every inspiring preference is the source of some insight. */
  ghost predicate InsightsCover(prefs: seq<Preference>, insights: seq<Insight>, search: Search) {
    forall j :: 0 <= j < |prefs| && Inspiring(prefs[j], search) ==> prefs[j] in Sources(insights)
  }

  /** The properties `CollectInsights` promises, for a result over `prefs`. */
  ghost predicate InsightsFaithful(prefs: seq<Preference>, insights: seq<Insight>, search: Search) {
    IsSubseq(Sources(insights), prefs) && InsightsInspired(insights, search) && InsightsCover(prefs, insights, search)
  }

  /** The insight the head preference contributes, if any. */
  function HeadInsight(p: Preference, search: Search): (here: seq<Insight>)
    requires Probe(p, search).Ok?
    ensures |here| <= 1
    ensures |here| == 1 <==> Inspiring(p, search)
    ensures |here| == 1 ==> here[0].source == p
  {
    if Inspiring(p, search) then [MakeInsight(p, Probe(p, search).value.recommendations)] else []
  }

  lemma ConsInOrder(prefs: seq<Preference>, rest: seq<Insight>, search: Search)
    requires |prefs| > 0 && Probe(prefs[0], search).Ok?
    requires IsSubseq(Sources(rest), prefs[1..])
    ensures IsSubseq(Sources(HeadInsight(prefs[0], search) + rest), prefs)
  {
    var all := HeadInsight(prefs[0], search) + rest;
    if !Inspiring(prefs[0], search) {
      assert all == rest;
    }
  }

  lemma ConsInspired(p: Preference, rest: seq<Insight>, search: Search)
    requires Probe(p, search).Ok?
    requires InsightsInspired(rest, search)
    ensures InsightsInspired(HeadInsight(p, search) + rest, search)
  {
  }

  lemma ConsCover(prefs: seq<Preference>, rest: seq<Insight>, search: Search)
    requires |prefs| > 0 && Probe(prefs[0], search).Ok?
    requires InsightsCover(prefs[1..], rest, search)
    ensures InsightsCover(prefs, HeadInsight(prefs[0], search) + rest, search)
  {
    var here := HeadInsight(prefs[0], search);
    var all := here + rest;
    assert Sources(all) == Sources(here) + Sources(rest);
    forall j | 0 <= j < |prefs| && Inspiring(prefs[j], search)
      ensures prefs[j] in Sources(all)
    {
      if j > 0 {
        assert prefs[1..][j - 1] == prefs[j];
      } else {
        assert Sources(here)[0] == prefs[0];
      }
    }
  }

  /** The head preference is the first source exactly when it inspires. */
  lemma SourcesCons(p: Preference, rest: seq<Insight>, search: Search)
    requires Probe(p, search).Ok?
    ensures Sources(HeadInsight(p, search) + rest) == (if Inspiring(p, search) then [p] else []) + Sources(rest)
  {
    var here := HeadInsight(p, search);
    assert Sources(here + rest) == Sources(here) + Sources(rest);
  }

  /** Handling the head preference keeps the promised properties. */
  lemma InsightsCons(prefs: seq<Preference>, rest: seq<Insight>, search: Search)
    requires |prefs| > 0 && Probe(prefs[0], search).Ok?
    requires InsightsFaithful(prefs[1..], rest, search)
    ensures InsightsFaithful(prefs, HeadInsight(prefs[0], search) + rest, search)
  {
    ConsInOrder(prefs, rest, search);
    ConsInspired(prefs[0], rest, search);
    ConsCover(prefs, rest, search);
  }

  /** The insight loop of `analyzeTasteProfile`: sequential, stopping at
      the first failed lookup. The result lists, in preference order,
      one insight for every preference whose lookup found something and
      none for the others. */
  function CollectInsights(prefs: seq<Preference>, search: Search): (r: Result<seq<Insight>>)
    ensures r.Err? <==> exists j :: 0 <= j < |prefs| && Probe(prefs[j], search).Err?
    ensures r.Ok? ==> InsightsFaithful(prefs, r.value, search)
    ensures r.Ok? ==> Sources(r.value) == InspiringOf(prefs, search)
    ensures r.Err? ==> exists j :: 0 <= j < |prefs| && Probe(prefs[j], search) == Err(r.error)
  {
    if |prefs| == 0 then Ok([])
    else
      var p := prefs[0];
      assert forall j :: 1 <= j < |prefs| ==> prefs[1..][j - 1] == prefs[j];
      match Probe(p, search)
      case Err(e) => Err(e)
      case Ok(found) =>
        match CollectInsights(prefs[1..], search)
        case Err(e) => Err(e)
        case Ok(rest) =>
          InsightsCons(prefs, rest, search);
          SourcesCons(p, rest, search);
          Ok(HeadInsight(p, search) + rest)
  }

  /** A preference listed twice yields two insights, one per position. */
  lemma RepeatedPreferenceGivesTwoInsights(p: Preference, search: Search)
    requires Inspiring(p, search)
    ensures CollectInsights([p, p], search).Ok?
    ensures |CollectInsights([p, p], search).value| == 2
  {
    assert [p, p][1..] == [p];
    assert [p][1..] == [];
    assert InspiringOf([p], search) == [p];
    assert InspiringOf([p, p], search) == [p, p];
  }

  /** At most one insight per preference, with at most three examples. */
  lemma InsightBounds(prefs: seq<Preference>, search: Search)
    ensures var r := CollectInsights(prefs, search);
      r.Ok? ==> |r.value| <= |prefs| && forall ins :: ins in r.value ==> 1 <= |ins.examples| <= 3
  {
    var r := CollectInsights(prefs, search);
    if r.Ok? {
      SubseqLength(Sources(r.value), prefs);
    }
  }

  // -------------------------------------------------------------- profile

  const ProfileOpening := "Cultural enthusiast with diverse interests in "
  const ConnectionsIntro := "Shows cross-cultural connections, particularly "
  const EclecticClosing := "Has eclectic taste spanning multiple cultural domains."
  const FocusedClosing := "Has focused cultural interests with potential for discovery."

  /** `Array.from(new Set(preferences.map(p => p.category)))`. */
  function Categories(prefs: seq<Preference>): seq<string> {
    Distinct(CategoriesOf(prefs))
  }

  /** The first sentence, naming the distinct categories. */
  function CategorySentence(prefs: seq<Preference>): string {
    ProfileOpening + Join(Categories(prefs), ", ") + ". "
  }

  /** The cross-cultural sentence, present only when there is an insight;
      it quotes the first insight's reasoning in lower case. */
  function ConnectionsSentence(insights: seq<Insight>): (c: string)
    ensures |insights| > 0 ==> ConnectionsIntro <= c
    ensures |insights| == 0 ==> c == ""
  {
    if |insights| > 0 then ConnectionsIntro + (ToLower(insights[0].reasoning) + ". ") else ""
  }

  /** The closing sentence: eclectic for more than three preferences. */
  function Closing(prefs: seq<Preference>): string {
    if |prefs| > 3 then EclecticClosing else FocusedClosing
  }

  /** The cross-cultural sentence quotes the first insight's reasoning,
      lower-cased, right after its opening words. */
  lemma ConnectionsPrefix(head: string, insights: seq<Insight>, closing: string)
    ensures |insights| > 0 ==>
      head + ConnectionsIntro + ToLower(insights[0].reasoning) + ". " <= head + ConnectionsSentence(insights) + closing
    ensures |insights| == 0 ==> head + ConnectionsSentence(insights) + closing == head + closing
  {
    if |insights| > 0 {
      FourPartPrefix(head, ConnectionsIntro, ToLower(insights[0].reasoning), ". ", closing);
    } else {
      assert head + "" == head;
    }
  }

  /** `generateTasteProfile(preferences, insights)`. */
  function TasteProfile(prefs: seq<Preference>, insights: seq<Insight>): (profile: string)
    ensures CategorySentence(prefs) <= profile
    ensures EndsWith(profile, if |prefs| > 3 then EclecticClosing else FocusedClosing)
    ensures |insights| > 0 ==>
      CategorySentence(prefs) + ConnectionsIntro + ToLower(insights[0].reasoning) + ". " <= profile
    ensures |insights| == 0 ==> profile == CategorySentence(prefs) + Closing(prefs)
  {
    var head := CategorySentence(prefs) + ConnectionsSentence(insights);
    EndsWithConcat(head, Closing(prefs));
    assert CategorySentence(prefs) <= head;
    ConnectionsPrefix(CategorySentence(prefs), insights, Closing(prefs));
    head + Closing(prefs)
  }

  /** The profile ends with the eclectic sentence exactly when there are
      more than three preferences. */
  lemma ProfileEclecticIff(prefs: seq<Preference>, insights: seq<Insight>)
    ensures EndsWith(TasteProfile(prefs, insights), EclecticClosing) <==> |prefs| > 3
  {
    var profile := TasteProfile(prefs, insights);
    if |prefs| <= 3 {
      assert EclecticClosing[|EclecticClosing| - 2] != FocusedClosing[|FocusedClosing| - 2];
    }
  }

  lemma ClosingsAreNotConnections()
    ensures !(ConnectionsIntro <= EclecticClosing) && !(ConnectionsIntro <= FocusedClosing)
  {
    assert ConnectionsIntro[46] == ' ';
    assert EclecticClosing[46] == 'd';
    assert FocusedClosing[46] == 'f';
  }

  /** The sentence after the category sentence is the cross-cultural one
      exactly when there is at least one insight. */
  lemma ProfileConnectionsIff(prefs: seq<Preference>, insights: seq<Insight>)
    ensures ConnectionsIntro <= TasteProfile(prefs, insights)[|CategorySentence(prefs)|..] <==> |insights| > 0
  {
    var connections, closing := ConnectionsSentence(insights), Closing(prefs);
    var rest := TasteProfile(prefs, insights)[|CategorySentence(prefs)|..];
    ConcatRest(CategorySentence(prefs), connections, closing);
    assert rest == connections + closing;
    if |insights| > 0 {
      assert rest[..|ConnectionsIntro|] == connections[..|ConnectionsIntro|];
    } else {
      assert rest == closing;
      ClosingsAreNotConnections();
    }
  }


  // ------------------------------------------------------------- analysis

  datatype TasteAnalysis = TasteAnalysis(profile: string, insights: seq<Insight>, recommendations: RecsResponse)

  /** `analyzeTasteProfile(preferences)`: one broad lookup over every
      name, then the insight loop, then the profile text. */
  function AnalyzeTasteProfile(prefs: seq<Preference>, search: Search): (r: Result<TasteAnalysis>)
    ensures r.Ok? <==>
      (GetCrossDomainRecommendations(Names(prefs), search).Ok? && CollectInsights(prefs, search).Ok?)
    ensures r.Ok? ==> r.value.recommendations == GetCrossDomainRecommendations(Names(prefs), search).value
    ensures r.Ok? ==> r.value.insights == CollectInsights(prefs, search).value
    ensures r.Ok? ==> r.value.profile == TasteProfile(prefs, r.value.insights)
    ensures r.Err? ==>
      r.error == (if GetCrossDomainRecommendations(Names(prefs), search).Err?
                  then GetCrossDomainRecommendations(Names(prefs), search).error
                  else CollectInsights(prefs, search).error)
  {
    match GetCrossDomainRecommendations(Names(prefs), search)
    case Err(e) => Err(e)
    case Ok(recs) =>
      match CollectInsights(prefs, search)
      case Err(e) => Err(e)
      case Ok(insights) => Ok(TasteAnalysis(TasteProfile(prefs, insights), insights, recs))
  }

  /** `getGroupRecommendations`: merge, then look up the merged names. */
  function GetGroupRecommendations(groupPrefs: seq<Preference>, strategy: GroupMerge.Strategy, search: Search): Result<RecsResponse> {
    GetCrossDomainRecommendations(Names(GroupMerge.Merge(groupPrefs, strategy)), search)
  }
}
