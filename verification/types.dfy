/** The records of the application (types/index.ts). Optional fields are
    `Option`s; fields that nothing in the modelled core reads
    (images, coordinates, metadata maps, group profiles, budgets) are
    not carried. */
module Types {
  import opened Wrappers

  datatype Preference = Preference(
    id: string,
    name: string,
    category: string,
    description: Option<string>,
    confidence: Option<real>)

  /** A cultural entity returned by the search service. */
  datatype Entity = Entity(id: string, name: string, category: string, description: Option<string>)

  datatype Recommendation = Recommendation(entity: Entity, score: real, reasoning: Option<string>)

  datatype RecsResponse = RecsResponse(recommendations: seq<Recommendation>, total: nat)

  /** The seven trip lengths `'1-day' | … | '7-day'`. */
  datatype Duration = OneDay | TwoDay | ThreeDay | FourDay | FiveDay | SixDay | SevenDay

  function Days(d: Duration): (n: nat)
    ensures 1 <= n <= 7
  {
    match d
    case OneDay => 1
    case TwoDay => 2
    case ThreeDay => 3
    case FourDay => 4
    case FiveDay => 5
    case SixDay => 6
    case SevenDay => 7
  }

  /** The single decimal digit of `n`, for `n` in 1..7. */
  function Digit(n: nat): (c: char)
    requires 1 <= n <= 7
  {
    ('0' as int + n) as char
  }

  /** The wire spelling of a duration, `"<n>-day"`. */
  function DurationLabel(d: Duration): string {
    match d
    case OneDay => "1-day"
    case TwoDay => "2-day"
    case ThreeDay => "3-day"
    case FourDay => "4-day"
    case FiveDay => "5-day"
    case SixDay => "6-day"
    case SevenDay => "7-day"
  }

  /** A label is the day count in decimal followed by `-day`. */
  lemma DurationLabelSpellsDays(d: Duration)
    ensures DurationLabel(d) == [Digit(Days(d))] + "-day"
  {
    match d
    case OneDay => assert Digit(1) == '1';
    case TwoDay => assert Digit(2) == '2';
    case ThreeDay => assert Digit(3) == '3';
    case FourDay => assert Digit(4) == '4';
    case FiveDay => assert Digit(5) == '5';
    case SixDay => assert Digit(6) == '6';
    case SevenDay => assert Digit(7) == '7';
  }

  /** The duration a label names, if any. */
  function ParseDuration(s: string): (r: Option<Duration>)
    ensures r.Some? ==> DurationLabel(r.value) == s
  {
    if s == "1-day" then Some(OneDay)
    else if s == "2-day" then Some(TwoDay)
    else if s == "3-day" then Some(ThreeDay)
    else if s == "4-day" then Some(FourDay)
    else if s == "5-day" then Some(FiveDay)
    else if s == "6-day" then Some(SixDay)
    else if s == "7-day" then Some(SevenDay)
    else None
  }

  /** Every duration's label parses back to it. */
  lemma DurationLabelRoundTrip(d: Duration)
    ensures ParseDuration(DurationLabel(d)) == Some(d)
  {
  }

  datatype ItineraryItem = ItineraryItem(
    id: string,
    title: string,
    description: string,
    time: string,
    category: string,
    location: Option<string>,
    reasoning: Option<string>)

  datatype Itinerary = Itinerary(
    id: string,
    title: string,
    description: string,
    duration: Duration,
    items: seq<ItineraryItem>,
    createdAt: string,
    userPreferences: seq<Preference>,
    location: Option<string>,
    theme: Option<string>,
    shareUrl: Option<string>)

  datatype Role = User | Assistant

  datatype Action = Generate | Refine | Explain | Modify

  datatype Metadata = Metadata(
    action: Option<Action>,
    preferences: Option<seq<Preference>>,
    context: Option<string>)

  datatype ChatMessage = ChatMessage(
    id: string,
    role: Role,
    content: string,
    timestamp: string,
    metadata: Option<Metadata>)

  datatype Insight = Insight(
    source: Preference,
    targetCategory: string,
    reasoning: string,
    examples: seq<string>)

  /** What the taste form hands to the page. */
  datatype TasteInput = TasteInput(text: string, category: Option<string>)

  /** The clock readings an operation takes: `Date.now()` as decimal
      text, `new Date().toISOString()`, and a later `Date.now()` for an
      operation that reads the milliseconds twice. The readings are
      independent: nothing makes the two millisecond texts equal. */
  datatype Clock = Clock(millis: string, iso: string, laterMillis: string)

  function Names(prefs: seq<Preference>): (ns: seq<string>)
    ensures |ns| == |prefs|
    ensures forall i :: 0 <= i < |prefs| ==> ns[i] == prefs[i].name
  {
    seq(|prefs|, i requires 0 <= i < |prefs| => prefs[i].name)
  }

  function CategoriesOf(prefs: seq<Preference>): (cs: seq<string>)
    ensures |cs| == |prefs|
    ensures forall i :: 0 <= i < |prefs| ==> cs[i] == prefs[i].category
  {
    seq(|prefs|, i requires 0 <= i < |prefs| => prefs[i].category)
  }
}
