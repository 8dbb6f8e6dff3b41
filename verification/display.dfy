/** The itinerary view's pure helpers (components/ItineraryDisplay.tsx):
    the time-of-day icon, the category icon and the PDF file name. */
module Display {
  import opened Wrappers
  import opened Text

  // ------------------------------------------------------------ time icon

  /** 🌅 ☀️ 🌆 🌙 and the 🕐 fallback. */
  datatype TimeIcon = Sunrise | Sun | Dusk | Moon | ClockFace

  /** `getTimeIcon`: the first of morning, afternoon, evening, night that
      occurs anywhere in the lower-cased label. */
  function TimeIconOf(time: string): (r: TimeIcon)
    ensures var t := ToLower(time);
      && (r == Sunrise <==> Contains(t, "morning"))
      && (r == Sun <==> !Contains(t, "morning") && Contains(t, "afternoon"))
      && (r == Dusk <==> !Contains(t, "morning") && !Contains(t, "afternoon") && Contains(t, "evening"))
      && (r == Moon <==> (!Contains(t, "morning") && !Contains(t, "afternoon") && !Contains(t, "evening")
                          && Contains(t, "night")))
  {
    var t := ToLower(time);
    if Contains(t, "morning") then Sunrise
    else if Contains(t, "afternoon") then Sun
    else if Contains(t, "evening") then Dusk
    else if Contains(t, "night") then Moon
    else ClockFace
  }

  /** The icon does not depend on letter case. */
  lemma TimeIconIgnoresCase(a: string, b: string)
    requires ToLower(a) == ToLower(b)
    ensures TimeIconOf(a) == TimeIconOf(b)
  {
  }

  /** A label that spells "morning" anywhere, in any case, gets the
      morning icon, whatever else it mentions. */
  lemma MorningAnywhereWins(time: string, k: int)
    requires OccursAt(ToLower(time), "morning", k)
    ensures TimeIconOf(time) == Sunrise
  {
    ContainsAt(ToLower(time), "morning");
  }

  /** None of the four time words occurs anywhere in `t`. */
  ghost predicate NoTimeWord(t: string) {
    forall k :: (&& !OccursAt(t, "morning", k) && !OccursAt(t, "afternoon", k)
                 && !OccursAt(t, "evening", k) && !OccursAt(t, "night", k))
  }

  /** The clock fallback is for labels that spell none of the four words. */
  lemma ClockFaceIffNoWord(time: string)
    ensures TimeIconOf(time) == ClockFace <==> NoTimeWord(ToLower(time))
  {
    var t := ToLower(time);
    ContainsAt(t, "morning");
    ContainsAt(t, "afternoon");
    ContainsAt(t, "evening");
    ContainsAt(t, "night");
    if Contains(t, "morning") {
      var k :| OccursAt(t, "morning", k);
      assert !NoTimeWord(t);
    } else if Contains(t, "afternoon") {
      var k :| OccursAt(t, "afternoon", k);
      assert !NoTimeWord(t);
    } else if Contains(t, "evening") {
      var k :| OccursAt(t, "evening", k);
      assert !NoTimeWord(t);
    } else if Contains(t, "night") {
      var k :| OccursAt(t, "night", k);
      assert !NoTimeWord(t);
    }
  }

  // -------------------------------------------------------- category icon

  /** 🍽️ 🎵 🎬 🎨 ✈️ 🎯 🛍️ 🏛️ 🎪 and the 📍 fallback. */
  datatype CategoryIcon = Dining | Note | Clapper | Palette | Plane | Target | Bags | Columns | Tent | Pin

  /** The own properties of the `icons` record. */
  const TableKeys: set<string> := {"restaurant", "food", "music", "movie", "art", "travel",
                                   "activity", "shopping", "culture", "entertainment"}

  /** `icons[key]` for an own property of the record. */
  function TableIcon(key: string): (r: Option<CategoryIcon>)
    ensures r.Some? <==> key in TableKeys
    ensures r.Some? ==> r.value != Pin
  {
    if key == "restaurant" || key == "food" then Some(Dining)
    else if key == "music" then Some(Note)
    else if key == "movie" then Some(Clapper)
    else if key == "art" then Some(Palette)
    else if key == "travel" then Some(Plane)
    else if key == "activity" then Some(Target)
    else if key == "shopping" then Some(Bags)
    else if key == "culture" then Some(Columns)
    else if key == "entertainment" then Some(Tent)
    else None
  }

  /** `getCategoryIcon` as evidently intended: the table entry for the
      lower-cased category, or the pin for any category not in it. */
  function CategoryIconOf(category: string): (r: CategoryIcon)
    ensures r == Pin <==> ToLower(category) !in TableKeys
    ensures r != Pin ==> TableIcon(ToLower(category)) == Some(r)
  {
    TableIcon(ToLower(category)).GetOr(Pin)
  }

  /** Restaurants and food share the plate icon, in any letter case. */
  lemma RestaurantAndFoodShareIcon(a: string, b: string)
    requires ToLower(a) == "restaurant" && ToLower(b) == "food"
    ensures CategoryIconOf(a) == CategoryIconOf(b) == Dining
  {
  }

  /** What `icons[key]` evaluates to on a plain object: an own property,
      a member inherited from `Object.prototype`, or `undefined`. */
  datatype PropertyValue = OwnIcon(icon: CategoryIcon) | InheritedMember(name: string) | Undefined

  /** The names `Object.prototype` provides to every plain object. */
  const PrototypeMembers: set<string> := {
    "constructor", "__defineGetter__", "__defineSetter__", "hasOwnProperty", "__lookupGetter__",
    "__lookupSetter__", "isPrototypeOf", "propertyIsEnumerable", "toString", "valueOf",
    "__proto__", "toLocaleString"}

  function PropertyOf(key: string): (r: PropertyValue)
    ensures r.OwnIcon? <==> key in TableKeys
    ensures r.InheritedMember? <==> key !in TableKeys && key in PrototypeMembers
  {
    match TableIcon(key)
    case Some(icon) => OwnIcon(icon)
    case None => if key in PrototypeMembers then InheritedMember(key) else Undefined
  }

  /** `getCategoryIcon` as written: `icons[category.toLowerCase()] || '📍'`.
      Inherited members are truthy, so they escape the fallback. */
  function CategoryIconAsWritten(category: string): (r: PropertyValue)
    ensures !r.Undefined?
    ensures r.InheritedMember? <==> ToLower(category) !in TableKeys && ToLower(category) in PrototypeMembers
  {
    match PropertyOf(ToLower(category))
    case Undefined => OwnIcon(Pin)
    case v => v
  }

  lemma ConstructorIsLowercase()
    ensures ToLower("constructor") == "constructor"
  {
    var s := "constructor";
    assert s == ['c', 'o', 'n', 's', 't', 'r', 'u', 'c', 't', 'o', 'r'];
    ToLowerOfLowercase(s);
  }

  /** "constructor" is not in the table, yet as written it gets
      `Object.prototype.constructor` instead of the pin. */
  lemma ConstructorEscapesFallback()
    ensures CategoryIconAsWritten("constructor") == InheritedMember("constructor")
    ensures CategoryIconOf("constructor") == Pin
  {
    ConstructorIsLowercase();
  }

  /** Away from the prototype's names the code as written and the
      intended lookup agree. */
  lemma AsWrittenAgreesOffPrototype(category: string)
    requires ToLower(category) !in PrototypeMembers || ToLower(category) in TableKeys
    ensures CategoryIconAsWritten(category) == OwnIcon(CategoryIconOf(category))
  {
  }

  // ---------------------------------------------------------- PDF name

  const PdfSuffix := "_itinerary.pdf"

  /** A character the file-name stem may hold: `[a-z0-9_]`. */
  predicate IsStemChar(c: char) {
    ('a' <= c <= 'z') || ('0' <= c <= '9') || c == '_'
  }

  /** `title.replace(/[^a-z0-9]/gi, '_')`. */
  function Underscored(title: string): (r: string)
    ensures |r| == |title|
    ensures forall i :: 0 <= i < |title| ==> r[i] == (if IsAsciiAlnum(title[i]) then title[i] else '_')
  {
    if |title| == 0 then "" else [if IsAsciiAlnum(title[0]) then title[0] else '_'] + Underscored(title[1..])
  }

  /** The stem the PDF is saved under: one character per title character,
      ASCII letters and digits kept (lower-cased) and everything else an
      underscore. */
  function PdfStem(title: string): (r: string)
    ensures |r| == |title|
    ensures forall i :: 0 <= i < |title| ==> IsStemChar(r[i])
    ensures forall i :: 0 <= i < |title| ==> (IsAsciiAlnum(title[i]) <==> r[i] != '_')
    ensures forall i :: 0 <= i < |title| && IsAsciiAlnum(title[i]) ==> r[i] == LowerChar(title[i])
  {
    ToLower(Underscored(title))
  }

  /** The file name passed to `pdf.save`. */
  function PdfFileName(title: string): (r: string)
    ensures |r| == |title| + |PdfSuffix|
    ensures EndsWith(r, PdfSuffix)
    ensures r[..|title|] == PdfStem(title)
  {
    PdfStem(title) + PdfSuffix
  }

  /** A stem is its own stem: sanitising is idempotent. */
  lemma PdfStemIdempotent(title: string)
    ensures PdfStem(PdfStem(title)) == PdfStem(title)
  {
    var s := PdfStem(title);
    forall i | 0 <= i < |s|
      ensures PdfStem(s)[i] == s[i]
    {
      if s[i] == '_' {
        assert !IsAsciiAlnum(s[i]);
      }
    }
  }

  /** Titles that differ only in letter case, or only in which
      non-alphanumeric characters they use, share a file name. */
  lemma PdfFileNameCollisions(a: string, b: string)
    requires |a| == |b|
    requires forall i :: 0 <= i < |a| ==> (IsAsciiAlnum(a[i]) <==> IsAsciiAlnum(b[i]))
    requires forall i :: 0 <= i < |a| && IsAsciiAlnum(a[i]) ==> LowerChar(a[i]) == LowerChar(b[i])
    ensures PdfFileName(a) == PdfFileName(b)
  {
    assert PdfStem(a) == PdfStem(b);
  }
}
