/** The preference form (components/TasteInputForm.tsx): its local state
    and the three handlers that turn it into calls on the page. */
module TasteForm {
  import opened Wrappers
  import opened Types
  import opened Text

  const DefaultCategory := "general"

  datatype FormState = FormState(
    input: string,
    category: string,
    location: string,
    duration: Duration,
    slider: int)

  const InitialForm := FormState("", DefaultCategory, "", OneDay, 1)

  /** `handleSubmit`: the new state, and the preference handed to the page
      when there is one. */
  function Submit(f: FormState): (r: (FormState, Option<TasteInput>))
    ensures r.1.None? <==> IsBlank(f.input)
    ensures r.1.None? ==> r.0 == f
    ensures r.1.Some? ==>
      && r.1.value.text != ""
      && !IsSpace(r.1.value.text[0]) && !IsSpace(r.1.value.text[|r.1.value.text| - 1])
      && StrippedAt(f.input, r.1.value.text, LeadingSpace(f.input))
      && r.1.value.category == Some(f.category)
    ensures r.1.Some? ==> r.0 == f.(input := "", category := DefaultCategory)
  {
    var text := Trim(f.input);
    if text == "" then (f, None)
    else (f.(input := "", category := DefaultCategory), Some(TasteInput(text, Some(f.category))))
  }

  /** `handleGenerate`: the arguments passed to the page; an empty
      location is passed as `undefined`. */
  function GenerateArgs(f: FormState): (r: (Duration, Option<string>))
    ensures r.0 == f.duration
    ensures r.1.None? <==> f.location == ""
    ensures r.1.Some? ==> r.1.value == f.location
  {
    (f.duration, if f.location == "" then None else Some(f.location))
  }

  /** The slider's label `"<v>-day"` always names a duration, and that
      duration lasts `v` days. */
  lemma SliderLabelParses(v: int)
    requires 1 <= v <= 7
    ensures ParseDuration([Digit(v)] + "-day").Some?
    ensures Days(ParseDuration([Digit(v)] + "-day").value) == v
  {
    if v == 1 { assert [Digit(v)] + "-day" == "1-day"; }
    else if v == 2 { assert [Digit(v)] + "-day" == "2-day"; }
    else if v == 3 { assert [Digit(v)] + "-day" == "3-day"; }
    else if v == 4 { assert [Digit(v)] + "-day" == "4-day"; }
    else if v == 5 { assert [Digit(v)] + "-day" == "5-day"; }
    else if v == 6 { assert [Digit(v)] + "-day" == "6-day"; }
    else { assert [Digit(v)] + "-day" == "7-day"; }
  }

  /** Moving the range input (bounded to 1..7) to `v`: the duration
      becomes the one spelled `"<v>-day"`. */
  function Slide(f: FormState, v: int): (r: FormState)
    requires 1 <= v <= 7
    ensures r.slider == v
    ensures Days(r.duration) == v
    ensures DurationLabel(r.duration) == [Digit(v)] + "-day"
    ensures r == f.(slider := v, duration := r.duration)
  {
    SliderLabelParses(v);
    var d := ParseDuration([Digit(v)] + "-day").value;
    f.(slider := v, duration := d)
  }

  /** The slider and the duration agree. */
  ghost predicate SliderInSync(f: FormState) {
    f.slider == Days(f.duration)
  }

  /** Every form handler keeps the slider and the duration in agreement. */
  lemma HandlersKeepSliderInSync(f: FormState, v: int)
    requires SliderInSync(f) && 1 <= v <= 7
    ensures SliderInSync(Submit(f).0)
    ensures SliderInSync(Slide(f, v))
    ensures SliderInSync(InitialForm)
  {
  }
}
