/** The log-activity form (src/pages/HabitLog.tsx): its fields, the change
    handler that updates one field, and the submit handler that validates the
    description and hands the entry to the store. */
module HabitLogPage {
  import opened Wrappers
  import opened Strings
  import opened Habits
  import opened AppContext

  /** The impact field of the form: the initial number, or the text the range
      input reports once it has been moved. */
  datatype ImpactValue = Number(n: int) | Text(s: string)

  /** `formData`. */
  datatype FormData = FormData(category: Category, description: string, impactScore: ImpactValue)

  /** A change event of one named control: the category select, the
      description text area, or the impact slider (with the position the
      user dragged it to). */
  datatype FormEvent =
    | CategoryChanged(category: Category)
    | DescriptionChanged(description: string)
    | ImpactChanged(position: int)

  /** The form's initial state: category Food, empty description, impact 5. */
  const InitialForm: FormData := FormData(Food, "", Number(5))

  const DescriptionError: string := "Please provide a description of your activity."

  /** The slider's bounds, `min="1"` and `max="10"`. */
  const SliderMin: int := 1
  const SliderMax: int := 10

  /** The value a range input reports: its position clamped to its bounds. */
  function SliderValue(position: int): (v: int)
    ensures SliderMin <= v <= SliderMax
    ensures SliderMin <= position <= SliderMax ==> v == position
  {
    if position < SliderMin then SliderMin else if position > SliderMax then SliderMax else position
  }

  /** `Number(formData.impactScore)`: the initial number as it is; a text the
      slider reported is read as a decimal integer, and any other text gives
      no number. */
  function ToNumber(v: ImpactValue): (r: Option<int>)
    ensures v.Number? ==> r == Some(v.n)
    ensures v.Text? ==> r == ParseInt(v.s)
    ensures v.Text? && r.Some? ==> |v.s| > 0 && (v.s[0] == '-' || IsDigit(v.s[0]))
    ensures v.Text? && r.Some? && r.value < 0 ==> v.s[0] == '-'
  {
    match v
    case Number(n) => Some(n)
    case Text(s) => ParseInt(s)
  }

  /** The impact field holds a number the slider can show. */
  predicate ImpactInRange(v: ImpactValue) {
    ToNumber(v).Some? && SliderMin <= ToNumber(v).value <= SliderMax
  }

  /** `!formData.description.trim()`: the description is all whitespace. */
  function IsBlank(description: string): (blank: bool)
    ensures blank <==> forall i :: 0 <= i < |description| ==> IsWhitespace(description[i])
  {
    TrimEmptyIffBlank(description);
    Trim(description) == ""
  }

  /** `setFormData(prev => ({ ...prev, [name]: value }))`: the named field
      takes the control's value and the other two keep theirs. The slider
      reports its value as text, which `Number` reads back as that value. */
  function ApplyChange(form: FormData, event: FormEvent): (f: FormData)
    ensures f.category == if event.CategoryChanged? then event.category else form.category
    ensures f.description == if event.DescriptionChanged? then event.description else form.description
    ensures event.ImpactChanged? ==>
      ToNumber(f.impactScore) == Some(SliderValue(event.position)) && ImpactInRange(f.impactScore)
    ensures !event.ImpactChanged? ==> f.impactScore == form.impactScore
  {
    match event
    case CategoryChanged(c) => form.(category := c)
    case DescriptionChanged(d) => form.(description := d)
    case ImpactChanged(p) =>
      IntToStringRoundTrip(SliderValue(p));
      form.(impactScore := Text(IntToString(SliderValue(p))))
  }

  /** What a submit of `form` does: the error it shows, or the entry it
      passes to `addLog`. */
  function Submission(form: FormData): (r: Result<LogData, string>)
    requires ImpactInRange(form.impactScore)
    ensures r.Err? <==> forall i :: 0 <= i < |form.description| ==> IsWhitespace(form.description[i])
    ensures r.Err? ==> r.error == DescriptionError
    ensures r.Ok? ==> r.value.category == form.category && r.value.description == form.description
    ensures r.Ok? ==> Some(r.value.impact) == ToNumber(form.impactScore)
    ensures r.Ok? ==> SliderMin <= r.value.impact <= SliderMax
  {
    if IsBlank(form.description) then Err(DescriptionError)
    else Ok(LogData(form.category, form.description, ToNumber(form.impactScore).value))
  }

  /** Every change keeps the impact field within the slider's bounds. */
  lemma ChangeKeepsImpactInRange(form: FormData, event: FormEvent)
    requires ImpactInRange(form.impactScore)
    ensures ImpactInRange(ApplyChange(form, event).impactScore)
  {
  }

  /** The initial form has the number 5 in range, and submitting it as it is
      fails, since its description is empty. */
  lemma InitialFormFails()
    ensures ImpactInRange(InitialForm.impactScore)
    ensures Submission(InitialForm) == Err(DescriptionError)
  {
  }

  class HabitLogForm {
    var formData: FormData
    var error: string
    /** The routes `navigate` was called with, in order. */
    var navigations: seq<string>

    ghost predicate Valid()
      reads this
    {
      ImpactInRange(formData.impactScore)
    }

    constructor ()
      ensures formData == InitialForm && error == "" && navigations == []
      ensures Valid()
    {
      formData := InitialForm;
      error := "";
      navigations := [];
    }

    /** `handleChange`. */
    method HandleChange(event: FormEvent)
      requires Valid()
      modifies this
      ensures formData == ApplyChange(old(formData), event)
      ensures error == old(error) && navigations == old(navigations)
      ensures Valid()
    {
      ChangeKeepsImpactInRange(formData, event);
      match event
      case CategoryChanged(c) => formData := formData.(category := c);
      case DescriptionChanged(d) => formData := formData.(description := d);
      case ImpactChanged(p) => formData := formData.(impactScore := Text(IntToString(SliderValue(p))));
    }

    /** `handleSubmit`: clears the error, then either shows the description
        error or adds one log to the store and navigates to `/`. The store
        generates `id` and `date`. */
    method HandleSubmit(store: ActivityStore, id: string, date: string)
      requires Valid()
      modifies this, store
      ensures formData == old(formData) && Valid()
      ensures Submission(formData).Err? ==>
        error == DescriptionError && navigations == old(navigations) &&
        store.logs == old(store.logs) && store.stats == old(store.stats)
      ensures Submission(formData).Ok? ==>
        error == "" && navigations == old(navigations) + ["/"] &&
        store.logs == [NewLog(Submission(formData).value, id, date)] + old(store.logs) && store.Valid()
    {
      error := "";
      if IsBlank(formData.description) {
        error := DescriptionError;
        return;
      }
      var impact := ToNumber(formData.impactScore).value;
      store.AddLog(LogData(formData.category, formData.description, impact), id, date);
      navigations := navigations + ["/"];
    }
  }
}
