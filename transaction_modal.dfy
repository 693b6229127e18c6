/** The add/edit transaction form: its string-valued fields, the validator that fills
    the error map field by field, the error clearing on change, the normalised data it
    submits, and the category options offered for the selected type. */
module TransactionModal {
  import opened Dates
  import opened Wrappers
  import opened Model
  import opened Text

  /** The form fields, which are also the keys of the error map. */
  datatype Field = TypeField | AmountField | DescriptionField | CategoryField | DateField | RecurrenceField | RecurrenceEndField

  /** The form as the inputs hold it: every field a string; `date` and `recurrenceEnd`
      are 'yyyy-MM-dd' strings or empty. */
  datatype FormData = FormData(
    kind: string,
    amount: string,
    description: string,
    category: string,
    date: string,
    recurrence: string,
    recurrenceEnd: string)

  function Get(f: FormData, field: Field): string {
    match field
    case TypeField => f.kind
    case AmountField => f.amount
    case DescriptionField => f.description
    case CategoryField => f.category
    case DateField => f.date
    case RecurrenceField => f.recurrence
    case RecurrenceEndField => f.recurrenceEnd
  }

  /** `{ ...prev, [name]: value }`: the named field takes the value, the others are kept. */
  function Set(f: FormData, field: Field, value: string): (g: FormData)
    ensures Get(g, field) == value
    ensures forall other | other != field :: Get(g, other) == Get(f, other)
  {
    match field
    case TypeField => f.(kind := value)
    case AmountField => f.(amount := value)
    case DescriptionField => f.(description := value)
    case CategoryField => f.(category := value)
    case DateField => f.(date := value)
    case RecurrenceField => f.(recurrence := value)
    case RecurrenceEndField => f.(recurrenceEnd := value)
  }

  /** The empty form: an expense dated today, one-time, with nothing else filled in. */
  function InitialForm(today: Day): FormData {
    FormData("expense", "", "", "", IsoDate(today), "none", "")
  }

  const AmountMessage: string := "Amount must be greater than 0"
  const DescriptionMessage: string := "Description is required"
  const CategoryMessage: string := "Category is required"
  const DateMessage: string := "Date is required"
  const RecurrenceEndMessage: string := "End date must be after start date"

  // ---------------------------------------------------------------------------
  // Validation

  /** The amount is missing, or reads as a number that is not positive. An amount with
      no number in it reads as NaN, and `NaN <= 0` is false, so it is not flagged. */
  predicate AmountInvalid(amount: string) {
    amount == "" || (ParseFloat(amount).Some? && ParseFloat(amount).value <= 0.0)
  }

  predicate DescriptionMissing(description: string) {
    Trim(description) == ""
  }

  /** A repeating entry whose end date string is not after its start date string. */
  predicate EndNotAfterStart(f: FormData) {
    f.recurrence != "none" && f.recurrenceEnd != "" && StringLe(f.recurrenceEnd, f.date)
  }

  /** The form passes every check. */
  predicate IsValid(f: FormData) {
    !AmountInvalid(f.amount) && !DescriptionMissing(f.description) && f.category != ""
    && f.date != "" && !EndNotAfterStart(f)
  }

  /** `errors` holds `message` under `field` exactly when `problem` holds. */
  predicate Reports(errors: map<Field, string>, field: Field, problem: bool, message: string) {
    (field in errors <==> problem) && (field in errors ==> errors[field] == message)
  }

  /** The error map the validator produces for `f`: one entry per failed check, with
      its message, and nothing else. */
  predicate Reported(errors: map<Field, string>, f: FormData) {
    && Reports(errors, AmountField, AmountInvalid(f.amount), AmountMessage)
    && Reports(errors, DescriptionField, DescriptionMissing(f.description), DescriptionMessage)
    && Reports(errors, CategoryField, f.category == "", CategoryMessage)
    && Reports(errors, DateField, f.date == "", DateMessage)
    && Reports(errors, RecurrenceEndField, EndNotAfterStart(f), RecurrenceEndMessage)
    && TypeField !in errors && RecurrenceField !in errors
  }

  /** `validateForm`: fills the error map check by check; the form is valid when the
      map has no keys. */
  method ValidateForm(f: FormData) returns (errors: map<Field, string>, valid: bool)
    ensures Reported(errors, f)
    ensures valid <==> IsValid(f)
    ensures valid <==> |errors| == 0
  {
    errors := map[];
    if f.amount == "" || (ParseFloat(f.amount).Some? && ParseFloat(f.amount).value <= 0.0) {
      errors := errors[AmountField := AmountMessage];
    }
    assert Reports(errors, AmountField, AmountInvalid(f.amount), AmountMessage);
    assert errors.Keys <= {AmountField};
    if DescriptionMissing(f.description) {
      errors := errors[DescriptionField := DescriptionMessage];
    }
    assert Reports(errors, DescriptionField, DescriptionMissing(f.description), DescriptionMessage);
    assert errors.Keys <= {AmountField, DescriptionField};
    if f.category == "" {
      errors := errors[CategoryField := CategoryMessage];
    }
    assert Reports(errors, CategoryField, f.category == "", CategoryMessage);
    assert errors.Keys <= {AmountField, DescriptionField, CategoryField};
    if f.date == "" {
      errors := errors[DateField := DateMessage];
    }
    assert Reports(errors, DateField, f.date == "", DateMessage);
    assert errors.Keys <= {AmountField, DescriptionField, CategoryField, DateField};
    if EndNotAfterStart(f) {
      errors := errors[RecurrenceEndField := RecurrenceEndMessage];
    }
    valid := |errors| == 0;
    ReportedEmptyIffValid(errors, f);
  }

  /** The report is a function of the form: two maps that both report it are equal. */
  lemma ReportedUnique(e1: map<Field, string>, e2: map<Field, string>, f: FormData)
    requires Reported(e1, f) && Reported(e2, f)
    ensures e1 == e2
  {
    forall k ensures (k in e1 <==> k in e2) && (k in e1 ==> e1[k] == e2[k]) {
      match k
      case TypeField =>
      case AmountField =>
      case DescriptionField =>
      case CategoryField =>
      case DateField =>
      case RecurrenceField =>
      case RecurrenceEndField =>
    }
    assert e1.Keys == e2.Keys;
  }

  /** The reported map is empty exactly when the form is valid. */
  lemma ReportedEmptyIffValid(errors: map<Field, string>, f: FormData)
    requires Reported(errors, f)
    ensures |errors| == 0 <==> IsValid(f)
  {
    if IsValid(f) {
      forall k ensures k !in errors {
        match k
        case TypeField =>
        case AmountField =>
        case DescriptionField =>
        case CategoryField =>
        case DateField =>
        case RecurrenceField =>
        case RecurrenceEndField =>
      }
      assert errors == map[];
    } else {
      assert errors != map[];
    }
  }

  /** A fresh form fails on the amount, the description and the category, and on
      nothing else. */
  lemma InitialFormProblems(today: Day)
    ensures var f := InitialForm(today);
      AmountInvalid(f.amount) && DescriptionMissing(f.description) && f.category == ""
      && f.date != "" && !EndNotAfterStart(f)
  {
    assert Trim("") == "";
  }

  /** An amount without digits (NaN to `parseFloat`) passes the amount check. */
  lemma NonNumericAmountPasses(amount: string)
    requires amount != ""
    requires forall i | 0 <= i < |amount| :: !IsDigit(amount[i])
    ensures !AmountInvalid(amount)
  {
    ParseFloatNoDigits(amount);
  }

  /** With 'yyyy-MM-dd' dates, a repeating entry that passes the end-date check ends
      strictly after it starts. */
  lemma ValidEndIsAfterStart(f: FormData, start: Day, end: Day)
    requires start.year < 10000 && end.year < 10000
    requires f.date == IsoDate(start) && f.recurrenceEnd == IsoDate(end) && f.recurrence != "none"
    requires !EndNotAfterStart(f)
    ensures DayNumber(start) < DayNumber(end)
  {
    IsoDateOrder(end, start);
  }

  // ---------------------------------------------------------------------------
  // Error clearing

  /** `handleChange`'s error update: an error under `field` that is present and not
      empty becomes the empty string; the key stays. */
  function ClearError(errors: map<Field, string>, field: Field): (r: map<Field, string>)
    ensures r.Keys == errors.Keys
    ensures field in r ==> r[field] == ""
    ensures forall k | k in errors && k != field :: r[k] == errors[k]
  {
    if field in errors && errors[field] != "" then errors[field := ""] else errors
  }

  /** Clearing twice is clearing once, and clearing keeps the number of keys. */
  lemma ClearErrorIdempotent(errors: map<Field, string>, field: Field)
    ensures ClearError(ClearError(errors, field), field) == ClearError(errors, field)
    ensures |ClearError(errors, field)| == |errors|
  {
  }

  // ---------------------------------------------------------------------------
  // Submission

  /** The object handed to the store: the form with a numeric amount (`None` is NaN)
      and `null` (`None`) for an empty end date. */
  datatype Submission = Submission(
    kind: string,
    amount: Option<real>,
    description: string,
    category: string,
    date: string,
    recurrence: string,
    recurrenceEnd: Option<string>)

  function Submit(f: FormData): (s: Submission)
    ensures s.amount == ParseFloat(f.amount)
    ensures s.recurrenceEnd.None? <==> f.recurrenceEnd == ""
    ensures s.recurrenceEnd.Some? ==> s.recurrenceEnd.value == f.recurrenceEnd
    ensures s.kind == f.kind && s.description == f.description && s.category == f.category
    ensures s.date == f.date && s.recurrence == f.recurrence
  {
    Submission(f.kind, ParseFloat(f.amount), f.description, f.category, f.date, f.recurrence,
               if f.recurrenceEnd == "" then None else Some(f.recurrenceEnd))
  }

  /** A valid form submits a positive amount, or NaN. */
  lemma ValidSubmissionAmount(f: FormData)
    requires IsValid(f)
    ensures Submit(f).amount.None? || Submit(f).amount.value > 0.0
  {
  }

  /** A whole amount typed in decimal is submitted as that number. */
  lemma SubmitWholeAmount(f: FormData, n: nat)
    requires f.amount == NatToString(n)
    ensures Submit(f).amount == Some(n as real)
    ensures n > 0 ==> !AmountInvalid(f.amount)
  {
    ParseFloatNat(n);
  }

  // ---------------------------------------------------------------------------
  // Category options

  /** One entry of the category select. */
  datatype SelectOption = SelectOption(value: string, caption: string)

  function OptionOf(c: Category): SelectOption {
    SelectOption(ToLower(c.name), c.name)
  }

  /** `filteredCategories`: the categories of the form's type, in order, each offered
      under its lower-cased name and labelled with its name. */
  function FilteredCategories(categories: seq<Category>, kind: string): (r: seq<SelectOption>)
    ensures |r| <= |categories|
    ensures forall o | o in r :: exists c | c in categories :: KindName(c.kind) == kind && o == OptionOf(c)
    ensures forall c | c in categories && KindName(c.kind) == kind :: OptionOf(c) in r
  {
    if |categories| == 0 then []
    else
      var c := categories[0];
      var rest := FilteredCategories(categories[1..], kind);
      assert forall u | u in categories[1..] :: u in categories;
      assert forall u | u in categories :: u == c || u in categories[1..];
      if KindName(c.kind) == kind then [OptionOf(c)] + rest else rest
  }

  /** A category of the form's type contributes exactly its own option, any other
      category none. */
  lemma OneCategoryOption(c: Category, kind: string)
    ensures FilteredCategories([c], kind) == (if KindName(c.kind) == kind then [OptionOf(c)] else [])
  {
    assert [c][1..] == [];
  }

  /** The options of a concatenation are the options of each part in turn, so the
      options keep the order of the category list. */
  lemma {:induction false} FilteredCategoriesConcat(a: seq<Category>, b: seq<Category>, kind: string)
    ensures FilteredCategories(a + b, kind) == FilteredCategories(a, kind) + FilteredCategories(b, kind)
    decreases |a|
  {
    if |a| > 0 {
      assert (a + b)[0] == a[0];
      assert (a + b)[1..] == a[1..] + b;
      FilteredCategoriesConcat(a[1..], b, kind);
    } else {
      assert a + b == b;
    }
  }

  /** Every offered value is already lower case. */
  lemma OptionValuesLowerCase(categories: seq<Category>, kind: string)
    ensures forall o | o in FilteredCategories(categories, kind) :: ToLower(o.value) == o.value
  {
    forall o | o in FilteredCategories(categories, kind) ensures ToLower(o.value) == o.value {
      var c :| c in categories && KindName(c.kind) == kind && o == OptionOf(c);
      ToLowerIdempotent(c.name);
    }
  }

  // ---------------------------------------------------------------------------
  // The component state

  /** The modal's state: the form and the error map. */
  class ModalState {
    var form: FormData
    var errors: map<Field, string>

    constructor (today: Day)
      ensures form == InitialForm(today) && errors == map[]
    {
      form := InitialForm(today);
      errors := map[];
    }

    /** `handleChange`: sets the field and clears its error. */
    method HandleChange(field: Field, value: string)
      modifies this
      ensures form == Set(old(form), field, value)
      ensures errors == ClearError(old(errors), field)
    {
      form := Set(form, field, value);
      errors := ClearError(errors, field);
    }

    /** The validation step of `handleSubmit`: stores the error map and, when the form
        is valid, yields the data to save. */
    method HandleSubmit() returns (submitted: Option<Submission>)
      modifies this
      ensures form == old(form) && Reported(errors, form)
      ensures submitted.Some? <==> IsValid(form)
      ensures submitted.Some? ==> submitted.value == Submit(form)
    {
      var e, valid := ValidateForm(form);
      errors := e;
      if !valid {
        return None;
      }
      submitted := Some(Submit(form));
    }

    /** `handleClose`: back to the empty form, without errors. */
    method HandleClose(today: Day)
      modifies this
      ensures form == InitialForm(today) && errors == map[]
    {
      form := InitialForm(today);
      errors := map[];
    }
  }
}
