/** The widget's contact form: per-field validation, the submitted data, and
    the state change on each keystroke. Form values are strings keyed by field
    name; a key that was never typed into is absent (`undefined`). */
module ContactForm {
  import opened Wrappers
  import Text

  /** A configured field; `kind` is the configured `type` ("email", "tel", ...). */
  datatype Field = Field(name: string, fieldLabel: string, kind: string, required: bool)

  datatype FormError =
    | RequiredError(fieldLabel: string)    // "<label> là bắt buộc"
    | EmailFormatError                // "Email không đúng định dạng"
    | PhoneFormatError                // "Số điện thoại không đúng định dạng"

  predicate NotSpaceOrAt(c: char) {
    !Text.IsSpace(c) && c != '@'
  }

  predicate AllNotSpaceOrAt(s: string) {
    forall k :: 0 <= k < |s| ==> NotSpaceOrAt(s[k])
  }

  /** `/^[^\s@]+@[^\s@]+\.[^\s@]+$/`: three non-empty runs without white space
      or '@', joined by an '@' and a '.'. */
  predicate EmailShape(s: string) {
    exists i, j :: 0 < i && i + 1 < j && j + 1 < |s| && s[i] == '@' && s[j] == '.' &&
                   AllNotSpaceOrAt(s[..i]) && AllNotSpaceOrAt(s[i + 1..j]) &&
                   AllNotSpaceOrAt(s[j + 1..])
  }

  /** The same language read off in one pass: no white space, exactly one '@'
      and not first, and a '.' that is neither right after the '@' nor last. */
  predicate EmailScan(s: string) {
    (forall k :: 0 <= k < |s| ==> !Text.IsSpace(s[k])) &&
    exists i :: 0 < i < |s| && s[i] == '@' &&
                (forall k :: 0 <= k < |s| && s[k] == '@' ==> k == i) &&
                exists j :: i + 1 < j < |s| - 1 && s[j] == '.'
  }

  lemma EmailShapeIffScan(s: string)
    ensures EmailShape(s) <==> EmailScan(s)
  {
    if EmailShape(s) {
      ShapeGivesScan(s);
    }
    if EmailScan(s) {
      ScanGivesShape(s);
    }
  }

  lemma ShapeGivesScan(s: string)
    requires EmailShape(s)
    ensures EmailScan(s)
  {
    var i, j :| 0 < i && i + 1 < j && j + 1 < |s| && s[i] == '@' && s[j] == '.' &&
                AllNotSpaceOrAt(s[..i]) && AllNotSpaceOrAt(s[i + 1..j]) &&
                AllNotSpaceOrAt(s[j + 1..]);
    var local, domain, tld := s[..i], s[i + 1..j], s[j + 1..];
    forall k | 0 <= k < i ensures NotSpaceOrAt(s[k]) {
      assert s[k] == local[k];
    }
    forall k | i < k < j ensures NotSpaceOrAt(s[k]) {
      assert s[k] == domain[k - i - 1];
    }
    forall k | j < k < |s| ensures NotSpaceOrAt(s[k]) {
      assert s[k] == tld[k - j - 1];
    }
    assert forall k :: 0 <= k < |s| && k != i ==> NotSpaceOrAt(s[k]);
    assert i + 1 < j < |s| - 1 && s[j] == '.';
  }

  lemma ScanGivesShape(s: string)
    requires EmailScan(s)
    ensures EmailShape(s)
  {
    var i :| 0 < i < |s| && s[i] == '@' &&
             (forall k :: 0 <= k < |s| && s[k] == '@' ==> k == i) &&
             exists j :: i + 1 < j < |s| - 1 && s[j] == '.';
    var j :| i + 1 < j < |s| - 1 && s[j] == '.';
    var local, domain, tld := s[..i], s[i + 1..j], s[j + 1..];
    forall k | 0 <= k < |local| ensures NotSpaceOrAt(local[k]) {
      assert local[k] == s[k];
    }
    forall k | 0 <= k < |domain| ensures NotSpaceOrAt(domain[k]) {
      assert domain[k] == s[i + 1 + k];
    }
    forall k | 0 <= k < |tld| ensures NotSpaceOrAt(tld[k]) {
      assert tld[k] == s[j + 1 + k];
    }
  }

  predicate PhoneChar(c: char) {
    ('0' <= c <= '9') || c == '+' || c == '-' || c == '(' || c == ')' || Text.IsSpace(c)
  }

  /** `/^[0-9+\-\s()]+$/`. */
  predicate PhoneShape(s: string) {
    |s| > 0 && forall k :: 0 <= k < |s| ==> PhoneChar(s[k])
  }

  /** The error `validateForm` leaves for one field: the required check first,
      then the email check, then the phone check, each later one overwriting. */
  function FieldError(f: Field, data: map<string, string>): (e: Option<FormError>)
    ensures var v := if f.name in data then data[f.name] else "";
            e.None? <==> (!f.required || Text.Trim(v) != "") &&
                         (f.kind == "email" && v != "" ==> EmailShape(v)) &&
                         (f.kind == "tel" && v != "" ==> PhoneShape(v))
    ensures var v := if f.name in data then data[f.name] else "";
            f.kind == "email" && v != "" && !EmailShape(v) ==> e == Some(EmailFormatError)
    ensures var v := if f.name in data then data[f.name] else "";
            f.kind == "tel" && v != "" && !PhoneShape(v) ==> e == Some(PhoneFormatError)
    ensures var v := if f.name in data then data[f.name] else "";
            !(f.kind == "email" && v != "" && !EmailShape(v)) &&
            !(f.kind == "tel" && v != "" && !PhoneShape(v)) ==>
              e == if f.required && Text.Trim(v) == "" then Some(RequiredError(f.fieldLabel)) else None
  {
    var present := f.name in data && data[f.name] != "";
    var v := if f.name in data then data[f.name] else "";
    var afterRequired := if f.required && (!present || Text.Trim(v) == "")
                         then Some(RequiredError(f.fieldLabel)) else None;
    var afterEmail := if f.kind == "email" && present && !EmailShape(v)
                      then Some(EmailFormatError) else afterRequired;
    if f.kind == "tel" && present && !PhoneShape(v) then Some(PhoneFormatError) else afterEmail
  }

  /** The error map `validateForm` builds by walking the fields in order. */
  function ErrorsOf(fields: seq<Field>, data: map<string, string>): (errors: map<string, FormError>)
    decreases |fields|
  {
    if fields == [] then map[]
    else
      var before := ErrorsOf(fields[..|fields| - 1], data);
      var f := fields[|fields| - 1];
      match FieldError(f, data)
      case None => before
      case Some(e) => before[f.name := e]
  }

  /** A name has an error exactly when some field of that name fails. */
  lemma {:induction false} ErrorsOfKeys(fields: seq<Field>, data: map<string, string>, name: string)
    ensures name in ErrorsOf(fields, data) <==>
            exists i :: 0 <= i < |fields| && fields[i].name == name && FieldError(fields[i], data).Some?
    decreases |fields|
  {
    if fields != [] {
      var init := fields[..|fields| - 1];
      ErrorsOfKeys(init, data, name);
      assert forall i :: 0 <= i < |init| ==> init[i] == fields[i];
    }
  }

  /** The form is valid exactly when no field fails. */
  lemma ErrorsOfEmpty(fields: seq<Field>, data: map<string, string>)
    ensures ErrorsOf(fields, data) == map[] <==>
            forall i :: 0 <= i < |fields| ==> FieldError(fields[i], data).None?
  {
    if ErrorsOf(fields, data) != map[] {
      var name :| name in ErrorsOf(fields, data);
      ErrorsOfKeys(fields, data, name);
    } else {
      forall i | 0 <= i < |fields| ensures FieldError(fields[i], data).None? {
        ErrorsOfKeys(fields, data, fields[i].name);
      }
    }
  }

  /** `validateForm`: fills `newErrors` field by field and reports whether it
      stayed empty. */
  method ValidateForm(fields: seq<Field>, data: map<string, string>)
    returns (errors: map<string, FormError>, valid: bool)
    ensures errors == ErrorsOf(fields, data)
    ensures valid <==> forall i :: 0 <= i < |fields| ==> FieldError(fields[i], data).None?
  {
    errors := map[];
    var i := 0;
    while i < |fields|
      invariant 0 <= i <= |fields|
      invariant errors == ErrorsOf(fields[..i], data)
    {
      assert fields[..i + 1][..i] == fields[..i];
      var e := FieldError(fields[i], data);
      if e.Some? {
        errors := errors[fields[i].name := e.value];
      }
      i := i + 1;
    }
    assert fields[..|fields|] == fields;
    valid := |errors| == 0;
    ErrorsOfEmpty(fields, data);
  }

  /** `submitData`: every configured name, with the typed value or "". */
  method SubmitData(fields: seq<Field>, data: map<string, string>)
    returns (submit: map<string, string>)
    ensures forall name :: name in submit <==> exists i :: 0 <= i < |fields| && fields[i].name == name
    ensures forall name :: name in submit ==>
              submit[name] == if name in data then data[name] else ""
  {
    submit := map[];
    var i := 0;
    while i < |fields|
      invariant 0 <= i <= |fields|
      invariant forall name :: name in submit <==> exists j :: 0 <= j < i && fields[j].name == name
      invariant forall name :: name in submit ==>
                  submit[name] == if name in data then data[name] else ""
    {
      var name := fields[i].name;
      submit := submit[name := if name in data && data[name] != "" then data[name] else ""];
      i := i + 1;
    }
  }

  /** The form's React state. An error entry set back to `null` is `None`. */
  datatype FormState = FormState(data: map<string, string>, errors: map<string, Option<FormError>>)

  /** `handleSubmit`: validation replaces the error state; submission happens
      only when the form is valid, with the data `SubmitData` describes. */
  method HandleSubmit(state: FormState, fields: seq<Field>)
    returns (next: FormState, submitted: Option<map<string, string>>)
    ensures next.data == state.data
    ensures forall name :: name in next.errors <==> name in ErrorsOf(fields, state.data)
    ensures forall name :: name in next.errors ==>
              next.errors[name] == Some(ErrorsOf(fields, state.data)[name])
    ensures submitted.Some? <==> forall i :: 0 <= i < |fields| ==> FieldError(fields[i], state.data).None?
    ensures submitted.Some? ==>
              forall name :: name in submitted.value <==>
                exists i :: 0 <= i < |fields| && fields[i].name == name
    ensures submitted.Some? ==>
              forall name :: name in submitted.value ==>
                submitted.value[name] == if name in state.data then state.data[name] else ""
  {
    var errors, valid := ValidateForm(fields, state.data);
    next := FormState(state.data, map name | name in errors :: Some(errors[name]));
    if !valid {
      submitted := None;
      return;
    }
    var submit := SubmitData(fields, state.data);
    submitted := Some(submit);
  }

  /** `handleInputChange`: the typed key gets the new value and its shown
      error, if any, is cleared; every other key is left as it was. */
  function InputChange(state: FormState, name: string, value: string): (r: FormState)
    ensures name in r.data && r.data[name] == value
    ensures forall k :: k != name ==> (k in r.data <==> k in state.data)
    ensures forall k :: k != name && k in state.data ==> r.data[k] == state.data[k]
    ensures r.errors.Keys == state.errors.Keys
    ensures forall k :: k != name && k in state.errors ==> r.errors[k] == state.errors[k]
    ensures name in r.errors ==> r.errors[name] == None
  {
    var errors := if name in state.errors && state.errors[name].Some?
                  then state.errors[name := None] else state.errors;
    FormState(state.data[name := value], errors)
  }
}
