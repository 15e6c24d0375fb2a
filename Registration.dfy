/** The tractor registration form: a draft of ten text fields and one flag,
    a map of per-field error messages, and a "submitting" flag, together
    with the three handlers that change them (validate, edit a field,
    submit). */
module Registration {
  import opened Wrappers
  import opened JsText
  import opened JsNumbers
  import opened EmailPattern

  /** The keys of the form's draft record. */
  datatype Field =
    | OwnerName | Email | Phone | Location | Model | TractorNumber
    | Horsepower | FuelType | RentPerHour | RentPerDay | IsAvailable

  /** A value an input hands to the edit handler: the text of an input or
      select, or the availability flag. */
  datatype Value = Text(text: string) | Flag(flag: bool)

  /** The draft being edited.  Numeric entries are kept as the text the
      inputs produce. */
  datatype Draft = Draft(
    ownerName: string,
    email: string,
    phone: string,
    location: string,
    model: string,
    tractorNumber: string,
    horsepower: string,
    fuelType: string,
    rentPerHour: string,
    rentPerDay: string,
    isAvailable: bool)

  /** The draft a fresh form starts with. */
  const InitialDraft := Draft("", "", "", "", "", "", "", "Diesel", "", "", true)

  /** The fields that have a validation rule; the other two never get an error. */
  const ValidatedFields: set<Field> :=
    {OwnerName, Email, Phone, Location, Model, TractorNumber, Horsepower, RentPerHour, RentPerDay}

  /** The fields whose rule is "non-empty after trimming". */
  const RequiredTextFields: set<Field> := {OwnerName, Phone, Location, Model, TractorNumber}

  /** The fields whose rule is `!s || Number(s) <= 0`. */
  const AmountFields: set<Field> := {Horsepower, RentPerHour, RentPerDay}

  /** Field name to message; an entry whose message is "" is hidden by the view. */
  type Errors = map<Field, string>

  /** The value of field `f` in `d`. */
  function Get(d: Draft, f: Field): Value
  {
    match f
    case OwnerName => Text(d.ownerName)
    case Email => Text(d.email)
    case Phone => Text(d.phone)
    case Location => Text(d.location)
    case Model => Text(d.model)
    case TractorNumber => Text(d.tractorNumber)
    case Horsepower => Text(d.horsepower)
    case FuelType => Text(d.fuelType)
    case RentPerHour => Text(d.rentPerHour)
    case RentPerDay => Text(d.rentPerDay)
    case IsAvailable => Flag(d.isAvailable)
  }

  /** The value has the type the draft declares for the field. */
  predicate Fits(f: Field, v: Value)
  {
    (f == IsAvailable) == v.Flag?
  }

  /** `{ ...d, [f]: v }`: the draft with field `f` overwritten. */
  function Set(d: Draft, f: Field, v: Value): Draft
    requires Fits(f, v)
  {
    match f
    case OwnerName => d.(ownerName := v.text)
    case Email => d.(email := v.text)
    case Phone => d.(phone := v.text)
    case Location => d.(location := v.text)
    case Model => d.(model := v.text)
    case TractorNumber => d.(tractorNumber := v.text)
    case Horsepower => d.(horsepower := v.text)
    case FuelType => d.(fuelType := v.text)
    case RentPerHour => d.(rentPerHour := v.text)
    case RentPerDay => d.(rentPerDay := v.text)
    case IsAvailable => d.(isAvailable := v.flag)
  }

  /** Overwriting a field changes that field to the new value and no other. */
  lemma GetSet(d: Draft, f: Field, v: Value, g: Field)
    requires Fits(f, v)
    ensures Get(Set(d, f, v), g) == if g == f then v else Get(d, g)
  {
  }

  // ----- Validation ---------------------------------------------------------

  const OwnerNameRequired := "Owner name is required"
  const EmailRequired := "Email is required"
  const InvalidEmail := "Invalid email address"
  const PhoneRequired := "Phone number is required"
  const LocationRequired := "Location is required"
  const ModelRequired := "Model is required"
  const TractorNumberRequired := "Tractor number is required"
  const InvalidHorsepower := "Invalid horsepower"
  const InvalidHourlyRate := "Invalid hourly rate"
  const InvalidDailyRate := "Invalid daily rate"

  /** `!s.trim()`. */
  predicate IsBlank(s: string)
  {
    Trim(s) == ""
  }

  /** The message a field's rule produces for the draft, if any. */
  function FieldError(d: Draft, f: Field, num: string -> JsNumber): Option<string>
  {
    match f
    case OwnerName => if IsBlank(d.ownerName) then Some(OwnerNameRequired) else None
    case Email =>
      if IsBlank(d.email) then Some(EmailRequired)
      else if !MatchesEmailPattern(d.email) then Some(InvalidEmail)
      else None
    case Phone => if IsBlank(d.phone) then Some(PhoneRequired) else None
    case Location => if IsBlank(d.location) then Some(LocationRequired) else None
    case Model => if IsBlank(d.model) then Some(ModelRequired) else None
    case TractorNumber => if IsBlank(d.tractorNumber) then Some(TractorNumberRequired) else None
    case Horsepower => if RejectsAmount(d.horsepower, num) then Some(InvalidHorsepower) else None
    case RentPerHour => if RejectsAmount(d.rentPerHour, num) then Some(InvalidHourlyRate) else None
    case RentPerDay => if RejectsAmount(d.rentPerDay, num) then Some(InvalidDailyRate) else None
    case FuelType => None
    case IsAvailable => None
  }

  /** Only the nine validated fields have a rule that can fail. */
  lemma OnlyValidatedFieldsHaveRules(d: Draft, f: Field, num: string -> JsNumber)
    ensures FieldError(d, f, num).Some? ==> f in ValidatedFields
  {
  }

  /** The error map one validation pass computes from scratch: one entry per
      field whose rule fails, and nothing else. */
  function ErrorsOf(d: Draft, num: string -> JsNumber): (e: Errors)
    ensures e.Keys <= ValidatedFields
    ensures FuelType !in e && IsAvailable !in e
  {
    map f | f in ValidatedFields && FieldError(d, f, num).Some? :: FieldError(d, f, num).value
  }

  /** The draft satisfies every rule, stated without trimming or the
      executable e-mail test: required texts are not all white space, the
      e-mail has the local@domain.tld shape, amounts are non-empty and not
      at most zero. */
  ghost predicate Submittable(d: Draft, num: string -> JsNumber)
  {
    && !AllSpace(d.ownerName) && !AllSpace(d.phone) && !AllSpace(d.location)
    && !AllSpace(d.model) && !AllSpace(d.tractorNumber)
    && !AllSpace(d.email) && EmailShape(d.email)
    && !RejectsAmount(d.horsepower, num)
    && !RejectsAmount(d.rentPerHour, num)
    && !RejectsAmount(d.rentPerDay, num)
  }

  /** The three sections of the form, in the order the page shows them and
      `validateForm` checks them. */
  datatype Section = OwnerDetails | TractorDetails | Pricing

  /** The section whose checks cover field `f`.  The fuel type and the
      availability switch have no check; they are placed with the checks
      that run next to them. */
  function SectionOf(f: Field): Section
  {
    match f
    case OwnerName => OwnerDetails
    case Email => OwnerDetails
    case Phone => OwnerDetails
    case Location => OwnerDetails
    case Model => TractorDetails
    case TractorNumber => TractorDetails
    case Horsepower => TractorDetails
    case FuelType => TractorDetails
    case RentPerHour => Pricing
    case RentPerDay => Pricing
    case IsAvailable => Pricing
  }

  /** `m` holds, for every field of section `sec`, exactly the entry that
      field's rule produces for `d` (and none for a field without a rule). */
  predicate RecordsRules(m: Errors, sec: Section, d: Draft, num: string -> JsNumber)
  {
    forall f :: SectionOf(f) == sec ==>
      (f in m <==> FieldError(d, f, num).Some?) && (f in m ==> m[f] == FieldError(d, f, num).value)
  }

  /** `m` and `e` agree on every field outside section `sec`. */
  predicate SameOutside(m: Errors, e: Errors, sec: Section)
  {
    forall f :: SectionOf(f) != sec ==> (f in m <==> f in e) && (f in m ==> m[f] == e[f])
  }

  /** No field of section `sec` has an entry yet. */
  predicate NoneIn(e: Errors, sec: Section)
  {
    forall f :: SectionOf(f) == sec ==> f !in e
  }

  /** The owner-detail checks of `validateForm`: name, e-mail (required,
      then shape), phone and location. */
  method CheckOwnerDetails(d: Draft, num: string -> JsNumber, e: Errors) returns (newErrors: Errors)
    requires NoneIn(e, OwnerDetails)
    ensures RecordsRules(newErrors, OwnerDetails, d, num)
    ensures SameOutside(newErrors, e, OwnerDetails)
  {
    newErrors := e;
    if IsBlank(d.ownerName) { newErrors := newErrors[OwnerName := OwnerNameRequired]; }
    if IsBlank(d.email) {
      newErrors := newErrors[Email := EmailRequired];
    } else if !MatchesEmailPattern(d.email) {
      newErrors := newErrors[Email := InvalidEmail];
    }
    if IsBlank(d.phone) { newErrors := newErrors[Phone := PhoneRequired]; }
    if IsBlank(d.location) { newErrors := newErrors[Location := LocationRequired]; }
  }

  /** The tractor-detail checks of `validateForm`: model, registration
      number and horsepower (the fuel type has no rule). */
  method CheckTractorDetails(d: Draft, num: string -> JsNumber, e: Errors) returns (newErrors: Errors)
    requires NoneIn(e, TractorDetails)
    ensures RecordsRules(newErrors, TractorDetails, d, num)
    ensures SameOutside(newErrors, e, TractorDetails)
  {
    newErrors := e;
    if IsBlank(d.model) { newErrors := newErrors[Model := ModelRequired]; }
    if IsBlank(d.tractorNumber) { newErrors := newErrors[TractorNumber := TractorNumberRequired]; }
    if d.horsepower == "" || AtMostZero(num(d.horsepower)) {
      newErrors := newErrors[Horsepower := InvalidHorsepower];
    }
  }

  /** The pricing checks of `validateForm`: the two rates (the availability
      flag has no rule). */
  method CheckPricing(d: Draft, num: string -> JsNumber, e: Errors) returns (newErrors: Errors)
    requires NoneIn(e, Pricing)
    ensures RecordsRules(newErrors, Pricing, d, num)
    ensures SameOutside(newErrors, e, Pricing)
  {
    newErrors := e;
    if d.rentPerHour == "" || AtMostZero(num(d.rentPerHour)) {
      newErrors := newErrors[RentPerHour := InvalidHourlyRate];
    }
    if d.rentPerDay == "" || AtMostZero(num(d.rentPerDay)) {
      newErrors := newErrors[RentPerDay := InvalidDailyRate];
    }
  }

  /** Records kept for one section survive a step that changes only another. */
  lemma KeepsRecords(m: Errors, e: Errors, sec: Section, other: Section, d: Draft, num: string -> JsNumber)
    requires RecordsRules(e, sec, d, num) && SameOutside(m, e, other) && sec != other
    ensures RecordsRules(m, sec, d, num)
  {
  }

  /** A step on one section leaves the other sections without entries if
      they had none. */
  lemma KeepsNone(m: Errors, e: Errors, sec: Section, other: Section)
    requires NoneIn(e, sec) && SameOutside(m, e, other) && sec != other
    ensures NoneIn(m, sec)
  {
  }

  /** A map that records the rules of all three sections is the error map of
      the draft. */
  lemma RecordsAllRulesIsErrorsOf(m: Errors, d: Draft, num: string -> JsNumber)
    requires RecordsRules(m, OwnerDetails, d, num)
    requires RecordsRules(m, TractorDetails, d, num)
    requires RecordsRules(m, Pricing, d, num)
    ensures m == ErrorsOf(d, num)
  {
    var e := ErrorsOf(d, num);
    forall f
      ensures (f in m <==> f in e) && (f in m ==> m[f] == e[f])
    {
      assert RecordsRules(m, SectionOf(f), d, num);
      OnlyValidatedFieldsHaveRules(d, f, num);
    }
  }

  /** `validateForm`'s fresh dictionary: starting empty, one `if` per rule,
      in the order of the form. */
  method ComputeErrors(d: Draft, num: string -> JsNumber) returns (newErrors: Errors)
    ensures newErrors == ErrorsOf(d, num)
  {
    var owner := CheckOwnerDetails(d, num, map[]);
    KeepsNone(owner, map[], TractorDetails, OwnerDetails);
    var tractor := CheckTractorDetails(d, num, owner);
    KeepsNone(owner, map[], Pricing, OwnerDetails);
    KeepsNone(tractor, owner, Pricing, TractorDetails);
    newErrors := CheckPricing(d, num, tractor);
    KeepsRecords(tractor, owner, OwnerDetails, TractorDetails, d, num);
    KeepsRecords(newErrors, tractor, OwnerDetails, Pricing, d, num);
    KeepsRecords(newErrors, tractor, TractorDetails, Pricing, d, num);
    RecordsAllRulesIsErrorsOf(newErrors, d, num);
  }

  /** Each required text field has an error exactly when its value is all
      white space (empty included), and the error is that field's
      "... is required" message. */
  lemma RequiredFieldRule(d: Draft, f: Field, num: string -> JsNumber)
    requires f in RequiredTextFields
    ensures f in ErrorsOf(d, num) <==> AllSpace(Get(d, f).text)
    ensures f in ErrorsOf(d, num) ==> ErrorsOf(d, num)[f] == RequiredMessage(f)
  {
    TrimEmptyIffAllSpace(Get(d, f).text);
  }

  /** The "... is required" message of a required text field. */
  function RequiredMessage(f: Field): string
    requires f in RequiredTextFields
  {
    match f
    case OwnerName => OwnerNameRequired
    case Phone => PhoneRequired
    case Location => LocationRequired
    case Model => ModelRequired
    case TractorNumber => TractorNumberRequired
  }

  /** The e-mail gets "Email is required" when it is all white space, and
      otherwise "Invalid email address" exactly when the untrimmed text does
      not have the local@domain.tld shape. */
  lemma EmailRule(d: Draft, num: string -> JsNumber)
    ensures Email in ErrorsOf(d, num) <==> AllSpace(d.email) || !EmailShape(d.email)
    ensures Email in ErrorsOf(d, num) && AllSpace(d.email) ==>
      ErrorsOf(d, num)[Email] == EmailRequired
    ensures Email in ErrorsOf(d, num) && !AllSpace(d.email) ==>
      ErrorsOf(d, num)[Email] == InvalidEmail
  {
    TrimEmptyIffAllSpace(d.email);
    MatchesIffShape(d.email);
  }

  /** The shape check runs on the untrimmed text: an e-mail with a leading
      space and some other character is "Invalid email address". */
  lemma LeadingSpaceEmailIsInvalid(d: Draft, num: string -> JsNumber)
    requires |d.email| > 0 && IsJsSpace(d.email[0]) && !AllSpace(d.email)
    ensures Email in ErrorsOf(d, num) && ErrorsOf(d, num)[Email] == InvalidEmail
  {
    TrimEmptyIffAllSpace(d.email);
    if MatchesEmailPattern(d.email) {
      MatchedHasNoSpaceAndOneAt(d.email);
    }
  }

  /** Each amount field has an error exactly when its text is empty or its
      numeric value is at most zero; a value `Number` makes NaN has none. */
  lemma AmountRule(d: Draft, f: Field, num: string -> JsNumber)
    requires f in AmountFields
    ensures f in ErrorsOf(d, num) <==> Get(d, f).text == "" || AtMostZero(num(Get(d, f).text))
    ensures Get(d, f).text != "" && num(Get(d, f).text) == NaN ==> f !in ErrorsOf(d, num)
  {
  }

  /** Validation passes (the fresh map has no keys) exactly when the draft
      satisfies every rule. */
  lemma NoErrorsIffSubmittable(d: Draft, num: string -> JsNumber)
    ensures ErrorsOf(d, num) == map[] <==> Submittable(d, num)
  {
    if Submittable(d, num) {
      SubmittableHasNoErrors(d, num);
    } else {
      UnsubmittableHasAnError(d, num);
    }
  }

  /** A draft that satisfies every rule gets an empty error map. */
  lemma SubmittableHasNoErrors(d: Draft, num: string -> JsNumber)
    requires Submittable(d, num)
    ensures ErrorsOf(d, num) == map[]
  {
    TrimEmptyIffAllSpace(d.ownerName);
    TrimEmptyIffAllSpace(d.email);
    TrimEmptyIffAllSpace(d.phone);
    TrimEmptyIffAllSpace(d.location);
    TrimEmptyIffAllSpace(d.model);
    TrimEmptyIffAllSpace(d.tractorNumber);
    MatchesIffShape(d.email);
    var e := ErrorsOf(d, num);
    forall f
      ensures f !in e
    {
      OnlyValidatedFieldsHaveRules(d, f, num);
    }
  }

  /** A draft that breaks some rule gets at least one error entry. */
  lemma UnsubmittableHasAnError(d: Draft, num: string -> JsNumber)
    requires !Submittable(d, num)
    ensures ErrorsOf(d, num) != map[]
  {
    var e := ErrorsOf(d, num);
    if AllSpace(d.ownerName) {
      TrimEmptyIffAllSpace(d.ownerName);
      assert OwnerName in e;
    } else if AllSpace(d.email) || !EmailShape(d.email) {
      TrimEmptyIffAllSpace(d.email);
      MatchesIffShape(d.email);
      assert Email in e;
    } else if AllSpace(d.phone) {
      TrimEmptyIffAllSpace(d.phone);
      assert Phone in e;
    } else if AllSpace(d.location) {
      TrimEmptyIffAllSpace(d.location);
      assert Location in e;
    } else if AllSpace(d.model) {
      TrimEmptyIffAllSpace(d.model);
      assert Model in e;
    } else if AllSpace(d.tractorNumber) {
      TrimEmptyIffAllSpace(d.tractorNumber);
      assert TractorNumber in e;
    } else if RejectsAmount(d.horsepower, num) {
      assert Horsepower in e;
    } else if RejectsAmount(d.rentPerHour, num) {
      assert RentPerHour in e;
    } else {
      assert RentPerDay in e;
    }
  }

  /** The fuel type and the availability flag play no part in validation. */
  lemma UnvalidatedFieldsIrrelevant(d: Draft, f: Field, v: Value, num: string -> JsNumber)
    requires f !in ValidatedFields && Fits(f, v)
    ensures ErrorsOf(Set(d, f, v), num) == ErrorsOf(d, num)
  {
    var d' := Set(d, f, v);
    assert d'.(fuelType := d.fuelType, isAvailable := d.isAvailable) == d;
    forall g
      ensures FieldError(d', g, num) == FieldError(d, g, num)
    {
    }
    var e', e := ErrorsOf(d', num), ErrorsOf(d, num);
    assert forall g :: g in e' <==> g in e;
  }

  /** A draft with an empty owner name and horsepower "0" fails on both
      fields, whatever else it holds. */
  lemma EmptyOwnerAndZeroHorsepower(d: Draft, num: string -> JsNumber)
    requires AgreesOnDigits(num)
    requires d.ownerName == "" && d.horsepower == "0"
    ensures ErrorsOf(d, num) != map[]
    ensures OwnerName in ErrorsOf(d, num) && ErrorsOf(d, num)[OwnerName] == OwnerNameRequired
    ensures Horsepower in ErrorsOf(d, num) && ErrorsOf(d, num)[Horsepower] == InvalidHorsepower
  {
    assert IsDigits(d.horsepower) && |d.horsepower| <= MaxExactDigits;
    assert DigitsValue(d.horsepower) == 0;
    assert Horsepower in ErrorsOf(d, num);
    TrimEmptyIffAllSpace(d.ownerName);
    assert OwnerName in ErrorsOf(d, num);
  }

  /** The message the view shows under field `f`: `errors.f && ...` hides an
      absent entry and an empty one alike. */
  function ShownError(errors: Errors, f: Field): Option<string>
  {
    if f in errors && errors[f] != "" then Some(errors[f]) else None
  }

  // ----- Submission ---------------------------------------------------------

  /** The JSON body posted to the registration endpoint: text fields as
      typed, the three amounts converted with `Number`. */
  datatype Payload = Payload(
    ownerName: string,
    email: string,
    phone: string,
    location: string,
    model: string,
    tractorNumber: string,
    horsepower: JsNumber,
    fuelType: string,
    rentPerHour: JsNumber,
    rentPerDay: JsNumber,
    isAvailable: bool)

  function BuildPayload(d: Draft, num: string -> JsNumber): Payload
  {
    Payload(d.ownerName, d.email, d.phone, d.location, d.model, d.tractorNumber,
            num(d.horsepower), d.fuelType, num(d.rentPerHour), num(d.rentPerDay), d.isAvailable)
  }

  /** The payload of a draft that passed validation carries every text
      field untrimmed, and no amount in it is at most zero (each is positive,
      +Infinity, or NaN); a horsepower of at most 15 decimal digits is a
      positive whole number. */
  lemma ValidatedPayload(d: Draft, num: string -> JsNumber)
    requires ErrorsOf(d, num) == map[]
    ensures var p := BuildPayload(d, num);
      && p.ownerName == d.ownerName && p.email == d.email && p.phone == d.phone
      && p.location == d.location && p.model == d.model && p.tractorNumber == d.tractorNumber
      && p.fuelType == d.fuelType && p.isAvailable == d.isAvailable
      && !AtMostZero(p.horsepower) && !AtMostZero(p.rentPerHour) && !AtMostZero(p.rentPerDay)
    ensures AgreesOnDigits(num) && IsDigits(d.horsepower) && |d.horsepower| <= MaxExactDigits ==>
      BuildPayload(d, num).horsepower.Finite? && BuildPayload(d, num).horsepower.value >= 1.0
  {
    assert Horsepower !in ErrorsOf(d, num);
    assert RentPerHour !in ErrorsOf(d, num);
    assert RentPerDay !in ErrorsOf(d, num);
    if AgreesOnDigits(num) && IsDigits(d.horsepower) && |d.horsepower| <= MaxExactDigits {
      AcceptedDigitsAreWhole(d.horsepower, num);
    }
  }

  /** What the body of the backend's reply turned into: parsed JSON with its
      `message` property (`""` standing for a missing or falsy one), or the
      message of the error thrown while reading the body (`response.json()`
      on a body that is not JSON, or `data.message` on a `null` body). */
  datatype Body = Json(message: string) | NotJson(parseError: string)

  /** The abstract outcome of the POST: `fetch` rejected with a message, or a
      reply with its `ok` status and body. */
  datatype Reply = Unreachable(reason: string) | Replied(ok: bool, body: Body)

  datatype Toast = SuccessToast(text: string) | ErrorToast(text: string)

  const FixErrorsMessage := "Please fix the errors in the form"
  const RegisteredMessage := "\U{1F69C} Tractor registered successfully!"
  const RegistrationFailed := "Registration failed"
  const BackendNotReachable := "Backend not reachable"
  const ListingRoute := "/tractors"

  /** The message of the error the `try` block throws, if it throws. */
  function Thrown(reply: Reply): Option<string>
  {
    match reply
    case Unreachable(reason) => Some(reason)
    case Replied(_, NotJson(parseError)) => Some(parseError)
    case Replied(ok, Json(message)) =>
      if !ok then Some(if message == "" then RegistrationFailed else message) else None
  }

  /** What the user sees once the request settles. */
  datatype Settlement = Settlement(toast: Toast, navigateTo: Option<string>)

  /** The `try`/`catch` around the request: success toast and navigation, or
      the caught error's message (with its fallback) as an error toast. */
  function Settle(reply: Reply): (s: Settlement)
    ensures s.navigateTo.Some? <==> reply.Replied? && reply.ok && reply.body.Json?
    ensures s.navigateTo.Some? ==> s.navigateTo.value == ListingRoute && s.toast == SuccessToast(RegisteredMessage)
    ensures s.navigateTo.None? ==> s.toast.ErrorToast? && s.toast.text != ""
    ensures reply.Replied? && !reply.ok && reply.body.Json? ==>
      s.toast == ErrorToast(if reply.body.message == "" then RegistrationFailed else reply.body.message)
    ensures reply.Unreachable? ==>
      s.toast == ErrorToast(if reply.reason == "" then BackendNotReachable else reply.reason)
    ensures reply.Replied? && reply.body.NotJson? ==>
      s.toast == ErrorToast(if reply.body.parseError == "" then BackendNotReachable else reply.body.parseError)
  {
    match Thrown(reply)
    case None => Settlement(SuccessToast(RegisteredMessage), Some(ListingRoute))
    case Some(message) => Settlement(ErrorToast(if message == "" then BackendNotReachable else message), None)
  }

  /** Everything one submit action produces besides the new state. */
  datatype SubmitEffect = SubmitEffect(request: Option<Payload>, toast: Toast, navigateTo: Option<string>)

  /** The form component's three state cells and its handlers. */
  class TractorRegistration {
    var formData: Draft
    var errors: Errors
    var isSubmitting: bool

    /** Errors are only ever recorded for validated fields. */
    ghost predicate Valid()
      reads this
    {
      errors.Keys <= ValidatedFields
    }

    constructor ()
      ensures Valid()
      ensures formData == InitialDraft && errors == map[] && !isSubmitting
    {
      formData := InitialDraft;
      errors := map[];
      isSubmitting := false;
    }

    /** `validateForm`: replaces the stored errors wholesale with a fresh
        pass (discarding earlier entries, the "" left by edits included) and
        reports whether the pass found none. */
    method ValidateForm(num: string -> JsNumber) returns (ok: bool)
      requires Valid()
      modifies this
      ensures Valid()
      ensures errors == ErrorsOf(formData, num)
      ensures ok <==> Submittable(formData, num)
      ensures formData == old(formData) && isSubmitting == old(isSubmitting)
    {
      var newErrors := ComputeErrors(formData, num);
      errors := newErrors;
      ok := |newErrors| == 0;
      NoErrorsIffSubmittable(formData, num);
    }

    /** `handleInputChange(f, v)`: overwrites field `f`, and blanks its error
        entry (without removing the key) if that entry is non-empty. */
    method HandleInputChange(f: Field, v: Value)
      requires Valid() && Fits(f, v)
      modifies this
      ensures Valid()
      ensures formData == Set(old(formData), f, v)
      ensures errors == if f in old(errors) && old(errors)[f] != "" then old(errors)[f := ""] else old(errors)
      ensures errors.Keys == old(errors.Keys)
      ensures ShownError(errors, f) == None
      ensures forall g :: g != f ==> ShownError(errors, g) == ShownError(old(errors), g)
      ensures isSubmitting == old(isSubmitting)
    {
      formData := Set(formData, f, v);
      if f in errors && errors[f] != "" {
        errors := errors[f := ""];
      }
    }

    /** The availability switch: `handleInputChange('isAvailable', !formData.isAvailable)`. */
    method ToggleAvailability()
      requires Valid()
      modifies this
      ensures Valid()
      ensures formData == old(formData).(isAvailable := !old(formData).isAvailable)
      ensures errors == old(errors) && isSubmitting == old(isSubmitting)
    {
      HandleInputChange(IsAvailable, Flag(!formData.isAvailable));
    }

    /** The part of `handleSubmit` before the request is awaited: validate;
        on failure stop with nothing sent and the flag untouched; otherwise
        raise the flag and build the request body. */
    method BeginSubmit(num: string -> JsNumber) returns (request: Option<Payload>)
      requires Valid()
      modifies this
      ensures Valid()
      ensures formData == old(formData)
      ensures errors == ErrorsOf(formData, num)
      ensures request.Some? <==> Submittable(formData, num)
      ensures request.Some? ==> request.value == BuildPayload(formData, num) && isSubmitting
      ensures request.None? ==> isSubmitting == old(isSubmitting)
    {
      var ok := ValidateForm(num);
      if !ok {
        return None;
      }
      isSubmitting := true;
      request := Some(BuildPayload(formData, num));
    }

    /** The part of `handleSubmit` after the reply: settle it, and lower the
        flag in `finally`. */
    method FinishSubmit(reply: Reply) returns (s: Settlement)
      modifies this
      ensures s == Settle(reply)
      ensures !isSubmitting
      ensures formData == old(formData) && errors == old(errors)
    {
      s := Settle(reply);
      isSubmitting := false;
    }

    /** `handleSubmit` with the backend's answer given as `reply`.  A request
        is made exactly when validation passes; then the flag is false again
        afterwards, whatever the reply.  The draft is kept on every path. */
    method HandleSubmit(num: string -> JsNumber, reply: Reply) returns (effect: SubmitEffect)
      requires Valid()
      modifies this
      ensures Valid()
      ensures formData == old(formData)
      ensures errors == ErrorsOf(formData, num)
      ensures effect.request.Some? <==> Submittable(formData, num)
      ensures effect.request.None? ==>
        effect.toast == ErrorToast(FixErrorsMessage) && effect.navigateTo.None? && isSubmitting == old(isSubmitting)
      ensures effect.request.Some? ==>
        && effect.request.value == BuildPayload(formData, num)
        && Settlement(effect.toast, effect.navigateTo) == Settle(reply)
        && !isSubmitting
    {
      var request := BeginSubmit(num);
      if request.None? {
        return SubmitEffect(None, ErrorToast(FixErrorsMessage), None);
      }
      var s := FinishSubmit(reply);
      effect := SubmitEffect(request, s.toast, s.navigateTo);
    }
  }
}
