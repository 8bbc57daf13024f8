/**
  The sponsor record as the update page holds it, the per-field validation
  rules, the `validate` procedure that collects their messages, and the
  single-field update made on every input change.

  The page keeps the record as a plain object: it starts with the six form
  fields set to the empty string, but the record fetched from the server
  replaces it wholesale and may lack any of them or carry other keys. The
  record is therefore a map from property name to string, and a property
  that is absent reads as the empty string, which is falsy like an absent
  property.

  The error map only ever receives the six form fields as keys, so it is
  keyed by `Field`; `Field.Key()` is the property name it stands for.
 */
module SponsorForm {
  import opened Patterns

  type FormData = map<string, string>

  /** `newErrors` and the `errors` state: field to message. */
  type Errors = map<Field, ErrorMessage>

  datatype Option<T> = None | Some(value: T)

  /** The six fields the form edits and validates. */
  datatype Field = OrganizationName | Email | PhoneNumber | BudgetRange | Event | Message {

    /** The property name of the field in the record and in the error map. */
    function Key(): string {
      match this
      case OrganizationName => "organizationName"
      case Email => "email"
      case PhoneNumber => "phoneNumber"
      case BudgetRange => "budgetRange"
      case Event => "event"
      case Message => "message"
    }

    /** The messages `validate` can put under this field. */
    function Messages(): set<ErrorMessage> {
      match this
      case OrganizationName => {OrganizationNameRequired}
      case Email => {EmailRequired, EmailInvalid}
      case PhoneNumber => {PhoneNumberRequired, PhoneNumberNotTenDigits}
      case BudgetRange => {BudgetRangeRequired}
      case Event => {EventRequired}
      case Message => {MessageRequired}
    }
  }

  const AllFields: set<Field> := {OrganizationName, Email, PhoneNumber, BudgetRange, Event, Message}

  /** The property names of the six fields. */
  const FieldNames: set<string> :=
    {OrganizationName.Key(), Email.Key(), PhoneNumber.Key(), BudgetRange.Key(), Event.Key(), Message.Key()}

  /** The eight messages `validate` can show, each with its text. */
  datatype ErrorMessage =
    | OrganizationNameRequired
    | EmailRequired
    | EmailInvalid
    | PhoneNumberRequired
    | PhoneNumberNotTenDigits
    | BudgetRangeRequired
    | EventRequired
    | MessageRequired
  {
    function Text(): string {
      match this
      case OrganizationNameRequired => "Organization Name is required."
      case EmailRequired => "Email is required."
      case EmailInvalid => "Email is invalid."
      case PhoneNumberRequired => "Phone Number is required."
      case PhoneNumberNotTenDigits => "Phone Number must be 10 digits."
      case BudgetRangeRequired => "Budget Range is required."
      case EventRequired => "Event selection is required."
      case MessageRequired => "Message is required."
    }
  }

  /** The record the page starts with, before any data has arrived: the six
      fields, each the empty string. */
  const InitialForm: FormData := map k | k in FieldNames :: ""

  /** The field whose property name is `key`, if any. */
  function FieldOf(key: string): (f: Option<Field>)
    ensures f.Some? ==> f.value.Key() == key
  {
    if key == "organizationName" then Some(OrganizationName)
    else if key == "email" then Some(Email)
    else if key == "phoneNumber" then Some(PhoneNumber)
    else if key == "budgetRange" then Some(BudgetRange)
    else if key == "event" then Some(Event)
    else if key == "message" then Some(Message)
    else None
  }

  /** Each property name leads back to its field. */
  lemma FieldOfKey(f: Field)
    ensures FieldOf(f.Key()) == Some(f)
    ensures f.Key() in FieldNames
  {
    match f
    case Event => assert "event"[1] != "email"[1];
    case _ =>
  }

  /** Distinct fields have distinct property names. */
  lemma KeysDistinct(f: Field, g: Field)
    requires f != g
    ensures f.Key() != g.Key()
  {
    FieldOfKey(f);
    FieldOfKey(g);
  }

  /** The value of property `key`; an absent property is as falsy as "". */
  function Value(fd: FormData, key: string): (v: string)
    ensures key !in fd ==> v == ""
  {
    if key in fd then fd[key] else ""
  }

  /** `formData[f]` for a field. */
  function FieldValue(fd: FormData, f: Field): string {
    Value(fd, f.Key())
  }

  /** `!formData[f]` for a string-valued record. */
  predicate IsMissing(fd: FormData, f: Field): (missing: bool)
    ensures f.Key() !in fd ==> missing
    ensures f.Key() in fd && fd[f.Key()] != "" ==> !missing
  {
    FieldValue(fd, f) == ""
  }

  /** The rule for one field on its own: the message its value earns, if
      any. A presence check comes first; only the email and the phone
      number are checked further, and only when present. */
  function FieldError(f: Field, v: string): (e: Option<ErrorMessage>)
    ensures e.Some? ==> e.value in f.Messages()
  {
    match f
    case Email =>
      if v == "" then Some(EmailRequired)
      else if !EmailTest(v) then Some(EmailInvalid)
      else None
    case PhoneNumber =>
      if v == "" then Some(PhoneNumberRequired)
      else if !PhoneTest(v) then Some(PhoneNumberNotTenDigits)
      else None
    case _ =>
      if v == "" then Some(RequiredMessage(f)) else None
  }

  /** The "required" message of a field. */
  function RequiredMessage(f: Field): (m: ErrorMessage)
    ensures m in f.Messages()
  {
    match f
    case OrganizationName => OrganizationNameRequired
    case Email => EmailRequired
    case PhoneNumber => PhoneNumberRequired
    case BudgetRange => BudgetRangeRequired
    case Event => EventRequired
    case Message => MessageRequired
  }

  /** A presence check: `m` is recorded under `f` when `f` is missing. It
      keeps every entry already there, and a well-formed map stays well
      formed when `m` is one of `f`'s messages. */
  function CheckPresent(fd: FormData, f: Field, m: ErrorMessage, errs: Errors): (r: Errors)
    ensures IsMissing(fd, f) ==> f in r && r[f] == m
  {
    if IsMissing(fd, f) then errs[f := m] else errs
  }

  /** The email check: presence first, then the pattern. It keeps every
      entry already there and keeps the map well formed. */
  function CheckEmail(fd: FormData, errs: Errors): (r: Errors)
    ensures !IsMissing(fd, Email) && EmailTest(FieldValue(fd, Email)) ==> r == errs
  {
    if IsMissing(fd, Email) then errs[Email := EmailRequired]
    else if !EmailTest(FieldValue(fd, Email)) then errs[Email := EmailInvalid]
    else errs
  }

  /** The phone number check: presence first, then the ten digits. It
      keeps every entry already there and keeps the map well formed. */
  function CheckPhoneNumber(fd: FormData, errs: Errors): (r: Errors)
    ensures !IsMissing(fd, PhoneNumber) && PhoneTest(FieldValue(fd, PhoneNumber)) ==> r == errs
  {
    if IsMissing(fd, PhoneNumber) then errs[PhoneNumber := PhoneNumberRequired]
    else if !PhoneTest(FieldValue(fd, PhoneNumber)) then errs[PhoneNumber := PhoneNumberNotTenDigits]
    else errs
  }

  /** The error map `validate` builds: the six checks in the source's
      order, starting from no errors. */
  function Validation(fd: FormData): (errs: Errors)
    ensures Acceptable(fd) ==> errs == map[]
  {
    var errs := CheckPresent(fd, OrganizationName, OrganizationNameRequired, map[]);
    var errs := CheckEmail(fd, errs);
    var errs := CheckPhoneNumber(fd, errs);
    var errs := CheckPresent(fd, BudgetRange, BudgetRangeRequired, errs);
    var errs := CheckPresent(fd, Event, EventRequired, errs);
    CheckPresent(fd, Message, MessageRequired, errs)
  }

  /** The records for which `validate` reports nothing. */
  predicate Acceptable(fd: FormData) {
    && !IsMissing(fd, OrganizationName)
    && !IsMissing(fd, Email) && EmailTest(FieldValue(fd, Email))
    && !IsMissing(fd, PhoneNumber) && PhoneTest(FieldValue(fd, PhoneNumber))
    && !IsMissing(fd, BudgetRange)
    && !IsMissing(fd, Event)
    && !IsMissing(fd, Message)
  }

  /** `validate`: starting from an empty object, a chain of conditional
      assignments, one field after another. */
  method Validate(formData: FormData) returns (newErrors: Errors)
    ensures newErrors == Validation(formData)
  {
    newErrors := map[];
    if IsMissing(formData, OrganizationName) {
      newErrors := newErrors[OrganizationName := OrganizationNameRequired];
    }
    ghost var errs := newErrors;
    assert errs == CheckPresent(formData, OrganizationName, OrganizationNameRequired, map[]);
    if IsMissing(formData, Email) {
      newErrors := newErrors[Email := EmailRequired];
    } else if !EmailTest(FieldValue(formData, Email)) {
      newErrors := newErrors[Email := EmailInvalid];
    }
    assert newErrors == CheckEmail(formData, errs);
    errs := newErrors;
    if IsMissing(formData, PhoneNumber) {
      newErrors := newErrors[PhoneNumber := PhoneNumberRequired];
    } else if !PhoneTest(FieldValue(formData, PhoneNumber)) {
      newErrors := newErrors[PhoneNumber := PhoneNumberNotTenDigits];
    }
    assert newErrors == CheckPhoneNumber(formData, errs);
    errs := newErrors;
    if IsMissing(formData, BudgetRange) {
      newErrors := newErrors[BudgetRange := BudgetRangeRequired];
    }
    assert newErrors == CheckPresent(formData, BudgetRange, BudgetRangeRequired, errs);
    errs := newErrors;
    if IsMissing(formData, Event) {
      newErrors := newErrors[Event := EventRequired];
    }
    assert newErrors == CheckPresent(formData, Event, EventRequired, errs);
    errs := newErrors;
    if IsMissing(formData, Message) {
      newErrors := newErrors[Message := MessageRequired];
    }
    assert newErrors == CheckPresent(formData, Message, MessageRequired, errs);
  }

  /** A field's entry in the error map is its own rule's verdict on its own
      value. */
  lemma ValidationAt(fd: FormData, f: Field)
    ensures f in Validation(fd) <==> FieldError(f, FieldValue(fd, f)).Some?
    ensures f in Validation(fd) ==> Validation(fd)[f] == FieldError(f, FieldValue(fd, f)).value
  {
    match f
    case Email => EmailMessages(fd);
    case PhoneNumber => PhoneNumberMessages(fd);
    case _ => RequiredMessages(fd);
  }

  /** The four fields checked for presence only: each is in the error map,
      under its "required" message, exactly when it is missing. */
  lemma RequiredMessages(fd: FormData)
    ensures OrganizationName in Validation(fd) <==> IsMissing(fd, OrganizationName)
    ensures BudgetRange in Validation(fd) <==> IsMissing(fd, BudgetRange)
    ensures Event in Validation(fd) <==> IsMissing(fd, Event)
    ensures Message in Validation(fd) <==> IsMissing(fd, Message)
    ensures OrganizationName in Validation(fd) ==> Validation(fd)[OrganizationName] == OrganizationNameRequired
    ensures BudgetRange in Validation(fd) ==> Validation(fd)[BudgetRange] == BudgetRangeRequired
    ensures Event in Validation(fd) ==> Validation(fd)[Event] == EventRequired
    ensures Message in Validation(fd) ==> Validation(fd)[Message] == MessageRequired
  {
  }

  /** An error map `validate` could have produced: each field under one of
      that field's own messages. (That every key is one of the six form
      fields holds by the type `Field`.) */
  predicate ErrorsWellFormed(errors: Errors) {
    forall f | f in errors :: errors[f] in f.Messages()
  }

  /** The one message under each field of the error map is one of that
      field's own messages. */
  lemma ValidationKeys(fd: FormData)
    ensures ErrorsWellFormed(Validation(fd))
  {
  }

  /** `validate` reports nothing exactly when every field is present, the
      email matches its pattern and the phone number is ten digits. */
  lemma ValidationEmptyIff(fd: FormData)
    ensures Validation(fd) == map[] <==> Acceptable(fd)
  {
    if Acceptable(fd) {
      forall f | f in Validation(fd)
        ensures false
      {
        ValidationAt(fd, f);
      }
    } else {
      var f :=
        if IsMissing(fd, OrganizationName) then OrganizationName
        else if IsMissing(fd, Email) || !EmailTest(FieldValue(fd, Email)) then Email
        else if IsMissing(fd, PhoneNumber) || !PhoneTest(FieldValue(fd, PhoneNumber)) then PhoneNumber
        else if IsMissing(fd, BudgetRange) then BudgetRange
        else if IsMissing(fd, Event) then Event
        else Message;
      ValidationAt(fd, f);
    }
  }

  /** The email messages: an empty email is "required" and never "invalid";
      a present one that fails the pattern is "invalid"; one that passes
      earns no message. */
  lemma EmailMessages(fd: FormData)
    ensures IsMissing(fd, Email) ==> Email in Validation(fd) && Validation(fd)[Email] == EmailRequired
    ensures !IsMissing(fd, Email) && !EmailTest(FieldValue(fd, Email)) ==>
              Email in Validation(fd) && Validation(fd)[Email] == EmailInvalid
    ensures !IsMissing(fd, Email) && EmailTest(FieldValue(fd, Email)) ==> Email !in Validation(fd)
  {
  }

  /** The phone number messages, in the same three cases. */
  lemma PhoneNumberMessages(fd: FormData)
    ensures IsMissing(fd, PhoneNumber) ==>
              PhoneNumber in Validation(fd) && Validation(fd)[PhoneNumber] == PhoneNumberRequired
    ensures !IsMissing(fd, PhoneNumber) && !PhoneTest(FieldValue(fd, PhoneNumber)) ==>
              PhoneNumber in Validation(fd) && Validation(fd)[PhoneNumber] == PhoneNumberNotTenDigits
    ensures !IsMissing(fd, PhoneNumber) && PhoneTest(FieldValue(fd, PhoneNumber)) ==> PhoneNumber !in Validation(fd)
  {
  }

  /** Eleven digits, or ten digits written with separators, are reported as
      not being ten digits. */
  lemma PhoneNumberExamples(fd: FormData)
    requires FieldValue(fd, PhoneNumber) in {"12345678901", "123-456-7890"}
    ensures PhoneNumber in Validation(fd) && Validation(fd)[PhoneNumber] == PhoneNumberNotTenDigits
  {
    PhoneNumberMessages(fd);
  }

  /** The budget range and the event are only checked for presence: any
      non-empty value passes, listed as an option or not. */
  lemma SelectionsPresenceOnly(fd: FormData)
    ensures BudgetRange in Validation(fd) <==> FieldValue(fd, BudgetRange) == ""
    ensures Event in Validation(fd) <==> FieldValue(fd, Event) == ""
  {
    RequiredMessages(fd);
  }

  /** The messages are per field: a field's presence and message in the
      error map depend only on that field's own value. */
  lemma ValidationPerField(fd: FormData, fd': FormData, f: Field)
    requires FieldValue(fd, f) == FieldValue(fd', f)
    ensures f in Validation(fd) <==> f in Validation(fd')
    ensures f in Validation(fd) ==> Validation(fd)[f] == Validation(fd')[f]
  {
    ValidationAt(fd, f);
    ValidationAt(fd', f);
  }

  /** The empty form the page starts with earns every "required" message. */
  lemma InitialFormErrors()
    ensures Validation(InitialForm).Keys == AllFields
    ensures forall f: Field :: f in Validation(InitialForm) && Validation(InitialForm)[f] == RequiredMessage(f)
  {
    forall f: Field
      ensures f in Validation(InitialForm) && Validation(InitialForm)[f] == RequiredMessage(f)
    {
      FieldOfKey(f);
      ValidationAt(InitialForm, f);
    }
  }

  /** Whether a record passes depends on its six field values only. */
  lemma AcceptableByFields(fd: FormData, fd': FormData)
    requires forall f: Field :: FieldValue(fd, f) == FieldValue(fd', f)
    ensures Acceptable(fd) == Acceptable(fd')
  {
    assert FieldValue(fd, Email) == FieldValue(fd', Email);
    assert FieldValue(fd, PhoneNumber) == FieldValue(fd', PhoneNumber);
  }

  /** `handleChange`: `{...formData, [name]: value}`. */
  function Changed(fd: FormData, name: string, value: string): (r: FormData)
    ensures r.Keys == fd.Keys + {name}
    ensures Value(r, name) == value
    ensures forall k | k != name :: Value(r, k) == Value(fd, k)
  {
    fd[name := value]
  }

  /** A change to field `g` gives `g` the new value and leaves every other
      field's value alone. */
  lemma ChangedField(fd: FormData, g: Field, value: string, f: Field)
    ensures FieldValue(Changed(fd, g.Key(), value), f) == if f == g then value else FieldValue(fd, f)
  {
    if f != g {
      KeysDistinct(f, g);
    }
  }

  /** A change to one field re-evaluates that field's rule on the new value
      and leaves every other entry of the error map as it was. */
  lemma ChangedValidation(fd: FormData, g: Field, value: string)
    ensures g in Validation(Changed(fd, g.Key(), value)) <==> FieldError(g, value).Some?
    ensures g in Validation(Changed(fd, g.Key(), value)) ==>
              Validation(Changed(fd, g.Key(), value))[g] == FieldError(g, value).value
    ensures forall f | f != g :: (f in Validation(Changed(fd, g.Key(), value)) <==> f in Validation(fd))
    ensures forall f | f != g && f in Validation(fd) ::
              Validation(Changed(fd, g.Key(), value))[f] == Validation(fd)[f]
  {
    var fd' := Changed(fd, g.Key(), value);
    ValidationAt(fd', g);
    forall f | f != g
      ensures f in Validation(fd') <==> f in Validation(fd)
      ensures f in Validation(fd) ==> Validation(fd')[f] == Validation(fd)[f]
    {
      ChangedField(fd, g, value, f);
      ValidationPerField(fd, fd', f);
    }
  }

  /** Changing a property that is not one of the six form fields leaves
      the error map as it was. */
  lemma ChangedOtherProperty(fd: FormData, name: string, value: string)
    requires name !in FieldNames
    ensures Validation(Changed(fd, name, value)) == Validation(fd)
  {
    var fd' := Changed(fd, name, value);
    forall f: Field
      ensures f in Validation(fd') <==> f in Validation(fd)
      ensures f in Validation(fd) ==> Validation(fd')[f] == Validation(fd)[f]
    {
      FieldOfKey(f);
      ValidationPerField(fd, fd', f);
    }
  }
}
