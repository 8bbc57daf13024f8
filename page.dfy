/**
  The state of the sponsor update page and the two event handlers that
  change it: the input change handler and the submit handler.

  The page holds the record being edited, the error map last shown and the
  success banner text. The update request the submit handler sends is
  recorded in `requests`, the bodies of every attempted PUT, oldest first; whether the
  server answered with a 2xx status is a parameter of the handler.
 */
module SponsorPage {
  import opened Patterns
  import opened SponsorForm

  const SuccessText: string := "Sponsor updated successfully!"

  class SponsorUpdate {
    var formData: FormData
    var errors: Errors
    var successMessage: string
    /** The bodies of the update requests attempted so far, oldest first. */
    var requests: seq<FormData>

    /** What every handler keeps: the errors shown came from `validate`,
        only records that passed `validate` were ever sent, and the banner
        is shown only after a request went out. */
    ghost predicate Valid()
      reads this
    {
      && ErrorsWellFormed(errors)
      && (forall i | 0 <= i < |requests| :: Validation(requests[i]) == map[])
      && (successMessage == "" || (successMessage == SuccessText && |requests| > 0))
    }

    /** `handleSubmit` with `setErrors(validationErrors)` made before the
        branch instead of inside it: the error map shown is always that of
        the record just submitted, so a submit that sends the record also
        clears the messages of earlier attempts. */
    method HandleSubmitClearingErrors(responseOk: bool)
      requires Valid()
      modifies this
      ensures Valid()
      ensures formData == old(formData)
      ensures errors == Validation(formData)
      ensures Validation(formData) != map[] ==>
                requests == old(requests) && successMessage == old(successMessage)
      ensures Validation(formData) == map[] ==>
                && errors == map[]
                && requests == old(requests) + [formData]
                && successMessage == (if responseOk then SuccessText else old(successMessage))
    {
      var validationErrors := Validate(formData);
      ValidationKeys(formData);
      errors := validationErrors;
      if |validationErrors| == 0 {
        requests := requests + [formData];
        if responseOk {
          successMessage := SuccessText;
        }
      }
    }

    /** Whatever the order of edits and submits, every request body the
        page sent passes every check: every field present, the email
        matching its pattern, the phone number ten digits. */
    lemma SentRequestsAcceptable(i: int)
      requires Valid()
      requires 0 <= i < |requests|
      ensures Acceptable(requests[i])
    {
      ValidationEmptyIff(requests[i]);
    }

    /** The page as first rendered: six empty fields, no errors, no
        banner, nothing sent. */
    constructor ()
      ensures Valid()
      ensures formData == InitialForm && errors == map[] && successMessage == "" && requests == []
    {
      formData := InitialForm;
      errors := map[];
      successMessage := "";
      requests := [];
    }

    /** `handleChange`: the input named `name` now holds `value`. */
    method HandleChange(name: string, value: string)
      requires Valid()
      modifies this
      ensures Valid()
      ensures formData == Changed(old(formData), name, value)
      ensures errors == old(errors) && successMessage == old(successMessage) && requests == old(requests)
    {
      formData := Changed(formData, name, value);
    }

    /** `handleSubmit`: run `validate`; with errors, show them and send
        nothing; without, send the record and show the banner if the
        server answered `ok`. The error map shown before is kept in the
        second case, so stale messages stay on screen. */
    method HandleSubmit(responseOk: bool)
      requires Valid()
      modifies this
      ensures Valid()
      ensures formData == old(formData)
      ensures Validation(formData) != map[] ==>
                && errors == Validation(formData)
                && requests == old(requests)
                && successMessage == old(successMessage)
      ensures Validation(formData) == map[] ==>
                && errors == old(errors)
                && requests == old(requests) + [formData]
                && successMessage == (if responseOk then SuccessText else old(successMessage))
    {
      var validationErrors := Validate(formData);
      if |validationErrors| > 0 {
        ValidationKeys(formData);
        errors := validationErrors;
      } else {
        assert validationErrors == map[];
        requests := requests + [formData];
        if responseOk {
          successMessage := SuccessText;
        }
      }
    }
  }

  /** The record after the six fields are typed in one input at a time,
      starting from `fd0`. */
  function FilledInRecord(fd0: FormData, filled: FormData): FormData {
    Changed(Changed(Changed(Changed(Changed(Changed(fd0,
      OrganizationName.Key(), FieldValue(filled, OrganizationName)),
      Email.Key(), FieldValue(filled, Email)),
      PhoneNumber.Key(), FieldValue(filled, PhoneNumber)),
      BudgetRange.Key(), FieldValue(filled, BudgetRange)),
      Event.Key(), FieldValue(filled, Event)),
      Message.Key(), FieldValue(filled, Message))
  }

  /** Filling in the six fields one input at a time gives a record with
      the same six values as `filled`, whatever `fd0` held. */
  lemma FilledIn(fd0: FormData, filled: FormData)
    ensures forall f: Field :: FieldValue(FilledInRecord(fd0, filled), f) == FieldValue(filled, f)
  {
    var fd1 := Changed(fd0, OrganizationName.Key(), FieldValue(filled, OrganizationName));
    var fd2 := Changed(fd1, Email.Key(), FieldValue(filled, Email));
    var fd3 := Changed(fd2, PhoneNumber.Key(), FieldValue(filled, PhoneNumber));
    var fd4 := Changed(fd3, BudgetRange.Key(), FieldValue(filled, BudgetRange));
    var fd5 := Changed(fd4, Event.Key(), FieldValue(filled, Event));
    forall f: Field
      ensures FieldValue(FilledInRecord(fd0, filled), f) == FieldValue(filled, f)
    {
      ChangedField(fd0, OrganizationName, FieldValue(filled, OrganizationName), f);
      ChangedField(fd1, Email, FieldValue(filled, Email), f);
      ChangedField(fd2, PhoneNumber, FieldValue(filled, PhoneNumber), f);
      ChangedField(fd3, BudgetRange, FieldValue(filled, BudgetRange), f);
      ChangedField(fd4, Event, FieldValue(filled, Event), f);
      ChangedField(fd5, Message, FieldValue(filled, Message), f);
    }
  }

  /** What a caller can conclude from the handlers' contracts alone:
      submitting the untouched page shows every "required" message and
      sends nothing; filling in all six fields correctly and submitting
      again sends the record, yet the six messages stay on screen, beside
      the success banner when the server answered `ok`. */
  method StaleErrorsScenario(filled: FormData, responseOk: bool)
    returns (sent: seq<FormData>, shown: Errors, banner: string)
    requires Acceptable(filled)
    ensures |sent| == 1 && Acceptable(sent[0])
    ensures forall f: Field :: FieldValue(sent[0], f) == FieldValue(filled, f)
    ensures shown.Keys == AllFields && forall f: Field :: f in shown && shown[f] == RequiredMessage(f)
    ensures banner == (if responseOk then SuccessText else "")
  {
    var page := new SponsorUpdate();
    InitialFormErrors();
    page.HandleSubmit(responseOk);
    ghost var first := page.errors;
    assert forall f: Field :: f in first && first[f] == RequiredMessage(f);

    page.HandleChange(OrganizationName.Key(), FieldValue(filled, OrganizationName));
    page.HandleChange(Email.Key(), FieldValue(filled, Email));
    page.HandleChange(PhoneNumber.Key(), FieldValue(filled, PhoneNumber));
    page.HandleChange(BudgetRange.Key(), FieldValue(filled, BudgetRange));
    page.HandleChange(Event.Key(), FieldValue(filled, Event));
    page.HandleChange(Message.Key(), FieldValue(filled, Message));
    assert page.formData == FilledInRecord(InitialForm, filled);
    FilledIn(InitialForm, filled);
    AcceptableByFields(page.formData, filled);
    ValidationEmptyIff(page.formData);
    var record := page.formData;

    page.HandleSubmit(responseOk);
    assert page.requests == [record];
    assert page.errors == first;
    sent, shown, banner := page.requests, page.errors, page.successMessage;
  }

  /** The same steps with `HandleSubmitClearingErrors`: the second submit
      sends the record and clears the messages. */
  method ClearedErrorsScenario(filled: FormData, responseOk: bool) returns (sent: seq<FormData>, shown: Errors)
    requires Acceptable(filled)
    ensures |sent| == 1 && Acceptable(sent[0])
    ensures forall f: Field :: FieldValue(sent[0], f) == FieldValue(filled, f)
    ensures shown == map[]
  {
    var page := new SponsorUpdate();
    InitialFormErrors();
    page.HandleSubmitClearingErrors(responseOk);

    page.HandleChange(OrganizationName.Key(), FieldValue(filled, OrganizationName));
    page.HandleChange(Email.Key(), FieldValue(filled, Email));
    page.HandleChange(PhoneNumber.Key(), FieldValue(filled, PhoneNumber));
    page.HandleChange(BudgetRange.Key(), FieldValue(filled, BudgetRange));
    page.HandleChange(Event.Key(), FieldValue(filled, Event));
    page.HandleChange(Message.Key(), FieldValue(filled, Message));
    assert page.formData == FilledInRecord(InitialForm, filled);
    FilledIn(InitialForm, filled);
    AcceptableByFields(page.formData, filled);
    ValidationEmptyIff(page.formData);
    var record := page.formData;

    page.HandleSubmitClearingErrors(responseOk);
    assert page.requests == [record];
    sent, shown := page.requests, page.errors;
  }
}
