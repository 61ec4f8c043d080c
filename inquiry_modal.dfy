/** The inquiry dialog of a package: its three-field form, the per-field error messages, the
    input handler, the validation and the submit that creates the inquiry. */
module InquiryModal {
  import opened Common
  import opened Records
  import opened FormRules
  import opened PackageService
  import opened InquiryService

  datatype InquiryField = CustomerName | CustomerEmail | Message

  datatype InquiryForm = InquiryForm(customerName: string, customerEmail: string, message: string)

  /** The form as the dialog opens and after a message was sent. */
  const EmptyInquiryForm := InquiryForm("", "", "")

  /** One input event: the field typed into and its new text. */
  datatype InquiryInput = InquiryInput(field: InquiryField, text: string)

  /** The text a form holds in a field. */
  function FieldText(form: InquiryForm, field: InquiryField): string
  {
    match field
    case CustomerName => form.customerName
    case CustomerEmail => form.customerEmail
    case Message => form.message
  }

  /** `{ ...prev, [field]: value }`: the named field takes the text and the others stay. */
  function ApplyInput(form: InquiryForm, input: InquiryInput): (r: InquiryForm)
    ensures FieldText(r, input.field) == input.text
    ensures forall g :: g != input.field ==> FieldText(r, g) == FieldText(form, g)
  {
    match input.field
    case CustomerName => form.(customerName := input.text)
    case CustomerEmail => form.(customerEmail := input.text)
    case Message => form.(message := input.text)
  }

  /** `newErrors` filled in field by field from the outcome of each check. */
  function CollectErrors(nameMissing: bool, email: Option<string>, messageMissing: bool)
    : (errors: map<InquiryField, string>)
    ensures CustomerName in errors <==> nameMissing
    ensures CustomerName in errors ==> errors[CustomerName] == "Name is required"
    ensures CustomerEmail in errors <==> email.Some?
    ensures CustomerEmail in errors ==> errors[CustomerEmail] == email.value
    ensures Message in errors <==> messageMissing
    ensures Message in errors ==> errors[Message] == "Message is required"
  {
    var e1 := AddError(map[], nameMissing, CustomerName, "Name is required");
    var e2 := AddError(e1, email.Some?, CustomerEmail, if email.Some? then email.value else "");
    AddError(e2, messageMissing, Message, "Message is required")
  }

  /** `validateForm`'s `newErrors`: a message for each field that fails its check. */
  function ValidateInquiry(form: InquiryForm): (errors: map<InquiryField, string>)
    ensures CustomerName in errors <==> IsBlank(form.customerName)
    ensures CustomerName in errors ==> errors[CustomerName] == "Name is required"
    ensures CustomerEmail in errors <==> EmailError(form.customerEmail).Some?
    ensures CustomerEmail in errors ==> errors[CustomerEmail] == EmailError(form.customerEmail).value
    ensures Message in errors <==> IsBlank(form.message)
    ensures Message in errors ==> errors[Message] == "Message is required"
  {
    TrimEmptyIffBlank(form.customerName);
    TrimEmptyIffBlank(form.message);
    CollectErrors(Missing(form.customerName), EmailError(form.customerEmail), Missing(form.message))
  }

  /** What an acceptable inquiry form is, field by field. */
  predicate Acceptable(form: InquiryForm)
  {
    && !IsBlank(form.customerName)
    && !IsBlank(form.customerEmail) && LooksLikeEmail(form.customerEmail)
    && !IsBlank(form.message)
  }

  /** `Object.keys(newErrors).length === 0` holds exactly for the acceptable forms. */
  lemma ValidIffAcceptable(form: InquiryForm)
    ensures |ValidateInquiry(form)| == 0 <==> Acceptable(form)
  {
    var errors := ValidateInquiry(form);
    if !Acceptable(form) {
      var f :| f in errors;
      assert f in errors.Keys;
    }
  }

  /** The record `handleSubmit` sends: the package's Id and the three form fields. */
  function InquiryData(pkg: Package, form: InquiryForm): (d: InquiryDetails)
    ensures d.packageId == pkg.Id
    ensures d.customerName == form.customerName && d.customerEmail == form.customerEmail
    ensures d.message == form.message
  {
    InquiryDetails(pkg.Id, form.customerName, form.customerEmail, form.message)
  }

  /** The dialog's state for one package. */
  class Dialog {
    const pkg: Package
    var form: InquiryForm
    var errors: map<InquiryField, string>

    constructor (pkg: Package)
      ensures this.pkg == pkg && form == EmptyInquiryForm && errors == map[]
    {
      this.pkg := pkg;
      form := EmptyInquiryForm;
      errors := map[];
    }

    /** `handleInputChange`: sets the field and blanks that field's shown error. */
    method HandleInputChange(input: InquiryInput)
      modifies this
      ensures form == ApplyInput(old(form), input)
      ensures errors == ClearError(old(errors), input.field)
    {
      form := ApplyInput(form, input);
      errors := ClearError(errors, input.field);
    }

    /** `validateForm`: replaces the shown errors with the new ones and answers whether there
        are none, which holds exactly for an acceptable form. */
    method ValidateForm() returns (ok: bool)
      modifies this
      ensures form == old(form)
      ensures errors == ValidateInquiry(form)
      ensures ok <==> |errors| == 0
      ensures ok <==> Acceptable(form)
    {
      errors := ValidateInquiry(form);
      ValidIffAcceptable(form);
      ok := |errors| == 0;
    }

    /** `handleSubmit`: nothing is sent unless the form is acceptable; otherwise the inquiry
        is created and the form emptied. `fails` stands for a backend that throws, after
        which nothing is stored and the form is kept. */
    method HandleSubmit(store: InquiryStore, now: int, fails: bool) returns (sent: Option<Inquiry>)
      modifies this, store
      ensures errors == ValidateInquiry(old(form))
      ensures !Acceptable(old(form)) || fails ==>
        && sent.None? && form == old(form) && store.inquiries == old(store.inquiries)
      ensures Acceptable(old(form)) && !fails ==>
        && sent.Some?
        && sent.value == Inquiry(NextKey(old(store.inquiries), InquiryId),
          InquiryData(pkg, old(form)), "pending", "", now, None, None)
        && store.inquiries == old(store.inquiries) + [sent.value]
        && form == EmptyInquiryForm
    {
      var ok := ValidateForm();
      if !ok || fails {
        return None;
      }
      var q := Send(store, now);
      sent := Some(q);
    }

    /** The successful part of `handleSubmit`: the inquiry is created, then the form is
        emptied; the shown errors stay. */
    method Send(store: InquiryStore, now: int) returns (q: Inquiry)
      modifies this, store
      ensures q == Inquiry(NextKey(old(store.inquiries), InquiryId),
        InquiryData(pkg, old(form)), "pending", "", now, None, None)
      ensures store.inquiries == old(store.inquiries) + [q]
      ensures form == EmptyInquiryForm && errors == old(errors)
    {
      q := store.Create(InquiryData(pkg, form), now);
      form := EmptyInquiryForm;
    }
  }
}
