/** The booking dialog of a package page: its form, the per-field error messages, the input
    handler, the validation and the submit that creates the booking. */
module BookingModal {
  import opened Common
  import opened Numbers
  import opened Records
  import opened FormRules
  import opened PackageService
  import opened BookingService

  datatype BookingField = CustomerName | CustomerEmail | CustomerPhone | TravelDate | TravelerCount

  datatype BookingForm = BookingForm(
    customerName: string,
    customerEmail: string,
    customerPhone: string,
    travelDate: string,
    travelerCount: int)

  /** The form as the dialog opens: empty texts and one traveller. */
  const EmptyBookingForm := BookingForm("", "", "", "", 1)

  /** One input event. The traveller field carries `parseInt` of its text: None for NaN. */
  datatype BookingInput =
    | NameInput(text: string)
    | EmailInput(text: string)
    | PhoneInput(text: string)
    | DateInput(text: string)
    | TravelersInput(parsed: Option<int>)

  function FieldOf(input: BookingInput): BookingField
  {
    match input
    case NameInput(_) => CustomerName
    case EmailInput(_) => CustomerEmail
    case PhoneInput(_) => CustomerPhone
    case DateInput(_) => TravelDate
    case TravelersInput(_) => TravelerCount
  }

  /** `parseInt(text) || 1`: NaN and zero both become 1. */
  function TravelersEntered(parsed: Option<int>): (n: int)
    ensures n != 0
    ensures parsed.Some? && parsed.value != 0 ==> n == parsed.value
    ensures parsed.None? || parsed.value == 0 ==> n == 1
  {
    if parsed.Some? && parsed.value != 0 then parsed.value else 1
  }

  /** Two forms agree on one field. */
  predicate SameField(a: BookingForm, b: BookingForm, field: BookingField)
  {
    match field
    case CustomerName => a.customerName == b.customerName
    case CustomerEmail => a.customerEmail == b.customerEmail
    case CustomerPhone => a.customerPhone == b.customerPhone
    case TravelDate => a.travelDate == b.travelDate
    case TravelerCount => a.travelerCount == b.travelerCount
  }

  /** `{ ...prev, [field]: value }`: the named field takes the input and the others stay. */
  function ApplyInput(form: BookingForm, input: BookingInput): (r: BookingForm)
    ensures forall g :: g != FieldOf(input) ==> SameField(r, form, g)
    ensures input.NameInput? ==> r.customerName == input.text
    ensures input.EmailInput? ==> r.customerEmail == input.text
    ensures input.PhoneInput? ==> r.customerPhone == input.text
    ensures input.DateInput? ==> r.travelDate == input.text
    ensures input.TravelersInput? ==> r.travelerCount == TravelersEntered(input.parsed)
  {
    match input
    case NameInput(t) => form.(customerName := t)
    case EmailInput(t) => form.(customerEmail := t)
    case PhoneInput(t) => form.(customerPhone := t)
    case DateInput(t) => form.(travelDate := t)
    case TravelersInput(p) => form.(travelerCount := TravelersEntered(p))
  }

  /** The message for a traveller count outside `1..maxTravelers`. */
  function TravelersMessage(maxTravelers: int): string
  {
    "Number of travelers must be between 1 and " + IntToString(maxTravelers)
  }

  /** `newErrors` filled in field by field from the outcome of each check. */
  function CollectErrors(nameMissing: bool, email: Option<string>, phoneMissing: bool,
                         dateMissing: bool, countBad: bool, countMessage: string)
    : (errors: map<BookingField, string>)
    ensures CustomerName in errors <==> nameMissing
    ensures CustomerName in errors ==> errors[CustomerName] == "Name is required"
    ensures CustomerEmail in errors <==> email.Some?
    ensures CustomerEmail in errors ==> errors[CustomerEmail] == email.value
    ensures CustomerPhone in errors <==> phoneMissing
    ensures CustomerPhone in errors ==> errors[CustomerPhone] == "Phone number is required"
    ensures TravelDate in errors <==> dateMissing
    ensures TravelDate in errors ==> errors[TravelDate] == "Travel date is required"
    ensures TravelerCount in errors <==> countBad
    ensures TravelerCount in errors ==> errors[TravelerCount] == countMessage
  {
    var e1 := AddError(map[], nameMissing, CustomerName, "Name is required");
    var e2 := AddError(e1, email.Some?, CustomerEmail, if email.Some? then email.value else "");
    var e3 := AddError(e2, phoneMissing, CustomerPhone, "Phone number is required");
    var e4 := AddError(e3, dateMissing, TravelDate, "Travel date is required");
    AddError(e4, countBad, TravelerCount, countMessage)
  }

  /** `validateForm`'s `newErrors`: a message for each field that fails its check. */
  function ValidateBooking(form: BookingForm, maxTravelers: int): (errors: map<BookingField, string>)
    ensures CustomerName in errors <==> IsBlank(form.customerName)
    ensures CustomerName in errors ==> errors[CustomerName] == "Name is required"
    ensures CustomerEmail in errors <==> EmailError(form.customerEmail).Some?
    ensures CustomerEmail in errors ==> errors[CustomerEmail] == EmailError(form.customerEmail).value
    ensures CustomerPhone in errors <==> IsBlank(form.customerPhone)
    ensures CustomerPhone in errors ==> errors[CustomerPhone] == "Phone number is required"
    ensures TravelDate in errors <==> form.travelDate == ""
    ensures TravelDate in errors ==> errors[TravelDate] == "Travel date is required"
    ensures TravelerCount in errors <==> !(1 <= form.travelerCount <= maxTravelers)
    ensures TravelerCount in errors ==> errors[TravelerCount] == TravelersMessage(maxTravelers)
  {
    TrimEmptyIffBlank(form.customerName);
    TrimEmptyIffBlank(form.customerPhone);
    CollectErrors(Missing(form.customerName), EmailError(form.customerEmail),
      Missing(form.customerPhone), form.travelDate == "",
      form.travelerCount < 1 || form.travelerCount > maxTravelers, TravelersMessage(maxTravelers))
  }

  /** What an acceptable booking form is, field by field. */
  predicate Acceptable(form: BookingForm, maxTravelers: int)
  {
    && !IsBlank(form.customerName)
    && !IsBlank(form.customerEmail) && LooksLikeEmail(form.customerEmail)
    && !IsBlank(form.customerPhone)
    && form.travelDate != ""
    && 1 <= form.travelerCount <= maxTravelers
  }

  /** `Object.keys(newErrors).length === 0` holds exactly for the acceptable forms. */
  lemma ValidIffAcceptable(form: BookingForm, maxTravelers: int)
    ensures |ValidateBooking(form, maxTravelers)| == 0 <==> Acceptable(form, maxTravelers)
  {
    var errors := ValidateBooking(form, maxTravelers);
    if !Acceptable(form, maxTravelers) {
      var f :| f in errors;
      assert f in errors.Keys;
    }
  }

  /** The total shown under the form and charged: the package price times the party size. */
  function TotalPrice(pkg: Package, travelerCount: int): int
  {
    pkg.fields.price * travelerCount
  }

  /** The record `handleSubmit` sends: the package's Id, the form's fields and the total. */
  function BookingData(pkg: Package, form: BookingForm): (d: BookingDetails)
    ensures d.packageId == pkg.Id && d.travelerCount == form.travelerCount
    ensures d.totalPrice == TotalPrice(pkg, form.travelerCount)
    ensures d.customerName == form.customerName && d.customerEmail == form.customerEmail
    ensures d.customerPhone == form.customerPhone && d.travelDate == form.travelDate
  {
    BookingDetails(pkg.Id, form.customerName, form.customerEmail, form.customerPhone,
      form.travelDate, form.travelerCount, TotalPrice(pkg, form.travelerCount))
  }

  /** For an acceptable form and a non-negative price, the total lies between one traveller's
      price and the price for the largest allowed party. */
  lemma TotalPriceBounds(pkg: Package, form: BookingForm)
    requires Acceptable(form, pkg.fields.maxTravelers)
    requires pkg.fields.price >= 0
    ensures pkg.fields.price <= TotalPrice(pkg, form.travelerCount)
    ensures TotalPrice(pkg, form.travelerCount) <= pkg.fields.price * pkg.fields.maxTravelers
  {
    var p := pkg.fields.price;
    var n := form.travelerCount;
    assert p * n == p + p * (n - 1);
    assert p * pkg.fields.maxTravelers == p * n + p * (pkg.fields.maxTravelers - n);
  }

  /** The dialog's state for one package. */
  class Dialog {
    const pkg: Package
    var form: BookingForm
    var errors: map<BookingField, string>

    constructor (pkg: Package)
      ensures this.pkg == pkg && form == EmptyBookingForm && errors == map[]
    {
      this.pkg := pkg;
      form := EmptyBookingForm;
      errors := map[];
    }

    /** `handleInputChange`: sets the field and blanks that field's shown error. */
    method HandleInputChange(input: BookingInput)
      modifies this
      ensures form == ApplyInput(old(form), input)
      ensures errors == ClearError(old(errors), FieldOf(input))
    {
      form := ApplyInput(form, input);
      errors := ClearError(errors, FieldOf(input));
    }

    /** `validateForm`: replaces the shown errors with the new ones and answers whether there
        are none, which holds exactly for an acceptable form. */
    method ValidateForm() returns (ok: bool)
      modifies this
      ensures form == old(form)
      ensures errors == ValidateBooking(form, pkg.fields.maxTravelers)
      ensures ok <==> |errors| == 0
      ensures ok <==> Acceptable(form, pkg.fields.maxTravelers)
    {
      errors := ValidateBooking(form, pkg.fields.maxTravelers);
      ValidIffAcceptable(form, pkg.fields.maxTravelers);
      ok := |errors| == 0;
    }

    /** `handleSubmit`: nothing is sent unless the form is acceptable; otherwise the booking
        is created with the status "pending" and returned for the confirmation page. `fails`
        stands for a backend that throws, after which nothing is stored. */
    method HandleSubmit(store: BookingStore, now: int, fails: bool) returns (booking: Option<Booking>)
      modifies this, store
      ensures form == old(form)
      ensures errors == ValidateBooking(form, pkg.fields.maxTravelers)
      ensures !Acceptable(form, pkg.fields.maxTravelers) || fails ==>
        booking.None? && store.bookings == old(store.bookings)
      ensures Acceptable(form, pkg.fields.maxTravelers) && !fails ==>
        && booking.Some?
        && booking.value == Booking(NextKey(old(store.bookings), BookingId),
          BookingData(pkg, form), "pending", now, None)
        && store.bookings == old(store.bookings) + [booking.value]
    {
      var ok := ValidateForm();
      if !ok {
        return None;
      }
      if fails {
        return None;
      }
      var b := store.Create(BookingData(pkg, form), now);
      booking := Some(b);
    }
  }
}
