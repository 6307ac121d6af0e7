/** The delivery-address step of the checkout (components/AddressForm.tsx): an eight-field record,
    its per-field validation rules and the single-field change handler. */
module AddressEntry {
  import opened Wrappers
  import opened Seqs
  import opened Text

  /** The keys of `AddressData`. */
  datatype Field = FullName | Email | Phone | Address | City | District | PostalCode | AddressTitle

  const AllFields: set<Field> := {FullName, Email, Phone, Address, City, District, PostalCode, AddressTitle}

  /** `AddressData`. */
  datatype AddressData = AddressData(
    fullName: string,
    email: string,
    phone: string,
    address: string,
    city: string,
    district: string,
    postalCode: string,
    addressTitle: string)
  {
    /** `data[name]`. */
    function Get(f: Field): string {
      match f
      case FullName => fullName
      case Email => email
      case Phone => phone
      case Address => address
      case City => city
      case District => district
      case PostalCode => postalCode
      case AddressTitle => addressTitle
    }

    /** `{ ...data, [name]: value }`. */
    function With(f: Field, value: string): (d: AddressData)
      ensures d.Get(f) == value
      ensures forall g :: g != f ==> d.Get(g) == Get(g)
    {
      match f
      case FullName => this.(fullName := value)
      case Email => this.(email := value)
      case Phone => this.(phone := value)
      case Address => this.(address := value)
      case City => this.(city := value)
      case District => this.(district := value)
      case PostalCode => this.(postalCode := value)
      case AddressTitle => this.(addressTitle := value)
    }
  }

  /** The initial form: every field empty, the title "Ev" (home). */
  const InitialAddress := AddressData("", "", "", "", "", "", "", "Ev")

  /** The three title buttons. */
  const AddressTitles: set<string> := {"Ev", "İş", "Diğer"}

  // ---------------------------------------------------------------------------------------------
  // The e-mail pattern /^[^\s@]+@[^\s@]+\.[^\s@]+$/
  // ---------------------------------------------------------------------------------------------

  /** Every character is in `[^\s@]`. */
  predicate NoSpaceOrAt(s: string) {
    forall k :: 0 <= k < |s| ==> !IsSpace(s[k]) && s[k] != '@'
  }

  /** `s` splits as A "@" B "." C with A, B and C non-empty runs of `[^\s@]`, at positions `i`
      (the "@") and `j` (the "."). */
  ghost predicate EmailSplit(s: string, i: int, j: int) {
    && 0 < i && i + 1 < j && j + 1 < |s| && s[i] == '@' && s[j] == '.'
    && NoSpaceOrAt(s[..i]) && NoSpaceOrAt(s[i + 1..j]) && NoSpaceOrAt(s[j + 1..])
  }

  /** The language of the regular expression: some split into A "@" B "." C exists (the regular
      expression engine backtracks over every choice of the "."). */
  ghost predicate MatchesEmailPattern(s: string) {
    exists i, j :: EmailSplit(s, i, j)
  }

  /** A direct test of the same language: no whitespace, exactly one "@", not at the start, and a
      "." after it that is neither directly after the "@" nor the last character. */
  predicate IsValidEmail(s: string) {
    NoSpaces(s) &&
    var i := IndexOf(s, '@');
    && 0 < i
    && (forall m :: i < m < |s| ==> s[m] != '@')
    && (exists j :: i + 1 < j < |s| - 1 && s[j] == '.')
  }

  /** The direct test accepts exactly the strings the regular expression matches. */
  lemma EmailTestMatchesPattern(s: string)
    ensures IsValidEmail(s) <==> MatchesEmailPattern(s)
  {
    if MatchesEmailPattern(s) {
      var i, j :| EmailSplit(s, i, j);
      forall k | 0 <= k < |s| ensures !IsSpace(s[k]) && (s[k] == '@' <==> k == i) {
        if k < i { assert s[k] == s[..i][k]; }
        else if i < k < j { assert s[k] == s[i + 1..j][k - i - 1]; }
        else if j < k { assert s[k] == s[j + 1..][k - j - 1]; }
      }
      assert IndexOf(s, '@') == i;
      assert IsValidEmail(s);
    }
    if IsValidEmail(s) {
      var i := IndexOf(s, '@');
      var j :| i + 1 < j < |s| - 1 && s[j] == '.';
      assert NoSpaceOrAt(s[..i]) by {
        forall k | 0 <= k < i ensures !IsSpace(s[..i][k]) && s[..i][k] != '@' {
          assert s[..i][k] == s[k];
        }
      }
      var b, c := s[i + 1..j], s[j + 1..];
      assert NoSpaceOrAt(b) by {
        forall k | 0 <= k < |b| ensures !IsSpace(b[k]) && b[k] != '@' {
          assert b[k] == s[i + 1 + k];
        }
      }
      assert NoSpaceOrAt(c) by {
        forall k | 0 <= k < |c| ensures !IsSpace(c[k]) && c[k] != '@' {
          assert c[k] == s[j + 1 + k];
        }
      }
      assert EmailSplit(s, i, j);
    }
  }

  // ---------------------------------------------------------------------------------------------
  // Per-field rules of `validateForm`
  // ---------------------------------------------------------------------------------------------

  /** `/^[0-9]{10,11}$/` on the phone number with all whitespace removed. */
  predicate IsValidPhone(phone: string) {
    var digits := RemoveSpaces(phone);
    10 <= |digits| <= 11 && AllDigits(digits)
  }

  /** `/^[0-9]{5}$/` on the postal code as typed (no whitespace is removed). */
  predicate IsValidPostalCode(code: string) {
    |code| == 5 && AllDigits(code)
  }

  /** The messages `validateForm` can record. */
  datatype Message =
    | FullNameRequired | EmailRequired | EmailInvalid | PhoneRequired | PhoneInvalid
    | AddressRequired | CityRequired | DistrictRequired | PostalCodeRequired | PostalCodeInvalid
  {
    /** The text shown under the field. */
    function Text(): (t: string)
      ensures t != ""
    {
      match this
      case FullNameRequired => "Ad Soyad gerekli"
      case EmailRequired => "E-posta gerekli"
      case EmailInvalid => "Geçerli bir e-posta girin"
      case PhoneRequired => "Telefon gerekli"
      case PhoneInvalid => "Geçerli bir telefon numarası girin"
      case AddressRequired => "Adres gerekli"
      case CityRequired => "Şehir gerekli"
      case DistrictRequired => "İlçe gerekli"
      case PostalCodeRequired => "Posta kodu gerekli"
      case PostalCodeInvalid => "5 haneli posta kodu girin"
    }
  }

  /** The "required" message of each validated field. */
  function RequiredMessage(f: Field): Option<Message> {
    match f
    case FullName => Some(FullNameRequired)
    case Email => Some(EmailRequired)
    case Phone => Some(PhoneRequired)
    case Address => Some(AddressRequired)
    case City => Some(CityRequired)
    case District => Some(DistrictRequired)
    case PostalCode => Some(PostalCodeRequired)
    case AddressTitle => None
  }

  /** The "required" rule alone, for the fields that have no format rule. */
  function RequiredError(value: string, m: Message): (e: Option<Message>)
    ensures e.Some? <==> IsBlank(value)
  {
    if IsBlank(value) then Some(m) else None
  }

  function EmailError(email: string): Option<Message> {
    if IsBlank(email) then Some(EmailRequired)
    else if !IsValidEmail(email) then Some(EmailInvalid)
    else None
  }

  function PhoneError(phone: string): Option<Message> {
    if IsBlank(phone) then Some(PhoneRequired)
    else if !IsValidPhone(phone) then Some(PhoneInvalid)
    else None
  }

  function PostalCodeError(code: string): Option<Message> {
    if IsBlank(code) then Some(PostalCodeRequired)
    else if !IsValidPostalCode(code) then Some(PostalCodeInvalid)
    else None
  }

  /** The error `validateForm` records for one field, if any. */
  function FieldError(d: AddressData, f: Field): Option<Message> {
    match f
    case FullName => RequiredError(d.fullName, FullNameRequired)
    case Email => EmailError(d.email)
    case Phone => PhoneError(d.phone)
    case Address => RequiredError(d.address, AddressRequired)
    case City => RequiredError(d.city, CityRequired)
    case District => RequiredError(d.district, DistrictRequired)
    case PostalCode => PostalCodeError(d.postalCode)
    case AddressTitle => None
  }

  /** The `errors` state: `Partial<AddressData>`, one optional message per key. */
  datatype AddressErrors = AddressErrors(
    fullName: Option<Message>,
    email: Option<Message>,
    phone: Option<Message>,
    address: Option<Message>,
    city: Option<Message>,
    district: Option<Message>,
    postalCode: Option<Message>,
    addressTitle: Option<Message>)
  {
    /** `errors[name]`. */
    function Get(f: Field): Option<Message> {
      match f
      case FullName => fullName
      case Email => email
      case Phone => phone
      case Address => address
      case City => city
      case District => district
      case PostalCode => postalCode
      case AddressTitle => addressTitle
    }

    /** `{ ...errors, [name]: undefined }`. */
    function Clear(f: Field): (e: AddressErrors)
      ensures e.Get(f) == None
      ensures forall g :: g != f ==> e.Get(g) == Get(g)
    {
      match f
      case FullName => this.(fullName := None)
      case Email => this.(email := None)
      case Phone => this.(phone := None)
      case Address => this.(address := None)
      case City => this.(city := None)
      case District => this.(district := None)
      case PostalCode => this.(postalCode := None)
      case AddressTitle => this.(addressTitle := None)
    }
  }

  /** `{}`: no key set. */
  const NoAddressErrors := AddressErrors(None, None, None, None, None, None, None, None)

  /** The `newErrors` record `validateForm` builds: each field's own error, nothing on the title. */
  function AddressErrorsFor(d: AddressData): AddressErrors {
    AddressErrors(
      RequiredError(d.fullName, FullNameRequired), EmailError(d.email), PhoneError(d.phone),
      RequiredError(d.address, AddressRequired), RequiredError(d.city, CityRequired),
      RequiredError(d.district, DistrictRequired), PostalCodeError(d.postalCode), None)
  }

  /** Each key of the record holds that field's own error. */
  lemma AddressErrorsForGet(d: AddressData, f: Field)
    ensures AddressErrorsFor(d).Get(f) == FieldError(d, f)
  {
  }

  /** A blank field always gets its "required" message, before any format rule is looked at. */
  lemma RequiredTakesPrecedence(d: AddressData, f: Field)
    requires f != AddressTitle && IsBlank(d.Get(f))
    ensures FieldError(d, f) == RequiredMessage(f)
  {
  }

  /** The e-mail field passes exactly when the regular expression matches it. */
  lemma EmailFieldIff(d: AddressData)
    ensures EmailError(d.email) == None <==> MatchesEmailPattern(d.email)
  {
    EmailTestMatchesPattern(d.email);
    BlankIffAllSpaces(d.email);
    if IsValidEmail(d.email) {
      var i := IndexOf(d.email, '@');
      assert !IsSpace(d.email[i]);
    }
  }

  /** The phone field passes exactly when it is 10 or 11 digits once whitespace is deleted. */
  lemma PhoneFieldIff(d: AddressData)
    ensures PhoneError(d.phone) == None <==> IsValidPhone(d.phone)
  {
    BlankIffAllSpaces(d.phone);
    if IsBlank(d.phone) {
      RemoveSpacesAllSpaces(d.phone);
    }
  }

  /** The postal-code field passes exactly when it is five digits as typed. */
  lemma PostalCodeFieldIff(d: AddressData)
    ensures PostalCodeError(d.postalCode) == None <==> IsValidPostalCode(d.postalCode)
  {
    BlankIffAllSpaces(d.postalCode);
    if IsValidPostalCode(d.postalCode) {
      assert !IsSpace(d.postalCode[0]);
    }
  }

  /** The e-mail format message appears exactly on a non-blank address the pattern rejects. */
  lemma EmailFormatMessageIff(email: string)
    ensures EmailError(email) == Some(EmailInvalid) <==> !IsBlank(email) && !MatchesEmailPattern(email)
  {
    EmailTestMatchesPattern(email);
  }

  /** A postal code with surrounding whitespace is not blank but fails the five-digit rule. The
      input's `maxLength={5}` keeps a user from typing such a six-character value; the case shows
      what the validation does with it, not a state the form can reach by typing. */
  lemma PaddedPostalCodeRejected(code: string)
    requires IsValidPostalCode(code)
    ensures PostalCodeError(code + " ") == Some(PostalCodeInvalid)
  {
    assert !IsSpace((code + " ")[0]);
    BlankIffAllSpaces(code + " ");
  }

  /** The rules the whole address must satisfy. */
  ghost predicate AddressRulesHold(d: AddressData) {
    && !IsBlank(d.fullName) && !IsBlank(d.address) && !IsBlank(d.city) && !IsBlank(d.district)
    && MatchesEmailPattern(d.email) && IsValidPhone(d.phone) && IsValidPostalCode(d.postalCode)
  }

  lemma NoErrorsGivesRules(d: AddressData)
    requires AddressErrorsFor(d) == NoAddressErrors
    ensures AddressRulesHold(d)
  {
    EmailFieldIff(d);
    PhoneFieldIff(d);
    PostalCodeFieldIff(d);
  }

  lemma RulesGiveNoErrors(d: AddressData)
    requires AddressRulesHold(d)
    ensures AddressErrorsFor(d) == NoAddressErrors
  {
    EmailFieldIff(d);
    PhoneFieldIff(d);
    PostalCodeFieldIff(d);
    var e := AddressErrorsFor(d);
    assert e.fullName == None && e.address == None && e.city == None && e.district == None;
    assert e.email == None && e.phone == None && e.postalCode == None && e.addressTitle == None;
  }

  /** The whole address is accepted exactly when the four free-text fields are non-blank and the
      e-mail, phone and postal code have the right shape; the title is never checked. */
  lemma AddressAcceptedIff(d: AddressData)
    ensures AddressErrorsFor(d) == NoAddressErrors
        <==> && !IsBlank(d.fullName) && !IsBlank(d.address) && !IsBlank(d.city) && !IsBlank(d.district)
             && MatchesEmailPattern(d.email) && IsValidPhone(d.phone) && IsValidPostalCode(d.postalCode)
  {
    if AddressErrorsFor(d) == NoAddressErrors {
      NoErrorsGivesRules(d);
    }
    if AddressRulesHold(d) {
      RulesGiveNoErrors(d);
    }
  }

  /** The initial form is rejected, with the "required" message on every validated field. */
  lemma InitialAddressRejected()
    ensures forall f :: FieldError(InitialAddress, f) == RequiredMessage(f)
  {
    var d := InitialAddress;
    forall f ensures FieldError(d, f) == RequiredMessage(f) {
      if f != AddressTitle {
        assert d.Get(f) == "" && IsBlank("");
        RequiredTakesPrecedence(d, f);
      }
    }
  }

  // ---------------------------------------------------------------------------------------------
  // The form state
  // ---------------------------------------------------------------------------------------------

  /** The state of `AddressForm`: `formData` and `errors`. */
  class AddressForm {
    var formData: AddressData
    var errors: AddressErrors

    constructor ()
      ensures formData == InitialAddress && formData.addressTitle == "Ev"
      ensures errors == NoAddressErrors
    {
      formData := InitialAddress;
      errors := NoAddressErrors;
    }

    /** `handleChange`: stores the value in the named field and clears that field's error only. */
    method HandleChange(name: Field, value: string)
      modifies this
      ensures formData == old(formData).With(name, value)
      ensures errors == old(errors).Clear(name)
    {
      formData := formData.With(name, value);
      // A recorded message is truthy: its text is never empty.
      if errors.Get(name).Some? && errors.Get(name).value.Text() != "" {
        errors := errors.Clear(name);
      } else {
        assert errors.Clear(name) == errors;
      }
    }

    /** A title button: sets `addressTitle` and leaves the errors alone. */
    method SelectTitle(title: string)
      requires title in AddressTitles
      modifies this
      ensures formData == old(formData).(addressTitle := title)
      ensures errors == old(errors)
    {
      formData := formData.(addressTitle := title);
    }

    /** `validateForm`: builds `newErrors` field by field, stores it and reports whether it has no
        key. */
    method ValidateForm() returns (ok: bool)
      modifies this`errors
      ensures errors == AddressErrorsFor(formData)
      ensures ok <==> errors == NoAddressErrors
    {
      var d := formData;
      var newErrors := NoAddressErrors;
      var fullName := RequiredError(d.fullName, FullNameRequired);
      newErrors := if fullName.Some? then newErrors.(fullName := fullName) else newErrors;
      var email := EmailError(d.email);
      newErrors := if email.Some? then newErrors.(email := email) else newErrors;
      var phone := PhoneError(d.phone);
      newErrors := if phone.Some? then newErrors.(phone := phone) else newErrors;
      var address := RequiredError(d.address, AddressRequired);
      newErrors := if address.Some? then newErrors.(address := address) else newErrors;
      var city := RequiredError(d.city, CityRequired);
      newErrors := if city.Some? then newErrors.(city := city) else newErrors;
      var district := RequiredError(d.district, DistrictRequired);
      newErrors := if district.Some? then newErrors.(district := district) else newErrors;
      var postalCode := PostalCodeError(d.postalCode);
      newErrors := if postalCode.Some? then newErrors.(postalCode := postalCode) else newErrors;
      assert newErrors == AddressErrors(fullName, email, phone, address, city, district, postalCode, None);
      errors := newErrors;
      ok := newErrors == NoAddressErrors;
    }

    /** `handleSubmit`: hands the data on only when validation passes. */
    method Submit() returns (submitted: Option<AddressData>)
      modifies this`errors
      ensures errors == AddressErrorsFor(formData)
      ensures submitted == if errors == NoAddressErrors then Some(formData) else None
    {
      var ok := ValidateForm();
      submitted := if ok then Some(formData) else None;
    }
  }
}
