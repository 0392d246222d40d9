/** The `NewContact` form: twelve flat text fields, the nested POST payload built
    from them, and the reset that follows a successful create. */
module NewContactForm {
  import opened Contacts

  // The POST body. It has the nested shape of a contact but no id at any level:
  // the server assigns every id.
  datatype AddressDraft = AddressDraft(
    addressLine1: string,
    addressLine2: string,
    city: string,
    country: string,
    countryCode: string,
    postalCode: string)

  datatype PhoneDraft = PhoneDraft(countryCode: string, description: string, number: string)

  datatype EmailDraft = EmailDraft(emailAddress: string)

  datatype InfoDraft = InfoDraft(
    name: string,
    invoiceAddress: AddressDraft,
    defaultPhone: PhoneDraft,
    defaultEmail: EmailDraft)

  datatype CreatePayload = CreatePayload(info: InfoDraft, comment: string)

  /** The value at path `f` of a payload. */
  function PayloadGet(p: CreatePayload, f: Field): string
  {
    match f
    case Name => p.info.name
    case AddressLine1 => p.info.invoiceAddress.addressLine1
    case AddressLine2 => p.info.invoiceAddress.addressLine2
    case City => p.info.invoiceAddress.city
    case Country => p.info.invoiceAddress.country
    case CountryCode => p.info.invoiceAddress.countryCode
    case PostalCode => p.info.invoiceAddress.postalCode
    case PhoneCountryCode => p.info.defaultPhone.countryCode
    case PhoneDescription => p.info.defaultPhone.description
    case PhoneNumber => p.info.defaultPhone.number
    case EmailAddress => p.info.defaultEmail.emailAddress
    case Comment => p.comment
  }

  /** A payload is nothing but its twelve text paths. */
  lemma PayloadExtensionality(a: CreatePayload, b: CreatePayload)
    requires forall f :: PayloadGet(a, f) == PayloadGet(b, f)
    ensures a == b
  {
    assert PayloadGet(a, Name) == PayloadGet(b, Name);
    assert PayloadGet(a, AddressLine1) == PayloadGet(b, AddressLine1);
    assert PayloadGet(a, AddressLine2) == PayloadGet(b, AddressLine2);
    assert PayloadGet(a, City) == PayloadGet(b, City);
    assert PayloadGet(a, Country) == PayloadGet(b, Country);
    assert PayloadGet(a, CountryCode) == PayloadGet(b, CountryCode);
    assert PayloadGet(a, PostalCode) == PayloadGet(b, PostalCode);
    assert PayloadGet(a, PhoneCountryCode) == PayloadGet(b, PhoneCountryCode);
    assert PayloadGet(a, PhoneDescription) == PayloadGet(b, PhoneDescription);
    assert PayloadGet(a, PhoneNumber) == PayloadGet(b, PhoneNumber);
    assert PayloadGet(a, EmailAddress) == PayloadGet(b, EmailAddress);
    assert PayloadGet(a, Comment) == PayloadGet(b, Comment);
  }

  /** Re-attaching five ids to a POST body: the contact the server stores when it
      keeps the body as sent under fresh ids. */
  function WithIds(p: CreatePayload, ids: ContactIds): (c: Contact)
    ensures Ids(c) == ids
    ensures forall f :: Get(c, f) == PayloadGet(p, f)
  {
    Contact(ids.contact,
      Info(ids.info, p.info.name,
        InvoiceAddress(ids.invoiceAddress,
          p.info.invoiceAddress.addressLine1, p.info.invoiceAddress.addressLine2,
          p.info.invoiceAddress.city, p.info.invoiceAddress.country,
          p.info.invoiceAddress.countryCode, p.info.invoiceAddress.postalCode),
        DefaultPhone(ids.defaultPhone,
          p.info.defaultPhone.countryCode, p.info.defaultPhone.description, p.info.defaultPhone.number),
        DefaultEmail(ids.defaultEmail, p.info.defaultEmail.emailAddress)),
      p.comment)
  }

  /** A contact with its ids stripped: the texts a create would have to submit to obtain it. */
  function DraftOf(c: Contact): (p: CreatePayload)
    ensures forall f :: PayloadGet(p, f) == Get(c, f)
  {
    CreatePayload(
      InfoDraft(c.info.name,
        AddressDraft(
          c.info.invoiceAddress.addressLine1, c.info.invoiceAddress.addressLine2,
          c.info.invoiceAddress.city, c.info.invoiceAddress.country,
          c.info.invoiceAddress.countryCode, c.info.invoiceAddress.postalCode),
        PhoneDraft(c.info.defaultPhone.countryCode, c.info.defaultPhone.description, c.info.defaultPhone.number),
        EmailDraft(c.info.defaultEmail.emailAddress)),
      c.comment)
  }

  /** Stripping the ids undoes re-attaching them: no text of the body is lost. */
  lemma DraftOfWithIds(p: CreatePayload, ids: ContactIds)
    ensures DraftOf(WithIds(p, ids)) == p
  {
    PayloadExtensionality(DraftOf(WithIds(p, ids)), p);
  }

  /** A contact is its ids plus its draft. */
  lemma WithIdsDraftOf(c: Contact)
    ensures WithIds(DraftOf(c), Ids(c)) == c
  {
    Extensionality(WithIds(DraftOf(c), Ids(c)), c);
  }

  /** The state of one `NewContact` form: the twelve `useState` strings. */
  class NewContact {
    var name: string
    var addressLine1: string
    var addressLine2: string
    var city: string
    var country: string
    var countryCode: string
    var postalCode: string
    var phoneCountryCode: string
    var phoneDescription: string
    var phoneNumber: string
    var email: string
    var comment: string

    /** The form field that feeds payload path `f`. */
    function Value(f: Field): string
      reads this
    {
      match f
      case Name => name
      case AddressLine1 => addressLine1
      case AddressLine2 => addressLine2
      case City => city
      case Country => country
      case CountryCode => countryCode
      case PostalCode => postalCode
      case PhoneCountryCode => phoneCountryCode
      case PhoneDescription => phoneDescription
      case PhoneNumber => phoneNumber
      case EmailAddress => email
      case Comment => comment
    }

    /** Every field starts empty. */
    constructor ()
      ensures forall f :: Value(f) == ""
    {
      name, addressLine1, addressLine2, city, country, countryCode := "", "", "", "", "", "";
      postalCode, phoneCountryCode, phoneDescription, phoneNumber, email, comment := "", "", "", "", "", "";
    }

    /** The POST body: every nested path holds the flat field of the same name. */
    function Payload(): (p: CreatePayload)
      reads this
      ensures forall f :: PayloadGet(p, f) == Value(f)
    {
      CreatePayload(
        InfoDraft(name,
          AddressDraft(addressLine1, addressLine2, city, country, countryCode, postalCode),
          PhoneDraft(phoneCountryCode, phoneDescription, phoneNumber),
          EmailDraft(email)),
        comment)
    }

    /** The `onChange` handler of one input: that field takes the typed value. */
    method Change(f: Field, v: string)
      modifies this
      ensures Value(f) == v
      ensures forall g :: g != f ==> Value(g) == old(Value(g))
    {
      match f
      case Name => name := v;
      case AddressLine1 => addressLine1 := v;
      case AddressLine2 => addressLine2 := v;
      case City => city := v;
      case Country => country := v;
      case CountryCode => countryCode := v;
      case PostalCode => postalCode := v;
      case PhoneCountryCode => phoneCountryCode := v;
      case PhoneDescription => phoneDescription := v;
      case PhoneNumber => phoneNumber := v;
      case EmailAddress => email := v;
      case Comment => comment := v;
    }

    /** `createContact`: submit the payload built from the current fields; when the
        POST succeeds and its body parses (`ok`) clear every field, otherwise keep
        what was typed. */
    method CreateContact(ok: bool) returns (payload: CreatePayload)
      modifies this
      ensures payload == old(Payload())
      ensures forall f :: PayloadGet(payload, f) == old(Value(f))
      ensures ok ==> forall f :: Value(f) == ""
      ensures !ok ==> forall f :: Value(f) == old(Value(f))
    {
      payload := Payload();
      if ok {
        name := "";
        addressLine1 := "";
        addressLine2 := "";
        city := "";
        country := "";
        countryCode := "";
        postalCode := "";
        phoneCountryCode := "";
        phoneDescription := "";
        phoneNumber := "";
        email := "";
        comment := "";
      }
    }
  }
}
