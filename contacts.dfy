/** The contact record as the client reads it from the remote API, with every
    nested record present (the API is asked to expand Info, Info.InvoiceAddress,
    Info.DefaultPhone and Info.DefaultEmail), the twelve text paths the forms
    edit, and the five server-assigned ids. */
module Contacts {

  datatype Option<T> = None | Some(value: T)

  datatype InvoiceAddress = InvoiceAddress(
    id: int,
    addressLine1: string,
    addressLine2: string,
    city: string,
    country: string,
    countryCode: string,
    postalCode: string)

  datatype DefaultPhone = DefaultPhone(
    id: int,
    countryCode: string,
    description: string,  // "", "Mobile", "Home" or "Work" from the form's select, but any string on the wire
    number: string)

  datatype DefaultEmail = DefaultEmail(id: int, emailAddress: string)

  datatype Info = Info(
    id: int,
    name: string,
    invoiceAddress: InvoiceAddress,
    defaultPhone: DefaultPhone,
    defaultEmail: DefaultEmail)

  datatype Contact = Contact(id: int, info: Info, comment: string)

  /** The text paths of a contact that both forms expose, one per input. */
  datatype Field =
    | Name
    | AddressLine1 | AddressLine2 | City | Country | CountryCode | PostalCode
    | PhoneCountryCode | PhoneDescription | PhoneNumber
    | EmailAddress
    | Comment

  /** The ids of a contact and of each of its nested records. */
  datatype ContactIds = ContactIds(contact: int, info: int, invoiceAddress: int, defaultPhone: int, defaultEmail: int)

  function Ids(c: Contact): ContactIds
  {
    ContactIds(c.id, c.info.id, c.info.invoiceAddress.id, c.info.defaultPhone.id, c.info.defaultEmail.id)
  }

  /** The value at path `f` of contact `c`. */
  function Get(c: Contact, f: Field): string
  {
    match f
    case Name => c.info.name
    case AddressLine1 => c.info.invoiceAddress.addressLine1
    case AddressLine2 => c.info.invoiceAddress.addressLine2
    case City => c.info.invoiceAddress.city
    case Country => c.info.invoiceAddress.country
    case CountryCode => c.info.invoiceAddress.countryCode
    case PostalCode => c.info.invoiceAddress.postalCode
    case PhoneCountryCode => c.info.defaultPhone.countryCode
    case PhoneDescription => c.info.defaultPhone.description
    case PhoneNumber => c.info.defaultPhone.number
    case EmailAddress => c.info.defaultEmail.emailAddress
    case Comment => c.comment
  }

  /** A contact is nothing but its five ids and its twelve text paths. */
  lemma Extensionality(a: Contact, b: Contact)
    requires Ids(a) == Ids(b)
    requires forall f :: Get(a, f) == Get(b, f)
    ensures a == b
  {
    assert Get(a, Name) == Get(b, Name);
    assert Get(a, AddressLine1) == Get(b, AddressLine1);
    assert Get(a, AddressLine2) == Get(b, AddressLine2);
    assert Get(a, City) == Get(b, City);
    assert Get(a, Country) == Get(b, Country);
    assert Get(a, CountryCode) == Get(b, CountryCode);
    assert Get(a, PostalCode) == Get(b, PostalCode);
    assert Get(a, PhoneCountryCode) == Get(b, PhoneCountryCode);
    assert Get(a, PhoneDescription) == Get(b, PhoneDescription);
    assert Get(a, PhoneNumber) == Get(b, PhoneNumber);
    assert Get(a, EmailAddress) == Get(b, EmailAddress);
    assert Get(a, Comment) == Get(b, Comment);
  }

  /** The spread update `{ ...contact, Info: { ...contact.Info, X: { ...contact.Info.X, P: v } } }`
      that each input of the update form performs: path `f` becomes `v`, every other
      path and every id stays as it was. */
  function Set(c: Contact, f: Field, v: string): (r: Contact)
    ensures Get(r, f) == v
    ensures forall g :: g != f ==> Get(r, g) == Get(c, g)
    ensures Ids(r) == Ids(c)
  {
    match f
    case Name => c.(info := c.info.(name := v))
    case AddressLine1 => c.(info := c.info.(invoiceAddress := c.info.invoiceAddress.(addressLine1 := v)))
    case AddressLine2 => c.(info := c.info.(invoiceAddress := c.info.invoiceAddress.(addressLine2 := v)))
    case City => c.(info := c.info.(invoiceAddress := c.info.invoiceAddress.(city := v)))
    case Country => c.(info := c.info.(invoiceAddress := c.info.invoiceAddress.(country := v)))
    case CountryCode => c.(info := c.info.(invoiceAddress := c.info.invoiceAddress.(countryCode := v)))
    case PostalCode => c.(info := c.info.(invoiceAddress := c.info.invoiceAddress.(postalCode := v)))
    case PhoneCountryCode => c.(info := c.info.(defaultPhone := c.info.defaultPhone.(countryCode := v)))
    case PhoneDescription => c.(info := c.info.(defaultPhone := c.info.defaultPhone.(description := v)))
    case PhoneNumber => c.(info := c.info.(defaultPhone := c.info.defaultPhone.(number := v)))
    case EmailAddress => c.(info := c.info.(defaultEmail := c.info.defaultEmail.(emailAddress := v)))
    case Comment => c.(comment := v)
  }

  /** `Set` is the only update with that contract: any contact that keeps the ids,
      holds `v` at `f` and agrees with `c` elsewhere is `Set(c, f, v)`. */
  lemma SetIsUnique(c: Contact, f: Field, v: string, r: Contact)
    requires Ids(r) == Ids(c)
    requires Get(r, f) == v
    requires forall g :: g != f ==> Get(r, g) == Get(c, g)
    ensures r == Set(c, f, v)
  {
    Extensionality(r, Set(c, f, v));
  }

  /** Typing into the same input twice: the last value wins. */
  lemma SetSetSame(c: Contact, f: Field, v: string, w: string)
    ensures Set(Set(c, f, v), f, w) == Set(c, f, w)
  {
    Extensionality(Set(Set(c, f, v), f, w), Set(c, f, w));
  }

  /** Edits to two different inputs do not interfere, whatever their order. */
  lemma SetCommutes(c: Contact, f: Field, v: string, g: Field, w: string)
    requires f != g
    ensures Set(Set(c, f, v), g, w) == Set(Set(c, g, w), f, v)
  {
    Extensionality(Set(Set(c, f, v), g, w), Set(Set(c, g, w), f, v));
  }

  /** Writing back the value already present changes nothing. */
  lemma SetOwnValue(c: Contact, f: Field)
    ensures Set(c, f, Get(c, f)) == c
  {
    Extensionality(Set(c, f, Get(c, f)), c);
  }
}
