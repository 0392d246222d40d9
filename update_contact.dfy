/** The `UpdateContact` form: the loaded contact, the spread-update each input
    performs on it, the PUT payload and the message shown when the PUT fails. */
module UpdateContactForm {
  import opened Contacts

  /** The PUT body: a fresh record that copies every listed path and every id of the
      loaded contact. */
  function UpdatePayload(c: Contact): (p: Contact)
    ensures Ids(p) == Ids(c)
    ensures forall f :: Get(p, f) == Get(c, f)
  {
    Contact(c.id,
      Info(c.info.id, c.info.name,
        InvoiceAddress(c.info.invoiceAddress.id,
          c.info.invoiceAddress.addressLine1, c.info.invoiceAddress.addressLine2,
          c.info.invoiceAddress.city, c.info.invoiceAddress.country,
          c.info.invoiceAddress.countryCode, c.info.invoiceAddress.postalCode),
        DefaultPhone(c.info.defaultPhone.id,
          c.info.defaultPhone.countryCode, c.info.defaultPhone.description, c.info.defaultPhone.number),
        DefaultEmail(c.info.defaultEmail.id, c.info.defaultEmail.emailAddress)),
      c.comment)
  }

  /** Nothing of the modelled contact is lost on the way to the server. */
  lemma UpdatePayloadIsContact(c: Contact)
    ensures UpdatePayload(c) == c
  {
    Extensionality(UpdatePayload(c), c);
  }

  /** One `onChange` event of the form: input `field` now reads `value`. */
  datatype Edit = Edit(field: Field, value: string)

  /** The value path `f` holds after the edits `es`, starting from `d`: that of the
      last edit to `f`, or `d` if there is none. */
  function LastValue(es: seq<Edit>, f: Field, d: string): string
    decreases |es|
  {
    if es == [] then d
    else LastValue(es[1..], f, if es[0].field == f then es[0].value else d)
  }

  /** The loaded contact after a session of edits, applied in order. */
  function ApplyEdits(c: Contact, es: seq<Edit>): (r: Contact)
    ensures Ids(r) == Ids(c)
    ensures forall f :: Get(r, f) == LastValue(es, f, Get(c, f))
    decreases |es|
  {
    if es == [] then c
    else ApplyEdits(Set(c, es[0].field, es[0].value), es[1..])
  }

  /** However many fields were edited, the PUT still carries every original id, and
      each path holds its last typed value. */
  lemma EditedPayload(c: Contact, es: seq<Edit>)
    ensures Ids(UpdatePayload(ApplyEdits(c, es))) == Ids(c)
    ensures forall f :: Get(UpdatePayload(ApplyEdits(c, es)), f) == LastValue(es, f, Get(c, f))
  {
  }

  /** A path nobody typed into keeps its loaded value. */
  lemma {:induction false} UntouchedPathKept(es: seq<Edit>, f: Field, d: string)
    requires forall i :: 0 <= i < |es| ==> es[i].field != f
    ensures LastValue(es, f, d) == d
    decreases |es|
  {
    if es != [] {
      UntouchedPathKept(es[1..], f, d);
    }
  }

  /** A path typed into holds the value of the last edit that targets it. */
  lemma {:induction false} LastEditWins(es: seq<Edit>, i: int, f: Field, d: string)
    requires 0 <= i < |es| && es[i].field == f
    requires forall j :: i < j < |es| ==> es[j].field != f
    ensures LastValue(es, f, d) == es[i].value
    decreases i
  {
    var rest := es[1..];
    if i == 0 {
      forall j | 0 <= j < |rest| ensures rest[j].field != f {
        assert rest[j] == es[j + 1];
      }
      UntouchedPathKept(rest, f, es[0].value);
    } else {
      forall j | i - 1 < j < |rest| ensures rest[j].field != f {
        assert rest[j] == es[j + 1];
      }
      assert rest[i - 1] == es[i];
      LastEditWins(rest, i - 1, f, if es[0].field == f then es[0].value else d);
    }
  }

  /** One element of the structured error body. */
  datatype ApiMessage = ApiMessage(message: string)

  /** The JSON body of a rejected PUT: `{ "Messages": [ { "Message": ... }, ... ] }`. */
  datatype ErrorBody = ErrorBody(messages: seq<ApiMessage>)

  const ErrorPrefix: string := "Error: "

  /** The alert text for a rejected PUT: the prefix and the first message's text.
      With an empty message list the handler fails on `Messages[0].Message` before
      any alert, which is `None` here. */
  function ErrorMessage(body: ErrorBody): (r: Option<string>)
    ensures r.Some? <==> |body.messages| > 0
    ensures r.Some? ==> |r.value| >= |ErrorPrefix| && r.value[..|ErrorPrefix|] == ErrorPrefix
    ensures r.Some? ==> r.value[|ErrorPrefix|..] == body.messages[0].message
  {
    if |body.messages| == 0 then None else Some(ErrorPrefix + body.messages[0].message)
  }

  /** Only the first message is shown; the rest of the list is ignored. */
  lemma ErrorMessageIgnoresRest(m: ApiMessage, rest1: seq<ApiMessage>, rest2: seq<ApiMessage>)
    ensures ErrorMessage(ErrorBody([m] + rest1)) == ErrorMessage(ErrorBody([m] + rest2))
  {
  }

  /** Different first messages give different alerts. */
  lemma ErrorMessageInjective(a: ErrorBody, b: ErrorBody)
    requires ErrorMessage(a) == ErrorMessage(b) && ErrorMessage(a).Some?
    ensures a.messages[0] == b.messages[0]
  {
    assert a.messages[0].message == ErrorMessage(a).value[|ErrorPrefix|..];
  }

  /** A 400 answer with one message "Name is required" is shown as "Error: Name is required". */
  lemma ErrorMessageExample()
    ensures ErrorMessage(ErrorBody([ApiMessage("Name is required")])) == Some("Error: Name is required")
  {
    assert ErrorPrefix + "Name is required" == "Error: Name is required";
  }

  /** The answer to the PUT. */
  datatype PutOutcome = Saved | Rejected(body: ErrorBody)

  /** The state of one `UpdateContact` form: `null` until the fetch succeeds. */
  class UpdateContact {
    var contact: Option<Contact>

    constructor ()
      ensures contact == None
    {
      contact := None;
    }

    /** The outcome of the fetch on mount: a successful response becomes the edited
        contact; a failed one leaves the form loading. */
    method FetchOutcome(fetched: Contact, ok: bool)
      modifies this
      ensures contact == if ok then Some(fetched) else old(contact)
    {
      if ok {
        contact := Some(fetched);
      }
    }

    /** The `onChange` handler of one input. The inputs are only rendered once the
        contact is loaded. */
    method Change(f: Field, v: string)
      requires contact.Some?
      modifies this
      ensures contact.Some?
      ensures contact.value == Set(old(contact.value), f, v)
      ensures Ids(contact.value) == Ids(old(contact.value))
      ensures Get(contact.value, f) == v
      ensures forall g :: g != f ==> Get(contact.value, g) == Get(old(contact.value), g)
    {
      contact := Some(Set(contact.value, f, v));
    }

    /** `updateContact` on submit: send the payload built from the loaded contact;
        on success go back to the list, on failure alert the first error message.
        The contact itself is not changed. */
    method Submit(outcome: PutOutcome) returns (payload: Contact, alert: Option<string>, backToList: bool)
      requires contact.Some?
      ensures Ids(payload) == Ids(contact.value)
      ensures forall f :: Get(payload, f) == Get(contact.value, f)
      ensures backToList <==> outcome.Saved?
      ensures alert == if outcome.Saved? then None else ErrorMessage(outcome.body)
    {
      payload := UpdatePayload(contact.value);
      match outcome
      case Saved =>
        alert, backToList := None, true;
      case Rejected(body) =>
        alert, backToList := ErrorMessage(body), false;
    }
  }
}
