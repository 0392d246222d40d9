/** The `ContactList` view: the search filter, the expand/collapse toggle and the
    local effect of a delete on the loaded contacts. */
module ContactListView {
  import opened Contacts
  import opened Text
  import opened Seqs

  /** The search predicate: at least one of six fields contains the term. Name, email
      address, address line 1, city and country are compared after lowering both
      sides; the phone number is compared raw against the raw term. */
  function Matches(c: Contact, term: string): (b: bool)
    ensures b <==>
      || IsSubstring(Lower(term), Lower(c.info.name))
      || IsSubstring(Lower(term), Lower(c.info.defaultEmail.emailAddress))
      || IsSubstring(term, c.info.defaultPhone.number)
      || IsSubstring(Lower(term), Lower(c.info.invoiceAddress.addressLine1))
      || IsSubstring(Lower(term), Lower(c.info.invoiceAddress.city))
      || IsSubstring(Lower(term), Lower(c.info.invoiceAddress.country))
  {
    var t := Lower(term);
    IncludesIsSubstring(Lower(c.info.name), t);
    IncludesIsSubstring(Lower(c.info.defaultEmail.emailAddress), t);
    IncludesIsSubstring(c.info.defaultPhone.number, term);
    IncludesIsSubstring(Lower(c.info.invoiceAddress.addressLine1), t);
    IncludesIsSubstring(Lower(c.info.invoiceAddress.city), t);
    IncludesIsSubstring(Lower(c.info.invoiceAddress.country), t);
    || Includes(Lower(c.info.name), t)
    || Includes(Lower(c.info.defaultEmail.emailAddress), t)
    || Includes(c.info.defaultPhone.number, term)
    || Includes(Lower(c.info.invoiceAddress.addressLine1), t)
    || Includes(Lower(c.info.invoiceAddress.city), t)
    || Includes(Lower(c.info.invoiceAddress.country), t)
  }

  /** `filteredContacts`: the contacts that match, in their loaded order. The empty
      term keeps every contact. */
  function FilteredContacts(contacts: seq<Contact>, term: string): (r: seq<Contact>)
    ensures forall c :: c in r <==> c in contacts && Matches(c, term)
    ensures forall c :: multiset(r)[c] == if Matches(c, term) then multiset(contacts)[c] else 0
    ensures Subsequence(r, contacts)
    ensures term == "" ==> r == contacts
  {
    var p := (c: Contact) => Matches(c, term);
    if term == "" then
      assert forall c :: c in contacts ==> p(c) by {
        forall c | c in contacts ensures p(c) {
          IncludesEmpty(Lower(c.info.name));
        }
      }
      FilterKeepsAll(contacts, p);
      Filter(contacts, p)
    else
      Filter(contacts, p)
  }

  /** The case of the search term matters only through the raw phone comparison; when
      the phone number holds no letters (the usual case), two terms that differ only
      in case select the same contacts. */
  lemma {:induction false} TermCaseIrrelevant(c: Contact, t1: string, t2: string)
    requires Lower(t1) == Lower(t2)
    requires NoLetters(c.info.defaultPhone.number)
    ensures Matches(c, t1) <==> Matches(c, t2)
  {
    var phone := c.info.defaultPhone.number;
    if IsSubstring(t1, phone) {
      SubstringNoLetters(t1, phone);
      SameLowerNoLetters(t1, t2);
    } else if IsSubstring(t2, phone) {
      SubstringNoLetters(t2, phone);
      SameLowerNoLetters(t2, t1);
    }
  }

  /** `toggleContactDetails`: collapse when the clicked contact is the expanded one,
      otherwise expand the clicked contact (collapsing any other). */
  function Toggled(expanded: Option<int>, contactId: int): (r: Option<int>)
    ensures r == None || r == Some(contactId)
    ensures r == None <==> expanded == Some(contactId)
  {
    if expanded == Some(contactId) then None else Some(contactId)
  }

  /** Clicking the same contact twice restores the previous state only when that
      contact was expanded or nothing was; a previously expanded other contact ends
      up collapsed. */
  lemma ToggleTwice(expanded: Option<int>, contactId: int)
    ensures Toggled(Toggled(expanded, contactId), contactId) ==
      if expanded == Some(contactId) then Some(contactId) else None
    ensures expanded == None || expanded == Some(contactId) ==>
      Toggled(Toggled(expanded, contactId), contactId) == expanded
  {
  }

  /** The list after a successful DELETE of `contactId`:
      `contacts.filter(contact => contact.ID !== contactId)`. */
  function Without(contacts: seq<Contact>, contactId: int): (r: seq<Contact>)
    ensures forall c :: c in r ==> c.id != contactId
    ensures forall c :: c in contacts && c.id != contactId ==> c in r
    ensures forall c: Contact :: c.id != contactId ==> multiset(r)[c] == multiset(contacts)[c]
    ensures Subsequence(r, contacts)
  {
    Filter(contacts, (c: Contact) => c.id != contactId)
  }

  predicate HasId(contacts: seq<Contact>, contactId: int)
  {
    exists i :: 0 <= i < |contacts| && contacts[i].id == contactId
  }

  /** Deleting from the list and then searching shows what searching and then
      deleting from the search result shows. */
  lemma DeleteThenSearch(contacts: seq<Contact>, contactId: int, term: string)
    ensures FilteredContacts(Without(contacts, contactId), term) == Without(FilteredContacts(contacts, term), contactId)
  {
    FilterCommutes(contacts, (c: Contact) => c.id != contactId, (c: Contact) => Matches(c, term));
  }

  /** The server gives every contact its own id. */
  ghost predicate UniqueIds(contacts: seq<Contact>)
  {
    forall i, j :: 0 <= i < j < |contacts| ==> contacts[i].id != contacts[j].id
  }

  /** Deleting an id nobody has leaves the list as it is. */
  lemma {:induction false} WithoutAbsent(contacts: seq<Contact>, contactId: int)
    requires !HasId(contacts, contactId)
    ensures Without(contacts, contactId) == contacts
    decreases |contacts|
  {
    if contacts != [] {
      forall i | 0 <= i < |contacts[1..]| ensures contacts[1..][i].id != contactId {
        assert contacts[1..][i] == contacts[i + 1];
      }
      WithoutAbsent(contacts[1..], contactId);
    }
  }

  /** With unique ids, a successful delete of a listed contact removes exactly one entry. */
  lemma {:induction false} WithoutRemovesOne(contacts: seq<Contact>, contactId: int)
    requires UniqueIds(contacts)
    requires HasId(contacts, contactId)
    ensures |Without(contacts, contactId)| == |contacts| - 1
    decreases |contacts|
  {
    var rest := contacts[1..];
    assert UniqueIds(rest) by {
      forall i, j | 0 <= i < j < |rest| ensures rest[i].id != rest[j].id {
        assert rest[i] == contacts[i + 1] && rest[j] == contacts[j + 1];
      }
    }
    if contacts[0].id == contactId {
      forall i | 0 <= i < |rest| ensures rest[i].id != contactId {
        assert rest[i] == contacts[i + 1];
      }
      WithoutAbsent(rest, contactId);
    } else {
      assert HasId(rest, contactId) by {
        var i :| 0 <= i < |contacts| && contacts[i].id == contactId;
        assert rest[i - 1].id == contactId;
      }
      WithoutRemovesOne(rest, contactId);
    }
  }

  /** Two deletes that overlap both filter the list captured at their clicks: when
      `a` and then `b` are deleted from `[a, b]` before the first answer arrives, the
      second answer puts `a` back. */
  lemma OverlappingDeletesRestore(a: Contact, b: Contact)
    requires a.id != b.id
    ensures Without([a, b], a.id) == [b]
    ensures Without([a, b], b.id) == [a]
  {
    assert [a, b][1..] == [b];
    assert [b][1..] == [];
  }

  /** A contact with only the fields a search looks at filled in; the nested ids and
      the other texts are left at 0 and "". */
  const Ann := Contact(1, Info(0, "Ann",
    InvoiceAddress(0, "Main St", "", "Oslo", "Norway", "", ""),
    DefaultPhone(0, "", "", "12345678"),
    DefaultEmail(0, "ann@x.com")), "")

  /** Searching "oslo" finds Ann through her city. */
  lemma SearchExampleHit()
    ensures FilteredContacts([Ann], "oslo") == [Ann]
  {
    assert Lower("Oslo") == "oslo";
    assert Lower("oslo") == "oslo";
    assert Includes(Lower(Ann.info.invoiceAddress.city), Lower("oslo"));
    FilterKeepsAll([Ann], (c: Contact) => Matches(c, "oslo"));
  }

  /** A term whose first character is a lower-case letter that appears, in neither
      case, in any searched text of `c` nor in its phone number, does not match `c`. */
  lemma AbsentLetterNoMatch(c: Contact, term: string)
    requires |term| > 0 && 'a' <= term[0] <= 'z'
    requires var up := (term[0] as int - 32) as char;
      && term[0] !in c.info.name && up !in c.info.name
      && term[0] !in c.info.defaultEmail.emailAddress && up !in c.info.defaultEmail.emailAddress
      && term[0] !in c.info.defaultPhone.number
      && term[0] !in c.info.invoiceAddress.addressLine1 && up !in c.info.invoiceAddress.addressLine1
      && term[0] !in c.info.invoiceAddress.city && up !in c.info.invoiceAddress.city
      && term[0] !in c.info.invoiceAddress.country && up !in c.info.invoiceAddress.country
    ensures !Matches(c, term)
  {
    var t := Lower(term);
    assert t[0] == term[0];
    LetterAbsentNotFound(c.info.name, t);
    LetterAbsentNotFound(c.info.defaultEmail.emailAddress, t);
    forall i | 0 <= i < |c.info.defaultPhone.number| ensures c.info.defaultPhone.number[i] != term[0] {
      assert c.info.defaultPhone.number[i] in c.info.defaultPhone.number;
    }
    FirstCharAbsent(c.info.defaultPhone.number, term);
    LetterAbsentNotFound(c.info.invoiceAddress.addressLine1, t);
    LetterAbsentNotFound(c.info.invoiceAddress.city, t);
    LetterAbsentNotFound(c.info.invoiceAddress.country, t);
  }

  /** Ann has no 'z' or 'Z' in any searched field. */
  lemma AnnMissesZz()
    ensures !Matches(Ann, "zz")
  {
    AbsentLetterNoMatch(Ann, "zz");
  }

  /** Searching "zz" finds nobody. */
  lemma SearchExampleMiss()
    ensures FilteredContacts([Ann], "zz") == []
  {
    AnnMissesZz();
    FilterDropsAll([Ann], (c: Contact) => Matches(c, "zz"));
  }

  /** The state of one `ContactList` view. */
  class ContactList {
    var contacts: seq<Contact>
    var expandedContactId: Option<int>
    var searchTerm: string

    constructor ()
      ensures contacts == [] && expandedContactId == None && searchTerm == ""
    {
      contacts := [];
      expandedContactId := None;
      searchTerm := "";
    }

    /** The contacts the view lists for the current search term. */
    function Visible(): (r: seq<Contact>)
      reads this
      ensures forall c :: c in r <==> c in contacts && Matches(c, searchTerm)
      ensures forall c :: multiset(r)[c] == if Matches(c, searchTerm) then multiset(contacts)[c] else 0
      ensures Subsequence(r, contacts)
    {
      FilteredContacts(contacts, searchTerm)
    }

    /** The outcome of the fetch on mount: a successful response replaces the list,
        a failed one leaves it as it was. */
    method FetchOutcome(fetched: seq<Contact>, ok: bool)
      modifies this
      ensures contacts == if ok then fetched else old(contacts)
      ensures expandedContactId == old(expandedContactId) && searchTerm == old(searchTerm)
    {
      if ok {
        contacts := fetched;
      }
    }

    /** Typing into the search box. */
    method SetSearchTerm(term: string)
      modifies this
      ensures searchTerm == term
      ensures contacts == old(contacts) && expandedContactId == old(expandedContactId)
    {
      searchTerm := term;
    }

    /** Clicking a contact's summary line. */
    method ToggleContactDetails(contactId: int)
      modifies this
      ensures expandedContactId == Toggled(old(expandedContactId), contactId)
      ensures expandedContactId == None || expandedContactId == Some(contactId)
      ensures contacts == old(contacts) && searchTerm == old(searchTerm)
    {
      expandedContactId := Toggled(expandedContactId, contactId);
    }

    /** The local effect of `deleteContact` once the DELETE has answered. The handler
        filters `seen`, the list it captured when the button was clicked, not the list
        as it stands when the answer arrives: on success every contact of `seen` with
        that id is dropped, on failure nothing changes. The expanded id is not reset.
        Handlers that run one after another pass `seen == contacts`. */
    method DeleteOutcome(seen: seq<Contact>, contactId: int, ok: bool)
      modifies this
      ensures ok ==> contacts == Without(seen, contactId)
      ensures ok ==> forall c :: c in contacts ==> c.id != contactId
      ensures !ok ==> contacts == old(contacts)
      ensures expandedContactId == old(expandedContactId) && searchTerm == old(searchTerm)
    {
      if ok {
        contacts := Without(seen, contactId);
      }
    }
  }
}
