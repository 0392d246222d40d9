# Contact state handling of the contact-management client

This project models, in Dafny, the client-side state logic of a small browser
client for a remote contact API (`src/App.tsx`): the search filter and the
expand/collapse toggle of the contact list, the local effect of a delete, the
create form (twelve flat fields, the nested POST payload, the reset after a
successful create) and the update form (one spread-update per input, the PUT
payload that carries every nested id, the alert text for a rejected PUT).

Network calls are not modelled: each handler is modelled from the point where
its response has arrived. The response is an input: a success flag, the fetched
contacts, or the error body.

Modules:

- `Contacts` (contacts.dfy): the `Contact` record with its nested `Info`,
  `InvoiceAddress`, `DefaultPhone` and `DefaultEmail`. Also the twelve editable
  text paths (`Field`), reading a path (`Get`), the spread-update of one path
  (`Set`) and the five ids (`Ids`).
- `Text` (text.dfy): lower-casing, and `includes` as a decision procedure for
  the substring relation.
- `Seqs` (seqs.dfy): `Array.prototype.filter` as `Filter`, with the order it
  keeps (`Subsequence`).
- `ContactListView` (contact_list.dfy): the filter predicate and
  `filteredContacts`, `toggleContactDetails`, the list after a delete, and the
  `ContactList` class that holds `contacts`, `expandedContactId` and
  `searchTerm`.
- `NewContactForm` (new_contact.dfy): the id-free POST payload and the
  `NewContact` class with its twelve fields.
- `UpdateContactForm` (update_contact.dfy): the PUT payload, a session of
  edits, the error alert, and the `UpdateContact` class that holds the loaded
  contact.

Assumptions:

- Lower-casing is ASCII-only: `'A'..'Z'` map to `'a'..'z'` and every other
  character is left unchanged. JavaScript's `toLowerCase` covers all of Unicode.
- Every nested record of a loaded contact is present. The source reads them
  without guards.
- Every listed text field of a loaded contact is a string. The search reads the
  name, email address, phone number, address line 1, city and country without
  guards (src/App.tsx:102-107).
- The server stores a POST body as sent, under fresh ids. `WithIds` is that
  store; the client itself only builds the id-free body.
- Ids are unbounded integers.
- The body of a rejected PUT has a `Messages` array whose entries carry a string
  `Message`. Without `Messages` the handler throws at src/App.tsx:361 and shows
  no alert; a non-string `Message` would be shown as, for example,
  `"Error: undefined"`.

Two consequences of the code that are easy to miss:

- Toggling the same id twice restores the previous expanded id only when that
  was `null` or the same id; if another contact was expanded, two toggles leave
  nothing expanded (`ToggleTwice`).
- A successful delete removes every listed contact with the deleted id, keeping
  the rest in order; that is exactly one when ids are unique
  (`WithoutRemovesOne`).

## Model

| member | source | states |
|---|---|---|
| Text.Lower | src/App.tsx:102-107 | lowering keeps the length and lowers each character in place |
| Text.IncludesIsSubstring | src/App.tsx:102-107 | `includes` holds exactly when the term occurs at some position of the field |
| Seqs.Filter | src/App.tsx:90 | `filter` keeps exactly the elements that satisfy the predicate: each one as often as it occurs in the input, in input order, and nothing else |
| Seqs.FilterCommutes | src/App.tsx:90 | two filters applied one after the other give the same result in either order |
| ContactListView.Matches | src/App.tsx:101-108 | a contact matches exactly when the lowered term is a substring of the lowered name, email address, address line 1, city or country, or the raw term is a substring of the raw phone number |
| ContactListView.FilteredContacts | src/App.tsx:101-108 | the filtered list holds exactly the matching contacts, with their multiplicities, as a subsequence of the loaded list; the empty term keeps the whole list |
| ContactListView.TermCaseIrrelevant | src/App.tsx:102-107 | two terms with the same lowering match the same contacts whenever the phone number holds no letters; case matters only through the raw phone comparison |
| ContactListView.AbsentLetterNoMatch | src/App.tsx:101-108 | a term that starts with a letter found in no searched field, in either case, matches nothing |
| ContactListView.SearchExampleHit | src/App.tsx:101-108 | searching "oslo" over Ann (city "Oslo") keeps Ann |
| ContactListView.AnnMissesZz | src/App.tsx:101-108 | Ann does not match "zz" |
| ContactListView.SearchExampleMiss | src/App.tsx:101-108 | searching "zz" over Ann leaves an empty list (the "no contacts found" state) |
| ContactListView.Toggled | src/App.tsx:79-81 | after a toggle of `c` the expanded id is `null` or `c`; it is `null` exactly when `c` was expanded |
| ContactListView.ToggleTwice | src/App.tsx:79-81 | two toggles of `c` give back `c` if `c` was expanded and `null` otherwise; so they restore the prior state only if it was `null` or `c` |
| ContactListView.Without | src/App.tsx:90 | after a successful delete of `id` no contact with that id is left; every other contact stays, with its multiplicity and in order |
| ContactListView.WithoutAbsent | src/App.tsx:90 | deleting an id that no contact has leaves the list unchanged |
| ContactListView.WithoutRemovesOne | src/App.tsx:89-91 | with unique ids, deleting a listed id shortens the list by exactly one |
| ContactListView.DeleteThenSearch | src/App.tsx:90-108 | deleting then filtering gives the same list as filtering then deleting |
| ContactListView.ContactList.constructor | src/App.tsx:56-59 | the view starts with no contacts, nothing expanded and an empty search term |
| ContactListView.ContactList.Visible | src/App.tsx:101-108 | the rendered list is the matching part of the loaded contacts, each as often as it is loaded, in order |
| ContactListView.ContactList.FetchOutcome | src/App.tsx:67-73 | a successful fetch replaces the list; a failed one leaves it unchanged |
| ContactListView.ContactList.SetSearchTerm | src/App.tsx:118 | typing sets the search term and changes nothing else |
| ContactListView.ContactList.ToggleContactDetails | src/App.tsx:79-81 | the expanded id becomes `Toggled` of the old one (so `null` or the clicked id); the list and the term are unchanged |
| ContactListView.ContactList.DeleteOutcome | src/App.tsx:83-94 | on success the list becomes `Without(seen, id)`, where `seen` is the list captured at the click (the current list when handlers run one after another); on failure it is unchanged; the expanded id and the term are never touched |
| ContactListView.OverlappingDeletesRestore | src/App.tsx:83-90 | deleting `a` and then `b` from `[a, b]` with both requests in flight: the first answer leaves `[b]`, the second `[a]`, so `a` comes back |
| Contacts.Extensionality | src/App.tsx:318-344 | a contact is determined by its five ids and its twelve text paths |
| Contacts.Set | src/App.tsx:374-438 | an edit writes `v` at path `f`; every other path and all five ids stay as they were |
| Contacts.SetIsUnique | src/App.tsx:374-438 | any contact that keeps the ids, holds `v` at `f` and agrees elsewhere equals `Set(c, f, v)` |
| Contacts.SetSetSame | src/App.tsx:374-438 | two edits of the same input: the last value wins |
| Contacts.SetCommutes | src/App.tsx:374-438 | edits of two different inputs commute |
| Contacts.SetOwnValue | src/App.tsx:374-438 | writing back a path's current value changes nothing |
| NewContactForm.WithIds | src/App.tsx:163-184 | re-attaching ids to the POST body (the server's store, as assumed above) gives a contact with those ids and the body's texts at every path: the body type is a contact minus its five ids |
| NewContactForm.DraftOf | src/App.tsx:163-184 | stripping a contact's ids gives an id-free payload with the same texts at every path |
| NewContactForm.WithIdsDraftOf | src/App.tsx:163-184 | a contact is exactly its ids plus its id-free draft |
| NewContactForm.NewContact.constructor | src/App.tsx:147-158 | all twelve fields start as `''` |
| NewContactForm.NewContact.Payload | src/App.tsx:163-184 | every nested payload path, `Comment` included, holds the flat field of the same name; the payload type has no id at any level |
| NewContactForm.NewContact.Change | src/App.tsx:221-285 | an input's `onChange` sets its own field and leaves the other eleven alone |
| NewContactForm.NewContact.CreateContact | src/App.tsx:160-213 | the submitted payload is built from the pre-submit fields; after success all twelve fields are `''`; after failure all twelve keep their values |
| UpdateContactForm.UpdatePayload | src/App.tsx:318-344 | the PUT body carries the loaded contact's `ID`, `Info.ID`, `InvoiceAddress.ID`, `DefaultPhone.ID` and `DefaultEmail.ID`, and every listed text path, unchanged |
| UpdateContactForm.UpdatePayloadIsContact | src/App.tsx:318-344 | the PUT body equals the loaded contact as modelled: nothing modelled is lost |
| UpdateContactForm.ApplyEdits | src/App.tsx:374-438 | after any sequence of edits all five ids are the loaded ones, and each path holds the last value typed into it, or its loaded value |
| UpdateContactForm.EditedPayload | src/App.tsx:318-438 | whatever was edited, the PUT still submits every original id, and each path holds its last edited value |
| UpdateContactForm.UntouchedPathKept | src/App.tsx:374-438 | a path that no edit targets keeps its loaded value |
| UpdateContactForm.LastEditWins | src/App.tsx:374-438 | if `es[i]` is the last edit to path `f`, the path ends up holding `es[i].value` |
| UpdateContactForm.ErrorMessage | src/App.tsx:359-361 | a rejected PUT alerts `"Error: "` followed by exactly `Messages[0].Message`; with no messages there is no alert (the handler fails first) |
| UpdateContactForm.ErrorMessageIgnoresRest | src/App.tsx:361 | only the first message shows; the rest of the list does not change the alert |
| UpdateContactForm.ErrorMessageInjective | src/App.tsx:361 | equal alerts come from equal first messages |
| UpdateContactForm.ErrorMessageExample | src/App.tsx:359-361 | the body `{"Messages":[{"Message":"Name is required"}]}` gives exactly "Error: Name is required" |
| UpdateContactForm.UpdateContact.constructor | src/App.tsx:295 | the form starts with no contact loaded |
| UpdateContactForm.UpdateContact.FetchOutcome | src/App.tsx:303-309 | a successful fetch loads the contact; a failed one leaves the form as it was (still loading) |
| UpdateContactForm.UpdateContact.Change | src/App.tsx:374-438 | an input's `onChange` replaces the loaded contact by `Set` at that path: the ids and every other path are unchanged |
| UpdateContactForm.UpdateContact.Submit | src/App.tsx:315-362 | the submitted payload has the loaded ids and paths; success navigates back to the list with no alert; failure stays and alerts `ErrorMessage` of the body |

## Left out

- The `fetch` calls: URLs, the expand and page-size parameters, bearer headers and JSON (de)serialisation (src/App.tsx:63-65, 84-87, 186-193, 299-301, 346-353). They are network I/O. Each response is a parameter of the handler that consumes it.
- Authentication (`useAuth`, sign-in and sign-out redirects), routing and `navigate`, JSX rendering, `console.log`, and `window.alert` for list and create errors, for the delete-success message (src/App.tsx:91) and for a failed fetch of the update form (src/App.tsx:308). A navigation or an alert that matters appears as an output of `UpdateContact.Submit`.
- React effect timing, re-fetch when the token changes, and state batching. The model applies each handler's state change at once. The one stale capture that changes the list, `deleteContact` filtering the list seen at its click, is modelled by the `seen` parameter of `ContactList.DeleteOutcome`.
- Fields of a fetched contact other than the listed ones, for example `Info.DefaultAddress`, which is requested by the expand list. The model's `Contact` holds only the listed fields, so the fact that the PUT payload drops any other property is not captured.
- The PUT goes to the URL's `contactId` while the body carries `contact.ID` (src/App.tsx:319 vs 346). The model has no URL, so a mismatch between the two is not represented.
- A failed PUT whose body is not JSON (`res.json()` rejects). With a JSON body and an empty `Messages` list, `ErrorMessage` returns `None`: no alert is shown.
- Unicode lower-casing: `Lower` covers ASCII letters only.
- Missing nested records: reading them throws in the source. The model's types make every nested record present.
- The create response body (src/App.tsx:196-197): it is parsed with `res.json()` before the fields are reset, and then only logged. Its contents are not modelled.
- NewContactForm.NewContact.CreateContact: `ok` stands for "`res.ok` and the response body parses as JSON". A 2xx answer whose body does not parse makes the handler stop at src/App.tsx:196, before the resets at 199-210, with no alert; for the fields that is the `ok == false` case.
- `src/AppOld.tsx`, `src/NewContact.tsx` and `src/ContactList.tsx` are not part of this model, because they are not mounted. src/NewContact.tsx:21-42 and src/AppOld.tsx:97-118 build the same payload as src/App.tsx:163-184; src/ContactList.tsx only fetches and renders.
