/**
 * The Contact screen: a list of `{ id, type, value }` contacts rendered with
 * a per-type label and link, a modal that updates the selected contact or
 * adds a new one, and a confirmed delete.  The modal is shown while a
 * contact is selected.
 */
module Contact {
  import opened Wrappers
  import opened Text
  import opened Http

  type Id = string

  /** A contact record; `type` is a Dafny keyword, so the field is called `kind`. */
  datatype Contact = Contact(id: Option<Id>, kind: string, value: string)

  /** The edit buffer `newContact = { type, value }`. */
  datatype ContactDraft = ContactDraft(kind: string, value: string)

  const EmptyDraft: ContactDraft := ContactDraft("", "")

  /** What "Add Contact" selects: `{ type: "", value: "" }`, which has no id. */
  const BlankContact: Contact := Contact(None, "", "")

  const ListUrl: string := BackendUrl + "/api/contacts/get-all-contacts"
  const AddUrl: string := BackendUrl + "/api/contacts/add-contact"
  const EditPrefix: string := BackendUrl + "/api/contacts/edit-contact/"
  const DeletePrefix: string := BackendUrl + "/api/contacts/delete-contact/"

  const RequiredAlert: Alert := Alert("Error", "All fields are required!", ErrorIcon)
  const UpdatedAlert: Alert := Alert("Success", "Contact updated successfully!", SuccessIcon)
  const UpdateFailedAlert: Alert := Alert("Error", "Failed to update contact", ErrorIcon)
  const AddedAlert: Alert := Alert("Success", "Contact added successfully!", SuccessIcon)
  const AddFailedAlert: Alert := Alert("Error", "Failed to add contact", ErrorIcon)
  const DeletedAlert: Alert := Alert("Deleted!", "Contact has been deleted.", SuccessIcon)
  const DeleteFailedAlert: Alert := Alert("Error", "Failed to delete contact", ErrorIcon)

  /** `${id}` in a URL: a missing id prints as "undefined". */
  function IdText(id: Option<Id>): string {
    match id
    case Some(s) => s
    case None => "undefined"
  }

  /** JavaScript truthiness of a string id: present and non-empty. */
  predicate IsTruthy(id: Option<Id>) {
    id.Some? && id.value != ""
  }

  /** The list after `setContacts(res.data)`: the response body as is, the previous list on failure. */
  function Reloaded(previous: Option<seq<Contact>>, response: Fetch<seq<Contact>>): Option<seq<Contact>> {
    match response
    case FetchFailed => previous
    case Fetched(data) => data
  }

  /** `newContact` sent as the JSON body. */
  function DraftJson(draft: ContactDraft): Body {
    Json([("type", draft.kind), ("value", draft.value)])
  }

  /** Which modal is shown: none, the add form, or the update form. */
  datatype Mode = Hidden | Adding | Updating

  /** `selectedContact && (selectedContact.id ? "Edit Contact" : "Add Contact")`. */
  function ModalMode(selected: Option<Contact>): (m: Mode)
    ensures m == Hidden <==> selected.None?
    ensures m == Updating <==> selected.Some? && IsTruthy(selected.value.id)
  {
    if selected.None? then Hidden
    else if IsTruthy(selected.value.id) then Updating
    else Adding
  }

  /**
   * The PUT of "Update Contact", or None when validation refuses it: both
   * fields must be non-empty strings (no trimming).
   */
  function UpdateRequest(draft: ContactDraft, id: Option<Id>): (r: Option<Request>)
    ensures r.None? <==> draft.kind == "" || draft.value == ""
    ensures r.Some? ==> r.value.verb == Put && r.value.url == EditPrefix + IdText(id)
    ensures r.Some? ==> r.value.body == Json([("type", draft.kind), ("value", draft.value)])
  {
    if draft.kind == "" || draft.value == "" then None
    else Some(Request(Put, EditPrefix + IdText(id), DraftJson(draft)))
  }

  /** The POST of "Add Contact", under the same validation as the update. */
  function AddRequest(draft: ContactDraft): (r: Option<Request>)
    ensures r.None? <==> draft.kind == "" || draft.value == ""
    ensures r.Some? ==> r.value == Request(Post, AddUrl, Json([("type", draft.kind), ("value", draft.value)]))
  {
    if draft.kind == "" || draft.value == "" then None
    else Some(Request(Post, AddUrl, DraftJson(draft)))
  }

  /** Add and update accept exactly the same drafts, and the accepted requests carry the same body. */
  lemma AddAndUpdateAgree(draft: ContactDraft, id: Option<Id>)
    ensures AddRequest(draft).Some? <==> UpdateRequest(draft, id).Some?
    ensures AddRequest(draft).Some? ==> AddRequest(draft).value.body == UpdateRequest(draft, id).value.body
  {
  }

  /** Only the empty string is refused: whitespace-only fields pass validation. */
  lemma WhitespaceOnlyAccepted(kind: string, value: string, id: Option<Id>)
    requires kind != "" && value != "" && AllSpace(kind) && AllSpace(value)
    ensures AddRequest(ContactDraft(kind, value)).Some?
    ensures UpdateRequest(ContactDraft(kind, value), id).Some?
  {
  }

  /** One rendered list item: `caption: shown`, with `shown` a link to `href` when there is one. */
  datatype ContactLine = ContactLine(caption: string, shown: string, href: Option<string>)

  function LineText(line: ContactLine): string {
    line.caption + ": " + line.shown
  }

  /** The website link: the value itself when it starts with "http", otherwise prefixed with "https://". */
  function WebsiteHref(value: string): (href: string)
    ensures StartsWith(href, "http")
    ensures StartsWith(value, "http") ==> href == value
    ensures !StartsWith(value, "http") ==> href == "https://" + value
  {
    if StartsWith(value, "http") then value else "https://" + value
  }

  /**
   * The per-item rule of the list: the type is compared case-insensitively
   * with "mail" and "website"; any other type is shown with its first
   * character upper-cased.
   */
  function Display(c: Contact): (line: ContactLine)
    ensures line.shown == c.value
    ensures Lower(c.kind) == "mail" ==> line.caption == "Email" && line.href == Some("mailto:" + c.value)
    ensures Lower(c.kind) == "website" ==> line.caption == "Website" && line.href == Some(WebsiteHref(c.value))
    ensures Lower(c.kind) != "mail" && Lower(c.kind) != "website" ==>
      line.caption == UpperFirst(c.kind) && line.href == None
  {
    var kind := Lower(c.kind);
    if kind == "mail" then ContactLine("Email", c.value, Some("mailto:" + c.value))
    else if kind == "website" then ContactLine("Website", c.value, Some(WebsiteHref(c.value)))
    else ContactLine(UpperFirst(c.kind), c.value, None)
  }

  /** An item is a link exactly when its type is "mail" or "website" in some letter case. */
  lemma LinkIffMailOrWebsite(c: Contact)
    ensures Display(c).href.Some? <==> Lower(c.kind) == "mail" || Lower(c.kind) == "website"
  {
  }

  /** Two contacts whose types differ only in letter case render alike when the type is mail or website. */
  lemma DisplayIgnoresCase(c: Contact, d: Contact)
    requires c.value == d.value && Lower(c.kind) == Lower(d.kind)
    requires Lower(c.kind) == "mail" || Lower(c.kind) == "website"
    ensures Display(c) == Display(d)
  {
  }

  /** Other types keep every character after the first. */
  lemma OtherTypeCaption(c: Contact)
    requires Lower(c.kind) != "mail" && Lower(c.kind) != "website" && c.kind != ""
    ensures LineText(Display(c)) == [UpperChar(c.kind[0])] + c.kind[1..] + ": " + c.value
  {
    assert UpperFirst(c.kind) == [UpperChar(c.kind[0])] + c.kind[1..];
  }

  /** `{ type: "Mail", value: "a@b.com" }` renders as "Email: a@b.com" linking to "mailto:a@b.com". */
  lemma MailExample(id: Option<Id>)
    ensures LineText(Display(Contact(id, "Mail", "a@b.com"))) == "Email: a@b.com"
    ensures Display(Contact(id, "Mail", "a@b.com")).href == Some("mailto:a@b.com")
  {
    assert Lower("Mail") == "mail";
    assert "Email" + ": " + "a@b.com" == "Email: a@b.com";
    assert "mailto:" + "a@b.com" == "mailto:a@b.com";
  }

  /** A bare host gets "https://", an "http..." value is linked as is. */
  lemma WebsiteExample()
    ensures WebsiteHref("lab.example.org") == "https://lab.example.org"
    ensures WebsiteHref("http://lab.example.org") == "http://lab.example.org"
  {
    assert !StartsWith("lab.example.org", "http") by { assert "lab.example.org"[0] == 'l'; }
    assert StartsWith("http://lab.example.org", "http") by { assert "http://lab.example.org"[..4] == "http"; }
  }

  /** What the list area shows. */
  datatype ContactsView = EmptyMessage | Lines(lines: seq<ContactLine>) | RenderError

  /** `contacts.size`: arrays have no `size` property, so it is always undefined. */
  function SizeProperty(contacts: seq<Contact>): Option<int> {
    None
  }

  /**
   * The list area: `contacts.size == 0 ? "No contacts found." : contacts.map(...)`.
   * Since `undefined == 0` is false the message is never shown, even for an
   * empty list; a null list makes the render throw.
   */
  function RenderContacts(contacts: Option<seq<Contact>>): (v: ContactsView)
    ensures v != EmptyMessage
    ensures v == RenderError <==> contacts.None?
    ensures contacts.Some? ==>
      v.Lines? && |v.lines| == |contacts.value|
      && forall i :: 0 <= i < |v.lines| ==> v.lines[i] == Display(contacts.value[i])
  {
    match contacts
    case None => RenderError
    case Some(cs) =>
      if SizeProperty(cs) == Some(0) then EmptyMessage
      else Lines(seq(|cs|, i requires 0 <= i < |cs| => Display(cs[i])))
  }

  class ContactScreen {
    var contacts: Option<seq<Contact>>
    var selectedContact: Option<Contact>
    var newContact: ContactDraft

    constructor ()
      ensures contacts == Some([]) && selectedContact == None && newContact == EmptyDraft
    {
      contacts := Some([]);
      selectedContact := None;
      newContact := EmptyDraft;
    }

    /** `fetchContacts`: GET the list and store the body as is; a failure keeps the old list, silently. */
    method FetchContacts(response: Fetch<seq<Contact>>) returns (effects: Effects)
      modifies this`contacts
      ensures contacts == Reloaded(old(contacts), response)
      ensures effects == Effects([GetRequest(ListUrl)], [])
    {
      if response.Fetched? {
        contacts := response.data;
      }
      effects := Effects([GetRequest(ListUrl)], []);
    }

    /** `handleEditContact`: select the contact and copy exactly its type and value into the draft. */
    method HandleEditContact(contact: Contact)
      modifies this`selectedContact, this`newContact
      ensures selectedContact == Some(contact)
      ensures newContact == ContactDraft(contact.kind, contact.value)
      ensures ModalMode(selectedContact) == if IsTruthy(contact.id) then Updating else Adding
    {
      selectedContact := Some(contact);
      newContact := ContactDraft(contact.kind, contact.value);
    }

    /** The "Add Contact" button: selects a blank contact but keeps whatever draft was there. */
    method OpenAddContact()
      modifies this`selectedContact
      ensures selectedContact == Some(BlankContact)
      ensures ModalMode(selectedContact) == Adding
    {
      selectedContact := Some(BlankContact);
    }

    /** The modal's Cancel button. */
    method CancelModal()
      modifies this`selectedContact
      ensures selectedContact == None && ModalMode(selectedContact) == Hidden
    {
      selectedContact := None;
    }

    /** The "Type" input: replaces the draft type and nothing else. */
    method HandleTypeChange(text: string)
      modifies this`newContact
      ensures newContact == old(newContact).(kind := text)
    {
      newContact := newContact.(kind := text);
    }

    /** The "Value" input: replaces the draft value and nothing else. */
    method HandleValueChange(text: string)
      modifies this`newContact
      ensures newContact == old(newContact).(value := text)
    {
      newContact := newContact.(value := text);
    }

    /**
     * `handleUpdateContact`.  Refused drafts issue nothing; with no selected
     * contact the property access throws inside the `try` and only the
     * failure alert is shown; a failed PUT keeps selection and draft; a
     * successful one reloads and clears the selection, keeping the draft.
     */
    method HandleUpdateContact(outcome: HttpOutcome, reload: Fetch<seq<Contact>>) returns (effects: Effects)
      modifies this
      ensures old(newContact.kind == "" || newContact.value == "") ==>
        effects == Effects([], [RequiredAlert]) && unchanged(this)
      ensures old(newContact.kind != "" && newContact.value != "" && selectedContact.None?) ==>
        effects == Effects([], [UpdateFailedAlert]) && unchanged(this)
      ensures old(newContact.kind != "" && newContact.value != "" && selectedContact.Some?) ==>
        |effects.requests| >= 1
        && Some(effects.requests[0]) == UpdateRequest(old(newContact), old(selectedContact).value.id)
      ensures old(newContact.kind != "" && newContact.value != "" && selectedContact.Some?) && outcome.Failed? ==>
        effects == Effects(effects.requests, [UpdateFailedAlert]) && |effects.requests| == 1 && unchanged(this)
      ensures old(newContact.kind != "" && newContact.value != "" && selectedContact.Some?) && outcome.Succeeded? ==>
        && effects.alerts == [UpdatedAlert]
        && |effects.requests| == 2 && effects.requests[1] == GetRequest(ListUrl)
        && contacts == Reloaded(old(contacts), reload)
        && selectedContact == None && newContact == old(newContact)
    {
      if newContact.kind == "" || newContact.value == "" {
        return Effects([], [RequiredAlert]);
      }
      if selectedContact.None? {
        return Effects([], [UpdateFailedAlert]);
      }
      var request := Request(Put, EditPrefix + IdText(selectedContact.value.id), DraftJson(newContact));
      if outcome.Failed? {
        return Effects([request], [UpdateFailedAlert]);
      }
      var fetched := FetchContacts(reload);
      selectedContact := None;
      effects := Effects([request] + fetched.requests, [UpdatedAlert]);
    }

    /** `handleAddContact`: a successful POST reloads and empties the draft but keeps the selection. */
    method HandleAddContact(outcome: HttpOutcome, reload: Fetch<seq<Contact>>) returns (effects: Effects)
      modifies this
      ensures AddRequest(old(newContact)).None? ==> effects == Effects([], [RequiredAlert]) && unchanged(this)
      ensures AddRequest(old(newContact)).Some? ==>
        |effects.requests| >= 1 && effects.requests[0] == AddRequest(old(newContact)).value
      ensures AddRequest(old(newContact)).Some? && outcome.Failed? ==>
        effects == Effects(effects.requests, [AddFailedAlert]) && |effects.requests| == 1 && unchanged(this)
      ensures AddRequest(old(newContact)).Some? && outcome.Succeeded? ==>
        && effects.alerts == [AddedAlert]
        && |effects.requests| == 2 && effects.requests[1] == GetRequest(ListUrl)
        && contacts == Reloaded(old(contacts), reload)
        && newContact == EmptyDraft && selectedContact == old(selectedContact)
    {
      if newContact.kind == "" || newContact.value == "" {
        return Effects([], [RequiredAlert]);
      }
      var request := Request(Post, AddUrl, DraftJson(newContact));
      if outcome.Failed? {
        return Effects([request], [AddFailedAlert]);
      }
      var fetched := FetchContacts(reload);
      newContact := EmptyDraft;
      effects := Effects([request] + fetched.requests, [AddedAlert]);
    }

    /** `handleDeleteContact(id)`: nothing unless confirmed; the list is reloaded only after a successful DELETE. */
    method HandleDeleteContact(id: Option<Id>, confirmed: bool, outcome: HttpOutcome, reload: Fetch<seq<Contact>>)
      returns (effects: Effects)
      modifies this`contacts
      ensures !confirmed ==> effects == NoEffects && contacts == old(contacts)
      ensures confirmed ==>
        |effects.requests| >= 1 && effects.requests[0] == Request(Delete, DeletePrefix + IdText(id), NoBody)
      ensures confirmed && outcome.Failed? ==>
        effects == Effects(effects.requests, [DeleteFailedAlert]) && |effects.requests| == 1
        && contacts == old(contacts)
      ensures confirmed && outcome.Succeeded? ==>
        && effects.alerts == [DeletedAlert]
        && |effects.requests| == 2 && effects.requests[1] == GetRequest(ListUrl)
        && contacts == Reloaded(old(contacts), reload)
    {
      if !confirmed {
        return NoEffects;
      }
      var request := Request(Delete, DeletePrefix + IdText(id), NoBody);
      if outcome.Failed? {
        return Effects([request], [DeleteFailedAlert]);
      }
      var fetched := FetchContacts(reload);
      effects := Effects([request] + fetched.requests, [DeletedAlert]);
    }
  }

  /**
   * Adding `{ type: "mail", value: "a@b.com" }` on a fresh screen: one POST
   * and one reload; the reloaded list shows "Email: a@b.com" as a mail link,
   * and the add modal is still open.
   */
  method AddMailContactScenario(newId: Id) returns (effects: Effects, view: ContactsView, mode: Mode)
    ensures effects.requests
         == [Request(Post, AddUrl, Json([("type", "mail"), ("value", "a@b.com")])), GetRequest(ListUrl)]
    ensures view == Lines([ContactLine("Email", "a@b.com", Some("mailto:a@b.com"))])
    ensures mode == Adding
  {
    var screen := new ContactScreen();
    screen.OpenAddContact();
    screen.HandleTypeChange("mail");
    screen.HandleValueChange("a@b.com");
    var stored := Contact(Some(newId), "mail", "a@b.com");
    effects := screen.HandleAddContact(Succeeded, Fetched(Some([stored])));
    view := RenderContacts(screen.contacts);
    assert Lower("mail") == "mail";
    assert "mailto:" + "a@b.com" == "mailto:a@b.com";
    assert Display(stored) == ContactLine("Email", "a@b.com", Some("mailto:a@b.com"));
    assert view.lines == [Display(stored)];
    mode := ModalMode(screen.selectedContact);
  }
}
