/**
 * The admin page of one research vertical, reached at `/research/:id`: an
 * editable copy of the vertical (name, overview, key objectives) with save
 * and confirmed delete, and a sub-screen of the vertical's people with a
 * create/edit modal (multipart, with an optional image) and a confirmed
 * delete.
 */
module ResearchPage {
  import opened Wrappers
  import opened Text
  import opened Http

  type Id = string

  /** An entry of the module-level `research` list. */
  datatype ResearchItem = ResearchItem(id: int, name: string, overview: string, keyObjectives: string)

  /** The editable copy `newResearch = { name, overview, key_objectives }`. */
  datatype ResearchDraft = ResearchDraft(name: string, overview: string, keyObjectives: string)

  const EmptyResearch: ResearchDraft := ResearchDraft("", "", "")

  /** The `name` attributes of the inputs wired to `handleChange`. */
  datatype ResearchField = NameField | OverviewField | KeyObjectivesField

  /** A research person; the empty record has an empty id. */
  datatype Person = Person(id: Id, name: string, category: string, description: string, image: Option<string>)

  const EmptyPerson: Person := Person("", "", "", "", None)

  /** The text fields of a person edited by name. */
  datatype PersonField = PersonName | PersonCategory | PersonDescription

  const VerticalPrefix: string := BackendUrl + "/api/research-verticals/research-verticals/"
  const PeoplePrefix: string := BackendUrl + "/api/research-verticals/research-people/"

  const SavedChangesAlert: Alert := Alert("Success", "Research updated successfully!", SuccessIcon)
  const ResearchDeletedAlert: Alert := Alert("Deleted!", "The research has been removed.", SuccessIcon)
  const ResearchDeleteFailedAlert: Alert := Alert("Error", "Failed to delete research", ErrorIcon)
  const RequiredAlert: Alert := Alert("Error", "All fields are required!", ErrorIcon)
  const PersonDeletedAlert: Alert := Alert("Deleted!", "The person has been removed.", SuccessIcon)
  const PersonDeleteFailedAlert: Alert := Alert("Error", "Failed to delete person", ErrorIcon)

  /** The alert after a person save: the success message, or the server's error text with a fallback. */
  function PersonSavedAlert(isEditing: bool, outcome: HttpOutcome): Alert {
    match outcome
    case Succeeded =>
      if isEditing then Alert("Success", "Person updated successfully!", SuccessIcon)
      else Alert("Success", "Person added successfully!", SuccessIcon)
    case Failed(_) =>
      if isEditing then Alert("Error", ErrorText(outcome, "Failed to update person"), ErrorIcon)
      else Alert("Error", ErrorText(outcome, "Failed to add person"), ErrorIcon)
  }

  /** The vertical's own URL, `.../research-verticals/${id}`, with the route parameter `id` as written. */
  function VerticalUrl(routeParam: string): string {
    VerticalPrefix + routeParam
  }

  /** `.../research-people/${id}`: the people list of a vertical, and where new people are POSTed. */
  function PeopleUrl(routeParam: string): string {
    PeoplePrefix + routeParam
  }

  /** Different route parameters list and receive their people at different URLs. */
  lemma PeopleUrlInjective(a: string, b: string)
    requires PeopleUrl(a) == PeopleUrl(b)
    ensures a == b
  {
    var n := |PeoplePrefix|;
    assert a == PeopleUrl(a)[n..];
    assert b == PeopleUrl(b)[n..];
  }

  /** `research.find((item) => item.id === id)`. */
  function FindResearch(items: seq<ResearchItem>, id: int): (r: Option<ResearchItem>)
    ensures r.None? <==> forall i :: 0 <= i < |items| ==> items[i].id != id
    ensures r.Some? ==> r.value in items && r.value.id == id
  {
    if items == [] then None
    else if items[0].id == id then Some(items[0])
    else FindResearch(items[1..], id)
  }

  /**
   * `research.find((item) => item.id === parseInt(id))`: a parameter that
   * does not parse (NaN) equals no id, so nothing is found.
   */
  function RouteResearch(research: seq<ResearchItem>, routeParam: string): (r: Option<ResearchItem>)
    ensures r.None? <==>
      ParseInt(routeParam).None? || forall i :: 0 <= i < |research| ==> research[i].id != ParseInt(routeParam).value
    ensures r.Some? ==> r.value in research && ParseInt(routeParam) == Some(r.value.id)
  {
    match ParseInt(routeParam)
    case None => None
    case Some(n) => FindResearch(research, n)
  }

  /** The route `/research/${n}` of a vertical's id finds exactly what `find` finds for that id. */
  lemma RouteOfIdFindsIt(research: seq<ResearchItem>, n: int)
    ensures RouteResearch(research, IntToString(n)) == FindResearch(research, n)
  {
    ParseIntOfIntToString(n);
  }

  /** A parameter starting with ':' parses to NaN, so it finds no vertical. */
  lemma ColonRouteFindsNothing(research: seq<ResearchItem>, p: string)
    ensures RouteResearch(research, ":" + p) == None
  {
    var s := ":" + p;
    assert s[0] == ':';
    ParseIntNaN(s);
  }

  /**
   * The route parameter after `navigate(`/research/:${id}`)` on the page's
   * route pattern `/research/:id`: the colon is copied into the URL, so the
   * new `id` is the old one with ':' in front.
   */
  function NavigatedParam(routeParam: string): (p: string)
    ensures |p| == |routeParam| + 1 && p != routeParam
    ensures p[1..] == routeParam
  {
    ":" + routeParam
  }

  /** `find` returns the first entry with the id, whatever follows it. */
  lemma {:induction false} FindResearchFirst(items: seq<ResearchItem>, id: int, k: nat)
    requires k < |items| && items[k].id == id
    requires forall j :: 0 <= j < k ==> items[j].id != id
    ensures FindResearch(items, id) == Some(items[k])
  {
    if k > 0 {
      FindResearchFirst(items[1..], id, k - 1);
    }
  }

  /** The draft copied from a research item. */
  function DraftOf(item: ResearchItem): ResearchDraft {
    ResearchDraft(item.name, item.overview, item.keyObjectives)
  }

  function FieldValue(draft: ResearchDraft, field: ResearchField): string {
    match field
    case NameField => draft.name
    case OverviewField => draft.overview
    case KeyObjectivesField => draft.keyObjectives
  }

  /** `{ ...newResearch, [name]: value }`: the named field takes the value, every other keeps its own. */
  function WithField(draft: ResearchDraft, field: ResearchField, value: string): (r: ResearchDraft)
    ensures FieldValue(r, field) == value
    ensures forall g: ResearchField :: g != field ==> FieldValue(r, g) == FieldValue(draft, g)
  {
    match field
    case NameField => draft.(name := value)
    case OverviewField => draft.(overview := value)
    case KeyObjectivesField => draft.(keyObjectives := value)
  }

  /** `newResearch` sent as the JSON body. */
  function ResearchJson(draft: ResearchDraft): Body {
    Json([("name", draft.name), ("overview", draft.overview), ("key_objectives", draft.keyObjectives)])
  }

  function PersonValue(person: Person, field: PersonField): string {
    match field
    case PersonName => person.name
    case PersonCategory => person.category
    case PersonDescription => person.description
  }

  /** `{ ...newPerson, [name]: value }` over the person's text fields; id and image are kept. */
  function WithPersonField(person: Person, field: PersonField, value: string): (r: Person)
    ensures PersonValue(r, field) == value
    ensures forall g: PersonField :: g != field ==> PersonValue(r, g) == PersonValue(person, g)
    ensures r.id == person.id && r.image == person.image
  {
    match field
    case PersonName => person.(name := value)
    case PersonCategory => person.(category := value)
    case PersonDescription => person.(description := value)
  }

  /**
   * The multipart form of a person save: always `name`, `category` and
   * `description` from the draft, plus `image` exactly when a file is staged.
   */
  function PersonForm(person: Person, imageFile: Option<File>): (parts: seq<Part>)
    ensures TextOf(parts, "name") == Some(person.name)
    ensures TextOf(parts, "category") == Some(person.category)
    ensures TextOf(parts, "description") == Some(person.description)
    ensures FileOf(parts, "image") == imageFile
    ensures |parts| == if imageFile.Some? then 4 else 3
  {
    var image := if imageFile.Some? then [FilePart("image", imageFile.value)] else [];
    var parts := [TextPart("name", person.name), TextPart("category", person.category),
                  TextPart("description", person.description)] + image;
    assert parts[1..][1..] == [TextPart("description", person.description)] + image;
    assert "name" != "category" && "name" != "description" && "category" != "description" by {
      assert "name"[0] != "category"[0] && "name"[0] != "description"[0] && "category"[0] != "description"[0];
    }
    assert TextOf(parts[1..][1..], "description") == Some(person.description);
    assert TextOf(parts[1..], "description") == Some(person.description);
    assert parts[1..][1..][1..] == image;
    assert FileOf(parts[1..][1..], "image") == imageFile;
    assert FileOf(parts[1..], "image") == imageFile;
    parts
  }

  /**
   * The request `handleSave` issues, or None when validation refuses it.
   * `editTarget` is the id of the person being edited.  Creating needs a
   * staged file, a name and a category; editing is never refused.  Editing
   * PUTs to the person's URL, creating POSTs to the vertical's people URL.
   */
  function PersonSaveRequest(routeParam: string, draft: Person, imageFile: Option<File>, editTarget: Option<Id>)
    : (r: Option<Request>)
    ensures r.None? <==> editTarget.None? && (imageFile.None? || draft.name == "" || draft.category == "")
    ensures r.Some? ==> r.value.body == Form(PersonForm(draft, imageFile))
    ensures r.Some? && editTarget.Some? ==> r.value.verb == Put && r.value.url == PeoplePrefix + editTarget.value
    ensures r.Some? && editTarget.None? ==> r.value.verb == Post && r.value.url == PeopleUrl(routeParam)
  {
    var form := Form(PersonForm(draft, imageFile));
    if editTarget.Some? then Some(Request(Put, PeoplePrefix + editTarget.value, form))
    else if imageFile.None? || draft.name == "" || draft.category == "" then None
    else Some(Request(Post, PeopleUrl(routeParam), form))
  }

  /** Editing skips validation: even an empty draft with no file is sent, without an `image` entry. */
  lemma EditingSkipsValidation(routeParam: string, id: Id)
    ensures PersonSaveRequest(routeParam, EmptyPerson, None, Some(id)).Some?
    ensures FileOf(PersonSaveRequest(routeParam, EmptyPerson, None, Some(id)).value.body.parts, "image") == None
  {
  }

  /** The description is optional when creating. */
  lemma DescriptionOptional(routeParam: string, draft: Person, file: File)
    requires draft.name != "" && draft.category != ""
    ensures PersonSaveRequest(routeParam, draft.(description := ""), Some(file), None).Some?
  {
  }

  /** New people are POSTed to the vertical of the route and to no other. */
  lemma CreateTargetsRouteVertical(a: string, b: string, draft: Person, file: File)
    requires a != b && draft.name != "" && draft.category != ""
    ensures PersonSaveRequest(a, draft, Some(file), None).value.url
         != PersonSaveRequest(b, draft, Some(file), None).value.url
  {
    if PeopleUrl(a) == PeopleUrl(b) {
      PeopleUrlInjective(a, b);
    }
  }

  class AdminResearchPage {
    var routeParam: string   // the `id` of `useParams()`
    var currentResearch: Option<ResearchItem>
    var imageFile: Option<File>
    var isEditing: bool
    var isModalOpen: bool
    var currentPeople: Option<Person>
    var newResearch: ResearchDraft
    var researchPeople: Option<seq<Person>>
    var newPerson: Person

    /** Editing always has a person to edit, so the PUT URL is defined. */
    ghost predicate Valid()
      reads this
    {
      isEditing ==> currentPeople.Some?
    }

    /** The id of the person being edited, when editing. */
    function EditTarget(): Option<Id>
      reads this
      requires Valid()
    {
      if isEditing then Some(currentPeople.value.id) else None
    }

    /** The request `handleSave` would issue from the current state, or None if it would refuse. */
    ghost function PendingSave(): Option<Request>
      reads this
      requires Valid()
    {
      PersonSaveRequest(routeParam, newPerson, imageFile, EditTarget())
    }

    constructor (routeParam: string)
      ensures Valid()
      ensures this.routeParam == routeParam
      ensures currentResearch == None && imageFile == None && !isEditing && !isModalOpen
      ensures currentPeople == None && newResearch == EmptyResearch
      ensures researchPeople == Some([]) && newPerson == EmptyPerson
    {
      this.routeParam := routeParam;
      currentResearch := None;
      imageFile := None;
      isEditing := false;
      isModalOpen := false;
      currentPeople := None;
      newResearch := EmptyResearch;
      researchPeople := Some([]);
      newPerson := EmptyPerson;
    }

    /** `fetchResearchPeople`: GET the vertical's people; a failure keeps the old list, silently. */
    method FetchResearchPeople(response: Fetch<seq<Person>>) returns (effects: Effects)
      modifies this`researchPeople
      ensures researchPeople == if response.FetchFailed? then old(researchPeople) else response.data
      ensures effects == Effects([GetRequest(PeopleUrl(routeParam))], [])
    {
      if response.Fetched? {
        researchPeople := response.data;
      }
      effects := Effects([GetRequest(PeopleUrl(routeParam))], []);
    }

    /**
     * The mount effect, run on every change of the route parameter: copy the
     * vertical whose id is `parseInt` of the parameter into the draft (keeping
     * the old state when there is none), then load the people of the parameter.
     */
    method Init(research: seq<ResearchItem>, people: Fetch<seq<Person>>) returns (effects: Effects)
      modifies this`currentResearch, this`newResearch, this`researchPeople
      ensures RouteResearch(research, routeParam).Some? ==>
        currentResearch == RouteResearch(research, routeParam)
        && newResearch == DraftOf(RouteResearch(research, routeParam).value)
      ensures RouteResearch(research, routeParam).None? ==>
        currentResearch == old(currentResearch) && newResearch == old(newResearch)
      ensures researchPeople == if people.FetchFailed? then old(researchPeople) else people.data
      ensures effects == Effects([GetRequest(PeopleUrl(routeParam))], [])
    {
      var found := RouteResearch(research, routeParam);
      if found.Some? {
        currentResearch := found;
        newResearch := ResearchDraft(found.value.name, found.value.overview, found.value.keyObjectives);
      }
      effects := FetchResearchPeople(people);
    }

    /** `handleChange`: replaces exactly the named field of the vertical's draft. */
    method HandleChange(field: ResearchField, value: string)
      modifies this`newResearch
      ensures newResearch == WithField(old(newResearch), field, value)
    {
      newResearch := WithField(newResearch, field, value);
    }

    /** `handlePersonChange` and the modal's inputs: replace exactly the named field of the person draft. */
    method HandlePersonChange(field: PersonField, value: string)
      modifies this`newPerson
      ensures newPerson == WithPersonField(old(newPerson), field, value)
    {
      newPerson := WithPersonField(newPerson, field, value);
    }

    /** `handleSaveChanges`: PUT the vertical's draft as JSON; no state changes either way. */
    method HandleSaveChanges(outcome: HttpOutcome) returns (effects: Effects)
      ensures effects.requests == [Request(Put, VerticalUrl(routeParam), ResearchJson(newResearch))]
      ensures outcome.Succeeded? ==> effects.alerts == [SavedChangesAlert]
      ensures outcome.Failed? ==>
        effects.alerts == [Alert("Error", ErrorText(outcome, "Failed to update research"), ErrorIcon)]
    {
      var request := Request(Put, VerticalUrl(routeParam), ResearchJson(newResearch));
      if outcome.Succeeded? {
        effects := Effects([request], [SavedChangesAlert]);
      } else {
        effects := Effects([request], [Alert("Error", ErrorText(outcome, "Failed to update research"), ErrorIcon)]);
      }
    }

    /** `handleDeleteResearch`: DELETE the vertical only when confirmed (the redirect home is not modelled). */
    method HandleDeleteResearch(confirmed: bool, outcome: HttpOutcome) returns (effects: Effects)
      ensures !confirmed ==> effects == NoEffects
      ensures confirmed ==> effects.requests == [Request(Delete, VerticalUrl(routeParam), NoBody)]
      ensures confirmed ==>
        effects.alerts == [if outcome.Succeeded? then ResearchDeletedAlert else ResearchDeleteFailedAlert]
    {
      if !confirmed {
        return NoEffects;
      }
      var request := Request(Delete, VerticalUrl(routeParam), NoBody);
      if outcome.Succeeded? {
        effects := Effects([request], [ResearchDeletedAlert]);
      } else {
        effects := Effects([request], [ResearchDeleteFailedAlert]);
      }
    }

    /** `handleImageChange`: stages the picked file, and keeps the staged one when nothing was picked. */
    method HandleImageChange(picked: Option<File>)
      modifies this`imageFile
      ensures imageFile == if picked.Some? then picked else old(imageFile)
    {
      if picked.Some? {
        imageFile := picked;
      }
    }

    /**
     * `handleSave`: builds the form, refuses an incomplete creation, then
     * PUTs or POSTs.  A refusal or a failure changes nothing; a success
     * reloads the people and closes the modal.
     */
    method HandleSave(outcome: HttpOutcome, reload: Fetch<seq<Person>>) returns (effects: Effects)
      requires Valid()
      modifies this
      ensures Valid()
      ensures old(PendingSave()).None? ==> effects == Effects([], [RequiredAlert]) && unchanged(this)
      ensures old(PendingSave()).Some? ==>
        |effects.requests| >= 1 && effects.requests[0] == old(PendingSave()).value
        && effects.alerts == [PersonSavedAlert(old(isEditing), outcome)]
      ensures old(PendingSave()).Some? && outcome.Failed? ==> |effects.requests| == 1 && unchanged(this)
      ensures old(PendingSave()).Some? && outcome.Succeeded? ==>
        && |effects.requests| == 2 && effects.requests[1] == GetRequest(PeopleUrl(routeParam))
        && researchPeople == (if reload.FetchFailed? then old(researchPeople) else reload.data)
        && newPerson == EmptyPerson && imageFile == None && !isEditing && !isModalOpen
        && currentPeople == old(currentPeople)
        && currentResearch == old(currentResearch) && newResearch == old(newResearch)
        && routeParam == old(routeParam)
    {
      var formData: seq<Part> := [];
      formData := formData + [TextPart("name", newPerson.name)];
      formData := formData + [TextPart("category", newPerson.category)];
      formData := formData + [TextPart("description", newPerson.description)];
      if imageFile.Some? {
        formData := formData + [FilePart("image", imageFile.value)];
      }
      assert formData == PersonForm(newPerson, imageFile);
      if !isEditing && (imageFile.None? || newPerson.name == "" || newPerson.category == "") {
        return Effects([], [RequiredAlert]);
      }
      var request;
      if isEditing {
        request := Request(Put, PeoplePrefix + currentPeople.value.id, Form(formData));
      } else {
        request := Request(Post, PeopleUrl(routeParam), Form(formData));
      }
      var alert := PersonSavedAlert(isEditing, outcome);
      if outcome.Failed? {
        return Effects([request], [alert]);
      }
      var fetched := FetchResearchPeople(reload);
      CloseModal();
      effects := Effects([request] + fetched.requests, [alert]);
    }

    /**
     * `handleDelete(personId)`: DELETE the person only when confirmed; the
     * handler neither filters nor reloads the people list.  On success it
     * navigates to `/research/:${id}`, which turns the route parameter into
     * `":" + id`, so the mount effect runs again on the new parameter (with
     * `research` and `people` as its inputs): it finds no vertical and GETs
     * the people of the new parameter.
     */
    method HandleDelete(personId: Id, confirmed: bool, outcome: HttpOutcome,
                        research: seq<ResearchItem>, people: Fetch<seq<Person>>)
      returns (effects: Effects)
      modifies this`routeParam, this`currentResearch, this`newResearch, this`researchPeople
      ensures !confirmed ==> effects == NoEffects && unchanged(this)
      ensures confirmed ==>
        |effects.requests| >= 1 && effects.requests[0] == Request(Delete, PeoplePrefix + personId, NoBody)
      ensures confirmed && outcome.Failed? ==>
        effects == Effects(effects.requests, [PersonDeleteFailedAlert]) && |effects.requests| == 1
        && unchanged(this)
      ensures confirmed && outcome.Succeeded? ==>
        && routeParam == NavigatedParam(old(routeParam))
        && effects.alerts == [PersonDeletedAlert]
        && |effects.requests| == 2 && effects.requests[1] == GetRequest(PeopleUrl(NavigatedParam(old(routeParam))))
        && researchPeople == (if people.FetchFailed? then old(researchPeople) else people.data)
        && currentResearch == old(currentResearch) && newResearch == old(newResearch)
    {
      if !confirmed {
        return NoEffects;
      }
      var request := Request(Delete, PeoplePrefix + personId, NoBody);
      if outcome.Failed? {
        return Effects([request], [PersonDeleteFailedAlert]);
      }
      ColonRouteFindsNothing(research, routeParam);
      routeParam := NavigatedParam(routeParam);
      var reloaded := Init(research, people);
      effects := Effects([request] + reloaded.requests, [PersonDeletedAlert]);
    }

    /** `openModal(person)` edits that person; `openModal()` starts from the empty record. */
    method OpenModal(person: Option<Person>)
      modifies this`isEditing, this`newPerson, this`currentPeople, this`isModalOpen
      ensures Valid()
      ensures isEditing <==> person.Some?
      ensures newPerson == person.GetOr(EmptyPerson)
      ensures currentPeople == person
      ensures isModalOpen
    {
      isEditing := person.Some?;
      newPerson := if person.Some? then person.value else EmptyPerson;
      currentPeople := person;
      isModalOpen := true;
    }

    /** `closeModal`: empty record, nothing staged, not editing, closed; `currentPeople` is kept. */
    method CloseModal()
      modifies this`newPerson, this`imageFile, this`isEditing, this`isModalOpen
      ensures Valid()
      ensures newPerson == EmptyPerson && imageFile == None && !isEditing && !isModalOpen
    {
      newPerson := EmptyPerson;
      imageFile := None;
      isEditing := false;
      isModalOpen := false;
    }
  }

  /** Closing a second time leaves the page exactly as the first close did. */
  method CloseModalIdempotent(page: AdminResearchPage)
    modifies page`newPerson, page`imageFile, page`isEditing, page`isModalOpen
    ensures page.Valid()
    ensures page.routeParam == old(page.routeParam)
    ensures page.currentResearch == old(page.currentResearch) && page.newResearch == old(page.newResearch)
    ensures page.currentPeople == old(page.currentPeople) && page.researchPeople == old(page.researchPeople)
    ensures page.newPerson == EmptyPerson && page.imageFile == None && !page.isEditing && !page.isModalOpen
  {
    page.CloseModal();
    ghost var once := (page.currentPeople, page.researchPeople, page.newPerson, page.imageFile,
                       page.isEditing, page.isModalOpen, page.newResearch, page.currentResearch);
    page.CloseModal();
    assert once == (page.currentPeople, page.researchPeople, page.newPerson, page.imageFile,
                    page.isEditing, page.isModalOpen, page.newResearch, page.currentResearch);
  }
}
