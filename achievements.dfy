/**
 * The Achievements screen: a list of achievements (body text and image),
 * a modal to create or edit one, and a confirmed delete.  The class fields
 * are the component's state slots; each handler takes the outcome of the
 * calls it makes and returns the requests it issued and the alerts it fired.
 */
module Achievements {
  import opened Wrappers
  import opened Text
  import opened Http

  type Id = string

  /** An achievement record; the empty draft `{ body: "", image: null }` carries no id. */
  datatype Achievement = Achievement(id: Option<Id>, body: string, image: Option<string>)

  const EmptyDraft: Achievement := Achievement(None, "", None)

  const ListUrl: string := BackendUrl + "/api/achievements/get-achievements"
  const AddUrl: string := BackendUrl + "/api/achievements/add-achievement"
  const EditPrefix: string := BackendUrl + "/api/achievements/edit-achievement/"
  const DeletePrefix: string := BackendUrl + "/api/achievements/delete-achievement/"

  const RequiredAlert: Alert := Alert("Error", "Body and Image are required!", ErrorIcon)
  const SaveFailedAlert: Alert := Alert("Error", "Failed to save achievement", ErrorIcon)
  const FetchFailedAlert: Alert := Alert("Error", "Failed to fetch achievements", ErrorIcon)
  const DeletedAlert: Alert := Alert("Deleted!", "Achievement has been removed.", SuccessIcon)
  const DeleteFailedAlert: Alert := Alert("Error", "Failed to delete achievement", ErrorIcon)

  function SavedAlert(isEditing: bool): Alert {
    if isEditing then Alert("Success", "Achievement updated successfully!", SuccessIcon)
    else Alert("Success", "Achievement added successfully!", SuccessIcon)
  }

  /**
   * `${id}` in a URL.  The only absent id that reaches a URL is the missing
   * `id` field of a record, which JavaScript prints as "undefined".
   */
  function IdText(id: Option<Id>): string {
    match id
    case Some(s) => s
    case None => "undefined"
  }

  /** The list after a reload: `data || []` on success, the previous list on failure. */
  function Reloaded(previous: seq<Achievement>, response: Fetch<seq<Achievement>>): (r: seq<Achievement>)
    ensures response.FetchFailed? ==> r == previous
    ensures response.Fetched? ==> r == response.data.GetOr([])
    ensures response == Fetched(None) ==> r == []
  {
    match response
    case FetchFailed => previous
    case Fetched(data) => data.GetOr([])
  }

  /**
   * The multipart form of a save: `body` carries the trimmed draft body, and
   * an `image` entry is present exactly when a file is staged.
   */
  function SaveForm(body: string, imageFile: Option<File>): (parts: seq<Part>)
    ensures TextOf(parts, "body") == Some(Trim(body))
    ensures FileOf(parts, "image") == imageFile
    ensures |parts| == if imageFile.Some? then 2 else 1
  {
    var text := [TextPart("body", Trim(body))];
    if imageFile.None? then
      text
    else
      var parts := text + [FilePart("image", imageFile.value)];
      assert parts[1..] == [FilePart("image", imageFile.value)];
      parts
  }

  /**
   * The request a save issues, or None when validation refuses it: the body
   * must be non-blank after trimming, and a new achievement needs an image.
   * Editing PUTs to the edit URL of `editId`; creating POSTs to the add URL.
   */
  function SaveRequest(body: string, imageFile: Option<File>, isEditing: bool, editId: Option<Id>): (r: Option<Request>)
    ensures r.None? <==> AllSpace(body) || (imageFile.None? && !isEditing)
    ensures r.Some? ==> r.value.body == Form(SaveForm(body, imageFile))
    ensures r.Some? && isEditing ==> r.value.verb == Put && r.value.url == EditPrefix + IdText(editId)
    ensures r.Some? && !isEditing ==> r.value.verb == Post && r.value.url == AddUrl
  {
    if Trim(body) == "" || (imageFile.None? && !isEditing) then None
    else if isEditing then Some(Request(Put, EditPrefix + IdText(editId), Form(SaveForm(body, imageFile))))
    else Some(Request(Post, AddUrl, Form(SaveForm(body, imageFile))))
  }

  /** Editing with no newly staged image is allowed, and then the form has no `image` entry. */
  lemma EditWithoutImageAllowed(body: string, editId: Option<Id>)
    requires !AllSpace(body)
    ensures SaveRequest(body, None, true, editId).Some?
    ensures FileOf(SaveRequest(body, None, true, editId).value.body.parts, "image") == None
  {
  }

  /** The request depends on the draft body only through its trimmed text. */
  lemma SaveDependsOnlyOnTrim(b1: string, b2: string, imageFile: Option<File>, isEditing: bool, editId: Option<Id>)
    requires Trim(b1) == Trim(b2)
    ensures SaveRequest(b1, imageFile, isEditing, editId) == SaveRequest(b2, imageFile, isEditing, editId)
  {
  }

  /** Surrounding whitespace in the draft body changes nothing in the request. */
  lemma SaveIgnoresSurroundingSpace(
    p: string, body: string, q: string, imageFile: Option<File>, isEditing: bool, editId: Option<Id>)
    requires AllSpace(p) && AllSpace(q) && Trimmed(body)
    ensures SaveRequest(p + body + q, imageFile, isEditing, editId) == SaveRequest(body, imageFile, isEditing, editId)
  {
    var padded := p + body + q;
    TrimPadding(p, body, q);
    TrimIdempotentOnTrimmed(body);
    SaveDependsOnlyOnTrim(padded, body, imageFile, isEditing, editId);
  }

  /** Editing achievement 3 to "New text" with no new image: a PUT whose form holds only `body=New text`. */
  lemma EditExample()
    ensures SaveRequest("New text", None, true, Some("3"))
         == Some(Request(Put, BackendUrl + "/api/achievements/edit-achievement/3", Form([TextPart("body", "New text")])))
  {
    assert !IsSpace("New text"[0]) && !IsSpace("New text"[7]);
    TrimIdempotentOnTrimmed("New text");
    assert SaveForm("New text", None) == [TextPart("body", "New text")];
    assert EditPrefix + IdText(Some("3")) == BackendUrl + "/api/achievements/edit-achievement/3";
  }

  /** Creating with an empty body and no image is refused, so no request is issued. */
  lemma CreateBlankExample(editId: Option<Id>)
    ensures SaveRequest("", None, false, editId) == None
  {
  }

  /** `achievements.filter((ach) => ach.id !== id)`. */
  function RemoveId(xs: seq<Achievement>, id: Option<Id>): (r: seq<Achievement>)
    ensures |r| <= |xs|
    ensures forall a :: a in r <==> a in xs && a.id != id
  {
    if xs == [] then []
    else (if xs[0].id == id then [] else [xs[0]]) + RemoveId(xs[1..], id)
  }

  /** Filtering a list with a known first entry. */
  lemma RemoveIdCons(x: Achievement, rest: seq<Achievement>, id: Option<Id>)
    ensures RemoveId([x] + rest, id) == (if x.id == id then [] else [x]) + RemoveId(rest, id)
  {
    assert ([x] + rest)[0] == x;
    assert ([x] + rest)[1..] == rest;
  }

  /** The filter keeps the survivors in their original order: it distributes over concatenation. */
  lemma {:induction false} RemoveIdAppend(xs: seq<Achievement>, ys: seq<Achievement>, id: Option<Id>)
    ensures RemoveId(xs + ys, id) == RemoveId(xs, id) + RemoveId(ys, id)
  {
    if xs != [] {
      var x, tail := xs[0], xs[1..];
      assert xs == [x] + tail;
      assert xs + ys == [x] + (tail + ys);
      RemoveIdCons(x, tail + ys, id);
      RemoveIdCons(x, tail, id);
      RemoveIdAppend(tail, ys, id);
    } else {
      assert xs + ys == ys;
    }
  }

  /** A list with no entry of that id is left exactly as it was. */
  lemma {:induction false} RemoveIdAbsent(xs: seq<Achievement>, id: Option<Id>)
    requires forall i :: 0 <= i < |xs| ==> xs[i].id != id
    ensures RemoveId(xs, id) == xs
  {
    if xs != [] {
      RemoveIdAbsent(xs[1..], id);
    }
  }

  /** Removing the same id twice removes nothing more. */
  lemma RemoveIdIdempotent(xs: seq<Achievement>, id: Option<Id>)
    ensures RemoveId(RemoveId(xs, id), id) == RemoveId(xs, id)
  {
    var r := RemoveId(xs, id);
    forall i | 0 <= i < |r| ensures r[i].id != id {
      assert r[i] in r;
    }
    RemoveIdAbsent(r, id);
  }

  /**
   * The validation and request building of `handleSave`: the form is built
   * by successive appends, then sent with PUT when editing, POST otherwise.
   */
  method BuildSaveRequest(body: string, imageFile: Option<File>, isEditing: bool, editId: Option<Id>)
    returns (request: Option<Request>)
    ensures request == SaveRequest(body, imageFile, isEditing, editId)
  {
    var trimmed := Trim(body);
    if trimmed == "" || (imageFile.None? && !isEditing) {
      return None;
    }
    var formData: seq<Part> := [];
    formData := formData + [TextPart("body", trimmed)];
    if imageFile.Some? {
      formData := formData + [FilePart("image", imageFile.value)];
    }
    assert formData == SaveForm(body, imageFile);
    if isEditing {
      request := Some(Request(Put, EditPrefix + IdText(editId), Form(formData)));
    } else {
      request := Some(Request(Post, AddUrl, Form(formData)));
    }
  }

  class AchievementsScreen {
    var achievements: seq<Achievement>
    var newAchievement: Achievement
    var imageFile: Option<File>
    var isEditing: bool
    var isModalOpen: bool
    var editId: Option<Id>

    /** While editing, the draft is the record being edited, so the PUT targets the draft's own id. */
    ghost predicate Valid()
      reads this
    {
      isEditing ==> editId == newAchievement.id
    }

    /** The request `handleSave` would issue from the current draft, or None if it would refuse. */
    ghost function PendingSave(): Option<Request>
      reads this
    {
      SaveRequest(newAchievement.body, imageFile, isEditing, editId)
    }

    constructor ()
      ensures Valid()
      ensures achievements == [] && newAchievement == EmptyDraft && imageFile == None
      ensures !isEditing && !isModalOpen && editId == None
    {
      achievements := [];
      newAchievement := EmptyDraft;
      imageFile := None;
      isEditing := false;
      isModalOpen := false;
      editId := None;
    }

    /** `fetchAchievements`: GET the list; an absent list reads as empty, a failure keeps the old one. */
    method FetchAchievements(response: Fetch<seq<Achievement>>) returns (effects: Effects)
      modifies this`achievements
      ensures achievements == Reloaded(old(achievements), response)
      ensures response.FetchFailed? ==> achievements == old(achievements)
      ensures response == Fetched(None) ==> achievements == []
      ensures effects == Effects([GetRequest(ListUrl)], if response.FetchFailed? then [FetchFailedAlert] else [])
    {
      match response {
        case FetchFailed =>
          effects := Effects([GetRequest(ListUrl)], [FetchFailedAlert]);
        case Fetched(data) =>
          achievements := if data.Some? then data.value else [];
          effects := Effects([GetRequest(ListUrl)], []);
      }
    }

    /** `handleImageChange`: stages `files[0]`, which is absent when nothing was picked. */
    method HandleImageChange(picked: Option<File>)
      modifies this`imageFile
      ensures imageFile == picked
    {
      imageFile := picked;
    }

    /** The textarea's change handler: replaces the draft body and nothing else. */
    method HandleBodyChange(text: string)
      requires Valid()
      modifies this`newAchievement
      ensures Valid()
      ensures newAchievement == old(newAchievement).(body := text)
    {
      newAchievement := newAchievement.(body := text);
    }

    /**
     * `handleSave`.  A refused save issues nothing and changes nothing; a
     * failed request changes nothing; a successful one reloads the list and
     * closes the modal.
     */
    method HandleSave(saveOutcome: HttpOutcome, reload: Fetch<seq<Achievement>>) returns (effects: Effects)
      requires Valid()
      modifies this
      ensures Valid()
      ensures old(PendingSave()).None? ==>
        effects == Effects([], [RequiredAlert]) && unchanged(this)
      ensures old(PendingSave()).Some? ==>
        |effects.requests| >= 1 &&
        effects.requests[0] == old(PendingSave()).value
      ensures old(PendingSave()).Some? && old(isEditing) ==>
        |effects.requests| >= 1 && effects.requests[0].url == EditPrefix + IdText(old(newAchievement.id))
      ensures old(PendingSave()).Some? && saveOutcome.Failed? ==>
        effects == Effects(effects.requests, [SaveFailedAlert]) && |effects.requests| == 1 && unchanged(this)
      ensures old(PendingSave()).Some? && saveOutcome.Succeeded? ==>
        && |effects.requests| == 2 && effects.requests[1] == GetRequest(ListUrl)
        && effects.alerts == [SavedAlert(old(isEditing))] + (if reload.FetchFailed? then [FetchFailedAlert] else [])
        && achievements == Reloaded(old(achievements), reload)
        && newAchievement == EmptyDraft && imageFile == None && !isEditing && !isModalOpen
        && editId == old(editId)
    {
      var request := BuildSaveRequest(newAchievement.body, imageFile, isEditing, editId);
      if request.None? {
        return Effects([], [RequiredAlert]);
      }
      if saveOutcome.Failed? {
        return Effects([request.value], [SaveFailedAlert]);
      }
      var saved := SavedAlert(isEditing);
      var fetched := FetchAchievements(reload);
      CloseModal();
      effects := Effects([request.value] + fetched.requests, [saved] + fetched.alerts);
    }

    /**
     * `handleDelete(id)` with the record's `id`, absent when the record has
     * none: nothing happens unless confirmed; a successful DELETE filters
     * every entry with that id out of the local list.
     */
    method HandleDelete(id: Option<Id>, confirmed: bool, outcome: HttpOutcome) returns (effects: Effects)
      modifies this`achievements
      ensures !confirmed ==> effects == NoEffects && achievements == old(achievements)
      ensures confirmed ==> effects.requests == [Request(Delete, DeletePrefix + IdText(id), NoBody)]
      ensures confirmed && outcome.Succeeded? ==>
        achievements == RemoveId(old(achievements), id) && effects.alerts == [DeletedAlert]
      ensures confirmed && outcome.Failed? ==>
        achievements == old(achievements) && effects.alerts == [DeleteFailedAlert]
    {
      if !confirmed {
        return NoEffects;
      }
      var request := Request(Delete, DeletePrefix + IdText(id), NoBody);
      if outcome.Failed? {
        return Effects([request], [DeleteFailedAlert]);
      }
      achievements := RemoveId(achievements, id);
      effects := Effects([request], [DeletedAlert]);
    }

    /** `openModal(achievement)` edits that record; `openModal()` starts an empty draft. */
    method OpenModal(achievement: Option<Achievement>)
      modifies this`isEditing, this`editId, this`newAchievement, this`isModalOpen
      ensures Valid()
      ensures isEditing == achievement.Some?
      ensures editId == if achievement.Some? then achievement.value.id else None
      ensures newAchievement == achievement.GetOr(EmptyDraft)
      ensures isModalOpen
    {
      isEditing := achievement.Some?;
      editId := if achievement.Some? then achievement.value.id else None;
      newAchievement := if achievement.Some? then achievement.value else EmptyDraft;
      isModalOpen := true;
    }

    /** `closeModal`: empty draft, nothing staged, not editing, closed; list and `editId` kept. */
    method CloseModal()
      modifies this`newAchievement, this`imageFile, this`isEditing, this`isModalOpen
      ensures Valid()
      ensures newAchievement == EmptyDraft && imageFile == None && !isEditing && !isModalOpen
    {
      newAchievement := EmptyDraft;
      imageFile := None;
      isEditing := false;
      isModalOpen := false;
    }
  }

  /** Closing a second time leaves the screen exactly as the first close did. */
  method CloseModalIdempotent(screen: AchievementsScreen)
    modifies screen
    ensures screen.Valid()
    ensures screen.achievements == old(screen.achievements) && screen.editId == old(screen.editId)
    ensures screen.newAchievement == EmptyDraft && screen.imageFile == None
    ensures !screen.isEditing && !screen.isModalOpen
  {
    screen.CloseModal();
    ghost var once := (screen.achievements, screen.newAchievement, screen.imageFile,
                       screen.isEditing, screen.isModalOpen, screen.editId);
    screen.CloseModal();
    assert once == (screen.achievements, screen.newAchievement, screen.imageFile,
                    screen.isEditing, screen.isModalOpen, screen.editId);
  }
}
