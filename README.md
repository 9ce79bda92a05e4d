# SIRG admin screens: the create/edit/delete sessions

This project models the admin front-end of a research lab website. It covers three of its
create/edit/delete screens, each a React component backed by a REST API:

- **Achievements** (`achievements.dfy`): a list of achievements, each a body text and an image.
  A modal creates or edits one, sent as a multipart form with an optional `image` part. A delete
  is confirmed first and then filters the record out of the local list.
- **Contact** (`contact.dfy`): a list of `{ type, value }` contacts. Each is rendered as a caption
  and, for mail and website contacts, a link. A modal updates the selected contact or adds a new
  one, sent as JSON. A delete is confirmed first and then reloads the list.
- **Research page** (`research_page.dfy`): the page of one research vertical, taken to be mounted at
  the route pattern `/research/:id`. It has an editable copy of the vertical, which can be saved or deleted. It
  also has a sub-screen for the vertical's people, with a create/edit modal (multipart, optional
  image) and a confirmed delete.

`common.dfy` holds the shared pieces:

- `Wrappers`: an Option type.
- `Text`: the string primitives the screens use (`trim`, lower-casing, upper-casing the first
  character, `startsWith`, decimal rendering of an integer, and `parseInt` in base 10).
- `Http`: request descriptors, call outcomes, alerts, and the `FormData.get` lookup.

Each screen is a class. Its fields are the component's `useState` slots, and each handler is a
method. A handler does not perform I/O. It takes the outcome of every external call as a
parameter:

- `HttpOutcome` for a mutation, including the server's error text on failure;
- `Fetch<T>` for a list reload;
- a boolean for the answer to a confirmation dialog.

It returns `Effects`: the requests issued and the alerts shown, in order. Validation and request
building are also stated as pure functions (`SaveRequest`, `UpdateRequest`/`AddRequest`,
`PersonSaveRequest`). Each save handler is proved equal to its function, and the properties of
the screen are proved as lemmas about those functions. Invariants (`Valid`) record what the
handlers keep: while editing an achievement, the edit id is the draft's own id; while editing a
person, there is a person to edit.

Some behaviours of the code look unintended; the model follows the code as written:

- After adding a contact, the selection is kept, so the add modal stays open.
- The contact list's empty-state check reads `size`, which arrays lack, so the message never
  shows (`Contact.RenderContacts`).
- Deleting an achievement filters the local list and does not reload it.
- Deleting a research person does not filter the people list. It navigates to
  `/research/:${id}`, which puts a ':' in front of the route parameter. The mount effect then
  runs again: `parseInt` of the new parameter is NaN, so no vertical is found and the draft is
  kept, and the people list is reloaded from `research-people/:{id}`. Later saves use that
  parameter too (`ResearchPage.ColonRouteFindsNothing`, `ResearchPage.AdminResearchPage.HandleDelete`).

## Model

| member | source | states |
|---|---|---|
| Text.Trim | src/components/Achievements/Achievements.jsx:34 | `trim()` yields a string without surrounding whitespace, no longer than its input, that is empty exactly when the input is all whitespace |
| Text.TrimSpan | src/components/Achievements/Achievements.jsx:40 | the trimmed text occurs in the input at some position, with only whitespace before and after it |
| Text.TrimPadding | src/components/Achievements/Achievements.jsx:40 | a trimmed core padded with whitespace on both sides trims back to exactly that core |
| Text.TrimIdempotent | src/components/Achievements/Achievements.jsx:40 | trimming twice gives the same text as trimming once |
| Text.Lower | src/components/Contact/Contact.jsx:88 | `toLowerCase` keeps the length and lower-cases every character in place |
| Text.UpperFirst | src/components/Contact/Contact.jsx:124 | `charAt(0).toUpperCase() + slice(1)` keeps the length, upper-cases the first character and keeps the rest |
| Text.StartsWith | src/components/Contact/Contact.jsx:106 | `s.startsWith(p)` holds exactly when `p` is no longer than `s` and agrees with `s` character by character |
| Text.NatToString | src/pages/ResearchPage/ResearchPage.jsx:28 | the decimal rendering of a natural number, as a route parameter for `parseInt` to read, is a non-empty string of digits, starting with '0' exactly for zero, so with no leading zeros |
| Text.ParseInt | src/pages/ResearchPage/ResearchPage.jsx:28 | `parseInt` reads a number only from text that contains a digit |
| Text.ParseIntNegative | src/pages/ResearchPage/ResearchPage.jsx:28 | a negative number is read only when the first character after the leading whitespace is '-' |
| Text.ParseIntDigits | src/pages/ResearchPage/ResearchPage.jsx:28 | `parseInt` of a run of digits followed by a non-digit (or nothing) is the number the digits spell |
| Text.ParseIntNaN | src/pages/ResearchPage/ResearchPage.jsx:28 | `parseInt` of text starting with a character that is neither whitespace, a sign nor a digit is NaN |
| Text.ParseIntOfIntToString | src/pages/ResearchPage/ResearchPage.jsx:28 | `parseInt` reads the decimal rendering of any integer back as that integer |
| Http.ErrorText | src/pages/ResearchPage/ResearchPage.jsx:62 | `error.response?.data || fallback` is the fallback or the server's non-empty text of a failed call; it is the fallback when the call succeeded or the server sent nothing, and it is never empty when the fallback is not |
| Achievements.Reloaded | src/components/Achievements/Achievements.jsx:22 | `data || []`: a failed reload keeps the previous list, a successful one gives the data, or the empty list when there is none |
| Achievements.SaveForm | src/components/Achievements/Achievements.jsx:39-41 | the form's `body` entry is the trimmed draft body, and its `image` entry is the staged file exactly when one is staged |
| Achievements.SaveRequest | src/components/Achievements/Achievements.jsx:34-54 | no request exactly when the trimmed body is blank, or when creating with no staged file; otherwise a PUT to `edit-achievement/{editId}` when editing, else a POST to `add-achievement`, carrying the save form |
| Achievements.EditWithoutImageAllowed | src/components/Achievements/Achievements.jsx:34-41 | editing with a non-blank body and no staged file is accepted, and the form then has no `image` entry |
| Achievements.SaveDependsOnlyOnTrim | src/components/Achievements/Achievements.jsx:34-40 | two drafts with the same trimmed body produce the same request |
| Achievements.SaveIgnoresSurroundingSpace | src/components/Achievements/Achievements.jsx:34-40 | adding whitespace around a body does not change the request |
| Achievements.EditExample | src/components/Achievements/Achievements.jsx:39-47 | editing achievement "3" to "New text" with no new image is a PUT to `.../edit-achievement/3` whose form holds only `body=New text` |
| Achievements.CreateBlankExample | src/components/Achievements/Achievements.jsx:34-37 | creating with an empty body and no image issues no request |
| Achievements.RemoveId | src/components/Achievements/Achievements.jsx:78 | the filtered list holds exactly the old entries whose id differs from the deleted one, and is no longer than the old list |
| Achievements.RemoveIdAppend | src/components/Achievements/Achievements.jsx:78 | the filter distributes over concatenation, so the survivors keep their original order |
| Achievements.RemoveIdAbsent | src/components/Achievements/Achievements.jsx:78 | a list with no entry of that id is left exactly as it was |
| Achievements.RemoveIdIdempotent | src/components/Achievements/Achievements.jsx:78 | removing an id a second time removes nothing more |
| Achievements.BuildSaveRequest | src/components/Achievements/Achievements.jsx:33-54 | the validation and the form built by successive appends yield exactly `SaveRequest` of the draft |
| Achievements.AchievementsScreen.constructor | src/components/Achievements/Achievements.jsx:8-13 | the initial state is an empty list, an empty draft, no staged file, not editing, closed, no edit id |
| Achievements.AchievementsScreen.FetchAchievements | src/components/Achievements/Achievements.jsx:19-27 | one GET of the list; an absent body stores the empty list; a failure keeps the previous list and shows the fetch-failed alert |
| Achievements.AchievementsScreen.HandleImageChange | src/components/Achievements/Achievements.jsx:29-31 | the staged file becomes the picked file, or none when nothing was picked |
| Achievements.AchievementsScreen.HandleBodyChange | src/components/Achievements/Achievements.jsx:131 | only the draft body changes, and the edit invariant is kept |
| Achievements.AchievementsScreen.HandleSave | src/components/Achievements/Achievements.jsx:33-62 | a refused save issues nothing, shows the required alert and changes nothing; otherwise the first request is the pending `SaveRequest`, and when editing it targets the URL of the draft's own id; a failure shows the save-failed alert and changes nothing; a success shows the added/updated alert, reloads the list, and resets draft, file, editing and modal while keeping `editId` |
| Achievements.AchievementsScreen.HandleDelete | src/components/Achievements/Achievements.jsx:64-85 | unconfirmed: no request and no change; confirmed: one DELETE to `delete-achievement/{id}`, with "undefined" for a record without an id; success removes every entry with that id (or every entry without one) and shows the deleted alert; failure keeps the list and shows the failure alert |
| Achievements.AchievementsScreen.OpenModal | src/components/Achievements/Achievements.jsx:87-92 | with a record: editing, `editId` is its id and the draft is the record; without one: not editing, no edit id, empty draft; the modal is open either way |
| Achievements.AchievementsScreen.CloseModal | src/components/Achievements/Achievements.jsx:94-99 | empty draft, no staged file, not editing, modal closed; the list and `editId` are untouched |
| Achievements.CloseModalIdempotent | src/components/Achievements/Achievements.jsx:94-99 | closing twice leaves the same state as closing once, with list and `editId` kept |
| Contact.ModalMode | src/components/Contact/Contact.jsx:145-148 | the modal is hidden exactly when nothing is selected, and in update mode exactly when the selected contact has a truthy id |
| Contact.UpdateRequest | src/components/Contact/Contact.jsx:31-35 | refused exactly when the type or the value is the empty string; otherwise a PUT to `edit-contact/{id}` carrying the draft's type and value |
| Contact.AddRequest | src/components/Contact/Contact.jsx:69-73 | refused exactly when the type or the value is the empty string; otherwise a POST to `add-contact` carrying the draft's type and value |
| Contact.AddAndUpdateAgree | src/components/Contact/Contact.jsx:69-71 | add and update accept exactly the same drafts and send the same body |
| Contact.WhitespaceOnlyAccepted | src/components/Contact/Contact.jsx:31-33 | whitespace-only type and value pass validation for both add and update, since nothing is trimmed |
| Contact.WebsiteHref | src/components/Contact/Contact.jsx:106 | the link always starts with "http": the value itself when it already does, otherwise "https://" prefixed to it |
| Contact.Display | src/components/Contact/Contact.jsx:88-124 | the shown text is the value; a type that lower-cases to "mail" is captioned "Email" and links to `mailto:value`; one that lower-cases to "website" is captioned "Website" and links to the website href; any other type is captioned with its first character upper-cased and has no link |
| Contact.LinkIffMailOrWebsite | src/components/Contact/Contact.jsx:88-106 | an item is a link exactly when its type is "mail" or "website" in some letter case |
| Contact.DisplayIgnoresCase | src/components/Contact/Contact.jsx:88-101 | mail and website contacts whose types differ only in case render identically |
| Contact.OtherTypeCaption | src/components/Contact/Contact.jsx:124 | any other type renders as its upper-cased first character, the rest of the type, ": " and the value |
| Contact.MailExample | src/components/Contact/Contact.jsx:88-92 | type "Mail" with value "a@b.com" renders as "Email: a@b.com" linking to "mailto:a@b.com" |
| Contact.WebsiteExample | src/components/Contact/Contact.jsx:106 | "lab.example.org" links to "https://lab.example.org"; "http://lab.example.org" links to itself |
| Contact.RenderContacts | src/components/Contact/Contact.jsx:87 | the empty message is never shown; a null list makes the render fail; otherwise one line per contact, in order, each rendered by `Display` |
| Contact.ContactScreen.constructor | src/components/Contact/Contact.jsx:7-9 | the initial state is an empty list, no selection and an empty draft |
| Contact.ContactScreen.FetchContacts | src/components/Contact/Contact.jsx:12-19 | one GET of the list; the response body is stored as is; a failure keeps the previous list and shows nothing |
| Contact.ContactScreen.HandleEditContact | src/components/Contact/Contact.jsx:25-28 | the contact is selected, the draft is exactly its type and value, and the modal is in update mode iff its id is truthy |
| Contact.ContactScreen.OpenAddContact | src/components/Contact/Contact.jsx:138 | a blank contact is selected, putting the modal in add mode, and the previous draft is kept |
| Contact.ContactScreen.CancelModal | src/components/Contact/Contact.jsx:173 | the selection is cleared and the modal hidden |
| Contact.ContactScreen.HandleTypeChange | src/components/Contact/Contact.jsx:156 | only the draft type changes |
| Contact.ContactScreen.HandleValueChange | src/components/Contact/Contact.jsx:165 | only the draft value changes |
| Contact.ContactScreen.HandleUpdateContact | src/components/Contact/Contact.jsx:30-43 | a refused draft issues nothing and shows the required alert; with no selection, only the update-failed alert is shown; otherwise the first request is `UpdateRequest` for the selected id; a failure changes nothing; a success reloads, clears the selection and keeps the draft |
| Contact.ContactScreen.HandleAddContact | src/components/Contact/Contact.jsx:68-81 | a refused draft issues nothing; otherwise the first request is `AddRequest`; a failure changes nothing; a success reloads and empties the draft but keeps the selection |
| Contact.ContactScreen.HandleDeleteContact | src/components/Contact/Contact.jsx:45-66 | unconfirmed: nothing happens; confirmed: a DELETE to `delete-contact/{id}`; the list is reloaded only after a success; a failure keeps it and shows the failure alert |
| Contact.AddMailContactScenario | src/components/Contact/Contact.jsx:68-92 | adding `{type: "mail", value: "a@b.com"}` on a fresh screen issues the POST then the reload; the list shows one "Email" line linking to "mailto:a@b.com"; the add modal stays open |
| ResearchPage.PeopleUrlInjective | src/pages/ResearchPage/ResearchPage.jsx:42 | different route parameters give different people URLs |
| ResearchPage.FindResearch | src/pages/ResearchPage/ResearchPage.jsx:28 | nothing is found exactly when no entry has the id; a found entry is in the list and has the id |
| ResearchPage.FindResearchFirst | src/pages/ResearchPage/ResearchPage.jsx:28 | the entry found is the first one with the id |
| ResearchPage.RouteResearch | src/pages/ResearchPage/ResearchPage.jsx:28 | nothing is found exactly when the parameter parses to NaN or no entry has the parsed id; a vertical found is in the list and its id is `parseInt` of the parameter |
| ResearchPage.RouteOfIdFindsIt | src/pages/ResearchPage/ResearchPage.jsx:28 | the decimal rendering of an id, as a route parameter, finds exactly the entry `find` gives for that id |
| ResearchPage.ColonRouteFindsNothing | src/pages/ResearchPage/ResearchPage.jsx:28 | a route parameter starting with ':' finds no vertical |
| ResearchPage.NavigatedParam | src/pages/ResearchPage/ResearchPage.jsx:156 | after the navigation the new parameter is the old one with one character in front, so it differs from the old one |
| ResearchPage.WithField | src/pages/ResearchPage/ResearchPage.jsx:49-51 | the named vertical field takes the value, and every other field keeps its own |
| ResearchPage.WithPersonField | src/pages/ResearchPage/ResearchPage.jsx:53-55 | the named person field takes the value; every other text field, the id and the image are kept |
| ResearchPage.PersonForm | src/pages/ResearchPage/ResearchPage.jsx:99-105 | the form carries the draft's name, category and description, plus the staged file as `image` exactly when one is staged |
| ResearchPage.PersonSaveRequest | src/pages/ResearchPage/ResearchPage.jsx:99-131 | refused exactly when creating without a staged file, a name or a category; editing PUTs to `research-people/{person id}`, creating POSTs to `research-people/{route parameter}`, both carrying the person form |
| ResearchPage.EditingSkipsValidation | src/pages/ResearchPage/ResearchPage.jsx:106-116 | editing with an empty draft and no file is still sent, with no `image` entry |
| ResearchPage.DescriptionOptional | src/pages/ResearchPage/ResearchPage.jsx:106 | creating with an empty description is accepted when a file, name and category are present |
| ResearchPage.CreateTargetsRouteVertical | src/pages/ResearchPage/ResearchPage.jsx:127 | creations from two different route parameters go to different URLs |
| ResearchPage.AdminResearchPage.constructor | src/pages/ResearchPage/ResearchPage.jsx:10-25 | the route parameter is the given one; the initial state is no vertical, no file, not editing, closed, no person, empty drafts and an empty people list |
| ResearchPage.AdminResearchPage.FetchResearchPeople | src/pages/ResearchPage/ResearchPage.jsx:40-47 | one GET of the route vertical's people; the body is stored as is; a failure keeps the old list and shows nothing |
| ResearchPage.AdminResearchPage.Init | src/pages/ResearchPage/ResearchPage.jsx:27-38 | when `RouteResearch` finds an entry for the route parameter, it becomes the current vertical and its fields are copied into the draft; otherwise both are kept; then the people of the route parameter are loaded |
| ResearchPage.AdminResearchPage.HandleChange | src/pages/ResearchPage/ResearchPage.jsx:49-51 | the vertical draft changes in the named field only |
| ResearchPage.AdminResearchPage.HandlePersonChange | src/pages/ResearchPage/ResearchPage.jsx:53-55 | the person draft changes in the named field only |
| ResearchPage.AdminResearchPage.HandleSaveChanges | src/pages/ResearchPage/ResearchPage.jsx:57-64 | one PUT of the vertical draft as JSON to the vertical's URL; success shows the updated alert; failure shows the server's text, or "Failed to update research" when there is none |
| ResearchPage.AdminResearchPage.HandleDeleteResearch | src/pages/ResearchPage/ResearchPage.jsx:66-87 | unconfirmed: nothing; confirmed: one DELETE of the vertical and the deleted or failed alert |
| ResearchPage.AdminResearchPage.HandleImageChange | src/pages/ResearchPage/ResearchPage.jsx:90-95 | a picked file is staged; when nothing was picked, the staged file is kept |
| ResearchPage.AdminResearchPage.HandleSave | src/pages/ResearchPage/ResearchPage.jsx:98-139 | a refused save issues nothing and changes nothing; otherwise the first request is the pending `PersonSaveRequest`, with the success or server-error alert; a failure changes nothing; a success reloads the people and resets draft, file, editing and modal while keeping `currentPeople`, the vertical, its draft and the route parameter, so the reload fetches the same vertical's people |
| ResearchPage.AdminResearchPage.HandleDelete | src/pages/ResearchPage/ResearchPage.jsx:142-163 | unconfirmed: nothing; confirmed: first a DELETE to `research-people/{person id}`; a failure shows the failed alert and changes nothing; a success shows the deleted alert, turns the route parameter into `NavigatedParam` of the old one, keeps the vertical and its draft, and reloads the people from the new parameter's URL |
| ResearchPage.AdminResearchPage.OpenModal | src/pages/ResearchPage/ResearchPage.jsx:166-179 | editing iff a person is given; the draft is that person or the empty record; `currentPeople` is the argument; the modal opens |
| ResearchPage.AdminResearchPage.CloseModal | src/pages/ResearchPage/ResearchPage.jsx:182-193 | empty record, no file, not editing, closed; `currentPeople` is untouched |
| ResearchPage.CloseModalIdempotent | src/pages/ResearchPage/ResearchPage.jsx:182-193 | closing twice leaves the same state as closing once: draft, file, editing and modal reset, and `currentPeople`, the people list, the route parameter, the vertical and its draft kept |

## Left out

- HTTP calls (axios) are not performed. Each is a `Request` descriptor plus an outcome parameter; the backend's behaviour is not visible.
- SweetAlert dialogs are not performed. A confirmation is a boolean parameter and is not listed among the alerts; a notification is an `Alert` value.
- Asynchronous interleaving is not modelled. A reload after a mutation completes at once with its own outcome parameter, so racing reloads, last-response-wins and double submission are not covered.
- ResearchPage.AdminResearchPage.HandleDeleteResearch: the `navigate("/")` and `setCurrentPage("home")` after a successful delete are not modelled; leaving the page ends the session the model describes.
- ResearchPage.AdminResearchPage.HandleDelete: the router is not modelled. The page is taken to be mounted at the route pattern `/research/:id` and kept mounted across the navigation, so the navigation is modelled as the change of the route parameter to `NavigatedParam` followed by one run of the mount effect (`Init`).
- JSX markup, CSS, and the FlipCard component are not modelled; the only part of rendering modelled is the contact list's caption/link rule.
- The bootstrap data of src/util/util.js (module-level fetches) is not modelled. The `research` list is a parameter of `Init`, and `backend_url` is the constant `Http.BackendUrl`.
- Multipart encoding is not modelled. A `FormData` is the list of its entries, and a file is known only by name.
- Text.ParseInt: the `0x` prefix, which `parseInt` reads as hexadecimal, and the loss of precision beyond 2^53 are not modelled. The leading whitespace skipped is the fixed `IsSpace` set, as for `Text.Trim`; other Unicode whitespace such as U+2028 or U+3000 is not skipped.
- The `console.error` logging in the catch blocks is not modelled (src/components/Achievements/Achievements.jsx:24, :59, :81; src/components/Contact/Contact.jsx:17, :40, :61, :78; src/pages/ResearchPage/ResearchPage.jsx:45, :159).
- Text.Trim: strips a fixed whitespace set (ASCII whitespace, NBSP, BOM), not the full Unicode set.
- Text.Lower: maps only ASCII letters; other case mappings are not modelled.
- Text.UpperFirst: maps only ASCII letters; other case mappings, including ones that lengthen the text, are not modelled.
- Server error bodies (`error.response.data`) are modelled as strings.
- A null list body from the contact or people endpoint is stored as null. The contact list then renders as a failure (`RenderError`); the people list's rendering is not modelled.
- The initial `newPerson` value `{ name, role }` is replaced by the empty person record. The modal is only opened through `openModal`, which overwrites the draft first.
