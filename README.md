# Construction-site client collections, modelled in Dafny

This project models the client-side data handling of a construction
company's website and its admin back-office (a React single-page app):

- the shared in-memory store (`DataContext`) with its four ordered
  collections (services, projects, team members, contact messages) and
  their add / update / delete operations;
- the newline-list text codec that the admin forms use to edit a team
  member's skills and a service's features;
- the team admin page (form state, add-versus-update dispatch, pre-filling
  the form on edit);
- the services admin page, which keeps its own list and patches it with the
  server's answers (prepend on create, swap on update, filter on delete),
  leaving it untouched when a request throws;
- the contact inbox (status filter, selection, auto-marking unread messages
  read, selection cleared on delete);
- the dashboard counters and "recent" lists, and the public projects page's
  category filter.

A JavaScript object is a `map<string, Value>` (`Records`), where a value is a
string or an array of strings; the record's id is an ordinary property
(`id` in the store, `_id` for server documents), so the object spread
`{...r, ...patch}` is the map union `r + patch` and a patch that carries an
id rewrites it. Array methods (`filter`, a selective `map`, `find`,
`slice(0, n)`, and `filter(p).length` for counting) are the recursive
functions of `Collections`, with their order and membership lemmas;
`FindIndex` is the helper that gives `find` its first-match position. State that the source keeps in
React `useState` hooks is a class: `DataContext.DataStore`,
`AdminTeam.TeamPage`, `AdminServices.ServicesPage`,
`AdminContact.ContactInbox`; each handler is a method whose postcondition
gives the new state as a function of the old one and says what does not
change. Derived views (the dashboard, the projects page, the inbox filter)
are functions.

Environmental inputs are parameters: the fresh id (`Date.now()`), the date of
a new message, the answer of each HTTP request (`None` for a request that
threw, otherwise the response body), and the answer to `window.confirm`.

After each mutation the pages patch their local copy directly; that local
patching is what is modelled.

The JavaScript truthiness test `if (editingMember)` is modelled exactly
(`AdminForms.IsEditing`): an empty-string id counts as "not editing", so
such a submit adds instead of updating.

## Model

| member | source | states |
|---|---|---|
| Records.Spread | src/context/DataContext.jsx:110 | object spread: the keys of both objects; the patch's value wins where both have the key; other keys keep the old value |
| Records.SpreadIdempotent | src/context/DataContext.jsx:110 | spreading the same patch twice is spreading it once |
| Records.FromForm | frontend/src/pages/admin/AdminTeam.jsx:16-17 | the submitted form values as an object: the same keys, each holding its string |
| Records.Removed | src/context/DataContext.jsx:113-115 | after a delete, a record is present exactly when it was present and does not carry the id; the survivors are a subsequence of the old list (relative order kept) |
| Records.RemoveIdempotent | src/context/DataContext.jsx:114 | deleting twice equals deleting once |
| Records.RemoveMissingId | src/context/DataContext.jsx:128 | deleting an id that no record carries leaves the list unchanged |
| Records.RemoveKeepsOrder | src/context/DataContext.jsx:141-143 | delete distributes over concatenation, so the records that stay keep their relative order |
| Collections.Filter | src/pages/Projects.jsx:22 | `filter`: never longer than the input; an element is in the result exactly when it is in the input and passes |
| Collections.MapWhere | src/context/DataContext.jsx:124 | selective `map`: same length; each selected position is rewritten, every other position is unchanged |
| Collections.Find | frontend/src/pages/admin/AdminContact.jsx:34 | `find`: nothing exactly when no element passes; otherwise the first element of the list that passes |
| Collections.Take | frontend/src/pages/admin/AdminDashboard.jsx:67 | `slice(0, n)`: a prefix of length `min(n, |xs|)` |
| Collections.CountWhere | frontend/src/pages/admin/AdminDashboard.jsx:46 | `filter(p).length`: at most the length; zero exactly when none passes; the full length exactly when all pass |
| DataContext.WithId | src/context/DataContext.jsx:105 | the new record has the given fields plus `id` set to the fresh id, overriding any id in the fields |
| DataContext.Added | src/context/DataContext.jsx:104-107 | add: the length grows by one, the earlier records are kept as they were in order, and the last one is the fields with the fresh id |
| DataContext.Updated | src/context/DataContext.jsx:109-111 | update: same length; each record with the id becomes `old + patch`; every other record is unchanged |
| DataContext.UpdateMissingId | src/context/DataContext.jsx:124 | updating an id that no record carries leaves the list unchanged |
| DataContext.UpdateIdempotent | src/context/DataContext.jsx:137-139 | applying the same update twice equals applying it once |
| DataContext.NewContact | src/context/DataContext.jsx:146-154 | a new message has the fresh id, the given date and status `unread`, whatever the caller supplied for those keys; its other keys are the caller's |
| DataContext.StatusUpdated | src/context/DataContext.jsx:156-158 | status update: same length; matching messages get the new status and keep every other key and value; other messages are unchanged |
| DataContext.StatusUpdateMissingId | src/context/DataContext.jsx:157 | setting the status of an id no message carries changes nothing |
| DataContext.DataStore.constructor | src/context/DataContext.jsx:14-101 | the store starts with the seeded services, projects and team and no messages |
| DataContext.DataStore.AddService | src/context/DataContext.jsx:104-107 | services becomes `Added(old services)`; the other three collections are unchanged |
| DataContext.DataStore.UpdateService | src/context/DataContext.jsx:109-111 | services becomes `Updated(old services)`; the other three are unchanged |
| DataContext.DataStore.DeleteService | src/context/DataContext.jsx:113-115 | services loses every record with the id; the other three are unchanged |
| DataContext.DataStore.AddProject | src/context/DataContext.jsx:118-121 | projects gains the new record at the end; the other three are unchanged |
| DataContext.DataStore.UpdateProject | src/context/DataContext.jsx:123-125 | projects becomes `Updated(old projects)`; the other three are unchanged |
| DataContext.DataStore.DeleteProject | src/context/DataContext.jsx:127-129 | projects loses every record with the id; the other three are unchanged |
| DataContext.DataStore.AddTeamMember | src/context/DataContext.jsx:132-135 | team gains the new record at the end; the other three are unchanged |
| DataContext.DataStore.UpdateTeamMember | src/context/DataContext.jsx:137-139 | team becomes `Updated(old team)`; the other three are unchanged |
| DataContext.DataStore.DeleteTeamMember | src/context/DataContext.jsx:141-143 | team loses every record with the id; the other three are unchanged |
| DataContext.DataStore.AddContact | src/context/DataContext.jsx:146-154 | contacts gains `NewContact(...)` at the end; the other three are unchanged |
| DataContext.DataStore.UpdateContactStatus | src/context/DataContext.jsx:156-158 | contacts becomes `StatusUpdated(old contacts)`; the other three are unchanged |
| DataContext.DataStore.DeleteContact | src/context/DataContext.jsx:160-162 | contacts loses every message with the id; the other three are unchanged |
| NewlineList.TrimStart | frontend/src/pages/admin/AdminTeam.jsx:18 | leading white space removed: a suffix of the input, all removed characters white space, the rest not starting with white space |
| NewlineList.TrimEnd | frontend/src/pages/admin/AdminTeam.jsx:18 | trailing white space removed: a prefix, all removed characters white space, the rest not ending with white space |
| NewlineList.TrimEmptyIffBlank | frontend/src/pages/admin/AdminTeam.jsx:18 | `s.trim() === ''` exactly when every character of `s` is JavaScript white space |
| NewlineList.Trim | frontend/src/pages/admin/AdminTeam.jsx:18 | `s.trim()`: never longer than `s`; a non-empty result starts and ends with a character that is not white space (what is cut off is stated by `TrimStart` and `TrimEnd`) |
| NewlineList.NonBlank | frontend/src/pages/admin/AdminTeam.jsx:18 | the filter test `s.trim() !== ''` holds exactly when `s` has a character that is not white space |
| NewlineList.Join | frontend/src/pages/admin/AdminTeam.jsx:38 | `join('\n')`: the empty list gives the empty text; the text starts with the first entry; it is at least one character per separator long (with `JoinSplit` and `SplitJoin` as its inverse) |
| NewlineList.Split | frontend/src/pages/admin/AdminTeam.jsx:18 | `split('\n')`: at least one piece, no piece holds a line feed |
| NewlineList.Parse | frontend/src/pages/admin/AdminTeam.jsx:18 | every parsed entry is non-blank after trimming and has no line feed; the entries are a subsequence of the split pieces (input order, untrimmed); every non-blank piece is kept, duplicates included (the length is the number of non-blank pieces) |
| NewlineList.ParseField | frontend/src/pages/admin/AdminServices.jsx:32 | an absent or empty field parses to the empty list; a present field parses exactly as `Parse` of its text; every entry is non-blank and line-free |
| NewlineList.JoinSplit | frontend/src/pages/admin/AdminTeam.jsx:38 | joining the split pieces with line feeds gives the text back |
| NewlineList.SplitJoin | frontend/src/pages/admin/AdminServices.jsx:60 | splitting the join of a non-empty list of line-free entries gives the list back |
| NewlineList.RoundTrip | frontend/src/pages/admin/AdminTeam.jsx:18-38 | parsing the join of a list gives the list back, and exactly when every entry is non-blank and line-free |
| NewlineList.ParseKeepsLinesVerbatim | frontend/src/pages/admin/AdminTeam.jsx:18 | when no line is blank, parsing returns every line as typed, spaces included, and joining reproduces the text |
| AdminForms.IsEditing | frontend/src/pages/admin/AdminTeam.jsx:21 | the truthiness of `editingMember`: `null` and the empty string are falsy, every other id is truthy |
| AdminForms.SetValue | frontend/src/pages/admin/AdminTeam.jsx:34 | `setValue(key, v)`: reading `key` back gives `v` (no value for `undefined`); every other field reads as before |
| AdminForms.Formatted | frontend/src/pages/admin/AdminTeam.jsx:16-19 | the submitted record: every form value as text, except the list field, which holds the parsed entries |
| AdminForms.PrefillText | frontend/src/pages/admin/AdminTeam.jsx:34-37 | after the `setValue` calls, each listed field holds the record's string (or no value when the record has none); other fields keep theirs |
| AdminForms.Prefill | frontend/src/pages/admin/AdminServices.jsx:56-60 | the edit form: the text fields copied, the list field holding the entries joined with line feeds; every other field keeps its presence and its value |
| AdminForms.EditSubmitRoundTrip | frontend/src/pages/admin/AdminServices.jsx:32-60 | opening a record for editing and submitting the untouched form writes back its list and text fields unchanged, when the list entries are non-blank and line-free |
| AdminTeam.TeamPage.constructor | frontend/src/pages/admin/AdminTeam.jsx:10-11 | the form starts closed with nothing being edited |
| AdminTeam.TeamPage.OpenForm | frontend/src/pages/admin/AdminTeam.jsx:61 | the add button opens the form and changes nothing else |
| AdminTeam.TeamPage.OnSubmit | frontend/src/pages/admin/AdminTeam.jsx:15-30 | called only when name, position, image and bio are filled in (the `required` rule); with a member being edited, that member is updated with the formatted data; otherwise the formatted data is added under the fresh id; only the team collection changes; the form ends closed and cleared |
| AdminTeam.TeamPage.HandleEdit | frontend/src/pages/admin/AdminTeam.jsx:32-40 | the member's id becomes the one being edited, the form is pre-filled with skills joined by line feeds, and the form opens |
| AdminTeam.TeamPage.HandleDelete | frontend/src/pages/admin/AdminTeam.jsx:42-47 | a confirmed delete removes the member from the team; a declined one changes nothing; other collections are unchanged |
| AdminTeam.TeamPage.HandleCloseForm | frontend/src/pages/admin/AdminTeam.jsx:49-53 | the form is closed, nothing is being edited and the fields are reset |
| AdminServices.Replaced | frontend/src/pages/admin/AdminServices.jsx:38 | same length; entries whose `_id` is the edited id are replaced by the server's answer; all others are unchanged |
| AdminServices.ReplaceMissingId | frontend/src/pages/admin/AdminServices.jsx:38 | when no entry has the id, the list is unchanged |
| AdminServices.ServicesPage.constructor | frontend/src/pages/admin/AdminServices.jsx:9-11 | the page starts with an empty list, the form closed and nothing being edited |
| AdminServices.ServicesPage.FetchServices | frontend/src/pages/admin/AdminServices.jsx:15-26 | the list becomes the fetched list, or stays as it was when the fetch throws |
| AdminServices.ServicesPage.OpenForm | frontend/src/pages/admin/AdminServices.jsx:91 | the add button opens the form and changes nothing else |
| AdminServices.ServicesPage.OnSubmit | frontend/src/pages/admin/AdminServices.jsx:28-52 | called only when title, description and price are filled in (the `required` rule); sends an update for the edited `_id` or a create otherwise; on success the answer is swapped in (update) or put at index 0 before the unchanged old list (create) and the form closes; on failure the list and the form are unchanged |
| AdminServices.ServicesPage.HandleEdit | frontend/src/pages/admin/AdminServices.jsx:54-62 | the service's `_id` becomes the one being edited, the form is pre-filled with features joined by line feeds, and it opens; the list is unchanged |
| AdminServices.ServicesPage.HandleDelete | frontend/src/pages/admin/AdminServices.jsx:64-75 | a declined confirm sends nothing and changes nothing; otherwise a delete is sent and, only if it succeeds, every entry with the `_id` leaves the list, the others keeping their order |
| AdminServices.ServicesPage.HandleCloseForm | frontend/src/pages/admin/AdminServices.jsx:77-81 | the form is closed, nothing is being edited, the fields are reset, the list is unchanged |
| AdminContact.FilteredContacts | frontend/src/pages/admin/AdminContact.jsx:12-15 | the `all` filter shows every message; any other value shows exactly the messages with that status, as many as match (duplicates included); in both cases a subsequence of the messages |
| AdminContact.SelectedContact | frontend/src/pages/admin/AdminContact.jsx:40 | nothing when no message is selected or none has the id; otherwise the first message with the selected id |
| AdminContact.AfterView | frontend/src/pages/admin/AdminContact.jsx:34-37 | the messages are unchanged unless the first message with the id is unread; the length never changes; every message without the id is kept, and a message with the id gets status `read` exactly when viewing marks read |
| AdminContact.ViewedContact | frontend/src/pages/admin/AdminContact.jsx:32-40 | after viewing, the shown message is the selected one with `unread` turned into `read`; a `read` or `replied` message keeps its status |
| AdminContact.DeletedNotSelectable | frontend/src/pages/admin/AdminContact.jsx:24 | after a message is deleted, its id selects nothing |
| AdminContact.DeleteKeepsOtherSelection | frontend/src/pages/admin/AdminContact.jsx:22-29 | deleting a message other than the selected one leaves the shown message as it was |
| AdminContact.ContactInbox.Visible | frontend/src/pages/admin/AdminContact.jsx:12-15 | the listed messages: all of them under `all`, otherwise exactly those with the chosen status, as many as match (duplicates included); a subsequence of the store's messages |
| AdminContact.ContactInbox.Shown | frontend/src/pages/admin/AdminContact.jsx:40 | the message shown: nothing exactly when nothing is selected or no message has the id; otherwise the first message of the store with the selected id |
| AdminContact.ContactInbox.constructor | frontend/src/pages/admin/AdminContact.jsx:9-10 | no message selected, filter `all` |
| AdminContact.ContactInbox.SetFilter | frontend/src/pages/admin/AdminContact.jsx:51 | the filter becomes the chosen one; the selection and the message shown are unchanged |
| AdminContact.ContactInbox.HandleStatusChange | frontend/src/pages/admin/AdminContact.jsx:17-20 | the store's messages get the status update; other collections are unchanged |
| AdminContact.ContactInbox.HandleDelete | frontend/src/pages/admin/AdminContact.jsx:22-30 | a confirmed delete removes the message and clears the selection when it was the selected one, keeping it and the message shown otherwise; a declined one changes nothing |
| AdminContact.ContactInbox.HandleViewMessage | frontend/src/pages/admin/AdminContact.jsx:32-38 | the selection becomes the id, the messages become `AfterView` of the old ones, and the message shown is the old first message with the id, `unread` turned into `read` |
| AdminDashboard.DashboardStats | frontend/src/pages/admin/AdminDashboard.jsx:36-65 | Total Services and Team Members are the list lengths; Active Projects and New Messages are at most the list lengths, equal to the number of matching projects / messages, zero exactly when no project is `In Progress` / no message is `unread`, and New Messages equals the message count exactly when all are unread |
| AdminDashboard.CountsAdd | frontend/src/pages/admin/AdminDashboard.jsx:60 | the status counters add up over a concatenation |
| AdminDashboard.Recent | frontend/src/pages/admin/AdminDashboard.jsx:67-68 | each recent list is the prefix of length `min(5, |list|)` |
| ProjectsPage.FilteredProjects | src/pages/Projects.jsx:18-24 | the `All` category gives the whole list; any other gives exactly the projects of that category, as many as match (duplicates included); always a subsequence of the projects |
| ProjectsPage.NoProjectsMessage | src/pages/Projects.jsx:152-156 | the "No projects found" message shows exactly when the list is empty under `All`, or no project has the chosen category |
| ProjectsPage.FilterStable | src/pages/Projects.jsx:18-24 | filtering an already filtered list by the same category changes nothing |

## Left out

- Rendering, styling, animation (framer-motion, GSAP), routing and the 3D scene: view composition with no state of its own worth modelling.
- The admin projects page: form glue that forwards to the store operations already modelled.
- The server (controllers, routes, schemas, seed data), including the one-line required-field check of the service controller: the client treats each request as an opaque call whose answer is a parameter.
- HTTP itself, toasts and `console.error`: requests are returned as `Request` values and their answers are parameters.
- `Date.now()`, `new Date().toISOString()` and `window.confirm`: parameters; nothing in the source makes the fresh id unique, so the model does not assume it.
- The contents of the store's seeded lists: the constructor takes them as parameters.
- The React machinery: the provider check in `useData`, effects, the batching and timing of state updates. The projects page keeps its filtered list in state through an effect; the model uses the value the effect stores.
- The dashboard's combined fetch on mount: the counters are computed over whatever lists it received.
- Numeric property values (a service's `price` may be a number on the server): values are strings or arrays of strings only.
- NewlineList.Trim: its contract states only the ends of the result (no longer than the input, no white space first or last), not that it is the middle of `s`; that infix equation is too costly for the solver. The part cut off is given by the contracts of `TrimStart` (a blank prefix) and `TrimEnd` (a blank suffix), which `Trim` composes.
- The form library's validation and error messages: the submit handlers take their values as given, and their precondition `FilledIn` states what the library guarantees before it calls them (every field registered as `required` holds a non-empty string; a whitespace-only value passes, as in the library).
- AdminTeam.TeamPage.HandleEdit and AdminServices.ServicesPage.HandleEdit: require the list field to be an array, because `join` on anything else throws in the source; that throwing path is not modelled.

## Notes on the surrounding code

These concern files outside the modelled core and are recorded for readers:

- The dashboard counts projects whose status is `'In Progress'`, while the server's project schema admits only `Ongoing` and `Completed`, so with server data "Active Projects" would always be zero. The model counts `'In Progress'`, as the page does.
- The service routes define no update route, so an update from the services page would fail and, as modelled, leave the list unchanged.
- The server answers a service creation with `{message, service}`; the page prepends that response body as it is, which the model reproduces by taking the answer as given.
