# Portfolio admin: content store, passphrase gate and persistence

This is a Dafny model of the small core of a single-page portfolio site for
a visual artist. The model covers four things:

- the admin dashboard's content operations on the project list;
- the passphrase gate that unlocks the editor;
- the gallery edits on the project under edit, with the upload size guard;
- the application root's rules for loading content from browser storage,
  writing it back, and choosing the admin view from the URL fragment.

Files:

- `Types.dfy`: the `Project` record and an `Option` type.
- `Codec.dfy`: stands in for the JSON stringify/parse pair. It is a concrete,
  self-delimiting text encoding of the project list. The decoder gives
  `None`, which stands for a parse that throws. It proves the round trip, so the
  encoding is injective.
- `Content.dfy`: the pure list transforms inside the dashboard's handlers,
  with their lemmas:
  - replace by id (`map`);
  - prepend with a fresh id (spread);
  - delete by id (`filter`);
  - gallery replace-at-index, remove-at-index (`filter` on the index) and append.
- `App.dfy`: the root. It holds the default content, the three loaders
  (`getItem(...) || default` and the guarded parse), and the persistence
  effect as a function of the old storage. It also holds the
  fragment-to-view rule and the class `Root`, whose fields are the root's
  state, `window.location.hash` and `localStorage`.
- `AdminDashboard.dfy`: the passphrase check, the 8 MiB upload guard, the
  new-entry template, the editor's text-field update, and the class
  `Dashboard`. `Dashboard` has the component's fields and one method per
  handler. It changes site content only through the root's setters.

Parameters stand for what the model does not compute:

- `freshId` stands for `Date.now().toString()`. It must be non-empty, as
  that string always is. The source does not guarantee that it is unused,
  so keeping ids unique is stated on the condition that it is unused.
- `okWrites` is how many `setItem` calls succeed before one throws. The
  `catch` swallows the exception: the earlier writes stay done and the
  in-memory state is untouched.
- `confirmed` is the answer to the delete dialog.
- `SelectedFile` holds the chosen file's size and the data URL that the
  browser's reader would produce for it.

Behaviour of the code worth knowing:

- Delete filters out every entry with the id. It does not stop at the first one.
- Saving with an id replaces every entry with that id.
- A persisted empty bio or showreel URL reloads as the default, because the
  loaders use `||`. Only non-empty values survive a reload.
- The persistence effect runs only when a value changes. Setting the bio or
  the showreel URL to its current value writes nothing.
- Only the project list's load is guarded. Its `try` at App.tsx:46-49 also
  covers the storage read, so a read that throws gives the default projects.
  The bio and showreel reads (App.tsx:52-53) and the passphrase read in the
  login handler have no guard: a throwing read there stops the page from
  loading, or leaves the login handler with no alert and the gate locked.
  Only the persistence effect's writes never raise.
- Saving with an explicit id never adds an entry. Two saves of versions with
  one explicit id leave one version only when the list already holds an
  entry with that id (`SaveTwiceSameId` starts from such a list); over a list
  without it, both saves leave the list unchanged (`ReplaceAbsent`).
- Leaving the admin view, by sign-out, cancel or a fragment change, unmounts
  the dashboard and ends its session; the next visit starts locked.

## Model

| member | source | states |
|---|---|---|
| `Codec.RoundTrip` | App.tsx:80 | decoding the stored encoding of a project list gives back exactly that list |
| `Codec.EncodeInjective` | App.tsx:80 | two project lists with the same stored encoding are equal |
| `Codec.Encode` | App.tsx:80 | the stored encoding is never the empty string, so a stored empty list is still read as present |
| `Codec.Decode` | App.tsx:48 | an empty stored string never parses |
| `Codec.TextRoundTrip` | App.tsx:80 | one encoded text, followed by anything, decodes to the text and leaves what follows |
| `Codec.TextsRoundTrip` | App.tsx:80 | an encoded gallery list, followed by anything, decodes to the list and leaves what follows |
| `Codec.ProjectRoundTrip` | App.tsx:80 | an encoded project, followed by anything, decodes to the project and leaves what follows |
| `Codec.ProjectsRoundTrip` | App.tsx:80 | an encoded project list, followed by anything, decodes to the list and leaves what follows |
| `Content.ReplaceById` | components/AdminDashboard.tsx:58 | the list keeps its length; every entry whose id equals the edited project's id becomes the edited project; every other entry is unchanged in place |
| `Content.ReplaceKeepsIds` | components/AdminDashboard.tsx:58 | replacing by id keeps the sequence of ids, so unique ids stay unique |
| `Content.ReplaceAbsent` | components/AdminDashboard.tsx:58 | saving a project whose id matches no entry leaves the list identical |
| `Content.ReplaceUnique` | components/AdminDashboard.tsx:58 | with unique ids, saving the project at position k is an in-place update of position k only |
| `Content.Prepend` | components/AdminDashboard.tsx:60 | a new project gets the fresh id and goes first; the length grows by one and the old list follows unchanged and in order |
| `Content.PrependKeepsUnique` | components/AdminDashboard.tsx:60 | prepending with an id not already in the list keeps ids unique |
| `Content.Upsert` | components/AdminDashboard.tsx:57-60 | an empty id creates and prepends with the fresh id (one longer, old list after it); a non-empty id keeps the length and is the replacement by id |
| `Content.UpsertKeepsUnique` | components/AdminDashboard.tsx:57-60 | saving keeps ids unique when the fresh id is not taken |
| `Content.SaveTwiceSameId` | components/AdminDashboard.tsx:57-58 | two saves with the same explicit id over a one-entry list with that id leave exactly the later version |
| `Content.RemoveById` | components/AdminDashboard.tsx:153 | deleting never lengthens the list |
| `Content.RemoveMembers` | components/AdminDashboard.tsx:153 | an entry is in the result exactly when it was in the list and its id differs from the deleted id |
| `Content.RemoveSplits` | components/AdminDashboard.tsx:153 | the delete works piecewise over concatenation, so kept entries keep their relative order |
| `Content.RemoveAbsent` | components/AdminDashboard.tsx:153 | deleting an id that is not in the list leaves it unchanged |
| `Content.RemoveUnique` | components/AdminDashboard.tsx:153 | with unique ids, deleting the id at position k removes exactly that entry; the length drops by one and the rest keep their order |
| `Content.RemoveKeepsUnique` | components/AdminDashboard.tsx:153 | deleting keeps ids unique |
| `Content.SetImage` | components/AdminDashboard.tsx:210-213 | replacing the gallery image at an index keeps the length and every other image |
| `Content.RemoveImage` | components/AdminDashboard.tsx:215 | removing at an index in range leaves the images before and after it, in order; an index out of range changes nothing |
| `Content.RemoveImageAt` | components/AdminDashboard.tsx:215 | after removal the gallery is one shorter; images before the index stay, images after it move one position forward |
| `Content.RemoveImageMultiset` | components/AdminDashboard.tsx:215 | removal takes out exactly the image at the index and nothing else |
| `Content.AppendImage` | components/AdminDashboard.tsx:222-223 | appending adds one image at the end and keeps the others as a prefix |
| `App.DefaultIdsUnique` | App.tsx:9-40 | the default projects have ids "1", "2", "3", which are pairwise distinct |
| `App.LoadText` | App.tsx:52-53 | a stored non-empty text is returned; an absent key or an empty text gives the default |
| `App.LoadBio` | App.tsx:52 | the bio is the stored non-empty value or else the default bio |
| `App.LoadShowreel` | App.tsx:53 | the showreel URL is the stored non-empty value or else the default video |
| `App.LoadProjects` | App.tsx:45-50 | the projects are the decoded stored list; an absent key or a parse failure gives the default projects |
| `App.AfterWrites` | App.tsx:78-84 | the persistence effect adds only the keys of the writes that succeeded |
| `App.OtherKeysUntouched` | App.tsx:78-84 | every other storage key, including the passphrase, is unchanged by the effect |
| `App.ReloadAfterWrites` | App.tsx:45-84 | a reload after the effect reads back each written slot, with an empty bio or showreel read as the default; a slot not reached reads as before |
| `App.PersistThenReload` | App.tsx:45-84 | after a complete write, a reload reproduces projects, bio and showreel when bio and showreel are non-empty |
| `App.EmptyBioReloadsAsDefault` | App.tsx:52 | a persisted empty bio reloads as the (non-empty) default |
| `App.IsAdminView` | App.tsx:62-64 | the admin view is selected exactly when the fragment is "#admin" |
| `App.Root.constructor` | App.tsx:45-84 | a page load sets the content from the loaders and the view from the fragment, then the effect writes the loaded content |
| `App.Root.Persist` | App.tsx:78-84 | the writes before a failing one take effect; in-memory content is never changed and nothing is raised |
| `App.Root.SetProjects` | App.tsx:78-84 | the new list replaces the old one and is persisted |
| `App.Root.SetBio` | App.tsx:78-84 | the bio is replaced, and persisted only if it changed |
| `App.Root.SetShowreelUrl` | App.tsx:78-84 | the showreel URL is replaced, and persisted only if it changed |
| `App.Root.HashChange` | App.tsx:62-67 | after a fragment change, the admin flag is exactly whether the new fragment is "#admin"; leaving the admin view starts a new visit, which no dashboard mounted before belongs to |
| `App.Root.CloseAdmin` | App.tsx:92 | closing sets the fragment to "" and the admin flag to false, which selects the public view; leaving the admin view starts a new visit |
| `AdminDashboard.ReferenceSecret` | components/AdminDashboard.tsx:32 | the reference passphrase is the stored non-empty one, or else "Husson"; it is never empty |
| `AdminDashboard.Accepts` | components/AdminDashboard.tsx:32-33 | a candidate that unlocks is never empty; with no stored passphrase only "Husson" unlocks, with a non-empty stored one only that one does |
| `AdminDashboard.GateOpensForOneSecret` | components/AdminDashboard.tsx:32-33 | exactly one candidate unlocks (the reference), and the empty candidate never does |
| `AdminDashboard.DefaultSecretScenario` | components/AdminDashboard.tsx:32-33 | with no stored passphrase or an empty one, "Husson" unlocks and "wrong" does not |
| `AdminDashboard.PersistKeepsGate` | components/AdminDashboard.tsx:32 | persisting content never changes which candidate unlocks |
| `AdminDashboard.AcceptUpload` | components/AdminDashboard.tsx:37-43 | an upload goes through exactly when a file is chosen and is at most 8·1024·1024 bytes; it yields that file's data |
| `AdminDashboard.UploadLimit` | components/AdminDashboard.tsx:40 | 8388608 bytes are accepted, 8388609 are rejected |
| `AdminDashboard.NewEntry` | components/AdminDashboard.tsx:134 | a new entry has id "", year "2024", no images and empty texts |
| `AdminDashboard.WithText` | components/AdminDashboard.tsx:188-201 | editing a text field changes that field only, never the id or the images |
| `AdminDashboard.Submittable` | components/AdminDashboard.tsx:188-192 | the editor form is submitted only when title and year are non-empty |
| `AdminDashboard.SaveNewEntry` | components/AdminDashboard.tsx:54-63 | the untouched template cannot be submitted (empty required title); once a title is typed, saving prepends one project with the fresh id, that title, year "2024" and no images, ahead of the unchanged list |
| `AdminDashboard.Dashboard.constructor` | components/AdminDashboard.tsx:20-22 | a dashboard, mounted only in the admin view, belongs to the root's current visit and starts locked, with an empty passphrase and no project under edit |
| `AdminDashboard.Dashboard.TypePassword` | components/AdminDashboard.tsx:76 | the passphrase input holds what was typed |
| `AdminDashboard.Dashboard.Login` | components/AdminDashboard.tsx:30-35 | login grants exactly when the typed passphrase equals the reference secret read now; a grant unlocks, a refusal leaves the flag unchanged |
| `AdminDashboard.Dashboard.Close` | App.tsx:86-95 | sign-out or cancel clears the fragment and leaves the admin view; the unmounted dashboard's session ends: locked, empty passphrase, no project under edit |
| `AdminDashboard.Dashboard.Navigate` | App.tsx:62-64 | a fragment change sets the admin flag from the new fragment; leaving "#admin" ends the session, staying keeps the dashboard's state |
| `AdminDashboard.Dashboard.Unmount` | App.tsx:86-95 | a dashboard that is no longer rendered loses its state: locked, empty passphrase, no project under edit |
| `AdminDashboard.Dashboard.NewProject` | components/AdminDashboard.tsx:134 | the project under edit becomes the new-entry template |
| `AdminDashboard.Dashboard.EditProject` | components/AdminDashboard.tsx:142-152 | the project under edit becomes the chosen entry of the list |
| `AdminDashboard.Dashboard.CancelEdit` | components/AdminDashboard.tsx:182 | closing the editor clears the project under edit |
| `AdminDashboard.Dashboard.EditText` | components/AdminDashboard.tsx:188-199 | a text input updates that field of the project under edit |
| `AdminDashboard.Dashboard.SetGalleryImage` | components/AdminDashboard.tsx:210-213 | typing into a gallery input replaces that image of the project under edit |
| `AdminDashboard.Dashboard.RemoveGalleryImage` | components/AdminDashboard.tsx:215 | the bin button removes that image; the gallery becomes one shorter |
| `AdminDashboard.Dashboard.AddBlankImage` | components/AdminDashboard.tsx:223 | "+" appends an empty image |
| `AdminDashboard.Dashboard.UploadGalleryImage` | components/AdminDashboard.tsx:222 | an accepted upload appends its data to the gallery; a missing or oversized file changes nothing |
| `AdminDashboard.Dashboard.UploadCoverImage` | components/AdminDashboard.tsx:201 | an accepted upload becomes the cover image; otherwise nothing changes |
| `AdminDashboard.Dashboard.UploadShowreel` | components/AdminDashboard.tsx:117 | an accepted upload becomes the showreel URL and is persisted if it changed; otherwise neither content nor storage changes |
| `AdminDashboard.Dashboard.EditShowreelUrl` | components/AdminDashboard.tsx:113 | the showreel URL is replaced and persisted if it changed |
| `AdminDashboard.Dashboard.EditBio` | components/AdminDashboard.tsx:169 | the bio is replaced and persisted if it changed |
| `AdminDashboard.Dashboard.SaveProject` | components/AdminDashboard.tsx:54-63 | it runs only on a submittable form (title and year non-empty, the `required` inputs at lines 188 and 192); with no project under edit, nothing changes; otherwise the list becomes the upsert and is persisted; the editor is always cleared; unique ids stay unique when the fresh id is unused |
| `AdminDashboard.Dashboard.DeleteProject` | components/AdminDashboard.tsx:153 | a confirmed delete filters out the id and persists; a declined one changes nothing; unique ids stay unique |

## Left out

- Rendering, styling, animation, the mount/opacity timer and the presentation-only state (`currentView`, `selectedProject`, `isAboutOpen`, `activeTab`): they hold no content rules.
- Reading the file into a data URL (`FileReader`) and the `isUploading` spinner flag: this is browser I/O. The data URL is an input, and an accepted upload is modelled as finished at once.
- JSON syntax: `Codec` replaces it with its own encoding. The source would also install any JSON value that parses, such as a number, as the project list without checking it. The model cannot represent such a list, so it reads anything that is not an encoded list as a parse failure.
- Registering and removing the `hashchange` listener: this is event plumbing. Only the handler's effect (`Root.HashChange`) is modelled.
- `alert` and `confirm` dialogs: the delete confirmation is the boolean `confirmed`.
- React's asynchronous state updates and stale closures: each handler runs as one step on the current state.
- App.LoadBio, App.LoadShowreel, App.LoadProjects, AdminDashboard.ReferenceSecret: storage reads are modelled as always succeeding, because `Store` is a plain map, and reading it cannot fail. In the source, a throwing read is caught only for the project list (App.tsx:46-49), which then falls back to the defaults. Elsewhere it propagates: out of the bio and showreel initialisers (App.tsx:52-53), so the page does not render, and out of the login handler (components/AdminDashboard.tsx:32).
- Editor operations require `isAuthenticated`: the locked dashboard renders only the login form, so they cannot be reached before login.
- Every `Dashboard` method requires the root's admin flag and that the root is still in the visit that mounted the dashboard (`Root.visit`, which `HashChange` and `CloseAdmin` advance whenever the admin view is left): the root renders the dashboard only in the admin view and discards it on leaving, so no handler of an old dashboard runs after the view is left and entered again; a new visit needs a new, locked `Dashboard`.
- `SaveProject` requires a submittable project (title and year non-empty): the browser does not submit the form while a `required` input is empty, so `saveProject` never sees one. `SaveNewEntry` therefore describes a template with a title typed in.
- The text-generation service, the about overlay, the project detail view and the navigation bar: these are a foreign network call, randomness and presentation. The overlay's bio update is the same `setBio` as `Root.SetBio`.
- Remote document sync and a way to set the admin passphrase: neither appears in the modelled files. The passphrase slot is only read here.
