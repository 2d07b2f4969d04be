/** The admin dashboard: the passphrase gate, the upload size guard, the
    new-entry template, and the component's state (the typed passphrase,
    the session flag and the project under edit) with the handlers that
    change it and, through the root's setters, the site content. */
module AdminDashboard {
  import opened Types
  import Content
  import App

  /** The storage slot holding the admin passphrase; nothing shown here writes it. */
  const PASSWORD_KEY: string := "portfolio_password"
  /** The passphrase in force when none is stored. */
  const DEFAULT_SECRET: string := "Husson"
  /** The largest file an upload accepts: 8 MiB. */
  const MAX_UPLOAD_BYTES: nat := 8 * 1024 * 1024

  // ----- the passphrase gate -----

  /** `getItem('portfolio_password') || 'Husson'`. */
  function ReferenceSecret(store: App.Store): (secret: string)
    ensures secret != ""
    ensures PASSWORD_KEY in store && store[PASSWORD_KEY] != "" ==> secret == store[PASSWORD_KEY]
    ensures PASSWORD_KEY !in store || store[PASSWORD_KEY] == "" ==> secret == DEFAULT_SECRET
  {
    App.LoadText(store, PASSWORD_KEY, DEFAULT_SECRET)
  }

  /** Whether a login with `candidate` unlocks the editor. */
  predicate Accepts(candidate: string, store: App.Store): (ok: bool)
    ensures ok ==> candidate != ""
    ensures PASSWORD_KEY !in store ==> (ok <==> candidate == DEFAULT_SECRET)
    ensures PASSWORD_KEY in store && store[PASSWORD_KEY] != "" ==> (ok <==> candidate == store[PASSWORD_KEY])
  {
    candidate == ReferenceSecret(store)
  }

  /** Exactly one passphrase opens the gate, and it is never the empty one. */
  lemma GateOpensForOneSecret(store: App.Store, a: string, b: string)
    ensures Accepts(a, store) && Accepts(b, store) ==> a == b
    ensures !Accepts("", store)
    ensures Accepts(ReferenceSecret(store), store)
  {
  }

  /** With no stored passphrase, or an empty one, "Husson" opens the gate
      and "wrong" does not. */
  lemma DefaultSecretScenario(store: App.Store)
    requires PASSWORD_KEY !in store || store[PASSWORD_KEY] == ""
    ensures Accepts("Husson", store)
    ensures !Accepts("wrong", store)
  {
  }

  /** The gate depends on the passphrase slot alone, so the persistence
      effect never changes who can log in. */
  lemma PersistKeepsGate(store: App.Store, ps: seq<Project>, bio: string, reel: string, okWrites: nat, candidate: string)
    ensures Accepts(candidate, App.AfterWrites(store, ps, bio, reel, okWrites)) == Accepts(candidate, store)
  {
    App.OtherKeysUntouched(store, ps, bio, reel, okWrites, PASSWORD_KEY);
  }

  // ----- uploads -----

  /** A chosen file: its size in bytes and the data URL the reader produces for it. */
  datatype SelectedFile = SelectedFile(size: nat, dataUrl: string)

  /** The value an upload hands to its callback: none when no file was
      chosen or the file is larger than 8 MiB. */
  function AcceptUpload(file: Option<SelectedFile>): (r: Option<string>)
    ensures r.Some? <==> file.Some? && file.value.size <= MAX_UPLOAD_BYTES
    ensures r.Some? ==> r.value == file.value.dataUrl
  {
    match file
    case None => None
    case Some(f) => if f.size > MAX_UPLOAD_BYTES then None else Some(f.dataUrl)
  }

  /** The limit is 8 388 608 bytes, inclusive. */
  lemma UploadLimit(d: string)
    ensures AcceptUpload(Some(SelectedFile(8388608, d))) == Some(d)
    ensures AcceptUpload(Some(SelectedFile(8388609, d))) == None
  {
  }

  // ----- the project editor -----

  /** The "+ New Entry" template. */
  function NewEntry(): (p: Project)
    ensures p.id == "" && p.year == "2024" && p.images == []
    ensures p.title == "" && p.category == "" && p.description == "" && p.coverImage == ""
  {
    Project("", "", "", "", [], "", "2024")
  }

  /** The editor's text inputs. */
  datatype TextField = Title | Year | CoverImage

  /** `{ ...p, <field>: value }` for one of the editor's text inputs. */
  function WithText(p: Project, field: TextField, value: string): (q: Project)
    ensures q.id == p.id && q.images == p.images && q.category == p.category && q.description == p.description
    ensures field == Title ==> q.title == value && q.year == p.year && q.coverImage == p.coverImage
    ensures field == Year ==> q.year == value && q.title == p.title && q.coverImage == p.coverImage
    ensures field == CoverImage ==> q.coverImage == value && q.title == p.title && q.year == p.year
  {
    match field
    case Title => p.(title := value)
    case Year => p.(year := value)
    case CoverImage => p.(coverImage := value)
  }

  /** Whether the editor form may be submitted: the title and year inputs
      are `required`, so the browser refuses to submit either one empty. */
  predicate Submittable(p: Project) {
    p.title != "" && p.year != ""
  }

  /** Saving the template with a title typed in gives the list one new first
      entry carrying the fresh id, that title and the template's year, with
      no images; the template is submittable exactly when the title is set. */
  lemma SaveNewEntry(ps: seq<Project>, freshId: string, title: string)
    requires freshId != "" && title != ""
    ensures !Submittable(NewEntry())
    ensures Submittable(WithText(NewEntry(), Title, title))
    ensures |Content.Upsert(ps, WithText(NewEntry(), Title, title), freshId)| == |ps| + 1
    ensures Content.Upsert(ps, WithText(NewEntry(), Title, title), freshId)[0].id == freshId
    ensures Content.Upsert(ps, WithText(NewEntry(), Title, title), freshId)[0].title == title
    ensures Content.Upsert(ps, WithText(NewEntry(), Title, title), freshId)[0].year == "2024"
    ensures Content.Upsert(ps, WithText(NewEntry(), Title, title), freshId)[0].images == []
    ensures Content.Upsert(ps, WithText(NewEntry(), Title, title), freshId)[1..] == ps
  {
  }

  /** The dashboard component. `app` is the root whose setters it is given. */
  class Dashboard {
    const app: App.Root
    /** The root's visit to the admin view that mounted this dashboard. */
    ghost const visit: nat
    /** The passphrase input. */
    var password: string
    var isAuthenticated: bool
    /** The project in the editor, if any. */
    var editingProject: Option<Project>

    /** Opening the admin view mounts a locked dashboard. The root renders
        the dashboard only while its admin flag is set, and leaving the view
        discards it, so every handler below requires the flag and that the
        root is still in the visit that mounted this dashboard. */
    constructor (app: App.Root)
      requires app.isAdmin
      ensures this.app == app && visit == app.visit
      ensures password == "" && !isAuthenticated && editingProject == None
    {
      this.app := app;
      visit := app.visit;
      password := "";
      isAuthenticated := false;
      editingProject := None;
    }

    method TypePassword(text: string)
      requires app.isAdmin && app.visit == visit
      modifies this`password
      ensures password == text
    {
      password := text;
    }

    /** `handleLogin`: unlock when the typed passphrase is the reference
        secret read at this moment; otherwise the alert, and nothing changes. */
    method Login() returns (granted: bool)
      requires app.isAdmin && app.visit == visit
      modifies this`isAuthenticated
      ensures granted == Accepts(password, app.storage)
      ensures granted ==> isAuthenticated
      ensures !granted ==> isAuthenticated == old(isAuthenticated)
    {
      var stored := ReferenceSecret(app.storage);
      granted := password == stored;
      if granted {
        isAuthenticated := true;
      }
    }

    /** Sign out or cancel: the root's `onClose`. The root then stops
        rendering the dashboard, so its state is discarded: the session ends
        and the next visit to the admin view starts locked. */
    method Close()
      requires app.isAdmin && app.visit == visit
      modifies this`password, this`isAuthenticated, this`editingProject, app`hash, app`isAdmin, app`visit
      ensures app.hash == "" && !app.isAdmin && app.visit == old(app.visit) + 1
      ensures password == "" && !isAuthenticated && editingProject == None
    {
      app.CloseAdmin();
      Unmount();
    }

    /** A change of the fragment while the dashboard is shown: leaving
        `#admin` unmounts the dashboard like `Close`; staying keeps its state. */
    method Navigate(newHash: string)
      requires app.isAdmin && app.visit == visit
      modifies this`password, this`isAuthenticated, this`editingProject, app`hash, app`isAdmin, app`visit
      ensures app.hash == newHash && app.isAdmin == App.IsAdminView(newHash)
      ensures !app.isAdmin ==> password == "" && !isAuthenticated && editingProject == None
      ensures app.visit == if app.isAdmin then old(app.visit) else old(app.visit) + 1
      ensures app.isAdmin ==>
                password == old(password) && isAuthenticated == old(isAuthenticated) && editingProject == old(editingProject)
    {
      app.HashChange(newHash);
      if !app.isAdmin {
        Unmount();
      }
    }

    /** The component's state is gone once it is no longer rendered. */
    method Unmount()
      modifies this`password, this`isAuthenticated, this`editingProject
      ensures password == "" && !isAuthenticated && editingProject == None
    {
      password := "";
      isAuthenticated := false;
      editingProject := None;
    }

    method NewProject()
      requires app.isAdmin && app.visit == visit && isAuthenticated
      modifies this`editingProject
      ensures editingProject == Some(NewEntry())
    {
      editingProject := Some(NewEntry());
    }

    /** The edit button of a project row: `p` is an entry of the list. */
    method EditProject(p: Project)
      requires app.isAdmin && app.visit == visit && isAuthenticated
      requires p in app.projects
      modifies this`editingProject
      ensures editingProject == Some(p)
    {
      editingProject := Some(p);
    }

    method CancelEdit()
      requires app.isAdmin && app.visit == visit
      modifies this`editingProject
      ensures editingProject == None
    {
      editingProject := None;
    }

    method EditText(field: TextField, value: string)
      requires app.isAdmin && app.visit == visit && isAuthenticated && editingProject.Some?
      modifies this`editingProject
      ensures editingProject == Some(WithText(old(editingProject).value, field, value))
    {
      editingProject := Some(WithText(editingProject.value, field, value));
    }

    /** Typing into the gallery input at `idx`. */
    method SetGalleryImage(idx: nat, value: string)
      requires app.isAdmin && app.visit == visit && isAuthenticated && editingProject.Some? && idx < |editingProject.value.images|
      modifies this`editingProject
      ensures editingProject.Some?
      ensures editingProject.value == old(editingProject).value.(images := Content.SetImage(old(editingProject).value.images, idx, value))
    {
      var p := editingProject.value;
      editingProject := Some(p.(images := Content.SetImage(p.images, idx, value)));
    }

    /** The bin button beside the gallery input at `idx`. */
    method RemoveGalleryImage(idx: nat)
      requires app.isAdmin && app.visit == visit && isAuthenticated && editingProject.Some? && idx < |editingProject.value.images|
      modifies this`editingProject
      ensures editingProject.Some?
      ensures editingProject.value == old(editingProject).value.(images := Content.RemoveImage(old(editingProject).value.images, idx))
      ensures |editingProject.value.images| == |old(editingProject).value.images| - 1
    {
      var p := editingProject.value;
      editingProject := Some(p.(images := Content.RemoveImage(p.images, idx)));
    }

    /** The "+" button: a blank image at the end of the gallery. */
    method AddBlankImage()
      requires app.isAdmin && app.visit == visit && isAuthenticated && editingProject.Some?
      modifies this`editingProject
      ensures editingProject.Some?
      ensures editingProject.value == old(editingProject).value.(images := Content.AppendImage(old(editingProject).value.images, ""))
    {
      var p := editingProject.value;
      editingProject := Some(p.(images := Content.AppendImage(p.images, "")));
    }

    /** "Add from library": an accepted file's data URL is appended to the
        gallery; a missing or oversized file changes nothing. */
    method UploadGalleryImage(file: Option<SelectedFile>)
      requires app.isAdmin && app.visit == visit && isAuthenticated && editingProject.Some?
      modifies this`editingProject
      ensures AcceptUpload(file).None? ==> editingProject == old(editingProject)
      ensures AcceptUpload(file).Some? ==> editingProject == Some(old(editingProject).value.(images :=
                Content.AppendImage(old(editingProject).value.images, AcceptUpload(file).value)))
    {
      var data := AcceptUpload(file);
      if data.Some? {
        var p := editingProject.value;
        editingProject := Some(p.(images := Content.AppendImage(p.images, data.value)));
      }
    }

    /** The cover image's upload button. */
    method UploadCoverImage(file: Option<SelectedFile>)
      requires app.isAdmin && app.visit == visit && isAuthenticated && editingProject.Some?
      modifies this`editingProject
      ensures AcceptUpload(file).None? ==> editingProject == old(editingProject)
      ensures AcceptUpload(file).Some? ==> editingProject == Some(WithText(old(editingProject).value, CoverImage, AcceptUpload(file).value))
    {
      var data := AcceptUpload(file);
      if data.Some? {
        editingProject := Some(WithText(editingProject.value, CoverImage, data.value));
      }
    }

    /** The showreel's upload button. */
    method UploadShowreel(file: Option<SelectedFile>, okWrites: nat)
      requires app.isAdmin && app.visit == visit && isAuthenticated
      modifies app`showreelUrl, app`storage
      ensures AcceptUpload(file).None? ==> app.showreelUrl == old(app.showreelUrl) && app.storage == old(app.storage)
      ensures AcceptUpload(file).Some? ==> app.showreelUrl == AcceptUpload(file).value
      ensures AcceptUpload(file).Some? ==>
                app.storage == if AcceptUpload(file).value != old(app.showreelUrl)
                  then App.AfterWrites(old(app.storage), app.projects, app.bio, AcceptUpload(file).value, okWrites)
                  else old(app.storage)
    {
      var data := AcceptUpload(file);
      if data.Some? {
        app.SetShowreelUrl(data.value, okWrites);
      }
    }

    method EditShowreelUrl(url: string, okWrites: nat)
      requires app.isAdmin && app.visit == visit && isAuthenticated
      modifies app`showreelUrl, app`storage
      ensures app.showreelUrl == url
      ensures app.storage == if url != old(app.showreelUrl) then App.AfterWrites(old(app.storage), app.projects, app.bio, url, okWrites) else old(app.storage)
    {
      app.SetShowreelUrl(url, okWrites);
    }

    method EditBio(text: string, okWrites: nat)
      requires app.isAdmin && app.visit == visit && isAuthenticated
      modifies app`bio, app`storage
      ensures app.bio == text
      ensures app.storage == if text != old(app.bio) then App.AfterWrites(old(app.storage), app.projects, text, app.showreelUrl, okWrites) else old(app.storage)
    {
      app.SetBio(text, okWrites);
    }

    /** `saveProject`. `freshId` stands for `Date.now().toString()`. With no
        project under edit nothing happens; otherwise the list becomes the
        upsert of the project under edit and the editor closes. Ids stay
        unique when they were and the fresh id is not taken. */
    method SaveProject(freshId: string, okWrites: nat)
      requires app.isAdmin && app.visit == visit && isAuthenticated && freshId != ""
      requires editingProject.Some? ==> Submittable(editingProject.value)
      modifies this`editingProject, app`projects, app`storage
      ensures editingProject == None
      ensures old(editingProject) == None ==> app.projects == old(app.projects) && app.storage == old(app.storage)
      ensures old(editingProject).Some? ==>
                app.projects == Content.Upsert(old(app.projects), old(editingProject).value, freshId)
                && app.storage == App.AfterWrites(old(app.storage), app.projects, app.bio, app.showreelUrl, okWrites)
      ensures (Content.UniqueIds(old(app.projects)) && freshId !in Content.Ids(old(app.projects)))
                ==> Content.UniqueIds(app.projects)
    {
      if editingProject == None {
        return;
      }
      var e := editingProject.value;
      if Content.UniqueIds(app.projects) && freshId !in Content.Ids(app.projects) {
        Content.UpsertKeepsUnique(app.projects, e, freshId);
      }
      app.SetProjects(Content.Upsert(app.projects, e, freshId), okWrites);
      editingProject := None;
    }

    /** The bin button of a project row: with the dialog confirmed, every
        entry with that id goes; declined, nothing changes. */
    method DeleteProject(id: string, confirmed: bool, okWrites: nat)
      requires app.isAdmin && app.visit == visit && isAuthenticated
      modifies app`projects, app`storage
      ensures !confirmed ==> app.projects == old(app.projects) && app.storage == old(app.storage)
      ensures confirmed ==>
                app.projects == Content.RemoveById(old(app.projects), id)
                && app.storage == App.AfterWrites(old(app.storage), app.projects, app.bio, app.showreelUrl, okWrites)
      ensures Content.UniqueIds(old(app.projects)) ==> Content.UniqueIds(app.projects)
    {
      if confirmed {
        if Content.UniqueIds(app.projects) {
          Content.RemoveKeepsUnique(app.projects, id);
        }
        app.SetProjects(Content.RemoveById(app.projects, id), okWrites);
      }
    }
  }
}
