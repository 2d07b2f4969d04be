/** The application root: the hard-coded default content, the loaders that
    read the three content fields from the browser's key-value storage, the
    persistence effect that writes them back, and the rule that picks the
    admin view from the URL fragment.

    Storage is a map from string keys to string values; the project list is
    stored through the `Codec` encoding. A storage write that throws is
    modelled by the number `okWrites` of `setItem` calls that succeed before
    the first one throws (3 or more: none throws). */
module App {
  import opened Types
  import Codec
  import Content

  /** The browser's local storage. */
  type Store = map<string, string>

  const PROJECTS_KEY: string := "portfolio_projects"
  const BIO_KEY: string := "portfolio_bio"
  const SHOWREEL_KEY: string := "portfolio_showreel"

  /** The fragment that selects the admin view. */
  const ADMIN_FRAGMENT: string := "#admin"

  const DEFAULT_PROJECTS: seq<Project> := [
    Project(
      "1",
      "STILLNESS IN MOTION",
      "Motion Design",
      "https://images.unsplash.com/photo-1492691523567-6119e281dfbb?q=80&w=2070&auto=format&fit=crop",
      [ "https://images.unsplash.com/photo-1492691523567-6119e281dfbb?q=80&w=2070&auto=format&fit=crop",
        "https://images.unsplash.com/photo-1518131348530-97992994bb0f?q=80&w=2070&auto=format&fit=crop" ],
      "Une exploration de la fluidité temporelle à travers des paysages urbains capturés au ralenti.",
      "2024"),
    Project(
      "2",
      "CONCRETE JUNGLE",
      "Photography",
      "https://images.unsplash.com/photo-1486406146926-c627a92ad1ab?q=80&w=2070&auto=format&fit=crop",
      [ "https://images.unsplash.com/photo-1486406146926-c627a92ad1ab?q=80&w=2070&auto=format&fit=crop" ],
      "La géométrie brutale des structures modernes face à la fragilité humaine.",
      "2023"),
    Project(
      "3",
      "VESSEL OF LIGHT",
      "Short Film",
      "https://images.unsplash.com/photo-1502134249126-9f3755a50d78?q=80&w=2070&auto=format&fit=crop",
      [ "https://images.unsplash.com/photo-1502134249126-9f3755a50d78?q=80&w=2070&auto=format&fit=crop" ],
      "Documentaire expérimental sur les artisans verriers du nord de la France.",
      "2023")
  ]

  const DEFAULT_BIO: string :=
    "Photographe et réalisateur basé à Paris. Explore les frontières entre la lumière et l'obscurité, le mouvement et l'immobilité."

  const DEFAULT_VIDEO: string :=
    "https://cdn.coverr.co/videos/coverr-walking-through-an-empty-underground-parking-lot-4536/1080p.mp4"

  /** The default list starts with ids "1", "2", "3": pairwise distinct, so
      the uniqueness of ids holds before any edit. */
  lemma DefaultIdsUnique()
    ensures Content.Ids(DEFAULT_PROJECTS) == ["1", "2", "3"]
    ensures Content.UniqueIds(DEFAULT_PROJECTS)
  {
    var ids := Content.Ids(DEFAULT_PROJECTS);
    assert ids[0] == "1" && ids[1] == "2" && ids[2] == "3";
  }

  // ----- loading -----

  /** `getItem(key) || fallback`: the stored text, unless it is absent or empty. */
  function LoadText(store: Store, key: string, fallback: string): (r: string)
    ensures key in store && store[key] != "" ==> r == store[key]
    ensures key !in store || store[key] == "" ==> r == fallback
  {
    if key in store && store[key] != "" then store[key] else fallback
  }

  function LoadBio(store: Store): (r: string)
    ensures r == DEFAULT_BIO || (BIO_KEY in store && r == store[BIO_KEY] && r != "")
    ensures BIO_KEY in store && store[BIO_KEY] != "" ==> r == store[BIO_KEY]
  {
    LoadText(store, BIO_KEY, DEFAULT_BIO)
  }

  function LoadShowreel(store: Store): (r: string)
    ensures r == DEFAULT_VIDEO || (SHOWREEL_KEY in store && r == store[SHOWREEL_KEY] && r != "")
    ensures SHOWREEL_KEY in store && store[SHOWREEL_KEY] != "" ==> r == store[SHOWREEL_KEY]
  {
    LoadText(store, SHOWREEL_KEY, DEFAULT_VIDEO)
  }

  /** The stored list when the slot holds a readable one; the default list
      when the slot is absent or empty, or when parsing fails. */
  function LoadProjects(store: Store): (r: seq<Project>)
    ensures r == DEFAULT_PROJECTS || (PROJECTS_KEY in store && Codec.Decode(store[PROJECTS_KEY]) == Some(r))
    ensures PROJECTS_KEY in store && Codec.Decode(store[PROJECTS_KEY]).Some? ==> r == Codec.Decode(store[PROJECTS_KEY]).value
    ensures PROJECTS_KEY !in store || Codec.Decode(store[PROJECTS_KEY]).None? ==> r == DEFAULT_PROJECTS
  {
    if PROJECTS_KEY !in store then DEFAULT_PROJECTS
    else
      var saved := store[PROJECTS_KEY];
      if saved == "" then DEFAULT_PROJECTS
      else
        match Codec.Decode(saved)
        case None => DEFAULT_PROJECTS
        case Some(ps) => ps
  }

  // ----- persisting -----

  /** The storage after the persistence effect, when the first `okWrites`
      of its three writes (projects, bio, showreel, in that order) succeed. */
  function AfterWrites(store: Store, ps: seq<Project>, bio: string, reel: string, okWrites: nat): (r: Store)
    ensures r.Keys == store.Keys
        + (if okWrites >= 1 then {PROJECTS_KEY} else {})
        + (if okWrites >= 2 then {BIO_KEY} else {})
        + (if okWrites >= 3 then {SHOWREEL_KEY} else {})
  {
    var s1 := if okWrites >= 1 then store[PROJECTS_KEY := Codec.Encode(ps)] else store;
    var s2 := if okWrites >= 2 then s1[BIO_KEY := bio] else s1;
    if okWrites >= 3 then s2[SHOWREEL_KEY := reel] else s2
  }

  /** The persistence effect writes only its own three slots. */
  lemma OtherKeysUntouched(store: Store, ps: seq<Project>, bio: string, reel: string, okWrites: nat, key: string)
    requires key != PROJECTS_KEY && key != BIO_KEY && key != SHOWREEL_KEY
    ensures key in AfterWrites(store, ps, bio, reel, okWrites) <==> key in store
    ensures key in store ==> AfterWrites(store, ps, bio, reel, okWrites)[key] == store[key]
  {
  }

  /** What a reload reads after the persistence effect: every slot that was
      written gives back its value, except that an empty bio or showreel
      comes back as the default; a slot not reached reads as before. */
  lemma ReloadAfterWrites(store: Store, ps: seq<Project>, bio: string, reel: string, okWrites: nat)
    ensures LoadProjects(AfterWrites(store, ps, bio, reel, okWrites))
        == if okWrites >= 1 then ps else LoadProjects(store)
    ensures LoadBio(AfterWrites(store, ps, bio, reel, okWrites))
        == if okWrites >= 2 then (if bio != "" then bio else DEFAULT_BIO) else LoadBio(store)
    ensures LoadShowreel(AfterWrites(store, ps, bio, reel, okWrites))
        == if okWrites >= 3 then (if reel != "" then reel else DEFAULT_VIDEO) else LoadShowreel(store)
  {
    var r := AfterWrites(store, ps, bio, reel, okWrites);
    if okWrites >= 1 {
      Codec.RoundTrip(ps);
      assert r[PROJECTS_KEY] == Codec.Encode(ps);
    } else {
      assert r == store;
    }
  }

  /** A complete write followed by a reload reproduces the content whenever
      bio and showreel are non-empty. */
  lemma PersistThenReload(store: Store, ps: seq<Project>, bio: string, reel: string)
    requires bio != "" && reel != ""
    ensures LoadProjects(AfterWrites(store, ps, bio, reel, 3)) == ps
    ensures LoadBio(AfterWrites(store, ps, bio, reel, 3)) == bio
    ensures LoadShowreel(AfterWrites(store, ps, bio, reel, 3)) == reel
  {
    ReloadAfterWrites(store, ps, bio, reel, 3);
  }

  /** An empty bio does not survive a reload: the default comes back. */
  lemma EmptyBioReloadsAsDefault(store: Store, ps: seq<Project>, reel: string)
    ensures LoadBio(AfterWrites(store, ps, "", reel, 3)) == DEFAULT_BIO
    ensures DEFAULT_BIO != ""
  {
    ReloadAfterWrites(store, ps, "", reel, 3);
  }

  // ----- routing -----

  /** `hash === '#admin'`. */
  function IsAdminView(hash: string): (admin: bool)
    ensures admin <==> hash == ADMIN_FRAGMENT
  {
    hash == ADMIN_FRAGMENT
  }

  /** The root component's state and the page's fragment and storage. */
  class Root {
    var projects: seq<Project>
    var bio: string
    var showreelUrl: string
    var isAdmin: bool
    /** How many times the admin view has been left. Each stay in the
        admin view mounts its own dashboard, which ends when the view is
        left; a dashboard belongs to the visit it was mounted in. */
    ghost var visit: nat
    /** `window.location.hash`. */
    var hash: string
    /** `localStorage`. */
    var storage: Store

    /** A page load: the three loaders, then the mount effects (the
        fragment check and the first run of the persistence effect). */
    constructor (store: Store, initialHash: string, okWrites: nat)
      ensures projects == LoadProjects(store) && bio == LoadBio(store) && showreelUrl == LoadShowreel(store)
      ensures hash == initialHash && isAdmin == IsAdminView(initialHash)
      ensures storage == AfterWrites(store, projects, bio, showreelUrl, okWrites)
      ensures visit == 0
    {
      projects := LoadProjects(store);
      bio := LoadBio(store);
      showreelUrl := LoadShowreel(store);
      hash := initialHash;
      isAdmin := IsAdminView(initialHash);
      storage := store;
      visit := 0;
      new;
      Persist(okWrites);
    }

    /** The persistence effect. A write that throws is caught and logged:
        the writes before it stay done, the in-memory content is untouched
        and nothing propagates to the caller. */
    method Persist(okWrites: nat)
      modifies this`storage
      ensures storage == AfterWrites(old(storage), projects, bio, showreelUrl, okWrites)
    {
      if okWrites == 0 { return; }
      storage := storage[PROJECTS_KEY := Codec.Encode(projects)];
      if okWrites == 1 { return; }
      storage := storage[BIO_KEY := bio];
      if okWrites == 2 { return; }
      storage := storage[SHOWREEL_KEY := showreelUrl];
    }

    /** `setProjects`: the dashboard always passes a new array, so the
        persistence effect runs. */
    method SetProjects(ps: seq<Project>, okWrites: nat)
      modifies this`projects, this`storage
      ensures projects == ps
      ensures storage == AfterWrites(old(storage), ps, bio, showreelUrl, okWrites)
    {
      projects := ps;
      Persist(okWrites);
    }

    /** `setBio`: setting the value it already has does not re-run the effect. */
    method SetBio(text: string, okWrites: nat)
      modifies this`bio, this`storage
      ensures bio == text
      ensures storage == if text != old(bio) then AfterWrites(old(storage), projects, text, showreelUrl, okWrites) else old(storage)
    {
      if text != bio {
        bio := text;
        Persist(okWrites);
      }
    }

    /** `setShowreelUrl`, with the same rule as `SetBio`. */
    method SetShowreelUrl(url: string, okWrites: nat)
      modifies this`showreelUrl, this`storage
      ensures showreelUrl == url
      ensures storage == if url != old(showreelUrl) then AfterWrites(old(storage), projects, bio, url, okWrites) else old(storage)
    {
      if url != showreelUrl {
        showreelUrl := url;
        Persist(okWrites);
      }
    }

    /** The `hashchange` handler. */
    method HashChange(newHash: string)
      modifies this`hash, this`isAdmin, this`visit
      ensures hash == newHash && isAdmin == IsAdminView(newHash)
      ensures visit == if old(isAdmin) && !isAdmin then old(visit) + 1 else old(visit)
    {
      if isAdmin && !IsAdminView(newHash) {
        visit := visit + 1;
      }
      hash := newHash;
      isAdmin := IsAdminView(newHash);
    }

    /** The dashboard's `onClose`: clear the fragment and leave the admin view. */
    method CloseAdmin()
      modifies this`hash, this`isAdmin, this`visit
      ensures hash == "" && !isAdmin
      ensures visit == if old(isAdmin) then old(visit) + 1 else old(visit)
    {
      if isAdmin {
        visit := visit + 1;
      }
      hash := "";
      isAdmin := false;
    }
  }
}
