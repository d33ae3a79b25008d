/** The application shell (App.tsx): the page and story id read from the
    query string, the page dispatch, the query-string update on navigation,
    and the visitor session kept in local storage. The query string is a
    map from parameter name to value, as `URLSearchParams` `get`, `set`
    and `delete` treat a name with one value; local storage is a map from
    key to text. */
module App {
  import opened Types
  import UserJson

  const SESSION_KEY := "maktabati_user"
  const HOME := "home"
  const PAGE_PARAM := "page"
  const ID_PARAM := "id"

  /** The fixed identity `handleLogin` signs in as. */
  const VISITOR := User(
    "زائر الموقع",
    "visitor@gmail.com",
    "https://ui-avatars.com/api/?name=Visitor&background=0ea5e9&color=fff&length=1")

  datatype Params = Params(page: string, id: Option<string>)

  /** The page component `renderPage` chooses. */
  datatype View = HomeView | UploadView | AdminView | DetailsView(storyId: string)

  /** `getParams()`: `params.get('page') || 'home'` and
      `params.get('id') || undefined`. */
  function GetParams(query: map<string, string>): (p: Params)
    ensures p.page != ""
    ensures PAGE_PARAM in query && query[PAGE_PARAM] != "" ==> p.page == query[PAGE_PARAM]
    ensures PAGE_PARAM !in query || query[PAGE_PARAM] == "" ==> p.page == HOME
    ensures p.id.Some? <==> ID_PARAM in query && query[ID_PARAM] != ""
    ensures p.id.Some? ==> p.id.value == query[ID_PARAM] && p.id.value != ""
  {
    var page := if PAGE_PARAM in query && query[PAGE_PARAM] != "" then query[PAGE_PARAM] else HOME;
    var id := if ID_PARAM in query && query[ID_PARAM] != "" then Some(query[ID_PARAM]) else None;
    Params(page, id)
  }

  /** `renderPage()`: the details page needs an id; anything else unknown
      falls back to the home page. */
  function RenderPage(page: string, id: Option<string>): (v: View)
    ensures v.DetailsView? <==> page == "details" && Truthy(id)
    ensures v.DetailsView? ==> v.storyId == id.value
    ensures v == UploadView <==> page == "upload"
    ensures v == AdminView <==> page == "admin"
    ensures page !in {"upload", "admin", "details"} ==> v == HomeView
  {
    if page == "upload" then UploadView
    else if page == "admin" then AdminView
    else if page == "details" && Truthy(id) then DetailsView(id.value)
    else HomeView
  }

  /** The query string `handleNavigate` pushes: none at all for the home
      page; otherwise `page` is set and `id` set or deleted, other
      parameters kept. */
  function NavigateQuery(query: map<string, string>, page: string, id: Option<string>): (q: map<string, string>)
    ensures page == HOME ==> q == map[]
    ensures page != HOME ==> PAGE_PARAM in q && q[PAGE_PARAM] == page
    ensures page != HOME && Truthy(id) ==> ID_PARAM in q && q[ID_PARAM] == id.value
    ensures page != HOME && !Truthy(id) ==> ID_PARAM !in q
    ensures page != HOME ==> forall k | k != PAGE_PARAM && k != ID_PARAM ::
      (k in q <==> k in query) && (k in q ==> q[k] == query[k])
  {
    if page == HOME then map[]
    else
      var withPage := query[PAGE_PARAM := page];
      if Truthy(id) then withPage[ID_PARAM := id.value] else withPage - {ID_PARAM}
  }

  /** Reloading (or going back to) the pushed URL shows the view the
      navigation showed. */
  lemma NavigationIsBookmarkable(query: map<string, string>, page: string, id: Option<string>)
    ensures var p := GetParams(NavigateQuery(query, page, id));
      RenderPage(p.page, p.id) == RenderPage(page, id)
  {
  }

  /** The session that a page load restores: the stored record when it is
      present, non-empty and parses; none otherwise. */
  function RestoreSession(storage: map<string, string>): (u: Option<User>)
    ensures SESSION_KEY !in storage ==> u == None
    ensures u.Some? ==> UserJson.Parse(storage[SESSION_KEY]) == u
  {
    if SESSION_KEY in storage && storage[SESSION_KEY] != "" then UserJson.Parse(storage[SESSION_KEY])
    else None
  }

  /** Storing a user's record makes the next page load restore that user. */
  lemma StoredSessionRestores(storage: map<string, string>, u: User)
    ensures RestoreSession(storage[SESSION_KEY := UserJson.Stringify(u)]) == Some(u)
    ensures RestoreSession(storage - {SESSION_KEY}) == None
  {
    var text := UserJson.Stringify(u);
    assert text[0] == '{';
    UserJson.ParseStringify(u);
  }

  class Shell {
    var currentPage: string
    var currentStoryId: Option<string>
    var user: Option<User>
    /** The query string of the address bar. */
    var query: map<string, string>
    /** The origin's local storage. */
    var storage: map<string, string>

    /** The address bar reproduces the current view, and a reload would
        restore the current session. */
    ghost predicate Valid()
      reads this
    {
      && RenderPage(currentPage, currentStoryId) == RenderPage(GetParams(query).page, GetParams(query).id)
      && user == RestoreSession(storage)
    }

    /** First render: state from the query string, then the session restore
        effect. */
    constructor (query: map<string, string>, storage: map<string, string>)
      ensures Valid()
      ensures currentPage == GetParams(query).page && currentStoryId == GetParams(query).id
      ensures user == RestoreSession(storage)
      ensures this.query == query && this.storage == storage
    {
      var p := GetParams(query);
      currentPage := p.page;
      currentStoryId := p.id;
      this.query := query;
      this.storage := storage;
      user := RestoreSession(storage);
    }

    function CurrentView(): View
      reads this
    {
      RenderPage(currentPage, currentStoryId)
    }

    /** Back/forward: the browser restores `newQuery` and the state follows. */
    method OnPopState(newQuery: map<string, string>)
      requires Valid()
      modifies this
      ensures Valid()
      ensures query == newQuery
      ensures currentPage == GetParams(newQuery).page && currentStoryId == GetParams(newQuery).id
      ensures user == old(user) && storage == old(storage)
    {
      query := newQuery;
      var p := GetParams(newQuery);
      currentPage := p.page;
      currentStoryId := p.id;
    }

    method HandleNavigate(page: string, id: Option<string>)
      requires Valid()
      modifies this
      ensures Valid()
      ensures currentPage == page && currentStoryId == id
      ensures query == NavigateQuery(old(query), page, id)
      ensures user == old(user) && storage == old(storage)
    {
      currentPage := page;
      currentStoryId := id;
      query := NavigateQuery(query, page, id);
      NavigationIsBookmarkable(old(query), page, id);
    }

    /** Signs in as `u` and persists the record. */
    method SignIn(u: User)
      requires Valid()
      modifies this
      ensures Valid()
      ensures user == Some(u)
      ensures storage == old(storage)[SESSION_KEY := UserJson.Stringify(u)]
      ensures currentPage == old(currentPage) && currentStoryId == old(currentStoryId)
      ensures query == old(query)
    {
      user := Some(u);
      StoredSessionRestores(storage, u);
      storage := storage[SESSION_KEY := UserJson.Stringify(u)];
    }

    /** `handleLogin`: signs in as the fixed visitor. */
    method HandleLogin()
      requires Valid()
      modifies this
      ensures Valid()
      ensures user == Some(VISITOR)
      ensures storage == old(storage)[SESSION_KEY := UserJson.Stringify(VISITOR)]
      ensures currentPage == old(currentPage) && currentStoryId == old(currentStoryId)
      ensures query == old(query)
    {
      SignIn(VISITOR);
    }

    /** Signs out, forgets the stored record and goes home. */
    method HandleLogout()
      requires Valid()
      modifies this
      ensures Valid()
      ensures user == None
      ensures storage == old(storage) - {SESSION_KEY}
      ensures currentPage == HOME && currentStoryId == None && query == map[]
    {
      user := None;
      storage := storage - {SESSION_KEY};
      HandleNavigate(HOME, None);
    }
  }
}
