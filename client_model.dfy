/**
 * The single-page client (`frontend/src/App.tsx`) as values: its record types,
 * its pure helpers, and one step function per event handler over a snapshot of
 * every `useState` cell plus the `localStorage` slot `portfolio_admin_token`.
 * Every network round trip is an input (`Reply`); the requests a handler sends
 * are given by the `...Request` functions. `ClientApp.App` runs these steps
 * imperatively.
 */
module ClientModel {
  import opened Wrappers
  import opened Strings
  import Portfolio

  const API_BASE: string := "http://localhost:8080/api"
  /** `API_BASE.replace(/\/api\/?$/, '')` */
  const API_ORIGIN: string := StripApiSuffix(API_BASE)

  const SESSION_EXPIRED: string := "Session expired. Please log in again."
  const LOAD_FAILED: string := "Failed to load portfolio data"
  const SAVE_FAILED: string := "Failed to save"
  const UPLOAD_FAILED: string := "Upload failed"
  const NOT_AN_IMAGE: string := "Please select an image file (e.g. JPG, PNG)."
  const INVALID_LOGIN: string := "Invalid username or password"
  const DEFAULT_NAME: string := "Gaurav Sahitya"
  const DEFAULT_INITIALS: string := "GS"
  const DEFAULT_USERNAME: string := "admin"

  // Record types, as the client receives them

  datatype About = About(id: string, headline: string, summary: string, location: string, avatarUrl: Option<string>)

  /** `label` is a reserved word here, hence `linkLabel`. */
  datatype SocialLink = SocialLink(id: string, linkLabel: string, url: string, icon: Option<string>)

  /** The body of a successful `POST /auth/login`. */
  datatype LoginData = LoginData(token: string)

  datatype View = PortfolioPage | LoginPage | AdminPage

  datatype SkillTab = Highlights | Programming | Development | Tools | Others

  /** The chosen file, of which only `file.type` matters. */
  datatype File = File(mimeType: string)

  /**
   * How one `fetch` ended: it rejected (a network error, with the error's
   * message), or a response arrived with its status, its `text()` and the
   * outcome of its `json()`, which rejects with a message on a malformed body.
   */
  datatype Reply<T> =
    | Rejected(message: string)
    | Response(status: int, text: string, json: Result<T, string>)

  /** `res.ok` */
  predicate IsOkStatus(status: int) {
    200 <= status <= 299
  }

  datatype HttpMethod = GET | PUT | POST

  datatype Body =
    | NoBody
    | AboutJson(draft: About)
    | PhotoForm(file: File)
    | CredentialsJson(username: string, password: string)

  /** A request the client sends; `adminToken` is the `X-ADMIN-TOKEN` header. */
  datatype Request = Request(verb: HttpMethod, url: string, adminToken: Option<string>, body: Body)

  /** Every `useState` cell of `App`, plus the persisted token slot. */
  datatype AppState = AppState(
    about: Option<About>,
    links: seq<SocialLink>,
    view: View,
    skillTab: SkillTab,
    skillSearch: string,
    expandedExp: Option<nat>,
    isEditingAbout: bool,
    aboutDraft: Option<About>,
    loading: bool,
    error: Option<string>,
    authToken: Option<string>,
    loginUsername: string,
    loginPassword: string,
    loginError: Option<string>,
    photoUploading: bool,
    storedToken: Option<string>)

  /** JavaScript truthiness of a `string | null`: the empty string is falsy. */
  predicate Truthy(s: Option<string>) {
    s.Some? && s.value != ""
  }

  // Pure helpers

  /** Removes one trailing `/api` or `/api/`. */
  function StripApiSuffix(s: string): (r: string)
    ensures EndsWith(s, "/api/") ==> r + "/api/" == s
    ensures !EndsWith(s, "/api/") && EndsWith(s, "/api") ==> r + "/api" == s
    ensures !EndsWith(s, "/api/") && !EndsWith(s, "/api") ==> r == s
  {
    if EndsWith(s, "/api/") then s[..|s| - 5]
    else if EndsWith(s, "/api") then s[..|s| - 4]
    else s
  }

  lemma ApiOriginIsHost()
    ensures API_ORIGIN == "http://localhost:8080"
  {
    assert EndsWith(API_BASE, "/api");
    assert !EndsWith(API_BASE, "/api/");
  }

  /** `getAboutPhotoUrl(about)`: root-relative paths resolve against the backend. */
  function GetAboutPhotoUrl(about: Option<About>): (r: Option<string>)
    ensures r.None? <==> about.None? || about.value.avatarUrl.None? || about.value.avatarUrl == Some("")
    ensures r.Some? && StartsWith(about.value.avatarUrl.value, "/") ==> r == Some(API_ORIGIN + about.value.avatarUrl.value)
    ensures r.Some? && !StartsWith(about.value.avatarUrl.value, "/") ==> r == about.value.avatarUrl
  {
    if about.None? || about.value.avatarUrl.None? || about.value.avatarUrl.value == "" then None
    else
      var url := about.value.avatarUrl.value;
      if StartsWith(url, "/") then Some(API_ORIGIN + url) else Some(url)
  }

  /** The URL the backend stores after an upload is served by the backend's own photo endpoint. */
  lemma UploadedPhotoUrl(a: About)
    requires a.avatarUrl == Some(Portfolio.PHOTO_URL)
    ensures GetAboutPhotoUrl(Some(a)) == Some("http://localhost:8080/api/about/photo")
  {
    ApiOriginIsHost();
    assert StartsWith(Portfolio.PHOTO_URL, "/");
    assert a.avatarUrl.value != "";
    assert GetAboutPhotoUrl(Some(a)) == Some(API_ORIGIN + Portfolio.PHOTO_URL);
    var joined := "http://localhost:8080" + "/api/about/photo";
    assert |joined| == |"http://localhost:8080/api/about/photo"|;
    assert forall i :: 0 <= i < |joined| ==> joined[i] == "http://localhost:8080/api/about/photo"[i];
    assert joined == "http://localhost:8080/api/about/photo";
    assert API_ORIGIN + Portfolio.PHOTO_URL == joined;
  }

  /** `isLoading`: the loading screen shows only until some `about` is known. */
  function IsLoading(s: AppState): (r: bool)
    ensures r ==> s.about.None?
    ensures s.about.None? ==> r == s.loading
  {
    s.loading && s.about.None?
  }

  /** Whether `a` is `b` with some elements left out, the rest in their order. */
  predicate Subsequence<T(==)>(a: seq<T>, b: seq<T>)
    decreases |b|
  {
    a == [] || (b != [] && ((a[0] == b[0] && Subsequence(a[1..], b[1..])) || Subsequence(a, b[1..])))
  }

  /** The matching skills, in their order: `filter` on a case-insensitive substring test. */
  function FilterMatching(skills: seq<string>, query: string): (r: seq<string>)
    ensures |r| <= |skills|
    ensures Subsequence(r, skills)
    ensures forall x :: x in r <==> x in skills && Contains(Lower(x), Lower(query))
    ensures forall x :: multiset(r)[x] == if Contains(Lower(x), Lower(query)) then multiset(skills)[x] else 0
  {
    if skills == [] then []
    else
      var rest := FilterMatching(skills[1..], query);
      assert skills == [skills[0]] + skills[1..];
      if Contains(Lower(skills[0]), Lower(query)) then [skills[0]] + rest else rest
  }

  /** `filteredSkills`: the trimmed query gates the filter; the untrimmed one is matched. */
  function FilterSkills(raw: seq<string>, query: string): (r: seq<string>)
    ensures IsBlankJs(query) ==> r == raw
    ensures !IsBlankJs(query) ==> forall x :: x in r <==> x in raw && Contains(Lower(x), Lower(query))
  {
    if IsBlankJs(query) then raw else FilterMatching(raw, query)
  }

  /** `skillTabs` */
  const SKILL_TABS: seq<(SkillTab, string)> := [
    (Highlights, "Highlights"), (Programming, "Programming"), (Development, "Development"),
    (Tools, "Tools"), (Others, "Others")]

  /** `tabs.find((t) => t.id === tab)?.label` */
  function FindLabel(tabs: seq<(SkillTab, string)>, tab: SkillTab): (r: Option<string>)
    ensures r.Some? <==> exists i :: 0 <= i < |tabs| && tabs[i].0 == tab
    ensures r.Some? ==> exists i :: 0 <= i < |tabs| && tabs[i] == (tab, r.value)
    ensures forall i :: 0 <= i < |tabs| && tabs[i].0 == tab && (forall j :: 0 <= j < i ==> tabs[j].0 != tab) ==>
      r == Some(tabs[i].1)
  {
    if tabs == [] then None
    else if tabs[0].0 == tab then Some(tabs[0].1)
    else
      var r := FindLabel(tabs[1..], tab);
      assert forall i :: 0 < i < |tabs| ==> tabs[i] == tabs[1..][i - 1];
      r
  }

  /** `activeTabLabel` */
  function ActiveTabLabel(tab: SkillTab): (r: string)
    ensures (tab, r) in SKILL_TABS || (r == "Skills" && forall i :: 0 <= i < |SKILL_TABS| ==> SKILL_TABS[i].0 != tab)
  {
    var found := FindLabel(SKILL_TABS, tab);
    if found.Some? then found.value else "Skills"
  }

  /** Every tab is listed, so the `'Skills'` fallback is never shown. */
  lemma ActiveTabLabelListed(tab: SkillTab)
    ensures (tab, ActiveTabLabel(tab)) in SKILL_TABS
    ensures ActiveTabLabel(tab) != "Skills"
  {
    var i := match tab
      case Highlights => 0
      case Programming => 1
      case Development => 2
      case Tools => 3
      case Others => 4;
    assert SKILL_TABS[i].0 == tab;
  }

  /** `.map((n) => n[0]).join('')`: the first character of every non-empty piece. */
  function Heads(parts: seq<string>): string {
    if parts == [] then ""
    else (if parts[0] == "" then "" else [parts[0][0]]) + Heads(parts[1..])
  }

  /**
   * Reference definition of a name's initials: every non-space character that
   * starts the string or follows a space (`atStart` says whether the previous
   * character was a space or there was none).
   */
  function WordStarts(s: string, atStart: bool): string {
    if s == [] then ""
    else if s[0] == ' ' then WordStarts(s[1..], true)
    else (if atStart then [s[0]] else "") + WordStarts(s[1..], false)
  }

  /** The pieces' heads are exactly the word starts; the pieces after the first are the rest's. */
  lemma {:induction false} HeadsOfSplit(s: string)
    ensures Heads(Split(s, ' ')) == WordStarts(s, true)
    ensures Heads(Split(s, ' ')[1..]) == WordStarts(s, false)
  {
    if s != [] {
      HeadsOfSplit(s[1..]);
      var rest := Split(s[1..], ' ');
      if s[0] == ' ' {
        assert Split(s, ' ') == [""] + rest;
        assert ([""] + rest)[1..] == rest;
      } else {
        var first := [s[0]] + rest[0];
        assert Split(s, ' ') == [first] + rest[1..];
        assert ([first] + rest[1..])[1..] == rest[1..];
        assert rest == [rest[0]] + rest[1..];
        assert Heads(rest) == (if rest[0] == "" then "" else [rest[0][0]]) + Heads(rest[1..]);
      }
    }
  }

  /** `displayName` */
  function DisplayName(about: Option<About>): (name: string)
    ensures name != ""
    ensures about.Some? && about.value.headline != "" ==> name == about.value.headline
    ensures !(about.Some? && about.value.headline != "") ==> name == DEFAULT_NAME
  {
    if about.Some? && about.value.headline != "" then about.value.headline else DEFAULT_NAME
  }

  /** `navInitials`: split at spaces, first letters, first two, upper-cased, else `'GS'`. */
  function NavInitials(about: Option<About>): (r: string)
    ensures 1 <= |r| <= 2
    ensures var starts := WordStarts(DisplayName(about), true);
      r == if starts == "" then DEFAULT_INITIALS else Upper(Take(starts, 2))
  {
    var name := DisplayName(about);
    HeadsOfSplit(name);
    var initials := Upper(Take(Heads(Split(name, ' ')), 2));
    if initials == "" then DEFAULT_INITIALS else initials
  }

  /** A word without spaces contributes at most its first character. */
  lemma {:induction false} WordStartsOfWord(w: string, rest: string, atStart: bool)
    requires ' ' !in w
    ensures WordStarts(w + rest, atStart) ==
      if w == [] then WordStarts(rest, atStart) else (if atStart then [w[0]] else "") + WordStarts(rest, false)
  {
    if w == [] {
      assert w + rest == rest;
    } else {
      assert (w + rest)[0] == w[0] && w[0] in w;
      assert (w + rest)[1..] == w[1..] + rest;
      WordStartsOfWord(w[1..], rest, false);
    }
  }

  /** Two space-free words joined by one space start with their first characters. */
  lemma TwoWordStarts(first: string, second: string)
    requires first != [] && second != [] && ' ' !in first && ' ' !in second
    ensures WordStarts(first + [' '] + second, true) == [first[0], second[0]]
  {
    var rest := [' '] + second;
    assert first + [' '] + second == first + rest;
    WordStartsOfWord(first, rest, true);
    assert rest[1..] == second + "";
    WordStartsOfWord(second, "", true);
  }

  /** The default name's word starts are `G` and `S`. */
  lemma DefaultNameStarts()
    ensures WordStarts(DEFAULT_NAME, true) == "GS"
  {
    var first, second := "Gaurav", "Sahitya";
    assert DEFAULT_NAME == first + [' '] + second;
    TwoWordStarts(first, second);
  }

  lemma DefaultNavInitials()
    ensures NavInitials(None) == DEFAULT_INITIALS
  {
    DefaultNameStarts();
    var gs := WordStarts(DisplayName(None), true);
    assert gs == "GS";
    assert Take(gs, 2) == gs;
    var up := Upper(gs);
    assert up[0] == 'G' && up[1] == 'S';
    assert up == DEFAULT_INITIALS;
  }

  /** `setExpandedExp(expandedExp === i ? null : i)`: at most one card is open. */
  function Toggle(expanded: Option<nat>, i: nat): (r: Option<nat>)
    ensures r == Some(i) <==> expanded != Some(i)
    ensures r.None? <==> expanded == Some(i)
  {
    if expanded == Some(i) then None else Some(i)
  }

  // The initial state and the load effect

  /** The first render, with `stored` read from `localStorage`. */
  function Initial(stored: Option<string>): AppState {
    AppState(None, [], PortfolioPage, Highlights, "", Some(0), false, None, true,
      None, stored, DEFAULT_USERNAME, "", None, false, stored)
  }

  /** The two requests of the load effect; `/projects` is not fetched. */
  function LoadRequests(): seq<Request> {
    [Request(GET, API_BASE + "/about", None, NoBody), Request(GET, API_BASE + "/links", None, NoBody)]
  }

  /**
   * How `Promise.all` of two promises rejects: with the first rejection to
   * happen; `secondFirst` says which one that is when both reject.
   */
  function AllRejection(first: Option<string>, second: Option<string>, secondFirst: bool): (r: Option<string>)
    ensures r.None? <==> first.None? && second.None?
    ensures r.Some? ==> r == first || r == second
  {
    if first.Some? && second.Some? then (if secondFirst then second else first)
    else if first.Some? then first
    else second
  }

  function FetchRejection<T>(reply: Reply<T>): Option<string> {
    if reply.Rejected? then Some(reply.message) else None
  }

  function JsonRejection<T>(reply: Reply<T>): Option<string> {
    if reply.Response? && reply.json.Failure? then Some(reply.json.error) else None
  }

  /**
   * The outcome of `load`'s `try` block: both records, or the message of the
   * error it threw. `linksFetchFirst` and `linksJsonFirst` order the two
   * rejections of each `Promise.all` when both reject.
   */
  function LoadOutcome(aboutReply: Reply<About>, linksReply: Reply<seq<SocialLink>>, linksFetchFirst: bool, linksJsonFirst: bool)
    : (r: Result<(About, seq<SocialLink>), string>)
    ensures r.Success? <==>
      && aboutReply.Response? && IsOkStatus(aboutReply.status) && aboutReply.json.Success?
      && linksReply.Response? && IsOkStatus(linksReply.status) && linksReply.json.Success?
    ensures r.Success? ==> r.value == (aboutReply.json.value, linksReply.json.value)
    ensures aboutReply.Response? && linksReply.Response? && !(IsOkStatus(aboutReply.status) && IsOkStatus(linksReply.status))
      ==> r == Failure(LOAD_FAILED)
    ensures aboutReply.Rejected? && linksReply.Response? ==> r == Failure(aboutReply.message)
    ensures aboutReply.Response? && linksReply.Rejected? ==> r == Failure(linksReply.message)
  {
    var fetchError := AllRejection(FetchRejection(aboutReply), FetchRejection(linksReply), linksFetchFirst);
    if fetchError.Some? then Failure(fetchError.value)
    else if !IsOkStatus(aboutReply.status) || !IsOkStatus(linksReply.status) then Failure(LOAD_FAILED)
    else
      var jsonError := AllRejection(JsonRejection(aboutReply), JsonRejection(linksReply), linksJsonFirst);
      if jsonError.Some? then Failure(jsonError.value)
      else Success((aboutReply.json.value, linksReply.json.value))
  }

  /** The `catch` and `finally` of `load`: both records are set together, or neither. */
  function FinishLoad(s: AppState, outcome: Result<(About, seq<SocialLink>), string>): (t: AppState)
    ensures !t.loading
    ensures outcome.Success? ==> t.about == Some(outcome.value.0) && t.links == outcome.value.1 && t.error == s.error
    ensures outcome.Failure? ==> t.about == s.about && t.links == s.links && t.error == Some(outcome.error)
    ensures t.(about := s.about, links := s.links, error := s.error, loading := s.loading) == s
  {
    match outcome
    case Success((a, ls)) => s.(about := Some(a), links := ls, loading := false)
    case Failure(m) => s.(error := Some(m), loading := false)
  }

  /** The load at mount: the loading screen ends, with all of the data or none of it. */
  lemma LoadAtMount(stored: Option<string>, aboutReply: Reply<About>, linksReply: Reply<seq<SocialLink>>, linksFetchFirst: bool, linksJsonFirst: bool)
    ensures var outcome := LoadOutcome(aboutReply, linksReply, linksFetchFirst, linksJsonFirst);
      var t := FinishLoad(Initial(stored), outcome);
      && !t.loading && !IsLoading(t)
      && (outcome.Success? ==> t.about == Some(aboutReply.json.value) && t.links == linksReply.json.value && t.error.None?)
      && (outcome.Failure? ==> t.about.None? && t.links == [] && t.error == Some(outcome.error))
      && t.authToken == stored && t.view == PortfolioPage
  {
  }

  // View changes

  /** `scrollTo(id)`: only the view reset; the scrolling is DOM work. */
  function ScrollTo(s: AppState): AppState {
    s.(view := PortfolioPage)
  }

  /** The Login button. */
  function OpenLogin(s: AppState): AppState {
    s.(view := LoginPage)
  }

  /** The Admin button, rendered only while `authToken` is truthy. */
  function OpenAdmin(s: AppState): AppState
    requires Truthy(s.authToken)
  {
    s.(view := AdminPage)
  }

  // Editing the About record

  /** `startEditAbout` */
  function StartEditAbout(s: AppState): AppState {
    if s.about.None? || !Truthy(s.authToken) then s
    else s.(isEditingAbout := true, aboutDraft := s.about)
  }

  lemma StartEditCopiesAbout(s: AppState)
    ensures var t := StartEditAbout(s);
      && t.(isEditingAbout := s.isEditingAbout, aboutDraft := s.aboutDraft) == s
      && (s.about.Some? && Truthy(s.authToken) ==> t.isEditingAbout && t.aboutDraft == s.about)
      && (s.about.None? || !Truthy(s.authToken) ==> t == s)
  {
  }

  /** The Cancel button: leaves the form, keeping the draft. */
  function CancelEdit(s: AppState): AppState {
    s.(isEditingAbout := false)
  }

  /** Cancelling keeps both records, so editing again starts from `about`, not the old draft. */
  lemma CancelKeepsRecords(s: AppState)
    ensures var t := CancelEdit(s);
      && !t.isEditingAbout && t.about == s.about && t.aboutDraft == s.aboutDraft
      && t.(isEditingAbout := s.isEditingAbout) == s
      && (s.about.Some? && Truthy(s.authToken) ==> StartEditAbout(t).aboutDraft == s.about)
  {
  }

  /** The headline input, rendered only with a draft. */
  function EditHeadline(s: AppState, value: string): AppState
    requires s.aboutDraft.Some?
  {
    s.(aboutDraft := Some(s.aboutDraft.value.(headline := value)))
  }

  /** The summary textarea, rendered only with a draft. */
  function EditSummary(s: AppState, value: string): AppState
    requires s.aboutDraft.Some?
  {
    s.(aboutDraft := Some(s.aboutDraft.value.(summary := value)))
  }

  /** The location input, rendered only with a draft. */
  function EditLocation(s: AppState, value: string): AppState
    requires s.aboutDraft.Some?
  {
    s.(aboutDraft := Some(s.aboutDraft.value.(location := value)))
  }

  /** Typing only changes the draft: `about` still holds the server's record. */
  lemma DraftEditsKeepAbout(s: AppState, value: string)
    requires s.aboutDraft.Some?
    ensures EditHeadline(s, value).about == s.about && EditHeadline(s, value).aboutDraft.value.headline == value
    ensures EditSummary(s, value).about == s.about && EditSummary(s, value).aboutDraft.value.summary == value
    ensures EditLocation(s, value).about == s.about && EditLocation(s, value).aboutDraft.value.location == value
    ensures EditHeadline(s, value).aboutDraft.value.(headline := s.aboutDraft.value.headline) == s.aboutDraft.value
    ensures EditSummary(s, value).aboutDraft.value.(summary := s.aboutDraft.value.summary) == s.aboutDraft.value
    ensures EditLocation(s, value).aboutDraft.value.(location := s.aboutDraft.value.location) == s.aboutDraft.value
    ensures EditHeadline(s, value).(aboutDraft := s.aboutDraft) == s
    ensures EditSummary(s, value).(aboutDraft := s.aboutDraft) == s
    ensures EditLocation(s, value).(aboutDraft := s.aboutDraft) == s
  {
  }

  // Sessions

  /** `clearSession` */
  function ClearSession(s: AppState): AppState {
    s.(authToken := None, storedToken := None, view := LoginPage)
  }

  /** `logout` */
  function Logout(s: AppState): AppState {
    s.(authToken := None, storedToken := None, view := PortfolioPage)
  }

  /** Both end the session the same way; only the page shown afterwards differs. */
  lemma LogoutVersusClearSession(s: AppState)
    ensures Logout(s).authToken.None? && Logout(s).storedToken.None? && Logout(s).view == PortfolioPage
    ensures ClearSession(s).authToken.None? && ClearSession(s).storedToken.None? && ClearSession(s).view == LoginPage
    ensures Logout(s).(view := LoginPage) == ClearSession(s)
  {
  }

  /** What a non-ok, non-401 `PUT /about` shows: the body whatever its form, else `'Failed to save'`. */
  function SaveErrorMessage(errText: string): (m: string)
    ensures m != ""
    ensures errText != "" ==> m == errText
    ensures errText == "" ==> m == SAVE_FAILED
  {
    if errText == "" then SAVE_FAILED else errText
  }

  /** `saveAbout` sends the draft, not `about`, with the token as its header. */
  function SaveAboutRequest(s: AppState): (r: Option<Request>)
    ensures r.Some? <==> s.aboutDraft.Some? && Truthy(s.authToken)
    ensures r.Some? ==> r.value == Request(PUT, API_BASE + "/about", s.authToken, AboutJson(s.aboutDraft.value))
  {
    if s.aboutDraft.None? || !Truthy(s.authToken) then None
    else Some(Request(PUT, API_BASE + "/about", s.authToken, AboutJson(s.aboutDraft.value)))
  }

  /** `saveAbout`, with the reply to its `PUT /about`. */
  function SaveAbout(s: AppState, reply: Reply<About>): AppState {
    if s.aboutDraft.None? || !Truthy(s.authToken) then s
    else
      var t := s.(error := None);
      match reply
      case Rejected(m) => t.(error := Some(m))
      case Response(status, text, json) =>
        if status == 401 then ClearSession(t).(error := Some(SESSION_EXPIRED))
        else if !IsOkStatus(status) then t.(error := Some(SaveErrorMessage(text)))
        else match json
          case Failure(m) => t.(error := Some(m))
          case Success(saved) => t.(about := Some(saved), isEditingAbout := false)
  }

  /** Without a draft or a token nothing is sent and nothing changes. */
  lemma SaveWithoutDraftOrToken(s: AppState, reply: Reply<About>)
    requires s.aboutDraft.None? || !Truthy(s.authToken)
    ensures SaveAboutRequest(s).None? && SaveAbout(s, reply) == s
  {
  }

  /** A 401 ends the session and says so; the records are kept. */
  lemma SaveUnauthorized(s: AppState, text: string, json: Result<About, string>)
    requires SaveAboutRequest(s).Some?
    ensures var t := SaveAbout(s, Response(401, text, json));
      && t.authToken.None? && t.storedToken.None? && t.view == LoginPage
      && t.error == Some(SESSION_EXPIRED)
      && t.about == s.about && t.aboutDraft == s.aboutDraft && t.isEditingAbout == s.isEditingAbout
  {
  }

  /** Any other failure shows the raw body text, even a JSON body with `message`/`error`. */
  lemma SaveFailureShowsBody(s: AppState, status: int, text: string, json: Result<About, string>)
    requires SaveAboutRequest(s).Some?
    requires status != 401 && !IsOkStatus(status)
    ensures var t := SaveAbout(s, Response(status, text, json));
      && t.error == Some(if text == "" then SAVE_FAILED else text)
      && t.about == s.about && t.aboutDraft == s.aboutDraft && t.isEditingAbout == s.isEditingAbout
      && t.authToken == s.authToken && t.view == s.view
  {
  }

  /** For instance, a validation failure's JSON body is shown as it came. */
  lemma SaveJsonBodyShownRaw(s: AppState, json: Result<About, string>)
    requires SaveAboutRequest(s).Some?
    ensures SaveAbout(s, Response(400, "{\"error\":\"too long\"}", json)).error == Some("{\"error\":\"too long\"}")
  {
  }

  /**
   * A saved record replaces `about` and closes the form; the draft that was
   * sent stays behind.
   */
  lemma SaveSucceeds(s: AppState, status: int, text: string, saved: About)
    requires SaveAboutRequest(s).Some? && IsOkStatus(status)
    ensures var t := SaveAbout(s, Response(status, text, Success(saved)));
      && t.error.None? && t.about == Some(saved) && !t.isEditingAbout
      && t.aboutDraft == s.aboutDraft && t.authToken == s.authToken && t.view == s.view
  {
  }

  /** `uploadPhoto` sends the chosen image with the token as its header. */
  function UploadPhotoRequest(s: AppState, file: Option<File>): (r: Option<Request>)
    ensures r.Some? <==> file.Some? && Truthy(s.authToken) && StartsWith(file.value.mimeType, "image/")
    ensures r.Some? ==> r.value == Request(POST, API_BASE + "/about/photo", s.authToken, PhotoForm(file.value))
  {
    if file.None? || !Truthy(s.authToken) || !StartsWith(file.value.mimeType, "image/") then None
    else Some(Request(POST, API_BASE + "/about/photo", s.authToken, PhotoForm(file.value)))
  }

  /** The `try` block of `uploadPhoto` after the request, before its `finally`. */
  function UploadReplied(t: AppState, reply: Reply<About>): AppState {
    match reply
    case Rejected(m) => t.(error := Some(m))
    case Response(status, _, json) =>
      if status == 401 then ClearSession(t).(error := Some(SESSION_EXPIRED))
      else if !IsOkStatus(status) then t.(error := Some(UPLOAD_FAILED))
      else match json
        case Failure(m) => t.(error := Some(m))
        case Success(updated) =>
          t.(about := Some(updated),
             aboutDraft := if t.aboutDraft.Some? then Some(t.aboutDraft.value.(avatarUrl := updated.avatarUrl)) else None)
  }

  /** `uploadPhoto`, with the file chosen and the reply to its `POST /about/photo`. */
  function UploadPhoto(s: AppState, file: Option<File>, reply: Reply<About>): AppState {
    if file.None? || !Truthy(s.authToken) then s
    else if !StartsWith(file.value.mimeType, "image/") then s.(error := Some(NOT_AN_IMAGE))
    else UploadReplied(s.(error := None, photoUploading := true), reply).(photoUploading := false)
  }

  /** Without a file or a token nothing happens; a non-image only sets the error. */
  lemma UploadEarlyExits(s: AppState, file: Option<File>, reply: Reply<About>)
    requires UploadPhotoRequest(s, file).None?
    ensures file.None? || !Truthy(s.authToken) ==> UploadPhoto(s, file, reply) == s
    ensures file.Some? && Truthy(s.authToken) ==> UploadPhoto(s, file, reply) == s.(error := Some(NOT_AN_IMAGE))
  {
  }

  /** After a request the spinner is off on every path, and only a 401 ends the session. */
  lemma UploadAfterRequest(s: AppState, file: Option<File>, reply: Reply<About>)
    requires UploadPhotoRequest(s, file).Some?
    ensures var t := UploadPhoto(s, file, reply);
      && !t.photoUploading
      && (t.authToken.None? <==> reply.Response? && reply.status == 401)
      && (reply.Response? && reply.status == 401 ==>
            t.view == LoginPage && t.storedToken.None? && t.error == Some(SESSION_EXPIRED) && t.about == s.about)
      && (reply.Response? && reply.status != 401 && !IsOkStatus(reply.status) ==>
            t.error == Some(UPLOAD_FAILED) && t.about == s.about && t.aboutDraft == s.aboutDraft)
  {
  }

  /** A successful upload takes the server's record; a draft keeps its text, taking only the new URL. */
  lemma UploadSucceeds(s: AppState, file: Option<File>, status: int, text: string, updated: About)
    requires UploadPhotoRequest(s, file).Some? && IsOkStatus(status)
    ensures var t := UploadPhoto(s, file, Response(status, text, Success(updated)));
      && t.error.None? && t.about == Some(updated) && !t.photoUploading
      && t.aboutDraft.Some? == s.aboutDraft.Some?
      && (s.aboutDraft.Some? ==>
            && t.aboutDraft.value.avatarUrl == updated.avatarUrl
            && t.aboutDraft.value.headline == s.aboutDraft.value.headline
            && t.aboutDraft.value.summary == s.aboutDraft.value.summary
            && t.aboutDraft.value.location == s.aboutDraft.value.location
            && t.aboutDraft.value.id == s.aboutDraft.value.id)
      && t.isEditingAbout == s.isEditingAbout && t.authToken == s.authToken
  {
  }

  /** `handleLogin` posts the two login inputs as they are. */
  function LoginRequest(s: AppState): Request {
    Request(POST, API_BASE + "/auth/login", None, CredentialsJson(s.loginUsername, s.loginPassword))
  }

  /** `handleLogin`, with the reply to its `POST /auth/login`. */
  function HandleLogin(s: AppState, reply: Reply<LoginData>): AppState {
    var t := s.(loginError := None);
    match reply
    case Rejected(m) => t.(loginError := Some(m))
    case Response(status, _, json) =>
      if !IsOkStatus(status) then t.(loginError := Some(INVALID_LOGIN))
      else match json
        case Failure(m) => t.(loginError := Some(m))
        case Success(data) =>
          t.(authToken := Some(data.token), storedToken := Some(data.token), loginPassword := "", view := AdminPage)
  }

  /** A refused login reports it and keeps the session, the slot and the page. */
  lemma LoginRefused(s: AppState, status: int, text: string, json: Result<LoginData, string>)
    requires !IsOkStatus(status)
    ensures var t := HandleLogin(s, Response(status, text, json));
      && t.loginError == Some(INVALID_LOGIN)
      && t.authToken == s.authToken && t.storedToken == s.storedToken && t.view == s.view
      && t.loginPassword == s.loginPassword
  {
  }

  /** An accepted login stores the token in both places, forgets the password and opens the admin page. */
  lemma LoginAccepted(s: AppState, status: int, text: string, token: string)
    requires IsOkStatus(status)
    ensures var t := HandleLogin(s, Response(status, text, Success(LoginData(token))));
      && t.authToken == Some(token) && t.storedToken == Some(token)
      && t.loginPassword == "" && t.view == AdminPage && t.loginError.None?
      && t.isEditingAbout == s.isEditingAbout && t.aboutDraft == s.aboutDraft
  {
  }

  /** Signing in never clears the page-level error, whatever the reply. */
  lemma LoginKeepsError(s: AppState, reply: Reply<LoginData>)
    ensures HandleLogin(s, reply).error == s.error
    ensures HandleLogin(s, reply).about == s.about
  {
  }

  // Typing into the other inputs

  function TypeUsername(s: AppState, value: string): AppState {
    s.(loginUsername := value)
  }

  function TypePassword(s: AppState, value: string): AppState {
    s.(loginPassword := value)
  }

  function TypeSearch(s: AppState, value: string): AppState {
    s.(skillSearch := value)
  }

  function SelectTab(s: AppState, tab: SkillTab): AppState {
    s.(skillTab := tab)
  }

  function ToggleExperience(s: AppState, i: nat): AppState {
    s.(expandedExp := Toggle(s.expandedExp, i))
  }

  // All handlers together

  /** One user action or settled request, with the replies it receives. */
  datatype Event =
    | OnLoad(outcome: Result<(About, seq<SocialLink>), string>)
    | OnScrollTo
    | OnLoginClick
    | OnAdminClick
    | OnEditClick
    | OnCancelClick
    | OnHeadlineInput(value: string)
    | OnSummaryInput(value: string)
    | OnLocationInput(value: string)
    | OnSaveSubmit(saveReply: Reply<About>)
    | OnPhotoChange(file: Option<File>, uploadReply: Reply<About>)
    | OnLoginSubmit(loginReply: Reply<LoginData>)
    | OnLogoutClick
    | OnUsernameInput(value: string)
    | OnPasswordInput(value: string)
    | OnSearchInput(value: string)
    | OnTabClick(tab: SkillTab)
    | OnExperienceClick(index: nat)

  /** Whether the control behind `e` is on screen in `s`. */
  predicate Enabled(s: AppState, e: Event) {
    match e
    case OnAdminClick => Truthy(s.authToken)
    case OnHeadlineInput(_) => s.aboutDraft.Some?
    case OnSummaryInput(_) => s.aboutDraft.Some?
    case OnLocationInput(_) => s.aboutDraft.Some?
    case _ => true
  }

  function Step(s: AppState, e: Event): AppState
    requires Enabled(s, e)
  {
    match e
    case OnLoad(outcome) => FinishLoad(s, outcome)
    case OnScrollTo => ScrollTo(s)
    case OnLoginClick => OpenLogin(s)
    case OnAdminClick => OpenAdmin(s)
    case OnEditClick => StartEditAbout(s)
    case OnCancelClick => CancelEdit(s)
    case OnHeadlineInput(v) => EditHeadline(s, v)
    case OnSummaryInput(v) => EditSummary(s, v)
    case OnLocationInput(v) => EditLocation(s, v)
    case OnSaveSubmit(reply) => SaveAbout(s, reply)
    case OnPhotoChange(file, reply) => UploadPhoto(s, file, reply)
    case OnLoginSubmit(reply) => HandleLogin(s, reply)
    case OnLogoutClick => Logout(s)
    case OnUsernameInput(v) => TypeUsername(s, v)
    case OnPasswordInput(v) => TypePassword(s, v)
    case OnSearchInput(v) => TypeSearch(s, v)
    case OnTabClick(tab) => SelectTab(s, tab)
    case OnExperienceClick(i) => ToggleExperience(s, i)
  }

  /** Whether every event of `es` is enabled when its turn comes. */
  predicate Admissible(s: AppState, es: seq<Event>)
    decreases |es|
  {
    es == [] || (Enabled(s, es[0]) && Admissible(Step(s, es[0]), es[1..]))
  }

  function Run(s: AppState, es: seq<Event>): AppState
    requires Admissible(s, es)
    decreases |es|
  {
    if es == [] then s else Run(Step(s, es[0]), es[1..])
  }

  /**
   * What holds between handlers: the stored slot mirrors the token, the form
   * has a draft, the admin page has a token, and no upload is in flight.
   */
  predicate Consistent(s: AppState) {
    && s.storedToken == s.authToken
    && (s.isEditingAbout ==> s.aboutDraft.Some?)
    && (s.view == AdminPage ==> s.authToken.Some?)
    && !s.photoUploading
  }

  lemma InitialConsistent(stored: Option<string>)
    ensures Consistent(Initial(stored))
    ensures IsLoading(Initial(stored))
  {
  }

  lemma StepConsistent(s: AppState, e: Event)
    requires Consistent(s) && Enabled(s, e)
    ensures Consistent(Step(s, e))
  {
    match e {
      case OnSaveSubmit(reply) => SaveConsistent(s, reply);
      case OnPhotoChange(file, reply) => UploadConsistent(s, file, reply);
      case OnLoginSubmit(reply) => LoginConsistent(s, reply);
      case _ =>
    }
  }

  lemma SaveConsistent(s: AppState, reply: Reply<About>)
    requires Consistent(s)
    ensures Consistent(SaveAbout(s, reply))
  {
  }

  lemma UploadConsistent(s: AppState, file: Option<File>, reply: Reply<About>)
    requires Consistent(s)
    ensures Consistent(UploadPhoto(s, file, reply))
  {
    if file.Some? && Truthy(s.authToken) && StartsWith(file.value.mimeType, "image/") {
      var t := s.(error := None, photoUploading := true);
      assert Consistent(t.(photoUploading := false));
      UploadRepliedConsistent(t, reply);
    }
  }

  /** The reply handling of `uploadPhoto` keeps the invariant apart from the spinner. */
  lemma UploadRepliedConsistent(t: AppState, reply: Reply<About>)
    requires Consistent(t.(photoUploading := false))
    ensures Consistent(UploadReplied(t, reply).(photoUploading := false))
  {
    match reply {
      case Rejected(m) =>
      case Response(status, _, json) =>
        if status == 401 {
          assert UploadReplied(t, reply) == ClearSession(t).(error := Some(SESSION_EXPIRED));
        } else if IsOkStatus(status) && json.Success? {
          var u := UploadReplied(t, reply);
          assert u.authToken == t.authToken && u.storedToken == t.storedToken && u.view == t.view;
          assert u.aboutDraft.Some? == t.aboutDraft.Some? && u.isEditingAbout == t.isEditingAbout;
        }
    }
  }

  lemma LoginConsistent(s: AppState, reply: Reply<LoginData>)
    requires Consistent(s)
    ensures Consistent(HandleLogin(s, reply))
  {
  }

  lemma {:induction false} RunConsistent(s: AppState, es: seq<Event>)
    requires Consistent(s) && Admissible(s, es)
    ensures Consistent(Run(s, es))
    decreases |es|
  {
    if es != [] {
      StepConsistent(s, es[0]);
      RunConsistent(Step(s, es[0]), es[1..]);
    }
  }

  /** A reload reads back the token the session holds, whatever happened since the first render. */
  lemma ReloadRestoresSession(stored: Option<string>, es: seq<Event>)
    requires Admissible(Initial(stored), es)
    ensures var t := Run(Initial(stored), es);
      Initial(t.storedToken).authToken == t.authToken
  {
    InitialConsistent(stored);
    RunConsistent(Initial(stored), es);
  }

  /** Whether `e` sends a request that is answered with 401. */
  predicate Answered401(s: AppState, e: Event) {
    || (e.OnSaveSubmit? && SaveAboutRequest(s).Some? && e.saveReply.Response? && e.saveReply.status == 401)
    || (e.OnPhotoChange? && UploadPhotoRequest(s, e.file).Some? && e.uploadReply.Response? && e.uploadReply.status == 401)
  }

  /**
   * A session ends only at Logout or on a 401 from `PUT /about` or
   * `POST /about/photo`, and only the latter shows the login page with the
   * session-expired message.
   */
  lemma SessionEndsOnlyOn401OrLogout(s: AppState, e: Event)
    requires Enabled(s, e) && s.authToken.Some?
    ensures Step(s, e).authToken.None? <==> e.OnLogoutClick? || Answered401(s, e)
    ensures Answered401(s, e) ==> Step(s, e).view == LoginPage && Step(s, e).error == Some(SESSION_EXPIRED)
  {
    match e {
      case OnSaveSubmit(reply) =>
        assert SaveAboutRequest(s).Some? <==> s.aboutDraft.Some? && Truthy(s.authToken);
      case OnPhotoChange(file, reply) =>
        assert UploadPhotoRequest(s, file).Some? <==>
          file.Some? && Truthy(s.authToken) && StartsWith(file.value.mimeType, "image/");
      case _ =>
    }
  }
}
