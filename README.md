# Portfolio: a verified model of the session, content store and admin gate

This project is a Dafny model of the core of a personal portfolio site. The
backend is a Spring Boot service that keeps one "about" record plus two tables
of projects and social links in memory. A single admin password lets a user
log in and receive one session token. The single-page React client shows the
content and lets the logged-in admin edit the about record and upload a photo.

The model has these parts:

- **Records.** `AboutEntity.About`, `ProjectEntity.Project` and
  `SocialLinkEntity.SocialLink` are classes, because the Java classes are
  mutable beans with setters. Each setter is proved to change its own field
  and nothing else, and every getter is a plain field read. A nullable Java
  `String` is `Java.JString = Option<string>`. The `@NotBlank` constraints are
  the `IsValidBody` predicates, using Hibernate Validator's meaning: not null,
  and something survives `trim()` (`Java.Trim`).
- **Content store.** `Portfolio.PortfolioService` holds `about`, the two id-keyed
  maps and the shared counter `idSequence`. It keeps the invariant `Valid()`:
  - every entry's id is its key;
  - every key is a numeral the counter has already issued;
  - the two tables' key sets are disjoint.

  Seeding is proved to use ids 1–3 for projects and 4–5 for links. Freshness
  of every new id follows from the round trip
  `ValueOf(Decimal(n)) == n` (`Strings.ValueOfDecimal`).
- **Authentication.** `Auth.AuthService` holds the one `currentToken`. A
  successful login replaces it; a failed one leaves it alone.
  `AuthApi.AuthController.Login` maps the result to 200 or 401.
- **Controller.** `PortfolioApi.PortfolioController` checks the
  `X-ADMIN-TOKEN` header on every mutating endpoint. It answers 401 with the
  service `unchanged`, or delegates and returns the status the source returns.
  The photo endpoint's content-type choice and its 404/500 rules are pure
  functions.
- **Client.** `ClientModel` holds the client's record types and pure helpers.
  It also has one step function per event handler, over `AppState`, a snapshot
  of every `useState` cell plus the `localStorage` slot
  `portfolio_admin_token`. Each network round trip is an input `Reply`: the
  fetch rejected, or a status with the body text and the outcome of `json()`.
  The requests a handler sends are given by the `...Request` functions.
  `ClientApp.App` is the component as an object. It has one field per cell,
  and its handler methods assign them in the source's order. Each method is
  proved to yield exactly the corresponding step function's state. The
  properties of the handlers are lemmas about the step functions. The
  multi-step ones go through `Step`/`Run` over `Event` sequences:
  - the `Consistent` invariant (the stored slot mirrors the token, among
    others);
  - a session ends only at Logout or on a 401.

Two client controls exist only when some state holds, so their methods
require it:
- the Admin button is rendered only with a truthy token (App.tsx:344-346);
- the draft inputs are rendered only with a draft (App.tsx:400-404).

## Behaviour worth knowing

- **Save error message.** When `PUT /about` fails with a status other than
  401, `saveAbout`'s extraction of `message`/`error` from a JSON body is dead
  code. The `Error(msg)` thrown in the inner `try` (frontend/src/App.tsx:189-195)
  is caught by its own bare `catch`, which throws `errText || 'Failed to save'`.
  The banner therefore shows the raw body: `{"error":"too long"}` is displayed
  as exactly that text (`ClientModel.SaveJsonBodyShownRaw`).
- **Load.** The load fetches only `/about` and `/links` (App.tsx:134-137).
- **Load failures.** `Promise.all` rejects with the first rejection, so when
  both fetches fail the message is the one that settles first. The model takes
  that order as an input.
- **Cancel and save.** Cancel and a successful save clear only
  `isEditingAbout`; `aboutDraft` keeps its last value (App.tsx:199, 418). The
  next Edit overwrites it with `about`.
- **401 while editing.** After a 401 the code keeps `isEditingAbout` and the
  draft. Logging in again reopens the same form with the old draft.

## Model

| member | source | states |
|---|---|---|
| `AboutEntity.About.constructor` | backend/src/main/java/com/portfolio/model/About.java:5-18 | the id is the constant `"about"`, which has no setter; the other fields start null |
| `AboutEntity.About.SetHeadline` | backend/src/main/java/com/portfolio/model/About.java:28-30 | the headline becomes the argument; summary, location and avatarUrl are unchanged |
| `AboutEntity.About.SetSummary` | backend/src/main/java/com/portfolio/model/About.java:36-38 | the summary becomes the argument; the other fields are unchanged |
| `AboutEntity.About.SetLocation` | backend/src/main/java/com/portfolio/model/About.java:44-46 | the location becomes the argument; the other fields are unchanged |
| `AboutEntity.About.SetAvatarUrl` | backend/src/main/java/com/portfolio/model/About.java:52-54 | avatarUrl becomes the argument; the other fields are unchanged |
| `AboutEntity.About.IsValidBody` | backend/src/main/java/com/portfolio/model/About.java:9-16 | the three `@NotBlank` fields are non-null and non-empty after `trim()`; `avatarUrl` is unconstrained |
| `Java.NotBlank` | backend/src/main/java/com/portfolio/model/About.java:9-16 | `@NotBlank` holds exactly when the string is non-null and `trim()` of it is non-empty |
| `Java.Trim` | backend/src/main/java/com/portfolio/model/About.java:9-16 | `trim()` is empty exactly when every character is at most U+0020 |
| `ProjectEntity.Project.constructor` | backend/src/main/java/com/portfolio/model/Project.java:5-18 | every field, the id included, is null until set |
| `ProjectEntity.Project.SetId` | backend/src/main/java/com/portfolio/model/Project.java:24-26 | the id becomes the argument; the five other fields are unchanged |
| `ProjectEntity.Project.SetTitle` | backend/src/main/java/com/portfolio/model/Project.java:32-34 | the title becomes the argument; the other fields are unchanged |
| `ProjectEntity.Project.SetDescription` | backend/src/main/java/com/portfolio/model/Project.java:40-42 | the description becomes the argument; the other fields are unchanged |
| `ProjectEntity.Project.SetGithubUrl` | backend/src/main/java/com/portfolio/model/Project.java:48-50 | githubUrl becomes the argument; the other fields are unchanged |
| `ProjectEntity.Project.SetLiveUrl` | backend/src/main/java/com/portfolio/model/Project.java:56-58 | liveUrl becomes the argument; the other fields are unchanged |
| `ProjectEntity.Project.SetTags` | backend/src/main/java/com/portfolio/model/Project.java:64-66 | the tags become the argument; the other fields are unchanged |
| `ProjectEntity.Project.IsValidBody` | backend/src/main/java/com/portfolio/model/Project.java:9-10 | the title is non-null and non-empty after `trim()`; the other fields are unconstrained |
| `SocialLinkEntity.SocialLink.constructor` | backend/src/main/java/com/portfolio/model/SocialLink.java:5-15 | every field, the id included, is null until set |
| `SocialLinkEntity.SocialLink.SetId` | backend/src/main/java/com/portfolio/model/SocialLink.java:21-23 | the id becomes the argument; label, url and icon are unchanged |
| `SocialLinkEntity.SocialLink.SetLabel` | backend/src/main/java/com/portfolio/model/SocialLink.java:29-31 | the label becomes the argument; the other fields are unchanged |
| `SocialLinkEntity.SocialLink.SetUrl` | backend/src/main/java/com/portfolio/model/SocialLink.java:37-39 | the url becomes the argument; the other fields are unchanged |
| `SocialLinkEntity.SocialLink.SetIcon` | backend/src/main/java/com/portfolio/model/SocialLink.java:45-47 | the icon becomes the argument; the other fields are unchanged |
| `SocialLinkEntity.SocialLink.IsValidBody` | backend/src/main/java/com/portfolio/model/SocialLink.java:9-13 | label and url are non-null and non-empty after `trim()`; the icon is unconstrained |
| `Auth.AuthService.constructor` | backend/src/main/java/com/portfolio/service/AuthService.java:11-17 | the credentials are the configured defaults `admin`/`admin123`; there is no token yet, so no token of any kind is valid |
| `Auth.AuthService.Login` | backend/src/main/java/com/portfolio/service/AuthService.java:19-25 | right credentials: returns the fresh token and makes it the current one, so it is the only valid token. Wrong credentials: returns null and leaves the current token unchanged |
| `Auth.AuthService.IsValidToken` | backend/src/main/java/com/portfolio/service/AuthService.java:27-29 | null is never valid, and before any login no token is |
| `Auth.OnlyNewestTokenValid` | backend/src/main/java/com/portfolio/service/AuthService.java:23-29 | after a login, the new token is valid; an earlier, different token is rejected, and so is null |
| `AuthApi.AuthController.constructor` | backend/src/main/java/com/portfolio/controller/AuthController.java:20-22 | the controller uses the given service |
| `AuthApi.AuthController.Login` | backend/src/main/java/com/portfolio/controller/AuthController.java:24-31 | the request's username and password go to the service unchanged. Accepted: 200 with a `LoginResponse` holding exactly the new token. Refused: 401 with no body, and the previous token stays valid |
| `Strings.ValueOfDecimal` | backend/src/main/java/com/portfolio/service/PortfolioService.java:94-96 | `String.valueOf(n)` is a numeral that reads back as `n` |
| `Strings.DecimalInjective` | backend/src/main/java/com/portfolio/service/PortfolioService.java:94-96 | different counter values give different ids |
| `Strings.LastIndexOf` | backend/src/main/java/com/portfolio/service/PortfolioService.java:126 | the index holds the character and no later index does; there is none exactly when the character is absent |
| `Portfolio.ContainsChar` | backend/src/main/java/com/portfolio/service/PortfolioService.java:125 | `contains(".")` holds exactly when `'.'` occurs in the name |
| `Portfolio.AvatarExtension` | backend/src/main/java/com/portfolio/service/PortfolioService.java:124-127 | a name with a `.` gives its suffix from the last `.`, inclusive, which holds no other `.`; a null name or one without `.` gives `.jpg` |
| `Portfolio.AvatarFileName` | backend/src/main/java/com/portfolio/service/PortfolioService.java:128 | the target file name is `avatar` followed by the chosen extension |
| `Portfolio.NextKeyIsFresh` | backend/src/main/java/com/portfolio/service/PortfolioService.java:94-96 | the next counter value's numeral is not among the keys issued before it |
| `Portfolio.PortfolioService.constructor` | backend/src/main/java/com/portfolio/service/PortfolioService.java:28-30 | a new service is valid and seeded |
| `Portfolio.PortfolioService.SeedDefaults` | backend/src/main/java/com/portfolio/service/PortfolioService.java:32-92 | sets the default about record, projects "1"–"3" and links "4"–"5", and leaves the counter at 6 |
| `Portfolio.PortfolioService.SeedAbout` | backend/src/main/java/com/portfolio/service/PortfolioService.java:33-41 | the default about record gets its headline, summary, location and an empty avatar URL; the tables and the counter are untouched |
| `Portfolio.PortfolioService.SeedProjects` | backend/src/main/java/com/portfolio/service/PortfolioService.java:43-77 | the three default projects are stored under "1", "2" and "3", with their titles, descriptions, empty URLs and tags |
| `Portfolio.PortfolioService.SeedLinks` | backend/src/main/java/com/portfolio/service/PortfolioService.java:79-91 | the GitHub and LinkedIn links are stored under "4" and "5" |
| `Portfolio.PortfolioService.SeedProject` | backend/src/main/java/com/portfolio/service/PortfolioService.java:43-53 | a new project with the next id is stored under that id; the other entries are unchanged |
| `Portfolio.PortfolioService.SeedLink` | backend/src/main/java/com/portfolio/service/PortfolioService.java:79-84 | a new link with the next id is stored under that id; the other entries are unchanged |
| `Portfolio.PortfolioService.NextId` | backend/src/main/java/com/portfolio/service/PortfolioService.java:94-96 | returns the counter's numeral and increments the counter; the tables are untouched |
| `Portfolio.NextIdIsFreshInBothTables` | backend/src/main/java/com/portfolio/service/PortfolioService.java:24-26 | in a valid store, the next id is a key of neither table |
| `Portfolio.PortfolioService.GetAbout` | backend/src/main/java/com/portfolio/service/PortfolioService.java:100-102 | returns the stored about record |
| `Portfolio.PortfolioService.UpdateAbout` | backend/src/main/java/com/portfolio/service/PortfolioService.java:104-107 | replaces the about record wholesale and returns the new one; the tables and the counter are unchanged |
| `Portfolio.PortfolioService.SaveAboutPhoto` | backend/src/main/java/com/portfolio/service/PortfolioService.java:112-132 | a null or empty file returns `about` unchanged. If the file I/O fails, the result is an `IOException` and nothing changes. Otherwise avatarUrl becomes `/api/about/photo`, the target is `avatar` plus the extension, and the other fields are unchanged |
| `Portfolio.PortfolioService.ListProjects` | backend/src/main/java/com/portfolio/service/PortfolioService.java:152-154 | the stored projects, as an unordered collection, each found under its own id |
| `Portfolio.PortfolioService.CreateProject` | backend/src/main/java/com/portfolio/service/PortfolioService.java:156-161 | stores the project under a fresh id that is in neither table and returns it with that id; its other fields, the other entries and the links are unchanged |
| `Portfolio.PortfolioService.UpdateProject` | backend/src/main/java/com/portfolio/service/PortfolioService.java:163-170 | an absent id throws `NoSuchElementException("Project not found")` and changes nothing. A present id gets the body with its id forced to the path id; the other entries are unchanged |
| `Portfolio.PortfolioService.DeleteProject` | backend/src/main/java/com/portfolio/service/PortfolioService.java:172-174 | removes that key only; an absent key is a no-op, so deleting twice equals deleting once |
| `Portfolio.PortfolioService.ListLinks` | backend/src/main/java/com/portfolio/service/PortfolioService.java:178-180 | the stored links, as an unordered collection, each found under its own id |
| `Portfolio.PortfolioService.CreateLink` | backend/src/main/java/com/portfolio/service/PortfolioService.java:182-187 | stores the link under a fresh id that is in neither table and returns it with that id; nothing else changes |
| `Portfolio.PortfolioService.UpdateLink` | backend/src/main/java/com/portfolio/service/PortfolioService.java:189-196 | an absent id throws `NoSuchElementException("Link not found")` and changes nothing. A present id gets the body with its id forced to the path id; the other entries are unchanged |
| `Portfolio.PortfolioService.DeleteLink` | backend/src/main/java/com/portfolio/service/PortfolioService.java:198-200 | removes that key only; an absent key is a no-op |
| `PortfolioApi.PhotoContentType` | backend/src/main/java/com/portfolio/controller/PortfolioController.java:69-75 | `.png`, `.gif` and `.webp` endings give their image types, each exactly then; anything else, including a null name, gives `image/jpeg` |
| `PortfolioApi.GetAboutPhoto` | backend/src/main/java/com/portfolio/controller/PortfolioController.java:62-83 | an I/O failure gives 500. No resource, or one that does not exist, gives 404. Otherwise 200 with the resource, its content type and `max-age=60`; 200 only then |
| `PortfolioApi.PortfolioController.constructor` | backend/src/main/java/com/portfolio/controller/PortfolioController.java:26-29 | the controller uses the given services |
| `PortfolioApi.PortfolioController.GetAbout` | backend/src/main/java/com/portfolio/controller/PortfolioController.java:33-36 | needs no token; returns the service's current about record |
| `PortfolioApi.PortfolioController.UpdateAbout` | backend/src/main/java/com/portfolio/controller/PortfolioController.java:38-46 | an invalid token gives 401 and the service is unchanged. A valid one gives 200 with the service's result, the new about record |
| `PortfolioApi.PortfolioController.UploadAboutPhoto` | backend/src/main/java/com/portfolio/controller/PortfolioController.java:48-60 | invalid token: 401, nothing changes. `IOException`: 500, nothing changes. Otherwise: 200 with the about record, whose avatarUrl is `/api/about/photo` unless the file was empty |
| `PortfolioApi.PortfolioController.ListProjects` | backend/src/main/java/com/portfolio/controller/PortfolioController.java:87-90 | needs no token; returns the stored projects |
| `PortfolioApi.PortfolioController.CreateProject` | backend/src/main/java/com/portfolio/controller/PortfolioController.java:92-100 | invalid token: 401, nothing changes. Otherwise: 200 with the project stored under a fresh id |
| `PortfolioApi.PortfolioController.UpdateProject` | backend/src/main/java/com/portfolio/controller/PortfolioController.java:102-111 | invalid token: 401, nothing changes. An unknown id propagates `NoSuchElementException`, never a 200. Otherwise: 200 with the replacing project |
| `PortfolioApi.PortfolioController.DeleteProject` | backend/src/main/java/com/portfolio/controller/PortfolioController.java:113-122 | invalid token: 401, nothing changes. Otherwise: 204, with that key removed |
| `PortfolioApi.PortfolioController.ListLinks` | backend/src/main/java/com/portfolio/controller/PortfolioController.java:126-129 | needs no token; returns the stored links |
| `PortfolioApi.PortfolioController.CreateLink` | backend/src/main/java/com/portfolio/controller/PortfolioController.java:131-139 | invalid token: 401, nothing changes. Otherwise: 200 with the link stored under a fresh id |
| `PortfolioApi.PortfolioController.UpdateLink` | backend/src/main/java/com/portfolio/controller/PortfolioController.java:141-150 | invalid token: 401, nothing changes. An unknown id propagates `NoSuchElementException`, never a 200. Otherwise: 200 with the replacing link |
| `PortfolioApi.PortfolioController.DeleteLink` | backend/src/main/java/com/portfolio/controller/PortfolioController.java:152-161 | invalid token: 401, nothing changes. Otherwise: 204, with that key removed |
| `ClientModel.StripApiSuffix` | frontend/src/App.tsx:20 | removes exactly one trailing `/api/` or `/api`, and nothing else |
| `ClientModel.ApiOriginIsHost` | frontend/src/App.tsx:19-20 | `API_ORIGIN` is `http://localhost:8080` |
| `ClientModel.GetAboutPhotoUrl` | frontend/src/App.tsx:22-26 | no record, or a missing or empty avatarUrl, gives no URL. A `/`-prefixed URL gets `API_ORIGIN` in front; any other is returned as is |
| `ClientModel.UploadedPhotoUrl` | frontend/src/App.tsx:22-26 | the URL the backend sets after an upload resolves to `http://localhost:8080/api/about/photo` |
| `ClientModel.IsLoading` | frontend/src/App.tsx:265 | the loading screen shows only while no about record is known, and then exactly while loading |
| `ClientModel.FilterMatching` | frontend/src/App.tsx:320 | keeps exactly the skills whose lower-case form contains the lower-case query, with their multiplicities and in their order (a subsequence of the input) |
| `ClientModel.FilterSkills` | frontend/src/App.tsx:318-321 | an all-whitespace query shows the whole list. Otherwise a skill is shown exactly when it matches the untrimmed query |
| `ClientModel.FindLabel` | frontend/src/App.tsx:322 | finds a label exactly when the tab is listed; the label found is the first listed entry's for that tab |
| `ClientModel.ActiveTabLabel` | frontend/src/App.tsx:322 | the label comes from a listed entry for the tab, or is `Skills` when the tab is not listed |
| `ClientModel.ActiveTabLabelListed` | frontend/src/App.tsx:89-95 | every tab has its label in the list, so the `Skills` fallback never shows |
| `Strings.Split` | frontend/src/App.tsx:326 | `split(' ')` gives at least one piece, no piece holds a space, and joining the pieces gives back the string |
| `Strings.SplitJoin` | frontend/src/App.tsx:326 | splitting the join of space-free pieces gives back the pieces |
| `ClientModel.HeadsOfSplit` | frontend/src/App.tsx:326 | the pieces' first letters are exactly the characters that start a word |
| `ClientModel.DisplayName` | frontend/src/App.tsx:324 | a non-empty headline is shown as is; otherwise `Gaurav Sahitya` |
| `ClientModel.NavInitials` | frontend/src/App.tsx:326 | one or two characters: the first two word starts of the display name, upper-cased, else `GS` |
| `ClientModel.WordStartsOfWord` | frontend/src/App.tsx:326 | a space-free word in front of the rest adds only its first character (when it starts a word) to the word starts |
| `ClientModel.TwoWordStarts` | frontend/src/App.tsx:326 | two space-free words joined by one space start with their two first characters |
| `ClientModel.DefaultNameStarts` | frontend/src/App.tsx:324-326 | the word starts of the default name are `GS` |
| `ClientModel.DefaultNavInitials` | frontend/src/App.tsx:324-326 | without a record the initials are `GS` |
| `ClientModel.Toggle` | frontend/src/App.tsx:519 | clicking card `i` opens it unless it was the open one, which closes it; at most one card is open |
| `ClientModel.AllRejection` | frontend/src/App.tsx:134-142 | `Promise.all` fails exactly when some part fails, and with one of the parts' reasons |
| `ClientModel.LoadOutcome` | frontend/src/App.tsx:131-146 | succeeds exactly when both responses are ok with readable bodies, and then carries both bodies. A non-ok response gives `Failed to load portfolio data`; a rejected fetch gives that fetch's error message |
| `ClientModel.FinishLoad` | frontend/src/App.tsx:143-149 | loading ends; success sets both records, failure sets only the error; nothing else changes |
| `ClientModel.LoadAtMount` | frontend/src/App.tsx:130-152 | after the first load, loading is over. On success both records are shown; on failure neither is, and the error is the load's message |
| `ClientModel.StartEditCopiesAbout` | frontend/src/App.tsx:161-165 | with a record and a truthy token, edit mode starts with the draft equal to `about`; otherwise nothing changes; only those two cells ever change |
| `ClientModel.CancelKeepsRecords` | frontend/src/App.tsx:418 | Cancel only leaves edit mode: `about` and the draft are kept, and editing again starts from `about` |
| `ClientModel.DraftEditsKeepAbout` | frontend/src/App.tsx:402-404 | each input changes its own draft field only: the other draft fields, `about` and the rest of the state are untouched |
| `ClientModel.LogoutVersusClearSession` | frontend/src/App.tsx:259-263 | Logout and `clearSession` both clear the token and the stored slot. Logout shows the portfolio, `clearSession` the login page; nothing else differs |
| `ClientModel.SaveErrorMessage` | frontend/src/App.tsx:187-196 | the message is never empty: the body text, or `Failed to save` for an empty body |
| `ClientModel.SaveAboutRequest` | frontend/src/App.tsx:174-181 | a request is made exactly with a draft and a truthy token: `PUT /about` carrying the draft and the token |
| `ClientModel.SaveWithoutDraftOrToken` | frontend/src/App.tsx:174 | without a draft or a token, nothing is sent and nothing changes |
| `ClientModel.SaveUnauthorized` | frontend/src/App.tsx:182-186 | a 401 clears the token and the slot, shows the login page with the session-expired message, and keeps the records |
| `ClientModel.SaveFailureShowsBody` | frontend/src/App.tsx:187-202 | another failure shows the raw body or `Failed to save`; `about`, the draft, edit mode and the session are kept |
| `ClientModel.SaveJsonBodyShownRaw` | frontend/src/App.tsx:189-194 | a JSON body `{"error":"too long"}` is shown verbatim |
| `ClientModel.SaveSucceeds` | frontend/src/App.tsx:197-199 | success clears the error, takes the server's record (not the draft) and leaves edit mode; the sent draft stays |
| `ClientModel.UploadPhotoRequest` | frontend/src/App.tsx:205-221 | a request is made exactly with a file, a truthy token and an `image/` type: `POST /about/photo` with the file and the token |
| `ClientModel.UploadEarlyExits` | frontend/src/App.tsx:206-211 | with no file or no token nothing changes; a non-image only sets the image-file error |
| `ClientModel.UploadAfterRequest` | frontend/src/App.tsx:212-236 | once the request is sent, the spinner is off on every path and the token is cleared exactly on a 401. A 401 also gives the login page and the session-expired message with `about` kept. Another failure gives `Upload failed` with the records kept |
| `ClientModel.UploadSucceeds` | frontend/src/App.tsx:227-230 | success takes the server's record; an open draft gets only its avatarUrl from it, keeping its id, headline, summary and location |
| `ClientModel.LoginRefused` | frontend/src/App.tsx:248 | a non-ok reply shows `Invalid username or password` and keeps the token, the slot, the page and the password |
| `ClientModel.LoginAccepted` | frontend/src/App.tsx:249-253 | the returned token goes into the cell and the slot, the password is cleared, and the admin page opens |
| `ClientModel.LoginKeepsError` | frontend/src/App.tsx:239-257 | logging in never touches the page-level error or the records |
| `ClientModel.InitialConsistent` | frontend/src/App.tsx:110-127 | the first render is consistent (the token cell equals the stored slot) and shows the loading screen |
| `ClientModel.StepConsistent` | frontend/src/App.tsx:130-263 | every handler keeps four facts: the slot mirrors the token, edit mode has a draft, the admin page has a token, and no upload is left in flight |
| `ClientModel.SaveConsistent` | frontend/src/App.tsx:173-203 | `saveAbout` keeps the consistency on every reply |
| `ClientModel.UploadConsistent` | frontend/src/App.tsx:205-237 | `uploadPhoto` keeps the consistency and turns the spinner off on every path |
| `ClientModel.UploadRepliedConsistent` | frontend/src/App.tsx:217-233 | the reply handling of `uploadPhoto` keeps the slot, edit-mode and admin-page facts |
| `ClientModel.LoginConsistent` | frontend/src/App.tsx:239-258 | `handleLogin` writes the token to the cell and the slot together |
| `ClientModel.RunConsistent` | frontend/src/App.tsx:130-263 | any sequence of handlers keeps that consistency |
| `ClientModel.ReloadRestoresSession` | frontend/src/App.tsx:121-123 | whatever happened since the first render, a reload reads back the token the session holds |
| `ClientModel.SessionEndsOnlyOn401OrLogout` | frontend/src/App.tsx:182-226 | a live session ends exactly at Logout or on a 401 to a request that was sent. Only the 401 shows the login page with the session-expired message |
| `ClientApp.App.constructor` | frontend/src/App.tsx:110-127 | the cells start as the source initialises them, with the token read from the slot |
| `ClientApp.App.Load` | frontend/src/App.tsx:130-152 | sends `GET /about` and `GET /links` only, and ends in `FinishLoad` of the outcome |
| `ClientApp.App.ScrollTo` | frontend/src/App.tsx:154-159 | shows the portfolio page |
| `ClientApp.App.OpenLogin` | frontend/src/App.tsx:350 | shows the login page |
| `ClientApp.App.OpenAdmin` | frontend/src/App.tsx:344-346 | with a truthy token, shows the admin page |
| `ClientApp.App.StartEditAbout` | frontend/src/App.tsx:161-165 | ends in the `StartEditAbout` state |
| `ClientApp.App.CancelEdit` | frontend/src/App.tsx:418 | ends in the `CancelEdit` state |
| `ClientApp.App.EditHeadline` | frontend/src/App.tsx:402 | ends in the `EditHeadline` state |
| `ClientApp.App.EditSummary` | frontend/src/App.tsx:403 | ends in the `EditSummary` state |
| `ClientApp.App.EditLocation` | frontend/src/App.tsx:404 | ends in the `EditLocation` state |
| `ClientApp.App.ClearSession` | frontend/src/App.tsx:167-171 | ends in the `ClearSession` state |
| `ClientApp.App.SaveAbout` | frontend/src/App.tsx:173-203 | sends exactly `SaveAboutRequest` and ends in the `SaveAbout` state for the reply |
| `ClientApp.App.UploadPhoto` | frontend/src/App.tsx:205-237 | sends exactly `UploadPhotoRequest` and ends in the `UploadPhoto` state for the file and reply |
| `ClientApp.App.HandleLogin` | frontend/src/App.tsx:239-257 | sends the two login inputs and ends in the `HandleLogin` state for the reply |
| `ClientApp.App.Logout` | frontend/src/App.tsx:259-263 | ends in the `Logout` state |
| `ClientApp.App.TypeUsername` | frontend/src/App.tsx:369 | only the username cell changes |
| `ClientApp.App.TypePassword` | frontend/src/App.tsx:373 | only the password cell changes |
| `ClientApp.App.TypeSearch` | frontend/src/App.tsx:492 | only the search cell changes |
| `ClientApp.App.SelectTab` | frontend/src/App.tsx:480 | only the tab cell changes |
| `ClientApp.App.ToggleExperience` | frontend/src/App.tsx:519 | the open card follows `Toggle` |

## Left out

- Rendering is not modelled: the JSX, the SVG icons, CSS classes, and the static skills, education and experience data. These are presentation; the skill lists enter `FilterSkills` as a parameter.
- DOM scrolling (`setTimeout`/`scrollIntoView`) is not modelled; only `scrollTo`'s view reset is.
- `fetch`, `json()`, `text()`, `JSON.parse` and `FormData` are I/O. Each round trip is a `Reply` input, and the order in which two rejections settle in each `Promise.all` is a boolean input.
- Replies are typed: a 2xx body that parses is taken as a well-formed record. A JSON body of another shape (for example one lacking `token`) is not modelled.
- `ClientApp.App.SaveAbout`: assumes `res.text()` resolves on the error path; a body stream that fails while being read is not modelled.
- Each handler is one atomic step, so async interleavings and React's stale closures are not modelled. For example, `uploadPhoto` spreads the draft captured when the handler was created; the model uses the current one.
- `ClientModel.Consistent`: `!photoUploading` holds between steps only because the steps are atomic. The disabled file input during an upload is therefore not modelled.
- `Strings.Lower`, `Strings.Upper`: ASCII only. Unicode case mapping, including mappings that change the length such as `ß` → `SS`, is not modelled. JavaScript strings are UTF-16 and `n[0]` is a code unit, whereas a Dafny `char` is a Unicode scalar value.
- Filesystem work is left out. In `saveAboutPhoto` this means creating the directory, deleting old avatars, writing the file and `transferTo`; in `getAboutPhotoResource` it means the directory listing. I/O failure is the input `ioFails`, and the lookup result is the input `PhotoLookup`.
- Thread safety of `ConcurrentHashMap`/`AtomicLong` is not modelled. The store is sequential; listing returns an unordered set, since map iteration order is unspecified.
- `Portfolio.PortfolioService.NextId`: the counter is unbounded, so the 64-bit overflow of `AtomicLong` after 2^63 - 1 ids is not modelled.
- `Portfolio.PortfolioService.CreateProject`: requires the body object not already be stored. Spring deserialises a fresh object per request, so this holds for every HTTP call. Without it, re-posting a stored object would re-key it in place. The same holds for `CreateLink`, `UpdateProject`, `UpdateLink` and their controller endpoints.
- Spring's request plumbing runs before a handler and is not modelled. `@Valid` rejects an invalid body with 400, and `@RequestParam` requires the file part. The constraints are stated as the `IsValidBody` predicates, and `UploadAboutPhoto` takes a non-null file.
- `UUID.randomUUID()` is a parameter of `Login`: the fresh token.
- The `@Value` configuration is not modelled; its defaults `admin`/`admin123` are constants.
- Arrays and aliasing: a Java `String[]` of tags is a value sequence, so sharing the array through the getter is not modelled.
- Photo responses carry the resource's `exists()` flag and file name only; streaming the file is I/O.
- `new Date().getFullYear()` in the footer is presentation.
- The file input's reset `e.target.value = ''` after an upload (App.tsx:235) is DOM work and is not modelled.
- `localStorage` is taken never to fail: a `getItem`, `setItem` or `removeItem` that throws, as in some private browsing modes, is not modelled.
