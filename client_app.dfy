/**
 * The `App` component's state as one object: a field per `useState` cell and
 * one for the `localStorage` slot `portfolio_admin_token`. Each handler
 * updates the fields in the order the source calls its setters, and its
 * contract ties the new state to the step function of `ClientModel`, where
 * the properties of the handlers are proved.
 */
module ClientApp {
  import opened Wrappers
  import opened Strings
  import opened ClientModel

  class App {
    var about: Option<About>
    var links: seq<SocialLink>
    var view: View
    var skillTab: SkillTab
    var skillSearch: string
    var expandedExp: Option<nat>
    var isEditingAbout: bool
    var aboutDraft: Option<About>
    var loading: bool
    var error: Option<string>
    var authToken: Option<string>
    var loginUsername: string
    var loginPassword: string
    var loginError: Option<string>
    var photoUploading: bool
    /** `localStorage['portfolio_admin_token']` */
    var storedToken: Option<string>

    function State(): AppState
      reads this
    {
      AppState(about, links, view, skillTab, skillSearch, expandedExp, isEditingAbout, aboutDraft,
        loading, error, authToken, loginUsername, loginPassword, loginError, photoUploading, storedToken)
    }

    /** The first render; the token cell starts from the stored slot. */
    constructor (stored: Option<string>)
      ensures State() == Initial(stored)
      ensures Consistent(State()) && IsLoading(State())
    {
      about := None;
      links := [];
      view := PortfolioPage;
      skillTab := Highlights;
      skillSearch := "";
      expandedExp := Some(0);
      isEditingAbout := false;
      aboutDraft := None;
      loading := true;
      error := None;
      storedToken := stored;
      authToken := storedToken;
      loginUsername := DEFAULT_USERNAME;
      loginPassword := "";
      loginError := None;
      photoUploading := false;
    }

    /**
     * The load effect, given the outcome of its `try` block (see
     * `ClientModel.LoadOutcome`); returns the requests it sends.
     * Refines `ClientModel.FinishLoad`.
     */
    method Load(outcome: Result<(About, seq<SocialLink>), string>) returns (sent: seq<Request>)
      modifies this
      ensures sent == LoadRequests()
      ensures State() == FinishLoad(old(State()), outcome)
    {
      loading := true;
      sent := LoadRequests();
      match outcome {
        case Success((aboutData, linkData)) =>
          about := Some(aboutData);
          links := linkData;
        case Failure(message) =>
          error := Some(message);
      }
      loading := false;
    }

    /** The view reset of `scrollTo`. Refines `ClientModel.ScrollTo`. */
    method ScrollTo()
      modifies this
      ensures State() == ClientModel.ScrollTo(old(State()))
    {
      view := PortfolioPage;
    }

    /** Refines `ClientModel.OpenLogin`. */
    method OpenLogin()
      modifies this
      ensures State() == ClientModel.OpenLogin(old(State()))
    {
      view := LoginPage;
    }

    /** Refines `ClientModel.OpenAdmin`. */
    method OpenAdmin()
      requires Truthy(authToken)
      modifies this
      ensures State() == ClientModel.OpenAdmin(old(State()))
    {
      view := AdminPage;
    }

    /** Refines `ClientModel.StartEditAbout`. */
    method StartEditAbout()
      modifies this
      ensures State() == ClientModel.StartEditAbout(old(State()))
    {
      if about.None? || !Truthy(authToken) {
        return;
      }
      isEditingAbout := true;
      aboutDraft := about;
    }

    /** The Cancel button. Refines `ClientModel.CancelEdit`. */
    method CancelEdit()
      modifies this
      ensures State() == ClientModel.CancelEdit(old(State()))
    {
      isEditingAbout := false;
    }

    /** Refines `ClientModel.EditHeadline`. */
    method EditHeadline(value: string)
      requires aboutDraft.Some?
      modifies this
      ensures State() == ClientModel.EditHeadline(old(State()), value)
    {
      aboutDraft := Some(aboutDraft.value.(headline := value));
    }

    /** Refines `ClientModel.EditSummary`. */
    method EditSummary(value: string)
      requires aboutDraft.Some?
      modifies this
      ensures State() == ClientModel.EditSummary(old(State()), value)
    {
      aboutDraft := Some(aboutDraft.value.(summary := value));
    }

    /** Refines `ClientModel.EditLocation`. */
    method EditLocation(value: string)
      requires aboutDraft.Some?
      modifies this
      ensures State() == ClientModel.EditLocation(old(State()), value)
    {
      aboutDraft := Some(aboutDraft.value.(location := value));
    }

    /** Refines `ClientModel.ClearSession`. */
    method ClearSession()
      modifies this
      ensures State() == ClientModel.ClearSession(old(State()))
    {
      authToken := None;
      storedToken := None;
      view := LoginPage;
    }

    /** `saveAbout`; `sent` is the request it makes, if any. Refines `ClientModel.SaveAbout`. */
    method SaveAbout(reply: Reply<About>) returns (sent: Option<Request>)
      modifies this
      ensures sent == SaveAboutRequest(old(State()))
      ensures State() == ClientModel.SaveAbout(old(State()), reply)
    {
      if aboutDraft.None? || !Truthy(authToken) {
        return None;
      }
      error := None;
      sent := Some(Request(PUT, API_BASE + "/about", authToken, AboutJson(aboutDraft.value)));
      match reply
      case Rejected(message) =>
        error := Some(message);
      case Response(status, text, json) =>
        if status == 401 {
          ClearSession();
          error := Some(SESSION_EXPIRED);
          return;
        }
        if !IsOkStatus(status) {
          error := Some(SaveErrorMessage(text));
          return;
        }
        match json
        case Failure(message) =>
          error := Some(message);
        case Success(saved) =>
          about := Some(saved);
          isEditingAbout := false;
    }

    /** `uploadPhoto`; `sent` is the request it makes, if any. Refines `ClientModel.UploadPhoto`. */
    method UploadPhoto(file: Option<File>, reply: Reply<About>) returns (sent: Option<Request>)
      modifies this
      ensures sent == UploadPhotoRequest(old(State()), file)
      ensures State() == ClientModel.UploadPhoto(old(State()), file, reply)
    {
      if file.None? || !Truthy(authToken) {
        return None;
      }
      if !StartsWith(file.value.mimeType, "image/") {
        error := Some(NOT_AN_IMAGE);
        return None;
      }
      error := None;
      photoUploading := true;
      sent := Some(Request(POST, API_BASE + "/about/photo", authToken, PhotoForm(file.value)));
      match reply {
        case Rejected(message) =>
          error := Some(message);
        case Response(status, _, json) =>
          if status == 401 {
            ClearSession();
            error := Some(SESSION_EXPIRED);
          } else if !IsOkStatus(status) {
            error := Some(UPLOAD_FAILED);
          } else {
            match json
            case Failure(message) =>
              error := Some(message);
            case Success(updated) =>
              about := Some(updated);
              if aboutDraft.Some? {
                aboutDraft := Some(aboutDraft.value.(avatarUrl := updated.avatarUrl));
              }
          }
      }
      photoUploading := false;
    }

    /** `handleLogin`; it always sends `LoginRequest`. Refines `ClientModel.HandleLogin`. */
    method HandleLogin(reply: Reply<LoginData>) returns (sent: Request)
      modifies this
      ensures sent == LoginRequest(old(State()))
      ensures State() == ClientModel.HandleLogin(old(State()), reply)
    {
      loginError := None;
      sent := Request(POST, API_BASE + "/auth/login", None, CredentialsJson(loginUsername, loginPassword));
      match reply
      case Rejected(message) =>
        loginError := Some(message);
      case Response(status, _, json) =>
        if !IsOkStatus(status) {
          loginError := Some(INVALID_LOGIN);
          return;
        }
        match json
        case Failure(message) =>
          loginError := Some(message);
        case Success(data) =>
          authToken := Some(data.token);
          storedToken := Some(data.token);
          loginPassword := "";
          view := AdminPage;
    }

    /** Refines `ClientModel.Logout`. */
    method Logout()
      modifies this
      ensures State() == ClientModel.Logout(old(State()))
    {
      authToken := None;
      storedToken := None;
      view := PortfolioPage;
    }

    /** Refines `ClientModel.TypeUsername`. */
    method TypeUsername(value: string)
      modifies this
      ensures State() == ClientModel.TypeUsername(old(State()), value)
    {
      loginUsername := value;
    }

    /** Refines `ClientModel.TypePassword`. */
    method TypePassword(value: string)
      modifies this
      ensures State() == ClientModel.TypePassword(old(State()), value)
    {
      loginPassword := value;
    }

    /** Refines `ClientModel.TypeSearch`. */
    method TypeSearch(value: string)
      modifies this
      ensures State() == ClientModel.TypeSearch(old(State()), value)
    {
      skillSearch := value;
    }

    /** Refines `ClientModel.SelectTab`. */
    method SelectTab(tab: SkillTab)
      modifies this
      ensures State() == ClientModel.SelectTab(old(State()), tab)
    {
      skillTab := tab;
    }

    /** A click on experience card `i`. Refines `ClientModel.ToggleExperience`. */
    method ToggleExperience(i: nat)
      modifies this
      ensures State() == ClientModel.ToggleExperience(old(State()), i)
    {
      expandedExp := if expandedExp == Some(i) then None else Some(i);
    }
  }
}
