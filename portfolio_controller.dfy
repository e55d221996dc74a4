/**
 * `com.portfolio.controller.PortfolioController`: the `/api` endpoints. Reads
 * need no token; every mutating endpoint first checks the `X-ADMIN-TOKEN`
 * header and answers 401 without calling the service when it is not valid.
 */
module PortfolioApi {
  import opened Wrappers
  import opened Strings
  import opened Java
  import opened Auth
  import opened AboutEntity
  import opened ProjectEntity
  import opened SocialLinkEntity
  import opened Portfolio

  /** The photo file `getAboutPhotoResource` found: `exists()` (as `present`) and `getFilename()`. */
  datatype Resource = Resource(present: bool, filename: JString)

  /** What `getAboutPhotoResource` did: threw `IOException`, or returned a resource or null. */
  datatype PhotoLookup = LookupFailed | Found(resource: Option<Resource>)

  /** The response of `GET /api/about/photo`. */
  datatype PhotoResponse = PhotoResponse(status: int, contentType: Option<string>, cacheControl: Option<string>, body: Option<Resource>)

  /** The content type of the photo, chosen from the file name's suffix. */
  function PhotoContentType(filename: JString): (contentType: string)
    ensures filename.Some? && EndsWith(filename.value, ".png") <==> contentType == "image/png"
    ensures filename.Some? && EndsWith(filename.value, ".gif") <==> contentType == "image/gif"
    ensures filename.Some? && EndsWith(filename.value, ".webp") <==> contentType == "image/webp"
    ensures contentType in {"image/png", "image/gif", "image/webp", "image/jpeg"}
    ensures filename.None? ==> contentType == "image/jpeg"
  {
    if filename.None? then "image/jpeg"
    else if EndsWith(filename.value, ".png") then "image/png"
    else if EndsWith(filename.value, ".gif") then "image/gif"
    else if EndsWith(filename.value, ".webp") then "image/webp"
    else "image/jpeg"
  }

  /** `getAboutPhoto()`: 404 without an existing resource, 500 on `IOException`. */
  function GetAboutPhoto(lookup: PhotoLookup): (r: PhotoResponse)
    ensures lookup.LookupFailed? ==> r == PhotoResponse(INTERNAL_SERVER_ERROR, None, None, None)
    ensures lookup.Found? && (lookup.resource.None? || !lookup.resource.value.present) ==>
      r == PhotoResponse(NOT_FOUND, None, None, None)
    ensures r.status == OK <==> lookup.Found? && lookup.resource.Some? && lookup.resource.value.present
    ensures r.status == OK ==>
      && r.body == lookup.resource
      && r.contentType == Some(PhotoContentType(lookup.resource.value.filename))
      && r.cacheControl == Some("max-age=60")
  {
    match lookup
    case LookupFailed => PhotoResponse(INTERNAL_SERVER_ERROR, None, None, None)
    case Found(resource) =>
      if resource.None? || !resource.value.present then PhotoResponse(NOT_FOUND, None, None, None)
      else PhotoResponse(OK, Some(PhotoContentType(resource.value.filename)), Some("max-age=60"), resource)
  }

  /** The unit body of a 204 response (`ResponseEntity<Void>`). */
  type Void = ()

  class PortfolioController {
    const service: PortfolioService
    const authService: AuthService

    constructor (service: PortfolioService, authService: AuthService)
      ensures this.service == service && this.authService == authService
    {
      this.service := service;
      this.authService := authService;
    }

    // About

    /** `GET /api/about` */
    method GetAbout() returns (r: About)
      requires service.Valid()
      ensures r == service.about
    {
      r := service.GetAbout();
    }

    /** `PUT /api/about` */
    method UpdateAbout(token: JString, about: About) returns (r: ResponseEntity<About>)
      requires service.Valid()
      modifies service
      ensures service.Valid()
      ensures !authService.IsValidToken(token) ==> r == Empty(UNAUTHORIZED) && unchanged(service)
      ensures authService.IsValidToken(token) ==>
        && r == Ok(about) && service.about == about
        && service.projects == old(service.projects) && service.links == old(service.links)
        && service.idSequence == old(service.idSequence)
    {
      if !authService.IsValidToken(token) {
        return Empty(UNAUTHORIZED);
      }
      var updated := service.UpdateAbout(about);
      return Ok(updated);
    }

    /**
     * `POST /api/about/photo`. The file part is required, so `file` is never
     * null here; `ioFails` says whether the service's file work throws.
     */
    method UploadAboutPhoto(token: JString, file: Upload, ioFails: bool) returns (r: ResponseEntity<About>)
      requires service.Valid()
      modifies service.about
      ensures service.Valid()
      ensures !authService.IsValidToken(token) ==> r == Empty(UNAUTHORIZED) && unchanged(service.about)
      ensures authService.IsValidToken(token) && !file.isEmpty && ioFails ==>
        r == Empty(INTERNAL_SERVER_ERROR) && unchanged(service.about)
      ensures authService.IsValidToken(token) && file.isEmpty ==>
        r.status == OK && r.body.Some? && r.body.value == service.about && unchanged(service.about)
      ensures authService.IsValidToken(token) && !file.isEmpty && !ioFails ==>
        && r.status == OK && r.body.Some? && r.body.value == service.about
        && service.about.avatarUrl == Some(PHOTO_URL)
        && service.about.headline == old(service.about.headline)
        && service.about.summary == old(service.about.summary)
        && service.about.location == old(service.about.location)
    {
      if !authService.IsValidToken(token) {
        return Empty(UNAUTHORIZED);
      }
      var result, _ := service.SaveAboutPhoto(Some(file), ioFails);
      match result
      case Failure(_) => return Empty(INTERNAL_SERVER_ERROR);
      case Success(a) => return Ok(a);
    }

    // Projects

    /** `GET /api/projects` */
    method ListProjects() returns (r: set<Project>)
      requires service.Valid()
      ensures r == service.projects.Values
    {
      r := service.ListProjects();
    }

    /** `POST /api/projects` */
    method CreateProject(token: JString, project: Project) returns (r: ResponseEntity<Project>)
      requires service.Valid()
      requires project !in service.projects.Values
      modifies service, project
      ensures service.Valid()
      ensures !authService.IsValidToken(token) ==> r == Empty(UNAUTHORIZED) && unchanged(service, project)
      ensures authService.IsValidToken(token) ==>
        && r == Ok(project) && project.id == Some(Decimal(old(service.idSequence)))
        && project.id.value !in old(service.projects) && project.id.value !in old(service.links)
        && service.projects == old(service.projects)[project.id.value := project]
        && service.links == old(service.links) && service.about == old(service.about)
    {
      if !authService.IsValidToken(token) {
        return Empty(UNAUTHORIZED);
      }
      var created := service.CreateProject(project);
      return Ok(created);
    }

    /**
     * `PUT /api/projects/{id}`. The service's `NoSuchElementException` is not
     * caught: it leaves the endpoint as `Failure`, never as a 200.
     */
    method UpdateProject(token: JString, id: string, project: Project) returns (r: Result<ResponseEntity<Project>, ServiceError>)
      requires service.Valid()
      requires forall k :: k in service.projects && k != id ==> service.projects[k] != project
      modifies service, project
      ensures service.Valid()
      ensures !authService.IsValidToken(token) ==> r == Success(Empty(UNAUTHORIZED)) && unchanged(service, project)
      ensures authService.IsValidToken(token) && id !in old(service.projects) ==>
        r == Failure(NoSuchElement("Project not found")) && unchanged(service, project)
      ensures authService.IsValidToken(token) && id in old(service.projects) ==>
        && r == Success(Ok(project)) && project.id == Some(id)
        && service.projects == old(service.projects)[id := project]
        && service.links == old(service.links) && service.about == old(service.about)
    {
      if !authService.IsValidToken(token) {
        return Success(Empty(UNAUTHORIZED));
      }
      var updated := service.UpdateProject(id, project);
      match updated
      case Failure(e) => return Failure(e);
      case Success(p) => return Success(Ok(p));
    }

    /** `DELETE /api/projects/{id}` */
    method DeleteProject(token: JString, id: string) returns (r: ResponseEntity<Void>)
      requires service.Valid()
      modifies service
      ensures service.Valid()
      ensures !authService.IsValidToken(token) ==> r == Empty(UNAUTHORIZED) && unchanged(service)
      ensures authService.IsValidToken(token) ==>
        && r == Empty(NO_CONTENT)
        && service.projects == old(service.projects) - {id}
        && service.links == old(service.links) && service.about == old(service.about)
        && service.idSequence == old(service.idSequence)
    {
      if !authService.IsValidToken(token) {
        return Empty(UNAUTHORIZED);
      }
      service.DeleteProject(id);
      return Empty(NO_CONTENT);
    }

    // Social links

    /** `GET /api/links` */
    method ListLinks() returns (r: set<SocialLink>)
      requires service.Valid()
      ensures r == service.links.Values
    {
      r := service.ListLinks();
    }

    /** `POST /api/links` */
    method CreateLink(token: JString, link: SocialLink) returns (r: ResponseEntity<SocialLink>)
      requires service.Valid()
      requires link !in service.links.Values
      modifies service, link
      ensures service.Valid()
      ensures !authService.IsValidToken(token) ==> r == Empty(UNAUTHORIZED) && unchanged(service, link)
      ensures authService.IsValidToken(token) ==>
        && r == Ok(link) && link.id == Some(Decimal(old(service.idSequence)))
        && link.id.value !in old(service.links) && link.id.value !in old(service.projects)
        && service.links == old(service.links)[link.id.value := link]
        && service.projects == old(service.projects) && service.about == old(service.about)
    {
      if !authService.IsValidToken(token) {
        return Empty(UNAUTHORIZED);
      }
      var created := service.CreateLink(link);
      return Ok(created);
    }

    /**
     * `PUT /api/links/{id}`. The service's `NoSuchElementException` is not
     * caught: it leaves the endpoint as `Failure`, never as a 200.
     */
    method UpdateLink(token: JString, id: string, link: SocialLink) returns (r: Result<ResponseEntity<SocialLink>, ServiceError>)
      requires service.Valid()
      requires forall k :: k in service.links && k != id ==> service.links[k] != link
      modifies service, link
      ensures service.Valid()
      ensures !authService.IsValidToken(token) ==> r == Success(Empty(UNAUTHORIZED)) && unchanged(service, link)
      ensures authService.IsValidToken(token) && id !in old(service.links) ==>
        r == Failure(NoSuchElement("Link not found")) && unchanged(service, link)
      ensures authService.IsValidToken(token) && id in old(service.links) ==>
        && r == Success(Ok(link)) && link.id == Some(id)
        && service.links == old(service.links)[id := link]
        && service.projects == old(service.projects) && service.about == old(service.about)
    {
      if !authService.IsValidToken(token) {
        return Success(Empty(UNAUTHORIZED));
      }
      var updated := service.UpdateLink(id, link);
      match updated
      case Failure(e) => return Failure(e);
      case Success(l) => return Success(Ok(l));
    }

    /** `DELETE /api/links/{id}` */
    method DeleteLink(token: JString, id: string) returns (r: ResponseEntity<Void>)
      requires service.Valid()
      modifies service
      ensures service.Valid()
      ensures !authService.IsValidToken(token) ==> r == Empty(UNAUTHORIZED) && unchanged(service)
      ensures authService.IsValidToken(token) ==>
        && r == Empty(NO_CONTENT)
        && service.links == old(service.links) - {id}
        && service.projects == old(service.projects) && service.about == old(service.about)
        && service.idSequence == old(service.idSequence)
    {
      if !authService.IsValidToken(token) {
        return Empty(UNAUTHORIZED);
      }
      service.DeleteLink(id);
      return Empty(NO_CONTENT);
    }
  }
}
