/**
 * `com.portfolio.service.PortfolioService`: the in-memory content store, a
 * singleton `About` and two id-keyed tables that draw ids from one counter.
 */
module Portfolio {
  import opened Wrappers
  import opened Strings
  import opened Java
  import opened AboutEntity
  import opened ProjectEntity
  import opened SocialLinkEntity

  /** The `avatarUrl` an upload stores: the path of `GET /api/about/photo`. */
  const PHOTO_URL := "/api/about/photo"
  const AVATAR_FILENAME := "avatar"
  const DEFAULT_EXTENSION := ".jpg"

  // The texts `seedDefaults` installs.
  const SEED_SUMMARY :=
    "Professional software developer with strong experience in Java, Spring Boot, and modern web technologies. " +
    "I architect and deliver scalable, production-grade solutions, from AI-powered ticketing systems to logistics and real estate platforms."
  const TICKETING_DESCRIPTION :=
    "Enterprise ticketing system with brand-wise segregation, automated email-to-ticket conversion, " +
    "and intelligent chat support using OpenAI and AWS Textract."
  const REAL_ESTATE_DESCRIPTION :=
    "High-performance real estate platform built with Java and Spring Boot, integrating Google Maps and MLS feeds " +
    "to deliver accurate, real-time property data and rich map visualisations."
  const LOGISTICS_DESCRIPTION :=
    "Logistics solution for a Kuwait-based enterprise with real-time package tracking and integrations " +
    "with multiple third-party delivery partners."
  const TICKETING_TAGS: seq<JString> := [Some("Java"), Some("Spring Boot"), Some("REST APIs"), Some("AWS Textract"), Some("OpenAI")]
  const REAL_ESTATE_TAGS: seq<JString> := [Some("Java"), Some("Spring Boot"), Some("Google Maps API"), Some("MLS Feeds")]
  const LOGISTICS_TAGS: seq<JString> := [Some("Java"), Some("Spring Boot"), Some("REST APIs"), Some("Logistics")]

  /** The exceptions the service throws. */
  datatype ServiceError = NoSuchElement(message: string) | IOException

  /** A `MultipartFile`, as far as the service looks at it. */
  datatype Upload = Upload(isEmpty: bool, originalFilename: JString)

  lemma {:induction false} ContainsChar(s: string, c: char)
    ensures Contains(s, [c]) <==> c in s
  {
    if s != [] {
      ContainsChar(s[1..], c);
      assert s == [s[0]] + s[1..];
    }
  }

  /**
   * The extension of the stored avatar: from the last '.' of the original name
   * (inclusive) when there is one, else ".jpg", also for a null name.
   */
  function AvatarExtension(originalFilename: JString): (ext: string)
    ensures originalFilename.Some? && '.' in originalFilename.value ==>
      |ext| >= 1 && ext[0] == '.' && '.' !in ext[1..] && EndsWith(originalFilename.value, ext)
    ensures !(originalFilename.Some? && '.' in originalFilename.value) ==> ext == DEFAULT_EXTENSION
  {
    if originalFilename.Some? && (ContainsChar(originalFilename.value, '.'); Contains(originalFilename.value, ".")) then
      var name := originalFilename.value;
      var dot := LastIndexOf(name, '.').value;
      name[dot..]
    else
      ContainsChar(if originalFilename.Some? then originalFilename.value else "", '.');
      DEFAULT_EXTENSION
  }

  /** The name of the stored photo file: `"avatar" + ext`. */
  function AvatarFileName(originalFilename: JString): (name: string)
    ensures StartsWith(name, AVATAR_FILENAME)
    ensures name[|AVATAR_FILENAME|..] == AvatarExtension(originalFilename)
  {
    AVATAR_FILENAME + AvatarExtension(originalFilename)
  }

  lemma SmallNumerals()
    ensures Decimal(1) == "1" && Decimal(2) == "2" && Decimal(3) == "3"
    ensures Decimal(4) == "4" && Decimal(5) == "5"
  {
  }

  /** An id the counter has already handed out while its next value is `next`. */
  predicate IssuedBefore(key: string, next: nat) {
    IsNumeral(key) && 1 <= ValueOf(key) < next
  }

  /** The numeral the counter hands out next is not among the ones it handed out. */
  lemma NextKeyIsFresh(next: nat, keys: set<string>)
    requires forall k :: k in keys ==> IssuedBefore(k, next)
    ensures Decimal(next) !in keys
    ensures next >= 1 ==> IssuedBefore(Decimal(next), next + 1)
  {
    ValueOfDecimal(next);
  }

  /** A default project: its title, description and tags, and both URLs "". */
  predicate IsSeededProject(p: Project, title: string, description: string, tags: seq<JString>)
    reads p
  {
    && p.title == Some(title) && p.description == Some(description)
    && p.githubUrl == Some("") && p.liveUrl == Some("") && p.tags == Some(tags)
  }

  /** The setter calls of one project block of `seedDefaults`. */
  method FillProject(p: Project, id: string, title: string, description: string, tags: seq<JString>)
    modifies p
    ensures p.id == Some(id) && IsSeededProject(p, title, description, tags)
  {
    p.SetId(Some(id));
    p.SetTitle(Some(title));
    p.SetDescription(Some(description));
    p.SetGithubUrl(Some(""));
    p.SetLiveUrl(Some(""));
    p.SetTags(Some(tags));
  }

  /** The setter calls of one link block of `seedDefaults`. */
  method FillLink(l: SocialLink, id: string, caption: string, url: string, icon: string)
    modifies l
    ensures l.id == Some(id) && l.linkLabel == Some(caption) && l.url == Some(url) && l.icon == Some(icon)
  {
    l.SetId(Some(id));
    l.SetLabel(Some(caption));
    l.SetUrl(Some(url));
    l.SetIcon(Some(icon));
  }

  class PortfolioService {
    /** null only until `SeedDefaults` runs in the constructor */
    var about: About?
    var projects: map<string, Project>
    var links: map<string, SocialLink>
    /** `idSequence`, the shared `AtomicLong` starting at 1 */
    var idSequence: nat

    /**
     * Every entry's id is its key; every key is a numeral the counter issued;
     * the two tables' keys are disjoint because they share the counter.
     */
    predicate Valid()
      reads this, projects.Values, links.Values
    {
      && about != null
      && idSequence >= 1
      && (forall k :: k in projects ==> projects[k].id == Some(k))
      && (forall k :: k in links ==> links[k].id == Some(k))
      && (forall k :: k in projects ==> IssuedBefore(k, idSequence))
      && (forall k :: k in links ==> IssuedBefore(k, idSequence))
      && projects.Keys !! links.Keys
    }

    constructor ()
      ensures Valid() && fresh(about) && fresh(projects.Values) && fresh(links.Values)
      ensures Seeded()
    {
      about := null;
      projects, links := map[], map[];
      idSequence := 1;
      new;
      SeedDefaults();
    }

    /** The content `seedDefaults` installs: ids 1-3 for projects, 4-5 for links. */
    predicate Seeded()
      reads this, about, projects.Values, links.Values
    {
      SeededAbout() && SeededProjects() && SeededLinks() && idSequence == 6
    }

    predicate SeededAbout()
      reads this, about
    {
      && about != null
      && about.headline == Some("Gaurav Sahitya · Software Developer")
      && about.summary == Some(SEED_SUMMARY)
      && about.location == Some("Bengaluru, Karnataka, India")
      && about.avatarUrl == Some("")
    }

    predicate SeededProjects()
      reads this, projects.Values
    {
      && projects.Keys == {"1", "2", "3"}
      && IsSeededProject(projects["1"], "AI-based Ticketing & Support Platform", TICKETING_DESCRIPTION, TICKETING_TAGS)
      && IsSeededProject(projects["2"], "Real Estate Data & Mapping Platform", REAL_ESTATE_DESCRIPTION, REAL_ESTATE_TAGS)
      && IsSeededProject(projects["3"], "Logistics & Package Delivery System", LOGISTICS_DESCRIPTION, LOGISTICS_TAGS)
    }

    predicate SeededLinks()
      reads this, links.Values
    {
      && links.Keys == {"4", "5"}
      && links["4"].linkLabel == Some("GitHub") && links["4"].url == Some("https://github.com/gauravsahitya62")
      && links["4"].icon == Some("github")
      && links["5"].linkLabel == Some("LinkedIn") && links["5"].url == Some("https://linkedin.com/in/gaurav-sahitya/")
      && links["5"].icon == Some("linkedin")
    }

    /** `seedDefaults()`, run once by the constructor. */
    method SeedDefaults()
      requires about == null && projects == map[] && links == map[] && idSequence == 1
      modifies this
      ensures Valid() && Seeded()
      ensures fresh(about) && fresh(projects.Values) && fresh(links.Values)
    {
      SeedAbout();
      SeedProjects();
      SeedLinks();
    }

    /** The record block of `seedDefaults`: the default about record, avatarUrl "". */
    method SeedAbout()
      requires projects == map[] && links == map[] && idSequence == 1
      modifies this
      ensures Valid() && SeededAbout() && fresh(about)
      ensures projects == old(projects) && links == old(links) && idSequence == old(idSequence)
    {
      var defaultAbout := new About();
      defaultAbout.SetHeadline(Some("Gaurav Sahitya · Software Developer"));
      defaultAbout.SetSummary(Some(SEED_SUMMARY));
      defaultAbout.SetLocation(Some("Bengaluru, Karnataka, India"));
      defaultAbout.SetAvatarUrl(Some(""));
      about := defaultAbout;
    }

    /** The project blocks of `seedDefaults`: ids 1, 2 and 3. */
    method SeedProjects()
      requires Valid() && projects == map[] && links == map[] && idSequence == 1
      modifies this
      ensures Valid() && SeededProjects() && fresh(projects.Values)
      ensures links == old(links) && about == old(about) && idSequence == 4
    {
      SmallNumerals();
      var ticketing := SeedProject("AI-based Ticketing & Support Platform", TICKETING_DESCRIPTION, TICKETING_TAGS);
      var realEstate := SeedProject("Real Estate Data & Mapping Platform", REAL_ESTATE_DESCRIPTION, REAL_ESTATE_TAGS);
      var logistics := SeedProject("Logistics & Package Delivery System", LOGISTICS_DESCRIPTION, LOGISTICS_TAGS);
      assert projects == map["1" := ticketing, "2" := realEstate, "3" := logistics];
    }

    /** The link blocks of `seedDefaults`: ids 4 and 5. */
    method SeedLinks()
      requires Valid() && links == map[] && idSequence == 4
      modifies this
      ensures Valid() && SeededLinks() && fresh(links.Values)
      ensures projects == old(projects) && about == old(about) && idSequence == 6
    {
      SmallNumerals();
      var github := SeedLink("GitHub", "https://github.com/gauravsahitya62", "github");
      var linkedin := SeedLink("LinkedIn", "https://linkedin.com/in/gaurav-sahitya/", "linkedin");
      assert links == map["4" := github, "5" := linkedin];
    }

    /** One project block of `seedDefaults`: a new project under `nextId()`, URLs "". */
    method SeedProject(title: string, description: string, tags: seq<JString>) returns (p: Project)
      requires Valid()
      modifies this
      ensures Valid() && fresh(p)
      ensures p.id == Some(Decimal(old(idSequence)))
      ensures p.id.value !in old(projects) && p.id.value !in old(links)
      ensures projects == old(projects)[p.id.value := p]
      ensures IsSeededProject(p, title, description, tags)
      ensures links == old(links) && about == old(about) && idSequence == old(idSequence) + 1
    {
      NextKeyIsFresh(idSequence, projects.Keys + links.Keys);
      p := new Project();
      var id := NextId();
      FillProject(p, id, title, description, tags);
      projects := projects[id := p];
    }

    /** One link block of `seedDefaults`: a new link under `nextId()`. */
    method SeedLink(caption: string, url: string, icon: string) returns (l: SocialLink)
      requires Valid()
      modifies this
      ensures Valid() && fresh(l)
      ensures l.id == Some(Decimal(old(idSequence)))
      ensures l.id.value !in old(projects) && l.id.value !in old(links)
      ensures links == old(links)[l.id.value := l]
      ensures l.linkLabel == Some(caption) && l.url == Some(url) && l.icon == Some(icon)
      ensures projects == old(projects) && about == old(about) && idSequence == old(idSequence) + 1
    {
      NextKeyIsFresh(idSequence, projects.Keys + links.Keys);
      l := new SocialLink();
      var id := NextId();
      FillLink(l, id, caption, url, icon);
      links := links[id := l];
    }

    /** `nextId()`: the counter's current value as a numeral; the counter moves on. */
    method NextId() returns (id: string)
      modifies this
      ensures id == Decimal(old(idSequence)) && idSequence == old(idSequence) + 1
      ensures about == old(about) && projects == old(projects) && links == old(links)
    {
      id := Decimal(idSequence);
      idSequence := idSequence + 1;
    }

    method GetAbout() returns (r: About)
      requires Valid()
      ensures r == about
    {
      r := about;
    }

    /** `updateAbout(updated)`: replaces the record wholesale and returns it. */
    method UpdateAbout(updated: About) returns (r: About)
      requires Valid()
      modifies this
      ensures Valid()
      ensures about == updated && r == updated
      ensures projects == old(projects) && links == old(links) && idSequence == old(idSequence)
    {
      about := updated;
      r := about;
    }

    /**
     * `saveAboutPhoto(file)`. The filesystem work is abstracted: `ioFails` says
     * whether it throws `IOException`; `target` is the file name written.
     */
    method SaveAboutPhoto(file: Option<Upload>, ioFails: bool) returns (r: Result<About, ServiceError>, target: Option<string>)
      requires Valid()
      modifies about
      ensures Valid()
      ensures file.None? || file.value.isEmpty ==> r == Success(about) && target == None && unchanged(about)
      ensures file.Some? && !file.value.isEmpty && ioFails ==>
        r == Failure(IOException) && target == None && unchanged(about)
      ensures file.Some? && !file.value.isEmpty && !ioFails ==>
        && r == Success(about)
        && target == Some(AvatarFileName(file.value.originalFilename))
        && about.avatarUrl == Some(PHOTO_URL)
        && about.headline == old(about.headline) && about.summary == old(about.summary)
        && about.location == old(about.location)
    {
      if file.None? || file.value.isEmpty {
        return Success(about), None;
      }
      if ioFails {
        return Failure(IOException), None;
      }
      var ext := AvatarExtension(file.value.originalFilename);
      target := Some(AVATAR_FILENAME + ext);
      about.SetAvatarUrl(Some(PHOTO_URL));
      r := Success(about);
    }

    // Projects

    /** `listProjects()`: the stored projects, in no particular order. */
    method ListProjects() returns (r: set<Project>)
      requires Valid()
      ensures r == projects.Values
      ensures forall p :: p in r ==> p.id.Some? && p.id.value in projects && projects[p.id.value] == p
    {
      r := projects.Values;
    }

    /** `createProject(project)`: stores the body under a fresh id and returns it. */
    method CreateProject(project: Project) returns (r: Project)
      requires Valid()
      requires project !in projects.Values
      modifies this, project
      ensures Valid()
      ensures r == project && project.id == Some(Decimal(old(idSequence)))
      ensures project.id.value !in old(projects) && project.id.value !in old(links)
      ensures projects == old(projects)[project.id.value := project]
      ensures project.title == old(project.title) && project.description == old(project.description)
      ensures project.githubUrl == old(project.githubUrl) && project.liveUrl == old(project.liveUrl)
      ensures project.tags == old(project.tags)
      ensures links == old(links) && about == old(about) && idSequence == old(idSequence) + 1
    {
      ghost var keys := projects.Keys + links.Keys;
      NextKeyIsFresh(idSequence, keys);
      var id := NextId();
      project.SetId(Some(id));
      projects := projects[id := project];
      r := project;
    }

    /**
     * `updateProject(id, project)`: throws when `id` is absent; otherwise the
     * body, with its id forced to `id`, replaces that entry.
     */
    method UpdateProject(id: string, project: Project) returns (r: Result<Project, ServiceError>)
      requires Valid()
      requires forall k :: k in projects && k != id ==> projects[k] != project
      modifies this, project
      ensures Valid()
      ensures id !in old(projects) ==>
        r == Failure(NoSuchElement("Project not found")) && unchanged(this, project)
      ensures id in old(projects) ==>
        && r == Success(project) && project.id == Some(id)
        && projects == old(projects)[id := project]
        && project.title == old(project.title) && project.description == old(project.description)
        && project.githubUrl == old(project.githubUrl) && project.liveUrl == old(project.liveUrl)
        && project.tags == old(project.tags)
      ensures links == old(links) && about == old(about) && idSequence == old(idSequence)
    {
      if id !in projects {
        return Failure(NoSuchElement("Project not found"));
      }
      project.SetId(Some(id));
      projects := projects[id := project];
      r := Success(project);
    }

    /** `deleteProject(id)`: removes that key only; an absent key is a no-op. */
    method DeleteProject(id: string)
      requires Valid()
      modifies this
      ensures Valid()
      ensures projects == old(projects) - {id}
      ensures id !in old(projects) ==> projects == old(projects)
      ensures links == old(links) && about == old(about) && idSequence == old(idSequence)
    {
      projects := projects - {id};
    }

    // Social links

    /** `listLinks()`: the stored links, in no particular order. */
    method ListLinks() returns (r: set<SocialLink>)
      requires Valid()
      ensures r == links.Values
      ensures forall l :: l in r ==> l.id.Some? && l.id.value in links && links[l.id.value] == l
    {
      r := links.Values;
    }

    /** `createLink(link)`: stores the body under a fresh id and returns it. */
    method CreateLink(link: SocialLink) returns (r: SocialLink)
      requires Valid()
      requires link !in links.Values
      modifies this, link
      ensures Valid()
      ensures r == link && link.id == Some(Decimal(old(idSequence)))
      ensures link.id.value !in old(links) && link.id.value !in old(projects)
      ensures links == old(links)[link.id.value := link]
      ensures link.linkLabel == old(link.linkLabel) && link.url == old(link.url) && link.icon == old(link.icon)
      ensures projects == old(projects) && about == old(about) && idSequence == old(idSequence) + 1
    {
      ghost var keys := projects.Keys + links.Keys;
      NextKeyIsFresh(idSequence, keys);
      var id := NextId();
      link.SetId(Some(id));
      links := links[id := link];
      r := link;
    }

    /**
     * `updateLink(id, link)`: throws when `id` is absent; otherwise the body,
     * with its id forced to `id`, replaces that entry.
     */
    method UpdateLink(id: string, link: SocialLink) returns (r: Result<SocialLink, ServiceError>)
      requires Valid()
      requires forall k :: k in links && k != id ==> links[k] != link
      modifies this, link
      ensures Valid()
      ensures id !in old(links) ==>
        r == Failure(NoSuchElement("Link not found")) && unchanged(this, link)
      ensures id in old(links) ==>
        && r == Success(link) && link.id == Some(id)
        && links == old(links)[id := link]
        && link.linkLabel == old(link.linkLabel) && link.url == old(link.url) && link.icon == old(link.icon)
      ensures projects == old(projects) && about == old(about) && idSequence == old(idSequence)
    {
      if id !in links {
        return Failure(NoSuchElement("Link not found"));
      }
      link.SetId(Some(id));
      links := links[id := link];
      r := Success(link);
    }

    /** `deleteLink(id)`: removes that key only; an absent key is a no-op. */
    method DeleteLink(id: string)
      requires Valid()
      modifies this
      ensures Valid()
      ensures links == old(links) - {id}
      ensures id !in old(links) ==> links == old(links)
      ensures projects == old(projects) && about == old(about) && idSequence == old(idSequence)
    {
      links := links - {id};
    }
  }

  /** The next create, of either kind, gets a key that neither table holds. */
  lemma NextIdIsFreshInBothTables(s: PortfolioService)
    requires s.Valid()
    ensures Decimal(s.idSequence) !in s.projects && Decimal(s.idSequence) !in s.links
  {
    NextKeyIsFresh(s.idSequence, s.projects.Keys + s.links.Keys);
  }
}
