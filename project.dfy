/** `com.portfolio.model.Project`: one entry of the projects table. */
module ProjectEntity {
  import opened Wrappers
  import opened Java

  class Project {
    /** null until the service assigns an id with `SetId`. */
    var id: JString
    var title: JString
    var description: JString
    var githubUrl: JString
    var liveUrl: JString
    /** `String[] tags`, a possibly null array (array identity is not modelled). */
    var tags: Option<seq<JString>>

    /** `new Project()`: every field is null. */
    constructor ()
      ensures id == None && title == None && description == None
      ensures githubUrl == None && liveUrl == None && tags == None
    {
      id, title, description, githubUrl, liveUrl, tags := None, None, None, None, None, None;
    }

    method SetId(v: JString)
      modifies this
      ensures id == v
      ensures title == old(title) && description == old(description) && githubUrl == old(githubUrl)
      ensures liveUrl == old(liveUrl) && tags == old(tags)
    {
      id := v;
    }

    method SetTitle(v: JString)
      modifies this
      ensures title == v
      ensures id == old(id) && description == old(description) && githubUrl == old(githubUrl)
      ensures liveUrl == old(liveUrl) && tags == old(tags)
    {
      title := v;
    }

    method SetDescription(v: JString)
      modifies this
      ensures description == v
      ensures id == old(id) && title == old(title) && githubUrl == old(githubUrl)
      ensures liveUrl == old(liveUrl) && tags == old(tags)
    {
      description := v;
    }

    method SetGithubUrl(v: JString)
      modifies this
      ensures githubUrl == v
      ensures id == old(id) && title == old(title) && description == old(description)
      ensures liveUrl == old(liveUrl) && tags == old(tags)
    {
      githubUrl := v;
    }

    method SetLiveUrl(v: JString)
      modifies this
      ensures liveUrl == v
      ensures id == old(id) && title == old(title) && description == old(description)
      ensures githubUrl == old(githubUrl) && tags == old(tags)
    {
      liveUrl := v;
    }

    method SetTags(v: Option<seq<JString>>)
      modifies this
      ensures tags == v
      ensures id == old(id) && title == old(title) && description == old(description)
      ensures githubUrl == old(githubUrl) && liveUrl == old(liveUrl)
    {
      tags := v;
    }

    /** The `@NotBlank` constraint; description, URLs and tags are optional. */
    predicate IsValidBody(): (r: bool)
      reads this
      ensures r <==> (title.Some? && Trim(title.value) != "")
    {
      NotBlank(title)
    }
  }
}
