/** `com.portfolio.model.About`: the singleton profile record of the backend. */
module AboutEntity {
  import opened Wrappers
  import opened Java

  class About {
    /** Initialised to "about"; there is no setter, so nothing changes it. */
    const id: string := "about"
    var headline: JString
    var summary: JString
    var location: JString
    var avatarUrl: JString

    /** `new About()`: every field but `id` is null. */
    constructor ()
      ensures headline == None && summary == None && location == None && avatarUrl == None
    {
      headline, summary, location, avatarUrl := None, None, None, None;
    }

    method SetHeadline(v: JString)
      modifies this
      ensures headline == v
      ensures summary == old(summary) && location == old(location) && avatarUrl == old(avatarUrl)
    {
      headline := v;
    }

    method SetSummary(v: JString)
      modifies this
      ensures summary == v
      ensures headline == old(headline) && location == old(location) && avatarUrl == old(avatarUrl)
    {
      summary := v;
    }

    method SetLocation(v: JString)
      modifies this
      ensures location == v
      ensures headline == old(headline) && summary == old(summary) && avatarUrl == old(avatarUrl)
    {
      location := v;
    }

    method SetAvatarUrl(v: JString)
      modifies this
      ensures avatarUrl == v
      ensures headline == old(headline) && summary == old(summary) && location == old(location)
    {
      avatarUrl := v;
    }

    /** The `@NotBlank` constraints; `avatarUrl` is optional and may be "". */
    predicate IsValidBody(): (r: bool)
      reads this
      ensures r <==> (headline.Some? && Trim(headline.value) != "") && (summary.Some? && Trim(summary.value) != "") && (location.Some? && Trim(location.value) != "")
    {
      NotBlank(headline) && NotBlank(summary) && NotBlank(location)
    }
  }
}
