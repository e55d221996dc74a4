/** `com.portfolio.model.SocialLink`: one entry of the links table. */
module SocialLinkEntity {
  import opened Wrappers
  import opened Java

  class SocialLink {
    /** null until the service assigns an id with `SetId`. */
    var id: JString
    /** `label` (a reserved word in Dafny) */
    var linkLabel: JString
    var url: JString
    /** e.g. "github", "linkedin"; optional */
    var icon: JString

    /** `new SocialLink()`: every field is null. */
    constructor ()
      ensures id == None && linkLabel == None && url == None && icon == None
    {
      id, linkLabel, url, icon := None, None, None, None;
    }

    method SetId(v: JString)
      modifies this
      ensures id == v
      ensures linkLabel == old(linkLabel) && url == old(url) && icon == old(icon)
    {
      id := v;
    }

    method SetLabel(v: JString)
      modifies this
      ensures linkLabel == v
      ensures id == old(id) && url == old(url) && icon == old(icon)
    {
      linkLabel := v;
    }

    method SetUrl(v: JString)
      modifies this
      ensures url == v
      ensures id == old(id) && linkLabel == old(linkLabel) && icon == old(icon)
    {
      url := v;
    }

    method SetIcon(v: JString)
      modifies this
      ensures icon == v
      ensures id == old(id) && linkLabel == old(linkLabel) && url == old(url)
    {
      icon := v;
    }

    /** The `@NotBlank` constraints; `icon` is optional. */
    predicate IsValidBody(): (r: bool)
      reads this
      ensures r <==> (linkLabel.Some? && Trim(linkLabel.value) != "") && (url.Some? && Trim(url.value) != "")
    {
      NotBlank(linkLabel) && NotBlank(url)
    }
  }
}
