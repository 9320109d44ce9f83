/** WebhookAuthor: the author line of an embed. */
module WebhookAuthors {
  import opened Wrappers
  import opened Json
  import opened Strings

  class WebhookAuthor {
    var url: Option<string>
    var name: Option<string>
    var iconUrl: Option<string>

    constructor (url: Option<string>, name: Option<string>, iconUrl: Option<string>)
      ensures this.url == url && this.name == name && this.iconUrl == iconUrl
    {
      this.url := url;
      this.name := name;
      this.iconUrl := iconUrl;
    }

    /** Replaces only the URL. */
    method SetUrl(url: Option<string>) returns (self: WebhookAuthor)
      modifies this`url
      ensures self == this && this.url == url
    {
      this.url := url;
      self := this;
    }

    /** Both setName overloads: the fragments joined by line breaks. */
    method SetName(parts: seq<string>) returns (self: WebhookAuthor)
      modifies this`name
      ensures self == this && name == Some(JoinLines(parts))
    {
      name := Some(JoinLines(parts));
      self := this;
    }

    /** Replaces only the icon URL. */
    method SetIconUrl(iconUrl: Option<string>) returns (self: WebhookAuthor)
      modifies this`iconUrl
      ensures self == this && this.iconUrl == iconUrl
    {
      this.iconUrl := iconUrl;
      self := this;
    }

    /** The projection: url, name and icon_url, each exactly when set. */
    function ToJson(): (j: Json)
      reads this
      ensures j.JObject? && j.members.Keys <= {"url", "name", "icon_url"}
      ensures PresentExactly(j.members, "url", OptString(url))
      ensures PresentExactly(j.members, "name", OptString(name))
      ensures PresentExactly(j.members, "icon_url", OptString(iconUrl))
    {
      var m: Members := map[];
      var m := if url.Some? then m["url" := JString(url.value)] else m;
      var m := if name.Some? then m["name" := JString(name.value)] else m;
      var m := if iconUrl.Some? then m["icon_url" := JString(iconUrl.value)] else m;
      JObject(m)
    }
  }

  /** WebhookAuthor.Builder: every slot starts unset. */
  class Builder {
    var url: Option<string>
    var name: Option<string>
    var iconUrl: Option<string>

    constructor ()
      ensures url == None && name == None && iconUrl == None
    {
      url, name, iconUrl := None, None, None;
    }

    method Url(url: string) returns (self: Builder)
      modifies this`url
      ensures self == this && this.url == Some(url)
    {
      this.url := Some(url);
      self := this;
    }

    /** Both name overloads: the fragments joined by line breaks. */
    method Name(parts: seq<string>) returns (self: Builder)
      modifies this`name
      ensures self == this && name == Some(JoinLines(parts))
    {
      name := Some(JoinLines(parts));
      self := this;
    }

    method IconUrl(iconUrl: string) returns (self: Builder)
      modifies this`iconUrl
      ensures self == this && this.iconUrl == Some(iconUrl)
    {
      this.iconUrl := Some(iconUrl);
      self := this;
    }

    method Build() returns (author: WebhookAuthor)
      ensures fresh(author)
      ensures author.url == url && author.name == name && author.iconUrl == iconUrl
    {
      author := new WebhookAuthor(url, name, iconUrl);
    }
  }

  /** A builder given no call builds an author whose projection is the empty object. */
  method EmptyBuilderProjection() returns (j: Json)
    ensures j == JObject(map[])
  {
    var b := new Builder();
    var author := b.Build();
    j := author.ToJson();
  }
}
