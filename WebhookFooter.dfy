/** WebhookFooter: the footer line of an embed. */
module WebhookFooters {
  import opened Wrappers
  import opened Json
  import opened Strings

  class WebhookFooter {
    var text: Option<string>
    var iconUrl: Option<string>

    constructor (text: Option<string>, iconUrl: Option<string>)
      ensures this.text == text && this.iconUrl == iconUrl
    {
      this.text := text;
      this.iconUrl := iconUrl;
    }

    /** Both setText overloads: the fragments joined by line breaks. */
    method SetText(parts: seq<string>) returns (self: WebhookFooter)
      modifies this`text
      ensures self == this && text == Some(JoinLines(parts))
    {
      text := Some(JoinLines(parts));
      self := this;
    }

    /** Replaces only the icon URL. */
    method SetIconUrl(iconUrl: Option<string>) returns (self: WebhookFooter)
      modifies this`iconUrl
      ensures self == this && this.iconUrl == iconUrl
    {
      this.iconUrl := iconUrl;
      self := this;
    }

    /** The projection: text and icon_url, each exactly when set. */
    function ToJson(): (j: Json)
      reads this
      ensures j.JObject? && j.members.Keys <= {"text", "icon_url"}
      ensures PresentExactly(j.members, "text", OptString(text))
      ensures PresentExactly(j.members, "icon_url", OptString(iconUrl))
    {
      var m: Members := map[];
      var m := if text.Some? then m["text" := JString(text.value)] else m;
      var m := if iconUrl.Some? then m["icon_url" := JString(iconUrl.value)] else m;
      JObject(m)
    }
  }

  /** WebhookFooter.Builder: both slots start unset. */
  class Builder {
    var text: Option<string>
    var iconUrl: Option<string>

    constructor ()
      ensures text == None && iconUrl == None
    {
      text, iconUrl := None, None;
    }

    /** Both text overloads: the fragments joined by line breaks. */
    method Text(parts: seq<string>) returns (self: Builder)
      modifies this`text
      ensures self == this && text == Some(JoinLines(parts))
    {
      text := Some(JoinLines(parts));
      self := this;
    }

    method IconUrl(iconUrl: string) returns (self: Builder)
      modifies this`iconUrl
      ensures self == this && this.iconUrl == Some(iconUrl)
    {
      this.iconUrl := Some(iconUrl);
      self := this;
    }

    method Build() returns (footer: WebhookFooter)
      ensures fresh(footer) && footer.text == text && footer.iconUrl == iconUrl
    {
      footer := new WebhookFooter(text, iconUrl);
    }
  }

  /** A builder given no call builds a footer whose projection is the empty object. */
  method EmptyBuilderProjection() returns (j: Json)
    ensures j == JObject(map[])
  {
    var b := new Builder();
    var footer := b.Build();
    j := footer.ToJson();
  }
}
