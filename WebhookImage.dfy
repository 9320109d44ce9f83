/** WebhookImage: an embed's large image, sent as its URL only. */
module WebhookImages {
  import opened Wrappers
  import opened Json

  class WebhookImage {
    var url: Option<string>

    constructor (url: Option<string>)
      ensures GetUrl() == url
    {
      this.url := url;
    }

    /** The URL stored by the constructor or by the last SetUrl: the one the projection writes, if any. */
    function GetUrl(): (u: Option<string>)
      reads this
      ensures u.Some? <==> "url" in ToJson().members
      ensures u.Some? ==> ToJson().members["url"] == JString(u.value)
    {
      url
    }

    /** Replaces the URL (null allowed) and returns the same object for chaining. */
    method SetUrl(url: Option<string>) returns (self: WebhookImage)
      modifies this
      ensures self == this && GetUrl() == url
    {
      this.url := url;
      self := this;
    }

    /** The projection: {"url": url} when a URL is set, {} otherwise. */
    function ToJson(): (j: Json)
      reads this
      ensures j.JObject? && j.members.Keys <= {"url"}
      ensures PresentExactly(j.members, "url", OptString(url))
    {
      var m: Members := map[];
      JObject(if url.Some? then m["url" := JString(url.value)] else m)
    }
  }

  /** WebhookImage.Builder: starts with no URL. */
  class Builder {
    var url: Option<string>

    constructor ()
      ensures url == None
    {
      url := None;
    }

    method Url(url: string) returns (self: Builder)
      modifies this
      ensures self == this && this.url == Some(url)
    {
      this.url := Some(url);
      self := this;
    }

    method Build() returns (image: WebhookImage)
      ensures fresh(image) && image.GetUrl() == url
    {
      image := new WebhookImage(url);
    }
  }

  /** A builder given no call builds an image whose projection is the empty object. */
  method EmptyBuilderProjection() returns (j: Json)
    ensures j == JObject(map[])
  {
    var b := new Builder();
    var image := b.Build();
    j := image.ToJson();
  }

  /** Of two Builder.url calls the last one decides the projection. */
  method LastUrlWins(first: string, last: string) returns (j: Json)
    ensures j == JObject(map["url" := JString(last)])
  {
    var b := new Builder();
    b := b.Url(first);
    b := b.Url(last);
    var image := b.Build();
    j := image.ToJson();
  }
}
