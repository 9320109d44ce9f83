/** Webhook: the message itself, its four text slots and its list of embeds. */
module Webhooks {
  import opened Wrappers
  import opened Json
  import opened Strings
  import opened Seqs
  import WebhookEmbeds
  import opened WebhookUtils

  type WebhookEmbed = WebhookEmbeds.WebhookEmbed

  /** Every key a message's projection can hold. */
  const MessageKeys: set<string> := {"content", "username", "avatar_url", "thread_name", "embeds"}

  /** Everything the projections of a list of embeds read. */
  ghost function EmbedsFootprint(es: seq<WebhookEmbed>): (fp: set<object>)
    reads es
    ensures forall i :: 0 <= i < |es| ==> es[i].Footprint() <= fp
  {
    if es == [] then {}
    else
      var rest := EmbedsFootprint(es[1..]);
      assert forall i :: 1 <= i < |es| ==> es[i] == es[1..][i - 1];
      es[0].Footprint() + rest
  }

  /** The projections of a list of embeds, in list order. */
  function EmbedsJson(es: seq<WebhookEmbed>): (r: seq<Json>)
    reads es, EmbedsFootprint(es)
    ensures |r| == |es|
    ensures forall i :: 0 <= i < |es| ==> r[i] == es[i].ToJson()
  {
    seq(|es|, i requires 0 <= i < |es| reads es, EmbedsFootprint(es) => es[i].ToJson())
  }

  /** The four put steps of toJson, on the values they write. */
  function PutMembers(content: Option<Json>, username: Option<Json>, avatarUrl: Option<Json>,
                      threadName: Option<Json>): (m: Members)
    ensures "embeds" !in m
    ensures m.Keys <= MessageKeys
    ensures PresentExactly(m, "content", content)
    ensures PresentExactly(m, "username", username)
    ensures PresentExactly(m, "avatar_url", avatarUrl)
    ensures PresentExactly(m, "thread_name", threadName)
  {
    PutPresent(map["content" := content, "username" := username, "avatar_url" := avatarUrl,
                    "thread_name" := threadName])
  }

  /** toJson on values: the four put steps, then one append step per embed. */
  function MessageObject(content: Option<Json>, username: Option<Json>, avatarUrl: Option<Json>,
                         threadName: Option<Json>, embeds: seq<Json>): (j: Json)
    ensures j.JObject? && j.members.Keys <= MessageKeys
    ensures PresentExactly(j.members, "content", content)
    ensures PresentExactly(j.members, "username", username)
    ensures PresentExactly(j.members, "avatar_url", avatarUrl)
    ensures PresentExactly(j.members, "thread_name", threadName)
    ensures PresentExactly(j.members, "embeds", if embeds == [] then None else Some(JArray(embeds)))
  {
    var m := PutMembers(content, username, avatarUrl, threadName);
    var r := AppendAll(m, "embeds", embeds);
    assert r == if embeds == [] then m else m["embeds" := JArray(embeds)];
    JObject(r)
  }

  class Webhook {
    var content: Option<string>
    var username: Option<string>
    var avatarUrl: Option<string>
    var threadName: Option<string>
    var embeds: Option<seq<WebhookEmbed>>

    /** Stores exactly its five arguments; a null list stays null. */
    constructor (content: Option<string>, username: Option<string>, avatarUrl: Option<string>,
                 threadName: Option<string>, embeds: Option<seq<WebhookEmbed>>)
      ensures this.content == content && this.username == username && this.avatarUrl == avatarUrl
      ensures this.threadName == threadName && this.embeds == embeds
    {
      this.embeds := embeds;
      this.content := content;
      this.username := username;
      this.avatarUrl := avatarUrl;
      this.threadName := threadName;
    }

    /** The embeds the projection iterates: none for a null list. */
    function EmbedList(): seq<WebhookEmbed>
      reads this
    {
      if embeds.Some? then embeds.value else []
    }

    /** Both setContent overloads: the fragments joined by line breaks. */
    method SetContent(parts: seq<string>) returns (self: Webhook)
      modifies this`content
      ensures self == this && content == Some(JoinLines(parts))
    {
      content := Some(JoinLines(parts));
      self := this;
    }

    method SetUsername(username: Option<string>) returns (self: Webhook)
      modifies this`username
      ensures self == this && this.username == username
    {
      this.username := username;
      self := this;
    }

    method SetAvatarUrl(avatarUrl: Option<string>) returns (self: Webhook)
      modifies this`avatarUrl
      ensures self == this && this.avatarUrl == avatarUrl
    {
      this.avatarUrl := avatarUrl;
      self := this;
    }

    method SetThreadName(threadName: Option<string>) returns (self: Webhook)
      modifies this`threadName
      ensures self == this && this.threadName == threadName
    {
      this.threadName := threadName;
      self := this;
    }

    method SetEmbeds(embeds: Option<seq<WebhookEmbed>>) returns (self: Webhook)
      modifies this`embeds
      ensures self == this && this.embeds == embeds
    {
      this.embeds := embeds;
      self := this;
    }

    /** List.add on the embed list: a null list throws; otherwise the embed's projection ends the "embeds" array. */
    method AddEmbed(embed: WebhookEmbed) returns (r: Result<Webhook>)
      modifies this`embeds
      ensures old(embeds).None? ==> r == Failure(NullPointerException) && embeds == old(embeds)
      ensures old(embeds).Some? ==> r == Success(this) && embeds == Some(old(embeds).value + [embed])
    {
      if embeds.None? {
        return Failure(NullPointerException);
      }
      embeds := Some(embeds.value + [embed]);
      r := Success(this);
    }

    /** List.remove(Object): a null list throws; the first identical embed goes; an absent one changes nothing. */
    method RemoveEmbed(embed: WebhookEmbed) returns (r: Result<Webhook>)
      modifies this`embeds
      ensures old(embeds).None? ==> r == Failure(NullPointerException) && embeds == old(embeds)
      ensures old(embeds).Some? ==> r == Success(this) && embeds == Some(RemoveFirst(old(embeds).value, embed))
    {
      if embeds.None? {
        return Failure(NullPointerException);
      }
      embeds := Some(RemoveFirst(embeds.value, embed));
      r := Success(this);
    }

    /** List.remove(int): a null list throws, an index outside the list throws, otherwise that embed goes. */
    method RemoveEmbedAt(index: int) returns (r: Result<Webhook>)
      modifies this`embeds
      ensures old(embeds).None? ==> r == Failure(NullPointerException) && embeds == old(embeds)
      ensures old(embeds).Some? && !(0 <= index < |old(embeds).value|) ==>
        r == Failure(IndexOutOfBoundsException) && embeds == old(embeds)
      ensures old(embeds).Some? && 0 <= index < |old(embeds).value| ==>
        r == Success(this) && embeds == Some(RemoveAt(old(embeds).value, index))
    {
      if embeds.None? {
        return Failure(NullPointerException);
      }
      if !(0 <= index < |embeds.value|) {
        return Failure(IndexOutOfBoundsException);
      }
      embeds := Some(RemoveAt(embeds.value, index));
      r := Success(this);
    }

    /** List.clear: a null list throws; otherwise the list empties and "embeds" leaves the projection. */
    method ClearEmbeds() returns (r: Result<Webhook>)
      modifies this`embeds
      ensures old(embeds).None? ==> r == Failure(NullPointerException) && embeds == old(embeds)
      ensures old(embeds).Some? ==> r == Success(this) && embeds == Some([])
      ensures "embeds" !in ToJson().members
    {
      if embeds.None? {
        return Failure(NullPointerException);
      }
      embeds := Some([]);
      r := Success(this);
    }

    /**
     * The projection: each text slot exactly when set, and "embeds" holding the embeds'
     * projections in list order exactly when there is at least one embed.
     */
    function ToJson(): (j: Json)
      reads this, EmbedList(), EmbedsFootprint(EmbedList())
      ensures j.JObject? && j.members.Keys <= MessageKeys
      ensures PresentExactly(j.members, "content", OptString(content))
      ensures PresentExactly(j.members, "username", OptString(username))
      ensures PresentExactly(j.members, "avatar_url", OptString(avatarUrl))
      ensures PresentExactly(j.members, "thread_name", OptString(threadName))
      ensures PresentExactly(j.members, "embeds",
                             if EmbedList() == [] then None else Some(JArray(EmbedsJson(EmbedList()))))
    {
      MessageObject(OptString(content), OptString(username), OptString(avatarUrl), OptString(threadName),
                    EmbedsJson(EmbedList()))
    }
  }

  /** Webhook.Builder: every text slot starts unset and the embed list starts empty. */
  class Builder {
    var content: Option<string>
    var username: Option<string>
    var avatarUrl: Option<string>
    var threadName: Option<string>
    var embeds: seq<WebhookEmbed>

    constructor ()
      ensures content == None && username == None && avatarUrl == None && threadName == None
      ensures embeds == []
    {
      content, username, avatarUrl, threadName := None, None, None, None;
      embeds := [];
    }

    /** Both content overloads: the fragments joined by line breaks. */
    method Content(parts: seq<string>) returns (self: Builder)
      modifies this`content
      ensures self == this && content == Some(JoinLines(parts))
    {
      content := Some(JoinLines(parts));
      self := this;
    }

    method Username(username: string) returns (self: Builder)
      modifies this`username
      ensures self == this && this.username == Some(username)
    {
      this.username := Some(username);
      self := this;
    }

    method AvatarUrl(avatarUrl: string) returns (self: Builder)
      modifies this`avatarUrl
      ensures self == this && this.avatarUrl == Some(avatarUrl)
    {
      this.avatarUrl := Some(avatarUrl);
      self := this;
    }

    method ThreadName(threadName: string) returns (self: Builder)
      modifies this`threadName
      ensures self == this && this.threadName == Some(threadName)
    {
      this.threadName := Some(threadName);
      self := this;
    }

    /** embeds(List): the whole list is replaced. */
    method Embeds(embeds: seq<WebhookEmbed>) returns (self: Builder)
      modifies this`embeds
      ensures self == this && this.embeds == embeds
    {
      this.embeds := embeds;
      self := this;
    }

    /** embed(WebhookEmbed): the embed is appended to the list. */
    method Embed(embed: WebhookEmbed) returns (self: Builder)
      modifies this`embeds
      ensures self == this && embeds == old(embeds) + [embed]
    {
      embeds := embeds + [embed];
      self := this;
    }

    /** embed(builderFunction): the embed the configured embed builder builds is appended. */
    method EmbedFrom(b: WebhookEmbeds.Builder) returns (self: Builder)
      modifies this`embeds
      ensures self == this && |embeds| == |old(embeds)| + 1 && embeds[..|old(embeds)|] == old(embeds)
      ensures fresh(embeds[|old(embeds)|])
      ensures embeds[|old(embeds)|].url == b.url && embeds[|old(embeds)|].title == b.title
      ensures embeds[|old(embeds)|].description == b.description
      ensures embeds[|old(embeds)|].color == b.color && embeds[|old(embeds)|].timestamp == b.timestamp
      ensures embeds[|old(embeds)|].image == b.image && embeds[|old(embeds)|].author == b.author
      ensures embeds[|old(embeds)|].footer == b.footer && embeds[|old(embeds)|].thumbnail == b.thumbnail
      ensures embeds[|old(embeds)|].fields == Some(b.fields)
    {
      var built := b.Build();
      self := Embed(built);
    }

    /** build(): every slot is handed over as it is; the list always arrives non-null. */
    method Build() returns (webhook: Webhook)
      ensures fresh(webhook)
      ensures webhook.content == content && webhook.username == username
      ensures webhook.avatarUrl == avatarUrl && webhook.threadName == threadName
      ensures webhook.embeds == Some(embeds)
    {
      webhook := new Webhook(content, username, avatarUrl, threadName, Some(embeds));
    }
  }

  lemma EmbedsOnlyObject(es: seq<Json>)
    requires es != []
    ensures MessageObject(None, None, None, None, es) == JObject(map["embeds" := JArray(es)])
  {
  }

  /** A message holding one embed and no text projects to that embed's projection alone. */
  lemma EmbedsOnlyProjection(webhook: Webhook)
    requires webhook.content == None && webhook.username == None
    requires webhook.avatarUrl == None && webhook.threadName == None
    requires webhook.embeds.Some? && |webhook.embeds.value| == 1
    ensures webhook.ToJson() == JObject(map["embeds" := JArray([webhook.embeds.value[0].ToJson()])])
  {
    var es := EmbedsJson(webhook.EmbedList());
    assert es == [webhook.embeds.value[0].ToJson()];
    EmbedsOnlyObject(es);
  }

  /** A message given one untouched embed builder projects to {"embeds": [{}]}. */
  method EmptyEmbedMessage() returns (j: Json)
    ensures j == JObject(map["embeds" := JArray([JObject(map[])])])
  {
    var eb := new WebhookEmbeds.Builder();
    var b := new Builder();
    b := b.EmbedFrom(eb);
    var webhook := b.Build();
    WebhookEmbeds.EmptyEmbedProjection(webhook.EmbedList()[0]);
    EmbedsOnlyProjection(webhook);
    j := webhook.ToJson();
  }

  lemma ContentUsernameEmbedsObject(content: string, username: string, es: seq<Json>)
    requires es != []
    ensures MessageObject(Some(JString(content)), Some(JString(username)), None, None, es)
         == JObject(map["content" := JString(content), "username" := JString(username), "embeds" := JArray(es)])
  {
    var m := map["content" := JString(content), "username" := JString(username)];
    assert AppendAll(m, "embeds", es) == m["embeds" := JArray(es)];
  }

  /** A message with content, username and one embed projects to those three members alone. */
  lemma ContentUsernameProjection(webhook: Webhook)
    requires webhook.content.Some? && webhook.username.Some?
    requires webhook.avatarUrl == None && webhook.threadName == None
    requires webhook.embeds.Some? && |webhook.embeds.value| == 1
    ensures webhook.ToJson() == JObject(map["content" := JString(webhook.content.value),
                                            "username" := JString(webhook.username.value),
                                            "embeds" := JArray([webhook.embeds.value[0].ToJson()])])
  {
    var es := EmbedsJson(webhook.EmbedList());
    assert es == [webhook.embeds.value[0].ToJson()];
    ContentUsernameEmbedsObject(webhook.content.value, webhook.username.value, es);
  }

  /** A message built with username "Hakan", content "Hi" and one given embed. */
  method HakanMessage(embed: WebhookEmbed) returns (webhook: Webhook)
    ensures webhook.content == Some("Hi") && webhook.username == Some("Hakan")
    ensures webhook.avatarUrl == None && webhook.threadName == None
    ensures webhook.embeds == Some([embed])
  {
    var b := new Builder();
    b := b.Username("Hakan");
    b := b.Content(["Hi"]);
    b := b.Embed(embed);
    assert JoinLines(["Hi"]) == "Hi" && b.embeds == [embed];
    webhook := b.Build();
  }

  /**
   * A message with username "Hakan", content "Hi" and one embed holding the colour (87, 0, 97)
   * and the inline field N = V: the colour packs to 5701729.
   */
  method ExampleMessage() returns (j: Json)
    ensures j == JObject(map[
      "content" := JString("Hi"),
      "username" := JString("Hakan"),
      "embeds" := JArray([JObject(map[
        "color" := JInt(5701729),
        "fields" := JArray([JObject(map["name" := JString("N"), "value" := JString("V"), "inline" := JBool(true)])])
      ])])
    ])
  {
    var embed, field := WebhookEmbeds.ColorAndFieldEmbed();
    var webhook := HakanMessage(embed);
    assert field.ToJson() == JObject(map["name" := JString("N"), "value" := JString("V"), "inline" := JBool(true)]);
    WebhookEmbeds.ColorAndFieldProjection(embed);
    TestColorPacks();
    ContentUsernameProjection(webhook);
    j := webhook.ToJson();
  }

}
