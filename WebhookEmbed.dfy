/** WebhookEmbed: one rich embed of a message, with its optional parts and its list of fields. */
module WebhookEmbeds {
  import opened Wrappers
  import opened Json
  import opened Strings
  import opened Seqs
  import opened WebhookUtils
  import WebhookImages
  import WebhookAuthors
  import WebhookFooters
  import WebhookThumbnails
  import WebhookFields

  type WebhookField = WebhookFields.WebhookField

  /** Every key an embed's projection can hold. */
  const EmbedKeys: set<string> :=
    {"url", "title", "description", "color", "timestamp", "image", "author", "footer", "thumbnail", "fields"}

  /** The color member: the packed RGB value, when a color is set. */
  function ColorJson(color: Option<Color>): (v: Option<Json>)
    ensures v.Some? <==> color.Some?
    ensures color.Some? ==> v.value.JInt? && 0 <= v.value.num <= 0xFF_FFFF
  {
    if color.Some? then Some(JInt(ColorToInt(color.value))) else None
  }

  /** The timestamp member: the calendar's text, when a timestamp is set. */
  function TimestampJson(timestamp: Option<Timestamp>): (v: Option<Json>)
    ensures v.Some? <==> timestamp.Some?
    ensures timestamp.Some? ==> v.value.JString? && v.value.str == DateToText(timestamp.value)
  {
    if timestamp.Some? then Some(JString(DateToText(timestamp.value))) else None
  }

  /** The image member: the image's own projection, when an image is attached. */
  function PartJsonImage(image: WebhookImages.WebhookImage?): (v: Option<Json>)
    reads image
    ensures v.Some? <==> image != null
  {
    if image != null then Some(image.ToJson()) else None
  }

  /** The author member: the author's own projection, when an author is attached. */
  function PartJsonAuthor(author: WebhookAuthors.WebhookAuthor?): (v: Option<Json>)
    reads author
    ensures v.Some? <==> author != null
  {
    if author != null then Some(author.ToJson()) else None
  }

  /** The footer member: the footer's own projection, when a footer is attached. */
  function PartJsonFooter(footer: WebhookFooters.WebhookFooter?): (v: Option<Json>)
    reads footer
    ensures v.Some? <==> footer != null
  {
    if footer != null then Some(footer.ToJson()) else None
  }

  /** The thumbnail member: the thumbnail's own projection, when a thumbnail is attached. */
  function PartJsonThumbnail(thumbnail: WebhookThumbnails.WebhookThumbnail?): (v: Option<Json>)
    reads thumbnail
    ensures v.Some? <==> thumbnail != null
  {
    if thumbnail != null then Some(thumbnail.ToJson()) else None
  }

  /** The projections of a list of fields, in list order. */
  function FieldsJson(fs: seq<WebhookField>): (r: seq<Json>)
    reads fs
    ensures |r| == |fs|
    ensures forall i :: 0 <= i < |fs| ==> r[i] == fs[i].ToJson()
  {
    if fs == [] then [] else [fs[0].ToJson()] + FieldsJson(fs[1..])
  }

  /** The nine put steps of toJson, on the values they write. */
  function PutMembers(url: Option<Json>, title: Option<Json>, description: Option<Json>,
                      color: Option<Json>, timestamp: Option<Json>,
                      image: Option<Json>, author: Option<Json>, footer: Option<Json>, thumbnail: Option<Json>)
    : (m: Members)
    ensures "fields" !in m
    ensures m.Keys <= EmbedKeys
    ensures PresentExactly(m, "url", url)
    ensures PresentExactly(m, "title", title)
    ensures PresentExactly(m, "description", description)
    ensures PresentExactly(m, "color", color)
    ensures PresentExactly(m, "timestamp", timestamp)
    ensures PresentExactly(m, "image", image)
    ensures PresentExactly(m, "author", author)
    ensures PresentExactly(m, "footer", footer)
    ensures PresentExactly(m, "thumbnail", thumbnail)
  {
    PutPresent(map["url" := url, "title" := title, "description" := description, "color" := color,
                    "timestamp" := timestamp, "image" := image, "author" := author, "footer" := footer,
                    "thumbnail" := thumbnail])
  }

  /** toJson on values: the nine put steps, then one append step per field. */
  function EmbedObject(url: Option<Json>, title: Option<Json>, description: Option<Json>,
                       color: Option<Json>, timestamp: Option<Json>,
                       image: Option<Json>, author: Option<Json>, footer: Option<Json>, thumbnail: Option<Json>,
                       fields: seq<Json>): (j: Json)
    ensures j.JObject? && j.members.Keys <= EmbedKeys
    ensures PresentExactly(j.members, "url", url)
    ensures PresentExactly(j.members, "title", title)
    ensures PresentExactly(j.members, "description", description)
    ensures PresentExactly(j.members, "color", color)
    ensures PresentExactly(j.members, "timestamp", timestamp)
    ensures PresentExactly(j.members, "image", image)
    ensures PresentExactly(j.members, "author", author)
    ensures PresentExactly(j.members, "footer", footer)
    ensures PresentExactly(j.members, "thumbnail", thumbnail)
    ensures PresentExactly(j.members, "fields", if fields == [] then None else Some(JArray(fields)))
  {
    var m := PutMembers(url, title, description, color, timestamp, image, author, footer, thumbnail);
    var r := AppendAll(m, "fields", fields);
    assert r == if fields == [] then m else m["fields" := JArray(fields)];
    JObject(r)
  }

  class WebhookEmbed {
    var url: Option<string>
    var title: Option<string>
    var description: Option<string>
    var color: Option<Color>
    var timestamp: Option<Timestamp>
    var image: WebhookImages.WebhookImage?
    var author: WebhookAuthors.WebhookAuthor?
    var footer: WebhookFooters.WebhookFooter?
    var thumbnail: WebhookThumbnails.WebhookThumbnail?
    /** None is a null list: adding, removing and clearing then throw. */
    var fields: Option<seq<WebhookField>>

    /** Stores exactly its ten arguments. */
    constructor (url: Option<string>, title: Option<string>, description: Option<string>,
                 color: Option<Color>, timestamp: Option<Timestamp>,
                 image: WebhookImages.WebhookImage?, author: WebhookAuthors.WebhookAuthor?, footer: WebhookFooters.WebhookFooter?,
                 thumbnail: WebhookThumbnails.WebhookThumbnail?, fields: Option<seq<WebhookField>>)
      ensures this.url == url && this.title == title && this.description == description
      ensures this.color == color && this.timestamp == timestamp
      ensures this.image == image && this.author == author && this.footer == footer
      ensures this.thumbnail == thumbnail && this.fields == fields
    {
      this.url := url;
      this.title := title;
      this.color := color;
      this.image := image;
      this.author := author;
      this.footer := footer;
      this.fields := fields;
      this.thumbnail := thumbnail;
      this.timestamp := timestamp;
      this.description := description;
    }

    /** The fields the projection iterates: none for a null list. */
    function FieldList(): seq<WebhookField>
      reads this
    {
      if fields.Some? then fields.value else []
    }

    /** The objects the projection reads: this embed, its parts and its fields. */
    ghost function Footprint(): (fp: set<object>)
      reads this
      ensures this in fp
      ensures image != null ==> image in fp
      ensures author != null ==> author in fp
      ensures footer != null ==> footer in fp
      ensures thumbnail != null ==> thumbnail in fp
      ensures forall f :: f in FieldList() ==> f in fp
    {
      {this}
      + (if image == null then {} else {image})
      + (if author == null then {} else {author})
      + (if footer == null then {} else {footer})
      + (if thumbnail == null then {} else {thumbnail})
      + set f: WebhookField | f in FieldList() :: f
    }

    method SetUrl(url: Option<string>) returns (self: WebhookEmbed)
      modifies this`url
      ensures self == this && this.url == url
    {
      this.url := url;
      self := this;
    }

    method SetTitle(title: Option<string>) returns (self: WebhookEmbed)
      modifies this`title
      ensures self == this && this.title == title
    {
      this.title := title;
      self := this;
    }

    /** Both setDescription overloads: the fragments joined by line breaks. */
    method SetDescription(parts: seq<string>) returns (self: WebhookEmbed)
      modifies this`description
      ensures self == this && description == Some(JoinLines(parts))
    {
      description := Some(JoinLines(parts));
      self := this;
    }

    method SetColor(color: Option<Color>) returns (self: WebhookEmbed)
      modifies this`color
      ensures self == this && this.color == color
    {
      this.color := color;
      self := this;
    }

    method SetTimestamp(timestamp: Option<Timestamp>) returns (self: WebhookEmbed)
      modifies this`timestamp
      ensures self == this && this.timestamp == timestamp
    {
      this.timestamp := timestamp;
      self := this;
    }

    method SetImage(image: WebhookImages.WebhookImage?) returns (self: WebhookEmbed)
      modifies this`image
      ensures self == this && this.image == image
    {
      this.image := image;
      self := this;
    }

    method SetAuthor(author: WebhookAuthors.WebhookAuthor?) returns (self: WebhookEmbed)
      modifies this`author
      ensures self == this && this.author == author
    {
      this.author := author;
      self := this;
    }

    method SetFooter(footer: WebhookFooters.WebhookFooter?) returns (self: WebhookEmbed)
      modifies this`footer
      ensures self == this && this.footer == footer
    {
      this.footer := footer;
      self := this;
    }

    method SetThumbnail(thumbnail: WebhookThumbnails.WebhookThumbnail?) returns (self: WebhookEmbed)
      modifies this`thumbnail
      ensures self == this && this.thumbnail == thumbnail
    {
      this.thumbnail := thumbnail;
      self := this;
    }

    method SetFields(fields: Option<seq<WebhookField>>) returns (self: WebhookEmbed)
      modifies this`fields
      ensures self == this && this.fields == fields
    {
      this.fields := fields;
      self := this;
    }

    /** List.add on the field list: a null list throws; otherwise the field's projection ends the "fields" array. */
    method AddField(field: WebhookField) returns (r: Result<WebhookEmbed>)
      modifies this`fields
      ensures old(fields).None? ==> r == Failure(NullPointerException) && fields == old(fields)
      ensures old(fields).Some? ==> r == Success(this) && fields == Some(old(fields).value + [field])
      ensures old(fields).Some? ==> FieldsJson(FieldList()) == FieldsJson(old(FieldList())) + [field.ToJson()]
    {
      if fields.None? {
        return Failure(NullPointerException);
      }
      ghost var before := FieldsJson(fields.value);
      fields := Some(fields.value + [field]);
      assert FieldsJson(fields.value) == before + [field.ToJson()];
      r := Success(this);
    }

    /** List.remove(Object): a null list throws; the first identical field goes; an absent one changes nothing. */
    method RemoveField(field: WebhookField) returns (r: Result<WebhookEmbed>)
      modifies this`fields
      ensures old(fields).None? ==> r == Failure(NullPointerException) && fields == old(fields)
      ensures old(fields).Some? ==> r == Success(this) && fields == Some(RemoveFirst(old(fields).value, field))
    {
      if fields.None? {
        return Failure(NullPointerException);
      }
      fields := Some(RemoveFirst(fields.value, field));
      r := Success(this);
    }

    /** List.remove(int): a null list throws, an index outside the list throws, otherwise that field goes. */
    method RemoveFieldAt(index: int) returns (r: Result<WebhookEmbed>)
      modifies this`fields
      ensures old(fields).None? ==> r == Failure(NullPointerException) && fields == old(fields)
      ensures old(fields).Some? && !(0 <= index < |old(fields).value|) ==>
        r == Failure(IndexOutOfBoundsException) && fields == old(fields)
      ensures old(fields).Some? && 0 <= index < |old(fields).value| ==>
        r == Success(this) && fields == Some(RemoveAt(old(fields).value, index))
    {
      if fields.None? {
        return Failure(NullPointerException);
      }
      if !(0 <= index < |fields.value|) {
        return Failure(IndexOutOfBoundsException);
      }
      fields := Some(RemoveAt(fields.value, index));
      r := Success(this);
    }

    /** List.clear: a null list throws; otherwise the list empties and "fields" leaves the projection. */
    method ClearFields() returns (r: Result<WebhookEmbed>)
      modifies this`fields
      ensures old(fields).None? ==> r == Failure(NullPointerException) && fields == old(fields)
      ensures old(fields).Some? ==> r == Success(this) && fields == Some([])
      ensures "fields" !in ToJson().members
    {
      if fields.None? {
        return Failure(NullPointerException);
      }
      fields := Some([]);
      r := Success(this);
    }

    /**
     * The projection: each scalar and each part exactly when set, the color packed, the timestamp
     * as text, and "fields" holding the fields' projections in list order exactly when there is
     * at least one field.
     */
    function ToJson(): (j: Json)
      reads this, image, author, footer, thumbnail, FieldList()
      ensures j.JObject? && j.members.Keys <= EmbedKeys
      ensures PresentExactly(j.members, "url", OptString(url))
      ensures PresentExactly(j.members, "title", OptString(title))
      ensures PresentExactly(j.members, "description", OptString(description))
      ensures PresentExactly(j.members, "color", ColorJson(color))
      ensures PresentExactly(j.members, "timestamp", TimestampJson(timestamp))
      ensures PresentExactly(j.members, "image", PartJsonImage(image))
      ensures PresentExactly(j.members, "author", PartJsonAuthor(author))
      ensures PresentExactly(j.members, "footer", PartJsonFooter(footer))
      ensures PresentExactly(j.members, "thumbnail", PartJsonThumbnail(thumbnail))
      ensures PresentExactly(j.members, "fields",
                             if FieldList() == [] then None else Some(JArray(FieldsJson(FieldList()))))
    {
      EmbedObject(
        OptString(url), OptString(title), OptString(description), ColorJson(color), TimestampJson(timestamp),
        PartJsonImage(image),
        PartJsonAuthor(author),
        PartJsonFooter(footer),
        PartJsonThumbnail(thumbnail),
        FieldsJson(FieldList()))
    }
  }

  /** WebhookEmbed.Builder: every slot starts unset and the field list starts empty. */
  class Builder {
    var url: Option<string>
    var title: Option<string>
    var description: Option<string>
    var color: Option<Color>
    var timestamp: Option<Timestamp>
    var image: WebhookImages.WebhookImage?
    var author: WebhookAuthors.WebhookAuthor?
    var footer: WebhookFooters.WebhookFooter?
    var thumbnail: WebhookThumbnails.WebhookThumbnail?
    var fields: seq<WebhookField>

    constructor ()
      ensures url == None && title == None && description == None && color == None && timestamp == None
      ensures image == null && author == null && footer == null && thumbnail == null
      ensures fields == []
    {
      url, title, description, color, timestamp := None, None, None, None, None;
      image, author, footer, thumbnail := null, null, null, null;
      fields := [];
    }

    method Url(url: string) returns (self: Builder)
      modifies this`url
      ensures self == this && this.url == Some(url)
    {
      this.url := Some(url);
      self := this;
    }

    method Title(title: string) returns (self: Builder)
      modifies this`title
      ensures self == this && this.title == Some(title)
    {
      this.title := Some(title);
      self := this;
    }

    /** Both description overloads: the fragments joined by line breaks. */
    method Description(parts: seq<string>) returns (self: Builder)
      modifies this`description
      ensures self == this && description == Some(JoinLines(parts))
    {
      description := Some(JoinLines(parts));
      self := this;
    }

    method Color(color: Color) returns (self: Builder)
      modifies this`color
      ensures self == this && this.color == Some(color)
    {
      this.color := Some(color);
      self := this;
    }

    /** timestamp(Calendar): the calendar itself is kept. */
    method Timestamp(timestamp: Timestamp) returns (self: Builder)
      modifies this`timestamp
      ensures self == this && this.timestamp == Some(timestamp)
    {
      this.timestamp := Some(timestamp);
      self := this;
    }

    /**
     * The four timestamp(instant, zone) overloads: a fresh calendar set to the zone and then to
     * the instant, which is the instant paired with the zone's offset.
     */
    method TimestampAt(millis: int, zoneOffsetMillis: int) returns (self: Builder)
      requires millis + zoneOffsetMillis >= 0
      modifies this`timestamp
      ensures self == this && timestamp == Some(Calendar(millis, zoneOffsetMillis))
    {
      timestamp := Some(Calendar(millis, zoneOffsetMillis));
      self := this;
    }

    method Image(image: WebhookImages.WebhookImage) returns (self: Builder)
      modifies this`image
      ensures self == this && this.image == image
    {
      this.image := image;
      self := this;
    }

    method Author(author: WebhookAuthors.WebhookAuthor) returns (self: Builder)
      modifies this`author
      ensures self == this && this.author == author
    {
      this.author := author;
      self := this;
    }

    method Footer(footer: WebhookFooters.WebhookFooter) returns (self: Builder)
      modifies this`footer
      ensures self == this && this.footer == footer
    {
      this.footer := footer;
      self := this;
    }

    method Thumbnail(thumbnail: WebhookThumbnails.WebhookThumbnail) returns (self: Builder)
      modifies this`thumbnail
      ensures self == this && this.thumbnail == thumbnail
    {
      this.thumbnail := thumbnail;
      self := this;
    }

    /** fields(List): the whole list is replaced. */
    method Fields(fields: seq<WebhookField>) returns (self: Builder)
      modifies this`fields
      ensures self == this && this.fields == fields
    {
      this.fields := fields;
      self := this;
    }

    /** field(WebhookField): the field is appended to the list. */
    method Field(field: WebhookField) returns (self: Builder)
      modifies this`fields
      ensures self == this && fields == old(fields) + [field]
    {
      fields := fields + [field];
      self := this;
    }

    /** image(builderFunction): the image the configured child builder builds. */
    method ImageFrom(b: WebhookImages.Builder) returns (self: Builder)
      modifies this`image
      ensures self == this && image != null && fresh(image) && image.GetUrl() == b.url
    {
      var built := b.Build();
      self := Image(built);
    }

    /** author(builderFunction): the author the configured child builder builds. */
    method AuthorFrom(b: WebhookAuthors.Builder) returns (self: Builder)
      modifies this`author
      ensures self == this && author != null && fresh(author)
      ensures author.url == b.url && author.name == b.name && author.iconUrl == b.iconUrl
    {
      var built := b.Build();
      self := Author(built);
    }

    /** footer(builderFunction): the footer the configured child builder builds. */
    method FooterFrom(b: WebhookFooters.Builder) returns (self: Builder)
      modifies this`footer
      ensures self == this && footer != null && fresh(footer)
      ensures footer.text == b.text && footer.iconUrl == b.iconUrl
    {
      var built := b.Build();
      self := Footer(built);
    }

    /** thumbnail(builderFunction): the thumbnail the configured child builder builds. */
    method ThumbnailFrom(b: WebhookThumbnails.Builder) returns (self: Builder)
      modifies this`thumbnail
      ensures self == this && thumbnail != null && fresh(thumbnail) && thumbnail.GetUrl() == b.url
    {
      var built := b.Build();
      self := Thumbnail(built);
    }

    /** field(builderFunction): the field the configured child builder builds is appended. */
    method FieldFrom(b: WebhookFields.Builder) returns (self: Builder)
      modifies this`fields
      ensures self == this && |fields| == |old(fields)| + 1 && fields[..|old(fields)|] == old(fields)
      ensures fresh(fields[|old(fields)|])
      ensures fields[|old(fields)|].name == Some(b.name) && fields[|old(fields)|].value == Some(b.value)
      ensures fields[|old(fields)|].inline == Some(b.inline)
    {
      var built := b.Build();
      self := Field(built);
    }

    /** build(): every slot is handed over as it is; the list always arrives non-null. */
    method Build() returns (embed: WebhookEmbed)
      ensures fresh(embed)
      ensures embed.url == url && embed.title == title && embed.description == description
      ensures embed.color == color && embed.timestamp == timestamp
      ensures embed.image == image && embed.author == author && embed.footer == footer
      ensures embed.thumbnail == thumbnail && embed.fields == Some(fields)
    {
      embed := new WebhookEmbed(url, title, description, color, timestamp,
                                image, author, footer, thumbnail, Some(fields));
    }
  }

  /** A builder given no call builds an embed whose projection is the empty object. */
  method EmptyBuilderProjection() returns (j: Json)
    ensures j == JObject(map[])
  {
    var b := new Builder();
    var embed := b.Build();
    EmptyEmbedProjection(embed);
    j := embed.ToJson();
  }

  /** An embed with nothing set and no field projects to the empty object. */
  lemma EmptyEmbedProjection(embed: WebhookEmbed)
    requires embed.url == None && embed.title == None && embed.description == None
    requires embed.color == None && embed.timestamp == None
    requires embed.image == null && embed.author == null && embed.footer == null && embed.thumbnail == null
    requires embed.FieldList() == []
    ensures embed.ToJson() == JObject(map[])
  {
    EmptyObject();
  }

  lemma EmptyObject()
    ensures EmbedObject(None, None, None, None, None, None, None, None, None, []) == JObject(map[])
  {
  }

  lemma ColorOnlyObject(c: Json)
    ensures EmbedObject(None, None, None, Some(c), None, None, None, None, None, []) == JObject(map["color" := c])
  {
  }

  /** A builder given only a colour projects to the single member "color" holding its packed value. */
  method ColorOnlyProjection(color: Color) returns (j: Json)
    ensures j == JObject(map["color" := JInt(ColorToInt(color))])
  {
    var b := new Builder();
    b := b.Color(color);
    var embed := b.Build();
    j := embed.ToJson();
    ColorOnlyObject(JInt(ColorToInt(color)));
  }

  lemma FieldsOnlyObject(fs: seq<Json>)
    requires fs != []
    ensures EmbedObject(None, None, None, None, None, None, None, None, None, fs) == JObject(map["fields" := JArray(fs)])
  {
  }

  /** Builder.field appends in call order, and the built embed holds exactly those fields and nothing else. */
  method TwoFieldEmbed(first: WebhookField, second: WebhookField) returns (embed: WebhookEmbed)
    ensures embed.url == None && embed.title == None && embed.description == None
    ensures embed.color == None && embed.timestamp == None
    ensures embed.image == null && embed.author == null && embed.footer == null && embed.thumbnail == null
    ensures embed.fields == Some([first, second])
  {
    var b := new Builder();
    b := b.Field(first);
    b := b.Field(second);
    assert b.fields == [first, second];
    embed := b.Build();
  }

  /** Two fields added one after the other project alone, in the order they were added. */
  method FieldsKeepOrder(first: WebhookField, second: WebhookField) returns (j: Json)
    ensures j == JObject(map["fields" := JArray([first.ToJson(), second.ToJson()])])
  {
    var embed := TwoFieldEmbed(first, second);
    assert FieldsJson(embed.FieldList()) == [first.ToJson(), second.ToJson()];
    j := embed.ToJson();
    FieldsOnlyObject([first.ToJson(), second.ToJson()]);
  }

  lemma ColorAndFieldsObject(c: Json, fs: seq<Json>)
    requires fs != []
    ensures EmbedObject(None, None, None, Some(c), None, None, None, None, None, fs)
         == JObject(map["color" := c, "fields" := JArray(fs)])
  {
  }

  /** An embed with only a colour and one field projects to the packed colour and that field's projection. */
  lemma ColorAndFieldProjection(embed: WebhookEmbed)
    requires embed.url == None && embed.title == None && embed.description == None
    requires embed.color.Some? && embed.timestamp == None
    requires embed.image == null && embed.author == null && embed.footer == null && embed.thumbnail == null
    requires |embed.FieldList()| == 1
    ensures embed.ToJson() == JObject(map["color" := JInt(ColorToInt(embed.color.value)),
                                          "fields" := JArray([embed.FieldList()[0].ToJson()])])
  {
    var fs := FieldsJson(embed.FieldList());
    assert fs == [embed.FieldList()[0].ToJson()];
    ColorAndFieldsObject(JInt(ColorToInt(embed.color.value)), fs);
  }

  /** An embed built with the colour (87, 0, 97) and one inline field named "N" with value "V". */
  method ColorAndFieldEmbed() returns (embed: WebhookEmbed, field: WebhookField)
    ensures embed.url == None && embed.title == None && embed.description == None
    ensures embed.color == Some(Color(87, 0, 97)) && embed.timestamp == None
    ensures embed.image == null && embed.author == null && embed.footer == null && embed.thumbnail == null
    ensures embed.fields == Some([field])
    ensures field.name == Some("N") && field.value == Some("V") && field.inline == Some(true)
  {
    var fb := new WebhookFields.Builder();
    fb := fb.Name(["N"]);
    fb := fb.Value(["V"]);
    fb := fb.Inline(true);
    var b := new Builder();
    b := b.Color(Color(87, 0, 97));
    b := b.FieldFrom(fb);
    field := b.fields[0];
    assert b.fields == [field];
    embed := b.Build();
  }
}
