/** WebhookField: one name/value pair of an embed. */
module WebhookFields {
  import opened Wrappers
  import opened Json
  import opened Strings

  class WebhookField {
    var name: Option<string>
    var value: Option<string>
    var inline: Option<bool>

    /** Stores exactly its three arguments; the not-null annotations on name and value are not enforced. */
    constructor (name: Option<string>, value: Option<string>, inline: Option<bool>)
      ensures this.name == name && this.value == value && this.inline == inline
    {
      this.name := name;
      this.value := value;
      this.inline := inline;
    }

    /** Both setName overloads: the fragments joined by line breaks. */
    method SetName(parts: seq<string>) returns (self: WebhookField)
      modifies this`name
      ensures self == this && name == Some(JoinLines(parts))
    {
      name := Some(JoinLines(parts));
      self := this;
    }

    /** Both setValue overloads: the fragments joined by line breaks. */
    method SetValue(parts: seq<string>) returns (self: WebhookField)
      modifies this`value
      ensures self == this && value == Some(JoinLines(parts))
    {
      value := Some(JoinLines(parts));
      self := this;
    }

    /** Null removes "inline" from the projection; a boolean makes it present with that value. */
    method SetInline(inline: Option<bool>) returns (self: WebhookField)
      modifies this`inline
      ensures self == this && this.inline == inline
      ensures "inline" in ToJson().members <==> inline.Some?
      ensures inline.Some? ==> ToJson().members["inline"] == JBool(inline.value)
    {
      this.inline := inline;
      self := this;
    }

    /** The projection: name, value and inline, each exactly when set, and nothing else. */
    function ToJson(): (j: Json)
      reads this
      ensures j.JObject? && j.members.Keys <= {"name", "value", "inline"}
      ensures PresentExactly(j.members, "name", OptString(name))
      ensures PresentExactly(j.members, "value", OptString(value))
      ensures PresentExactly(j.members, "inline", if inline.Some? then Some(JBool(inline.value)) else None)
    {
      var m: Members := map[];
      var m := if name.Some? then m["name" := JString(name.value)] else m;
      var m := if value.Some? then m["value" := JString(value.value)] else m;
      var m := if inline.Some? then m["inline" := JBool(inline.value)] else m;
      JObject(m)
    }
  }

  /** WebhookField.Builder: name and value start as "", inline as a primitive false. */
  class Builder {
    var name: string
    var value: string
    var inline: bool

    constructor ()
      ensures name == "" && value == "" && !inline
    {
      name, value, inline := "", "", false;
    }

    /** Both name overloads: the fragments joined by line breaks; the last call wins. */
    method Name(parts: seq<string>) returns (self: Builder)
      modifies this`name
      ensures self == this && name == JoinLines(parts)
    {
      name := JoinLines(parts);
      self := this;
    }

    /** Both value overloads: the fragments joined by line breaks; the last call wins. */
    method Value(parts: seq<string>) returns (self: Builder)
      modifies this`value
      ensures self == this && value == JoinLines(parts)
    {
      value := JoinLines(parts);
      self := this;
    }

    method Inline(inline: bool) returns (self: Builder)
      modifies this`inline
      ensures self == this && this.inline == inline
    {
      this.inline := inline;
      self := this;
    }

    /** Every built field has all three slots set, so its projection has all three keys. */
    method Build() returns (field: WebhookField)
      ensures fresh(field)
      ensures field.name == Some(name) && field.value == Some(value) && field.inline == Some(inline)
      ensures field.ToJson().members.Keys == {"name", "value", "inline"}
    {
      field := new WebhookField(Some(name), Some(value), Some(inline));
    }
  }

  /** A field built with only a name still projects "value": "" and "inline": false. */
  method NameOnlyProjection(parts: seq<string>) returns (j: Json)
    ensures j == JObject(map["name" := JString(JoinLines(parts)), "value" := JString(""), "inline" := JBool(false)])
  {
    var b := new Builder();
    b := b.Name(parts);
    var field := b.Build();
    j := field.ToJson();
  }
}
