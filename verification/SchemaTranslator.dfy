/** The translation as it runs: the JSON Schema is filled in keyword by keyword, its lists and maps in loops. */
module SchemaTranslator {
  import opened Json
  import opened OpenApi
  import opened SchemaTranslation

  /** The translation, as far as the given keywords go. */
  function Partial(s: Schema, done: set<string>): map<string, Json> {
    map k | k in done && Keyword(s, k).Some? :: Keyword(s, k).value
  }

  lemma NextKeyword(s: Schema, done: set<string>, k: string)
    requires k !in done
    ensures Partial(s, done + {k}) ==
      if Keyword(s, k).Some? then Partial(s, done)[k := Keyword(s, k).value] else Partial(s, done)
  {
    hide Keyword;
  }

  method Build(s: Schema) returns (jss: map<string, Json>)
    ensures Obj(jss) == Translate(s)
    decreases s, 3
  {
    hide Keyword, Partial, Translate;
    jss := BuildSubschemas(s);
    jss := FillLimits(s, jss);
    jss := FillRest(s, jss);
    assert SUBSCHEMA_KEYWORDS + LIMIT_KEYWORDS + {"required", "type", "$ref"} == KEYWORDS;
    AllKeywords(s);
  }

  const SUBSCHEMA_KEYWORDS := {"additionalProperties", "anyOf", "items", "properties"}

  const LIMIT_KEYWORDS := {"enum", "format", "maxLength", "pattern"}

  lemma AllKeywords(s: Schema)
    ensures Obj(Partial(s, KEYWORDS)) == Translate(s)
  {
    hide Keyword;
  }

  /** The keywords whose values are schemas. */
  method BuildSubschemas(s: Schema) returns (jss: map<string, Json>)
    ensures jss == Partial(s, SUBSCHEMA_KEYWORDS)
    decreases s, 2
  {
    hide Partial, Translate;
    jss := map[];
    assert jss == Partial(s, {}) by { NoKeywords(s); }
    NextKeyword(s, {}, "additionalProperties");
    if !s.additionalPropertiesAllowed {
      jss := jss["additionalProperties" := Bool(false)];
    } else if s.additionalProperties.Some? {
      var sub := Build(s.additionalProperties.value);
      jss := jss["additionalProperties" := Obj(sub)];
    }
    var d1 := {} + {"additionalProperties"};
    NextKeyword(s, d1, "anyOf");
    if |s.anyOf| != 0 {
      var branches := BuildAnyOf(s);
      jss := jss["anyOf" := Arr(branches)];
    }
    jss := BuildMore(s, jss, d1 + {"anyOf"});
    assert d1 + {"anyOf"} + {"items"} + {"properties"} == SUBSCHEMA_KEYWORDS;
  }

  method BuildMore(s: Schema, start: map<string, Json>, ghost done: set<string>) returns (jss: map<string, Json>)
    requires start == Partial(s, done) && "items" !in done && "properties" !in done
    ensures jss == Partial(s, done + {"items"} + {"properties"})
    decreases s, 1
  {
    hide Partial, Translate;
    jss := start;
    NextKeyword(s, done, "items");
    if s.items.Some? {
      var sub := Build(s.items.value);
      jss := jss["items" := Obj(sub)];
    }
    NextKeyword(s, done + {"items"}, "properties");
    if |s.properties| != 0 {
      var fields := BuildProperties(s);
      jss := jss["properties" := Obj(fields)];
    }
  }

  lemma NoKeywords(s: Schema)
    ensures Partial(s, {}) == map[]
  {
  }

  method BuildAnyOf(s: Schema) returns (branches: seq<Json>)
    requires s.anyOf != []
    ensures Keyword(s, "anyOf") == Some(Arr(branches))
    decreases s, 0
  {
    hide Translate;
    branches := [];
    for i := 0 to |s.anyOf|
      invariant |branches| == i && forall j | 0 <= j < i :: branches[j] == Translate(s.anyOf[j])
    {
      var sub := Build(s.anyOf[i]);
      branches := branches + [Obj(sub)];
    }
    assert branches == seq(|s.anyOf|, i requires 0 <= i < |s.anyOf| => Translate(s.anyOf[i]));
    if s.nullable {
      branches := branches + [NULL_SCHEMA];
    }
  }

  method BuildProperties(s: Schema) returns (fields: map<string, Json>)
    requires s.properties != map[]
    ensures Keyword(s, "properties") == Some(Obj(fields))
    decreases s, 0
  {
    hide Translate;
    fields := map[];
    var rest := s.properties.Keys;
    while rest != {}
      invariant rest <= s.properties.Keys && fields.Keys == s.properties.Keys - rest
      invariant forall k | k in fields :: fields[k] == Translate(s.properties[k])
      decreases s, 0, rest
    {
      var key :| key in rest;
      rest := rest - {key};
      var sub := Build(s.properties[key]);
      fields := fields[key := Obj(sub)];
    }
    assert fields == map k | k in s.properties :: Translate(s.properties[k]);
  }

  /** The keywords that limit values. */
  method FillLimits(s: Schema, start: map<string, Json>) returns (jss: map<string, Json>)
    requires start == Partial(s, SUBSCHEMA_KEYWORDS)
    ensures jss == Partial(s, SUBSCHEMA_KEYWORDS + LIMIT_KEYWORDS)
  {
    hide Partial, Translate;
    jss := start;
    var d0 := SUBSCHEMA_KEYWORDS;
    NextKeyword(s, d0, "enum");
    if s.enumeration.Some? && |s.enumeration.value| != 0 {
      jss := jss["enum" := Arr(s.enumeration.value)];
    }
    var d1 := d0 + {"enum"};
    NextKeyword(s, d1, "format");
    if s.format != "" {
      jss := jss["format" := Str(s.format)];
    }
    var d2 := d1 + {"format"};
    NextKeyword(s, d2, "maxLength");
    if s.maxLength != 0 {
      jss := jss["maxLength" := Num(s.maxLength as real)];
    }
    var d3 := d2 + {"maxLength"};
    NextKeyword(s, d3, "pattern");
    if s.pattern != "" {
      jss := jss["pattern" := Str(s.pattern)];
    }
    assert d3 + {"pattern"} == SUBSCHEMA_KEYWORDS + LIMIT_KEYWORDS;
  }

  method FillRest(s: Schema, start: map<string, Json>) returns (jss: map<string, Json>)
    requires start == Partial(s, SUBSCHEMA_KEYWORDS + LIMIT_KEYWORDS)
    ensures jss == Partial(s, SUBSCHEMA_KEYWORDS + LIMIT_KEYWORDS + {"required", "type", "$ref"})
  {
    hide Partial, Translate;
    jss := start;
    var d4 := SUBSCHEMA_KEYWORDS + LIMIT_KEYWORDS;
    NextKeyword(s, d4, "required");
    if |s.required| != 0 {
      var names := BuildRequired(s);
      jss := jss["required" := Arr(names)];
    }
    var d5 := d4 + {"required"};
    NextKeyword(s, d5, "type");
    if s.kind != "" {
      if s.nullable {
        jss := jss["type" := Arr([Str(s.kind), Str("null")])];
      } else {
        jss := jss["type" := Str(s.kind)];
      }
    }
    var d6 := d5 + {"type"};
    NextKeyword(s, d6, "$ref");
    if s.reference != "" {
      jss := jss["$ref" := Str(s.reference)];
    }
    assert d6 + {"$ref"} == SUBSCHEMA_KEYWORDS + LIMIT_KEYWORDS + {"required", "type", "$ref"};
  }

  method BuildRequired(s: Schema) returns (names: seq<Json>)
    requires s.required != []
    ensures Keyword(s, "required") == Some(Arr(names))
  {
    names := [];
    for i := 0 to |s.required|
      invariant |names| == i && forall j | 0 <= j < i :: names[j] == Str(s.required[j])
    {
      names := names + [Str(s.required[i])];
    }
    assert names == seq(|s.required|, i requires 0 <= i < |s.required| => Str(s.required[i]));
  }
}
