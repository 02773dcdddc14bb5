/** The translation of a schema accepts the values the schema accepts. */
module SchemaMeaning {
  import opened Json
  import opened OpenApi
  import opened SchemaTranslation

  /** The enumeration, if any, lists null. */
  predicate ListsNull(s: Schema) {
    s.enumeration.Some? && s.enumeration.value != [] ==> Null in s.enumeration.value
  }

  /** The null a nullable schema accepts gets through its enumeration, and it has no reference. */
  predicate NullClear(s: Schema) {
    s.nullable ==> ListsNull(s) && s.reference == ""
  }

  ghost predicate PartsClear(s: Schema)
    decreases s, 0
  {
    && (forall i | 0 <= i < |s.anyOf| :: Clear(s.anyOf[i]))
    && (s.items.Some? ==> Clear(s.items.value))
    && (s.additionalProperties.Some? ==> Clear(s.additionalProperties.value))
    && (forall k | k in s.properties :: Clear(s.properties[k]))
  }

  ghost predicate Clear(s: Schema)
    decreases s, 1
  {
    NullClear(s) && PartsClear(s)
  }

  ghost predicate AllClear(components: Components) {
    forall name | name in components :: Clear(components[name])
  }

  lemma HasKeyword(s: Schema, k: string)
    requires k in KEYWORDS
    ensures Has(Translate(s), k) <==> Keyword(s, k).Some?
    ensures Has(Translate(s), k) ==> Translate(s).fields[k] == Keyword(s, k).value
  {
    hide Keyword;
  }

  lemma SimpleAgrees(env: Env, s: Schema, v: Json)
    requires v != Null || !s.nullable
    ensures SimpleAccepts(env, Translate(s), v) <==> SimplyMeets(env, s, v)
  {
    HasKeyword(s, "type");
    HasKeyword(s, "enum");
    HasKeyword(s, "format");
    HasKeyword(s, "maxLength");
    HasKeyword(s, "pattern");
    HasKeyword(s, "required");
    assert !Has(Translate(s), "const");
    hide Translate;
    TypeAgrees(s, v);
    RequiredAgrees(s, v);
  }

  lemma TypeAgrees(s: Schema, v: Json)
    requires v != Null || !s.nullable
    ensures TypeAccepts(Translate(s), v) <==> (s.kind != "" ==> HasType(v, s.kind))
  {
    HasKeyword(s, "type");
    hide Translate, HasType;
    var kinds := [Str(s.kind), Str("null")];
    assert s.nullable ==> !HasType(v, "null") by { OnlyNull(v); }
    assert kinds[0].Str? && kinds[0].s == s.kind;
  }

  lemma OnlyNull(v: Json)
    ensures HasType(v, "null") <==> v == Null
  {
  }

  lemma RequiredAgrees(s: Schema, v: Json)
    ensures var doc := Translate(s);
      (Has(doc, "required") && v.Obj? ==>
        doc.fields["required"].Arr? &&
        forall i | 0 <= i < |doc.fields["required"].items| ::
          doc.fields["required"].items[i].Str? && doc.fields["required"].items[i].s in v.fields)
      <==> (v.Obj? ==> forall k | k in s.required :: k in v.fields)
  {
    HasKeyword(s, "required");
    hide Translate;
    if s.required != [] && v.Obj? {
      var names := Translate(s).fields["required"].items;
      assert |names| == |s.required| && forall i | 0 <= i < |names| :: names[i] == Str(s.required[i]);
    }
  }

  /** The two accept the same values, down to the given depth of references. */
  ghost predicate Agree(env: Env, components: Components, s: Schema, depth: nat) {
    forall v: Json :: Accepts(env, TranslateComponents(components), Translate(s), v, depth) <==> Conforms(env, components, s, v, depth)
  }

  ghost predicate PartsAgree(env: Env, components: Components, s: Schema, depth: nat) {
    && (forall i | 0 <= i < |s.anyOf| :: Agree(env, components, s.anyOf[i], depth))
    && (s.items.Some? ==> Agree(env, components, s.items.value, depth))
    && (s.additionalProperties.Some? ==> Agree(env, components, s.additionalProperties.value, depth))
    && (forall k | k in s.properties :: Agree(env, components, s.properties[k], depth))
    && (s.reference != "" && depth > 0 && ReferredName(s.reference) in components ==>
          Agree(env, components, components[ReferredName(s.reference)], depth - 1))
  }

  lemma AnyOfAgrees(env: Env, components: Components, s: Schema, v: Json, depth: nat)
    requires PartsAgree(env, components, s, depth) && (v != Null || !s.nullable)
    ensures AnyOfAccepts(env, TranslateComponents(components), Translate(s), v, depth) <==>
      (s.anyOf != [] ==> exists i | 0 <= i < |s.anyOf| :: Conforms(env, components, s.anyOf[i], v, depth))
  {
    hide Translate, Accepts, Conforms;
    HasKeyword(s, "anyOf");
    NullSchema(env, TranslateComponents(components), v, depth);
    if s.anyOf != [] {
      var docs := Translate(s).fields["anyOf"].items;
      assert |docs| == |s.anyOf| + if s.nullable then 1 else 0;
      assert forall i | 0 <= i < |s.anyOf| :: docs[i] == Translate(s.anyOf[i]);
      assert s.nullable ==> docs[|s.anyOf|] == NULL_SCHEMA;
      forall i | 0 <= i < |s.anyOf|
        ensures Accepts(env, TranslateComponents(components), docs[i], v, depth) <==> Conforms(env, components, s.anyOf[i], v, depth)
      {
        assert Agree(env, components, s.anyOf[i], depth);
      }
    }
  }

  lemma NullSchema(env: Env, root: map<string, Json>, v: Json, depth: nat)
    ensures Accepts(env, root, NULL_SCHEMA, v, depth) <==> v == Null
  {
    assert forall k | Has(NULL_SCHEMA, k) :: k == "const";
  }

  lemma ItemsAgree(env: Env, components: Components, s: Schema, v: Json, depth: nat)
    requires PartsAgree(env, components, s, depth)
    ensures ItemsAccept(env, TranslateComponents(components), Translate(s), v, depth) <==>
      (s.items.Some? && v.Arr? ==> forall i | 0 <= i < |v.items| :: Conforms(env, components, s.items.value, v.items[i], depth))
  {
    HasKeyword(s, "items");
    hide Translate, Accepts, Conforms;
  }

  lemma FieldsAgree(env: Env, components: Components, s: Schema, v: Json, depth: nat)
    requires PartsAgree(env, components, s, depth)
    ensures
      PropertiesAccept(env, TranslateComponents(components), Translate(s), v, depth) &&
      AdditionalAccept(env, TranslateComponents(components), Translate(s), v, depth) <==>
      (v.Obj? ==> forall k | k in v.fields ::
        if k in s.properties then Conforms(env, components, s.properties[k], v.fields[k], depth)
        else
          && s.additionalPropertiesAllowed
          && (s.additionalProperties.Some? ==> Conforms(env, components, s.additionalProperties.value, v.fields[k], depth)))
  {
    hide Translate, Accepts, Conforms;
    HasKeyword(s, "properties");
    HasKeyword(s, "additionalProperties");
    var doc := Translate(s);
    assert s.additionalProperties.Some? ==> Translate(s.additionalProperties.value).Obj? by { TranslatesToObject(s); }
    if v.Obj? {
      forall k | k in v.fields
        ensures Declares(doc, k) <==> k in s.properties
        ensures Declares(doc, k) ==> doc.fields["properties"].fields[k] == Translate(s.properties[k])
        ensures k in s.properties ==>
          (Accepts(env, TranslateComponents(components), Translate(s.properties[k]), v.fields[k], depth) <==>
           Conforms(env, components, s.properties[k], v.fields[k], depth))
      {
      }
    }
  }

  lemma TranslatesToObject(s: Schema)
    ensures s.additionalProperties.Some? ==> Translate(s.additionalProperties.value).Obj?
  {
  }

  lemma ReferenceAgrees(env: Env, components: Components, s: Schema, v: Json, depth: nat)
    requires PartsAgree(env, components, s, depth)
    ensures ReferenceAccepts(env, TranslateComponents(components), Translate(s), v, depth) <==>
      (s.reference != "" && depth > 0 ==>
        && ReferredName(s.reference) in components
        && Conforms(env, components, components[ReferredName(s.reference)], v, depth - 1))
  {
    HasKeyword(s, "$ref");
    hide Translate, Accepts, Conforms, ReferredName;
  }

  /** A value other than the null of a nullable schema is judged alike. */
  lemma ValueAgrees(env: Env, components: Components, s: Schema, v: Json, depth: nat)
    requires PartsAgree(env, components, s, depth) && (v != Null || !s.nullable)
    ensures Accepts(env, TranslateComponents(components), Translate(s), v, depth) <==> Conforms(env, components, s, v, depth)
  {
    SimpleAgrees(env, s, v);
    AnyOfAgrees(env, components, s, v, depth);
    ItemsAgree(env, components, s, v, depth);
    FieldsAgree(env, components, s, v, depth);
    ReferenceAgrees(env, components, s, v, depth);
    hide Translate, SimpleAccepts, SimplyMeets, AnyOfAccepts, ItemsAccept, PropertiesAccept, AdditionalAccept, ReferenceAccepts;
  }

  /** Null under a nullable schema is stopped by an enumeration that does not list it, or by the reference. */
  lemma NullAgrees(env: Env, components: Components, s: Schema, depth: nat)
    requires PartsAgree(env, components, s, depth) && s.nullable
    ensures Accepts(env, TranslateComponents(components), Translate(s), Null, depth) <==>
      && ListsNull(s)
      && (s.reference != "" && depth > 0 ==>
            && ReferredName(s.reference) in components
            && Conforms(env, components, components[ReferredName(s.reference)], Null, depth - 1))
  {
    var root := TranslateComponents(components);
    ReferenceAgrees(env, components, s, Null, depth);
    NullSimple(env, s);
    assert AnyOfAccepts(env, root, Translate(s), Null, depth) by {
      HasKeyword(s, "anyOf");
      NullSchema(env, root, Null, depth);
      hide Translate, Accepts;
      if s.anyOf != [] {
        var docs := Translate(s).fields["anyOf"].items;
        assert docs[|s.anyOf|] == NULL_SCHEMA;
      }
    }
    hide Translate, SimpleAccepts, ReferenceAccepts, Conforms, ListsNull;
  }

  lemma NullSimple(env: Env, s: Schema)
    requires s.nullable
    ensures SimpleAccepts(env, Translate(s), Null) <==> ListsNull(s)
  {
    HasKeyword(s, "type");
    HasKeyword(s, "enum");
    assert !Has(Translate(s), "const");
    hide Translate;
    var kinds := [Str(s.kind), Str("null")];
    assert kinds[1] == Str("null") && HasType(Null, "null");
  }

  /**
   * When the parts of a schema are translated faithfully, so is the schema, except that a nullable schema
   * also needs its enumeration and its reference to let null through.
   */
  lemma NodeExact(env: Env, components: Components, s: Schema, depth: nat)
    requires PartsAgree(env, components, s, depth)
    ensures Agree(env, components, s, depth) <==>
      (s.nullable ==>
        && ListsNull(s)
        && (s.reference != "" && depth > 0 ==>
              && ReferredName(s.reference) in components
              && Conforms(env, components, components[ReferredName(s.reference)], Null, depth - 1)))
  {
    forall v: Json | v != Null || !s.nullable
      ensures Accepts(env, TranslateComponents(components), Translate(s), v, depth) <==> Conforms(env, components, s, v, depth)
    {
      ValueAgrees(env, components, s, v, depth);
    }
    if s.nullable {
      NullAgrees(env, components, s, depth);
      assert Conforms(env, components, s, Null, depth);
    }
    hide Translate, Accepts, Conforms, ListsNull, PartsAgree;
  }

  /**
   * The translation preserves meaning: if no nullable schema has a reference or an enumeration without null,
   * the translated schema accepts exactly the values the schema accepts.
   */
  lemma {:induction false} TranslationPreservesMeaning(env: Env, components: Components, s: Schema, depth: nat)
    requires Clear(s) && AllClear(components)
    ensures Agree(env, components, s, depth)
    decreases depth, s
  {
    forall i | 0 <= i < |s.anyOf| ensures Agree(env, components, s.anyOf[i], depth) {
      TranslationPreservesMeaning(env, components, s.anyOf[i], depth);
    }
    if s.items.Some? {
      TranslationPreservesMeaning(env, components, s.items.value, depth);
    }
    if s.additionalProperties.Some? {
      TranslationPreservesMeaning(env, components, s.additionalProperties.value, depth);
    }
    forall k | k in s.properties ensures Agree(env, components, s.properties[k], depth) {
      TranslationPreservesMeaning(env, components, s.properties[k], depth);
    }
    if depth > 0 && ReferredName(s.reference) in components {
      TranslationPreservesMeaning(env, components, components[ReferredName(s.reference)], depth - 1);
    }
    hide Agree, Conforms, ReferredName;
    NodeExact(env, components, s, depth);
  }

  // Two schemas whose null is lost: one lists only "a", the other refers to a component of strings.

  const NULLABLE_A := EMPTY_SCHEMA.(nullable := true, kind := "string", enumeration := Some([Str("a")]))

  const NULLABLE_REFERENCE := EMPTY_SCHEMA.(nullable := true, reference := SCHEMA_PATH + "name")

  const NAMES: Components := map["name" := EMPTY_SCHEMA.(kind := "string")]

  /** The null of the first is lost to its enumeration, at every depth. */
  lemma NullNotListed(env: Env, components: Components, depth: nat)
    ensures Conforms(env, components, NULLABLE_A, Null, depth)
    ensures !Accepts(env, TranslateComponents(components), Translate(NULLABLE_A), Null, depth)
  {
    hide Translate, Accepts, Agree, ReferredName;
    NullAgrees(env, components, NULLABLE_A, depth);
  }

  /** The null of the second is lost as soon as its reference is followed. */
  lemma NullNotReferred(env: Env, depth: nat)
    ensures Conforms(env, NAMES, NULLABLE_REFERENCE, Null, depth)
    ensures Accepts(env, TranslateComponents(NAMES), Translate(NULLABLE_REFERENCE), Null, depth) <==> depth == 0
  {
    hide Translate, Accepts, Agree, ReferredName;
    ReferredIs("name");
    if depth > 0 {
      TranslationPreservesMeaning(env, NAMES, NAMES["name"], depth - 1);
    }
    NullAgrees(env, NAMES, NULLABLE_REFERENCE, depth);
  }

  lemma ReferredIs(name: string)
    ensures ReferredName(SCHEMA_PATH + name) == name
  {
  }
}
