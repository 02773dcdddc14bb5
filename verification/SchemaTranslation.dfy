/** The translation of OpenAPI schemas into JSON Schemas, and what each of the two accepts. */
module SchemaTranslation {
  import opened Json
  import opened OpenApi

  // The translation.

  const KEYWORDS := {"additionalProperties", "anyOf", "enum", "format", "items", "maxLength", "pattern", "properties",
                     "required", "type", "$ref"}

  const NULL_SCHEMA := Obj(map["const" := Null])

  function Translate(s: Schema): (doc: Json)
    decreases s, 1
  {
    Obj(map k | k in KEYWORDS && Keyword(s, k).Some? :: Keyword(s, k).value)
  }

  /** What the translation says under one keyword. */
  function Keyword(s: Schema, k: string): Option<Json>
    decreases s, 0
  {
    match k
    case "additionalProperties" =>
      if !s.additionalPropertiesAllowed then Some(Bool(false))
      else if s.additionalProperties.Some? then Some(Translate(s.additionalProperties.value))
      else None
    case "anyOf" =>
      if s.anyOf == [] then None
      else
        var branches := seq(|s.anyOf|, i requires 0 <= i < |s.anyOf| => Translate(s.anyOf[i]));
        Some(Arr(if s.nullable then branches + [NULL_SCHEMA] else branches))
    case "enum" => if s.enumeration.None? || s.enumeration.value == [] then None else Some(Arr(s.enumeration.value))
    case "format" => if s.format == "" then None else Some(Str(s.format))
    case "items" => if s.items.None? then None else Some(Translate(s.items.value))
    case "maxLength" => if s.maxLength == 0 then None else Some(Num(s.maxLength as real))
    case "pattern" => if s.pattern == "" then None else Some(Str(s.pattern))
    case "properties" =>
      if s.properties == map[] then None else Some(Obj(map k | k in s.properties :: Translate(s.properties[k])))
    case "required" =>
      if s.required == [] then None else Some(Arr(seq(|s.required|, i requires 0 <= i < |s.required| => Str(s.required[i]))))
    case "type" =>
      if s.kind == "" then None else Some(if s.nullable then Arr([Str(s.kind), Str("null")]) else Str(s.kind))
    case "$ref" => if s.reference == "" then None else Some(Str(s.reference))
    case _ => None
  }

  type Components = map<string, Schema>

  function TranslateComponents(components: Components): map<string, Json> {
    map name | name in components :: Translate(components[name])
  }

  // What both kinds of schema say about a value.

  /** How patterns are matched and formats checked. */
  datatype Env = Env(matches: (string, string) -> bool, formatted: (string, Json) -> bool)

  const SCHEMA_PATH := "#/components/schemas/"

  /** The component a reference names. */
  function ReferredName(reference: string): string {
    if SCHEMA_PATH <= reference then reference[|SCHEMA_PATH|..] else reference
  }

  predicate HasType(v: Json, kind: string) {
    match v
    case Null => kind == "null"
    case Bool(_) => kind == "boolean"
    case Num(n) => kind == "number" || (kind == "integer" && n == n.Floor as real)
    case Str(_) => kind == "string"
    case Arr(_) => kind == "array"
    case Obj(_) => kind == "object"
  }

  // JSON Schema: every keyword of the document has to accept the value. References are followed to a depth.

  predicate Has(doc: Json, k: string) {
    doc.Obj? && k in doc.fields
  }

  predicate TypeAccepts(doc: Json, v: Json) {
    Has(doc, "type") ==>
      match doc.fields["type"]
      case Str(kind) => HasType(v, kind)
      case Arr(kinds) => exists i | 0 <= i < |kinds| :: kinds[i].Str? && HasType(v, kinds[i].s)
      case _ => false
  }

  /** The keywords that look at the value itself. */
  predicate SimpleAccepts(env: Env, doc: Json, v: Json) {
    && TypeAccepts(doc, v)
    && (Has(doc, "enum") ==> doc.fields["enum"].Arr? && v in doc.fields["enum"].items)
    && (Has(doc, "const") ==> v == doc.fields["const"])
    && (Has(doc, "format") && v != Null ==> doc.fields["format"].Str? && env.formatted(doc.fields["format"].s, v))
    && (Has(doc, "maxLength") && v.Str? ==> doc.fields["maxLength"].Num? && |v.s| as real <= doc.fields["maxLength"].n)
    && (Has(doc, "pattern") && v.Str? ==> doc.fields["pattern"].Str? && env.matches(doc.fields["pattern"].s, v.s))
    && (Has(doc, "required") && v.Obj? ==>
          doc.fields["required"].Arr? &&
          forall i | 0 <= i < |doc.fields["required"].items| ::
            doc.fields["required"].items[i].Str? && doc.fields["required"].items[i].s in v.fields)
  }

  predicate AnyOfAccepts(env: Env, root: map<string, Json>, doc: Json, v: Json, depth: nat)
    decreases depth, doc, 0
  {
    Has(doc, "anyOf") ==>
      doc.fields["anyOf"].Arr? &&
      exists i | 0 <= i < |doc.fields["anyOf"].items| :: Accepts(env, root, doc.fields["anyOf"].items[i], v, depth)
  }

  predicate ItemsAccept(env: Env, root: map<string, Json>, doc: Json, v: Json, depth: nat)
    decreases depth, doc, 0
  {
    Has(doc, "items") && v.Arr? ==> forall i | 0 <= i < |v.items| :: Accepts(env, root, doc.fields["items"], v.items[i], depth)
  }

  predicate Declares(doc: Json, k: string) {
    Has(doc, "properties") && Has(doc.fields["properties"], k)
  }

  predicate PropertiesAccept(env: Env, root: map<string, Json>, doc: Json, v: Json, depth: nat)
    decreases depth, doc, 0
  {
    v.Obj? ==> forall k | k in v.fields && Declares(doc, k) ::
                 Accepts(env, root, doc.fields["properties"].fields[k], v.fields[k], depth)
  }

  predicate AdditionalAccept(env: Env, root: map<string, Json>, doc: Json, v: Json, depth: nat)
    decreases depth, doc, 0
  {
    Has(doc, "additionalProperties") && v.Obj? ==>
      forall k | k in v.fields && !Declares(doc, k) ::
        match doc.fields["additionalProperties"]
        case Bool(allowed) => allowed
        case Obj(_) => Accepts(env, root, doc.fields["additionalProperties"], v.fields[k], depth)
        case _ => false
  }

  predicate ReferenceAccepts(env: Env, root: map<string, Json>, doc: Json, v: Json, depth: nat)
    decreases depth, doc, 0
  {
    Has(doc, "$ref") && depth > 0 ==>
      && doc.fields["$ref"].Str?
      && ReferredName(doc.fields["$ref"].s) in root
      && Accepts(env, root, root[ReferredName(doc.fields["$ref"].s)], v, depth - 1)
  }

  predicate Accepts(env: Env, root: map<string, Json>, doc: Json, v: Json, depth: nat)
    decreases depth, doc, 1
  {
    && SimpleAccepts(env, doc, v)
    && AnyOfAccepts(env, root, doc, v, depth)
    && ItemsAccept(env, root, doc, v, depth)
    && PropertiesAccept(env, root, doc, v, depth)
    && AdditionalAccept(env, root, doc, v, depth)
    && ReferenceAccepts(env, root, doc, v, depth)
  }

  // OpenAPI: a nullable schema accepts null; any other value has to meet everything the schema says.

  predicate SimplyMeets(env: Env, s: Schema, v: Json) {
    && (s.kind != "" ==> HasType(v, s.kind))
    && (s.enumeration.Some? && s.enumeration.value != [] ==> v in s.enumeration.value)
    && (s.format != "" && v != Null ==> env.formatted(s.format, v))
    && (s.maxLength != 0 && v.Str? ==> |v.s| <= s.maxLength)
    && (s.pattern != "" && v.Str? ==> env.matches(s.pattern, v.s))
    && (v.Obj? ==> forall k | k in s.required :: k in v.fields)
  }

  predicate Conforms(env: Env, components: Components, s: Schema, v: Json, depth: nat)
    decreases depth, s
  {
    (s.nullable && v == Null) || (
      && SimplyMeets(env, s, v)
      && (s.anyOf != [] ==> exists i | 0 <= i < |s.anyOf| :: Conforms(env, components, s.anyOf[i], v, depth))
      && (s.items.Some? && v.Arr? ==> forall i | 0 <= i < |v.items| :: Conforms(env, components, s.items.value, v.items[i], depth))
      && (v.Obj? ==> forall k | k in v.fields ::
            if k in s.properties then Conforms(env, components, s.properties[k], v.fields[k], depth)
            else
              && s.additionalPropertiesAllowed
              && (s.additionalProperties.Some? ==> Conforms(env, components, s.additionalProperties.value, v.fields[k], depth)))
      && (s.reference != "" && depth > 0 ==>
            && ReferredName(s.reference) in components
            && Conforms(env, components, components[ReferredName(s.reference)], v, depth - 1)))
  }
}
