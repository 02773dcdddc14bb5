/** OpenAPI schemas, with the keywords the specification reader keeps. */
module OpenApi {
  import opened Json

  /** Absent strings, lists and maps are empty; `reference` is the `$ref` keyword and `kind` the `type` keyword. */
  datatype Schema = Schema(
    additionalProperties: Option<Schema>,
    additionalPropertiesAllowed: bool,
    anyOf: seq<Schema>,
    enumeration: Option<seq<Json>>,
    format: string,
    items: Option<Schema>,
    maxLength: int,
    nullable: bool,
    pattern: string,
    properties: map<string, Schema>,
    required: seq<string>,
    kind: string,
    reference: string)

  const EMPTY_SCHEMA := Schema(None, true, [], None, "", None, 0, false, "", map[], [], "", "")
}
