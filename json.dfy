/** The part of Jackson's tree model that the core relies on. */
module JsonTree {

  /**
   * A Jackson `JsonNode`. `Missing` is Jackson's `MissingNode`, which `path` yields for an absent key.
   * A number keeps two texts: `literal`, the token as written in the document, and `rendered`,
   * Jackson's rendering of its value (`1.50` is written "1.50" and renders as "1.5").
   */
  datatype JsonNode =
    | Obj(fields: map<string, JsonNode>)
    | Arr(items: seq<JsonNode>)
    | Str(text: string)
    | Num(literal: string, rendered: string)
    | Bool(b: bool)
    | Null
    | Missing

  /** `JsonNode.path(key)`: the child of an object under `key`, and `MissingNode` in every other case. */
  function Path(n: JsonNode, key: string): (r: JsonNode)
    ensures r != Missing ==> n.Obj? && key in n.fields && r == n.fields[key]
    ensures n.Obj? && key in n.fields ==> r == n.fields[key]
  {
    if n.Obj? && key in n.fields then n.fields[key] else Missing
  }

  /**
   * `JsonNode.asText()`: the text of a string node; for a number, Jackson's rendering of its value
   * (`rendered`, not the literal as written); "true" or "false" for a
   * boolean; "null" for a JSON null; and "" for objects, arrays and the missing node.
   */
  function AsText(n: JsonNode): (r: string)
    ensures n.Null? ==> r == "null"
    ensures n.Obj? || n.Arr? || n.Missing? ==> r == ""
    ensures n.Num? ==> r == n.rendered
    ensures r == "" ==> n.Obj? || n.Arr? || n.Missing? || n == Str("") || (n.Num? && n.rendered == "")
  {
    match n
    case Str(t) => t
    case Num(_, t) => t
    case Bool(b) => if b then "true" else "false"
    case Null => "null"
    case Obj(_) => ""
    case Arr(_) => ""
    case Missing => ""
  }
}
