/**
 * The name lookup of `ProductImplRepository.getName`: one outbound call to the product
 * information service, sorted into a name or a failure.
 */
module NameLookup {
  import opened Wrappers
  import opened Errors
  import opened JsonTree

  /** What the outbound `getForEntity` call comes back with. */
  datatype Upstream =
    /** A successful response and its body, which is null when the response has none. */
    | Success(body: Option<string>)
    /** `HttpClientErrorException`: the service answered with a 4xx status. */
    | ClientError(status: ClientStatus)
    /** Any other exception from the call (a 5xx status, a connection failure). */
    | OtherFailure

  /**
   * The name service as the core sees it: the outcome of the call for each id, and Jackson's
   * `readTree`, which yields a tree or fails on an unparseable body.
   */
  datatype NameService = NameService(fetch: string -> Upstream, readTree: string -> Option<JsonNode>)

  /** The keys of the title's path `product.item.product_description.title`. */
  const PRODUCT := "product"
  const ITEM := "item"
  const PRODUCT_DESCRIPTION := "product_description"
  const TITLE := "title"

  /** The text found at the title's path, with Jackson's missing-node treatment of absent keys. */
  function Title(root: JsonNode): string
  {
    AsText(Path(Path(Path(Path(root, PRODUCT), ITEM), PRODUCT_DESCRIPTION), TITLE))
  }

  /**
   * `getName(id)`. A 404 becomes `NotFound`, any other client error is rethrown with its status,
   * other call failures pass through. A response without a body makes `readTree` throw an
   * unchecked exception that the `IOException` handler does not catch. An unparseable body or an
   * empty title is a read failure, and otherwise the title is the name.
   */
  function GetName(id: string, svc: NameService): (r: Result<string, Failure>)
    ensures r == Err(NotFound) <==> svc.fetch(id) == ClientError(NOT_FOUND)
    ensures forall s: ClientStatus :: s != NOT_FOUND ==>
              (r == Err(HttpClientError(s)) <==> svc.fetch(id) == ClientError(s))
    ensures r == Err(UpstreamFailure) <==> svc.fetch(id) == OtherFailure
    ensures r == Err(NullReference) <==> svc.fetch(id) == Success(None)
    ensures r == Err(ReadFailure) <==>
              && svc.fetch(id).Success? && svc.fetch(id).body.Some?
              && (|| svc.readTree(svc.fetch(id).body.value).None?
                  || Title(svc.readTree(svc.fetch(id).body.value).value) == "")
    ensures r.Ok? <==>
              && svc.fetch(id).Success? && svc.fetch(id).body.Some?
              && svc.readTree(svc.fetch(id).body.value).Some?
              && Title(svc.readTree(svc.fetch(id).body.value).value) != ""
    ensures r.Ok? ==> r.value != "" && r.value == Title(svc.readTree(svc.fetch(id).body.value).value)
  {
    match svc.fetch(id)
    case ClientError(status) =>
      if status != NOT_FOUND then Err(HttpClientError(status)) else Err(NotFound)
    case OtherFailure => Err(UpstreamFailure)
    case Success(None) => Err(NullReference)
    case Success(Some(body)) =>
      match svc.readTree(body)
      case None => Err(ReadFailure)
      case Some(root) =>
        var name := Title(root);
        if name == "" then Err(ReadFailure) else Ok(name)
  }

  /** The document shape the service answers with, holding `title` at the title's path. */
  function TitleDocument(title: JsonNode): JsonNode
  {
    Obj(map[PRODUCT := Obj(map[ITEM := Obj(map[PRODUCT_DESCRIPTION := Obj(map[TITLE := title])])])])
  }

  /** A non-empty string title in the expected shape is exactly the name returned. */
  lemma GetNameReadsTitle(id: string, svc: NameService, t: string)
    requires svc.fetch(id).Success? && svc.fetch(id).body.Some?
    requires svc.readTree(svc.fetch(id).body.value) == Some(TitleDocument(Str(t)))
    ensures t != "" ==> GetName(id, svc) == Ok(t)
    ensures t == "" ==> GetName(id, svc) == Err(ReadFailure)
  {
  }

  /** A JSON `null` title is not an empty one: Jackson's `asText` turns it into the name "null". */
  lemma GetNameOfNullTitle(id: string, svc: NameService)
    requires svc.fetch(id).Success? && svc.fetch(id).body.Some?
    requires svc.readTree(svc.fetch(id).body.value) == Some(TitleDocument(Null))
    ensures GetName(id, svc) == Ok("null")
  {
  }

  /** A well-formed body that lacks any key on the title's path is a read failure, not `NotFound`. */
  lemma GetNameMissingTitle(id: string, svc: NameService, root: JsonNode)
    requires svc.fetch(id).Success? && svc.fetch(id).body.Some?
    requires svc.readTree(svc.fetch(id).body.value) == Some(root)
    requires !root.Obj? || PRODUCT !in root.fields
    ensures GetName(id, svc) == Err(ReadFailure)
  {
  }
}
