/** The product service: `getProducts` and `searchProducts` send a GET
    through the client and decode the response envelope, which the server
    sends either nested (`{data: {products: [...]}}`) or flat
    (`{products: [...]}`). */
module ProductService {
  import opened Wrappers
  import opened Json
  import Client
  import Messages

  const HomeList: string := "/home"
  const HomeSearch: string := "/search"

  /** The page to ask for and its size. */
  datatype PaginationParams = PaginationParams(page: int, perPage: int)

  /** What the service rejects with: the client's error unchanged, an
      envelope of the wrong shape (`isValidationError`, message "Thử lại"),
      or the `TypeError` of reading a property of a null body. */
  datatype ServiceError =
    | Transport(error: Client.ClientError)
    | ValidationError(message: string)
    | TypeError

  /** `body.data` is a truthy object (arrays included). */
  predicate HasNested(body: Json) {
    var data := Field(body, "data");
    data.Some? && IsObjectLike(data.value)
  }

  /** `v.products` is a (truthy) array. */
  predicate HasProducts(v: Json) {
    IsArrayField(Field(v, "products"))
  }

  /** The envelope decoder shared by `getProducts` and `searchProducts`. */
  function Decode(body: Json): (r: Result<Json, ServiceError>)
    ensures r.Ok? ==> HasProducts(r.value)
    ensures r == Err(TypeError) <==> body.Null?
    ensures r.Err? && !body.Null? ==> r.error == ValidationError(Messages.Retry)
  {
    if body.Null? then Err(TypeError)
    else if HasNested(body) then
      var data := Field(body, "data").value;
      if HasProducts(data) then Ok(data) else Err(ValidationError(Messages.Retry))
    else if HasProducts(body) then Ok(body)
    else Err(ValidationError(Messages.Retry))
  }

  /** The decoder applied to what the client settles with: a response body
      is decoded; a client error is rethrown unchanged. */
  function Receive(reply: Result<Client.Response, Client.ClientError>): (r: Result<Json, ServiceError>)
    ensures reply.Err? <==> r.Err? && r.error.Transport?
    ensures reply.Err? ==> r.error.error == reply.error
    ensures reply.Ok? ==> r == Decode(reply.value.body)
  {
    match reply
    case Ok(response) => Decode(response.body)
    case Err(e) => Err(Transport(e))
  }

  /** The query parameters of `getProducts`. */
  function ListParams(params: PaginationParams): map<string, Json> {
    map["page" := Num(params.page), "per_page" := Num(params.perPage)]
  }

  /** The query parameters of `searchProducts`. */
  function SearchParams(keyword: string, params: PaginationParams): map<string, Json> {
    map["q" := Str(keyword), "per_page" := Num(params.perPage), "page" := Num(params.page)]
  }

  // ---------------------------------------------------------------------
  // Properties of the decoder

  /** The nested shape takes precedence: when `body.data` is an object, the
      result depends on it alone, whatever the top level holds. */
  lemma NestedTakesPrecedence(body: Json)
    requires body.Obj? && "data" in body.fields && (body.fields["data"].Obj? || body.fields["data"].Arr?)
    ensures var data := body.fields["data"];
      Decode(body) == if HasProducts(data) then Ok(data) else Err(ValidationError(Messages.Retry))
  {
  }

  /** A nested object without a products array is rejected even when the top
      level has one. */
  lemma NestedWithoutProductsRejected(flat: seq<Json>, data: map<string, Json>)
    requires "products" !in data
    ensures Decode(Obj(map["data" := Obj(data), "products" := Arr(flat)])) == Err(ValidationError(Messages.Retry))
  {
    var body := Obj(map["data" := Obj(data), "products" := Arr(flat)]);
    assert Field(body, "data") == Some(Obj(data));
  }

  /** Without a nested object, a top-level products array accepts the body
      itself. */
  lemma FlatEnvelopeAccepted(body: Json)
    requires !body.Null? && !HasNested(body) && HasProducts(body)
    ensures Decode(body) == Ok(body)
  {
  }

  /** Exactly the two envelope shapes decode; everything else is rejected,
      and no malformed body becomes an empty page. */
  lemma DecodeAcceptsExactlyTwoShapes(body: Json)
    ensures Decode(body).Ok? <==>
      !body.Null? && (if HasNested(body) then HasProducts(Field(body, "data").value) else HasProducts(body))
  {
  }

  /** Both envelopes of the same products decode to the same value. */
  lemma EnvelopesAgree(products: seq<Json>)
    ensures var page := Obj(map["products" := Arr(products)]);
      Decode(Obj(map["data" := page])) == Decode(page) == Ok(page)
  {
    var page := Obj(map["products" := Arr(products)]);
    assert Field(Obj(map["data" := page]), "data") == Some(page);
    assert Field(page, "products") == Some(Arr(products));
    assert Field(page, "data") == None;
  }

  /** An empty products array is accepted: it is an array, and arrays are
      truthy. */
  lemma EmptyPageAccepted()
    ensures Decode(Obj(map["products" := Arr([])])).Ok?
  {
    var body := Obj(map["products" := Arr([])]);
    assert Field(body, "data") == None;
    assert Field(body, "products") == Some(Arr([]));
  }

  // ---------------------------------------------------------------------
  // The two calls

  /** `getProducts(params)`. */
  method GetProducts(client: Client.ApiClient, params: PaginationParams)
    returns (r: Result<Json, ServiceError>)
    modifies client
    ensures var e := Client.Dispatch(old(client.store), Client.NewRequest(HomeList, ListParams(params)),
                                     client.replies, |old(client.sent)|);
      && r == Receive(e.result)
      && client.store == e.store && client.sent == old(client.sent) + e.sent
  {
    var reply := client.Request(Client.NewRequest(HomeList, ListParams(params)));
    r := Receive(reply);
  }

  /** `searchProducts(keyword, params)`: the same decoder on `/search` with the
      keyword as `q`. */
  method SearchProducts(client: Client.ApiClient, keyword: string, params: PaginationParams)
    returns (r: Result<Json, ServiceError>)
    modifies client
    ensures var e := Client.Dispatch(old(client.store), Client.NewRequest(HomeSearch, SearchParams(keyword, params)),
                                     client.replies, |old(client.sent)|);
      && r == Receive(e.result)
      && client.store == e.store && client.sent == old(client.sent) + e.sent
  {
    var reply := client.Request(Client.NewRequest(HomeSearch, SearchParams(keyword, params)));
    r := Receive(reply);
  }
}
