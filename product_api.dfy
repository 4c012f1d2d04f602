/**
  The data shapes and the request handlers of the product service, with the
  products file and its JSON codec replaced by an abstract file state.

  Every reader loads the whole file first: an absent file answers 404, a file
  that is not valid JSON answers 500, and only a well-formed file reaches the
  lookup. The codec is assumed to give back `id`, `name` and `data` unchanged.
*/
module ProductApi {

  datatype Option<+T> = None | Some(value: T)

  /** A JSON value, as the free-form `data` object of a product holds them. */
  datatype Json =
    | JNull
    | JBool(b: bool)
    | JNumber(n: int)
    | JString(s: string)
    | JArray(items: seq<Json>)
    | JObject(fields: map<string, Json>)

  /** ProductData: an identifier, a name and an optional JSON object. */
  datatype Product = Product(id: string, name: string, data: Option<map<string, Json>>)

  /** ProductList: the envelope `{"products": [...]}`. */
  datatype ProductList = ProductList(products: seq<Product>)

  /** ProductIDList: the envelope `{"ids": [...]}`. */
  datatype ProductIdList = ProductIdList(ids: seq<string>)

  /** What loading the products file finds. */
  datatype FileState = Absent | Malformed | Present(products: seq<Product>)

  /** The `detail` of an error response. */
  datatype Detail =
    | Message(text: string)
    // the set of requested ids reported as missing
    | MissingIds(ids: set<string>)
    // `str(e)` of an HTTPException with this status and detail, caught and re-raised
    | Reraised(status: int, inner: Detail)

  datatype HttpError = NotFound(detail: Detail) | Internal(detail: Detail)
  {
    function Status(): (s: int)
      ensures s == 404 <==> NotFound?
      ensures s == 500 <==> Internal?
    {
      if NotFound? then 404 else 500
    }
  }

  datatype Result<+T> = Ok(value: T) | Err(error: HttpError)

  const FileMissing: string := "Products file not found"
  const BadJson: string := "Unable to decode JSON data"
  const StoredMessage: string := "Products stored successfully."

  function ProductMissing(id: string): string
  {
    "Product with id " + id + " not found"
  }

  /** `set(ids)` */
  function ToSet(ids: seq<string>): set<string>
  {
    set x | x in ids
  }

  /** `{product["id"] for product in ps}` */
  function IdsOf(ps: seq<Product>): set<string>
  {
    set p | p in ps :: p.id
  }

  // ---------------------------------------------------------------------------
  // get_products

  /** Listing: the stored collection, wrapped and unchanged, or the error of the load. */
  function ListProducts(file: FileState): (r: Result<ProductList>)
    ensures file.Present? ==> r == Ok(ProductList(file.products))
    ensures file.Absent? ==> r == Err(NotFound(Message(FileMissing)))
    ensures file.Malformed? ==> r == Err(Internal(Message(BadJson)))
  {
    match file
    case Absent => Err(NotFound(Message(FileMissing)))
    case Malformed => Err(Internal(Message(BadJson)))
    case Present(ps) => Ok(ProductList(ps))
  }

  // ---------------------------------------------------------------------------
  // get_product

  /** The position of the first stored product whose id is `id`. */
  function FirstIndex(ps: seq<Product>, id: string): (r: Option<nat>)
    ensures r.None? <==> forall k | 0 <= k < |ps| :: ps[k].id != id
    ensures r.Some? ==> r.value < |ps| && ps[r.value].id == id
    ensures r.Some? ==> forall k | 0 <= k < r.value :: ps[k].id != id
  {
    if ps == [] then None
    else if ps[0].id == id then Some(0)
    else
      match FirstIndex(ps[1..], id)
      case None => None
      case Some(j) => Some(j + 1)
  }

  /** `p` sits at position `i` of `ps`, has id `id`, and no earlier product has that id. */
  ghost predicate FirstMatchAt(ps: seq<Product>, id: string, i: int, p: Product)
  {
    0 <= i < |ps| && ps[i] == p && p.id == id &&
    forall k | 0 <= k < i :: ps[k].id != id
  }

  /** The scan over the loaded list: the first match, or the 404 of the missing product. */
  function FindProduct(ps: seq<Product>, id: string): (r: Result<Product>)
    ensures r.Ok? <==> exists k | 0 <= k < |ps| :: ps[k].id == id
    ensures r.Ok? ==> exists i :: FirstMatchAt(ps, id, i, r.value)
    ensures r.Err? ==> r.error == NotFound(Message(ProductMissing(id)))
  {
    match FirstIndex(ps, id)
    case None => Err(NotFound(Message(ProductMissing(id))))
    case Some(i) =>
      assert FirstMatchAt(ps, id, i, ps[i]);
      Ok(ps[i])
  }

  /**
    Fetching one product, as intended: the load errors first, then the first
    match in stored order, and a 404 naming the id only when nothing matches.
  */
  function FetchProduct(file: FileState, id: string): (r: Result<Product>)
    ensures file.Absent? ==> r == Err(NotFound(Message(FileMissing)))
    ensures file.Malformed? ==> r == Err(Internal(Message(BadJson)))
    ensures file.Present? ==>
      (r == Err(NotFound(Message(ProductMissing(id)))) <==>
       forall k | 0 <= k < |file.products| :: file.products[k].id != id)
    ensures file.Present? ==> r.Ok? || r == Err(NotFound(Message(ProductMissing(id))))
    ensures file.Present? && r.Ok? ==> exists i :: FirstMatchAt(file.products, id, i, r.value)
  {
    match file
    case Absent => Err(NotFound(Message(FileMissing)))
    case Malformed => Err(Internal(Message(BadJson)))
    case Present(ps) => FindProduct(ps, id)
  }

  /**
    The handler `except Exception as e: raise HTTPException(500, str(e))`:
    it also catches the HTTPException that the try body raised itself.
  */
  function CatchAll<T>(r: Result<T>): (c: Result<T>)
    ensures c.Ok? <==> r.Ok?
    ensures r.Ok? ==> c == r
    ensures r.Err? ==> c.Err? && c.error.Status() == 500
  {
    match r
    case Ok(_) => r
    case Err(e) => Err(Internal(Reraised(e.Status(), e.detail)))
  }

  /**
    Fetching one product as the code is written: the 404 raised for a missing
    id is inside the try and is turned into a 500, so a well-formed file never
    yields a 404.
  */
  function FetchProductAsWritten(file: FileState, id: string): (r: Result<Product>)
    ensures r.Ok? <==> FetchProduct(file, id).Ok?
    ensures r.Ok? ==> r == FetchProduct(file, id)
    ensures r.Err? && r.error.Status() == 404 ==> file.Absent?
    ensures file.Present? && r.Err? ==> r.error == Internal(Reraised(404, Message(ProductMissing(id))))
  {
    match file
    case Absent => Err(NotFound(Message(FileMissing)))
    case Malformed => Err(Internal(Message(BadJson)))
    case Present(ps) => CatchAll(FindProduct(ps, id))
  }

  /** The counterexample: a missing id in a well-formed file gets 500, where 404 was meant. */
  lemma MissingProductAnswers500(id: string)
    ensures FetchProduct(Present([]), id).error.Status() == 404
    ensures FetchProductAsWritten(Present([]), id)
         == Err(Internal(Reraised(404, Message(ProductMissing(id)))))
  {
  }

  // ---------------------------------------------------------------------------
  // get_products_details

  /** The comprehension of the batch lookup: stored products whose id is requested. */
  function FilterByIds(ps: seq<Product>, ids: seq<string>): (r: seq<Product>)
    ensures |r| <= |ps|
    ensures forall p | p in r :: p in ps && p.id in ids
    ensures forall p | p in ps && p.id in ids :: p in r
  {
    if ps == [] then []
    else (if ps[0].id in ids then [ps[0]] else []) + FilterByIds(ps[1..], ids)
  }

  /** The filter keeps stored order: it distributes over concatenation. */
  lemma {:induction false} FilterAppend(a: seq<Product>, b: seq<Product>, ids: seq<string>)
    ensures FilterByIds(a + b, ids) == FilterByIds(a, ids) + FilterByIds(b, ids)
  {
    if a == [] {
      assert a + b == b;
    } else {
      assert (a + b)[1..] == a[1..] + b;
      FilterAppend(a[1..], b, ids);
    }
  }

  /** The filter keeps every copy of a requested product and no other product. */
  lemma {:induction false} FilterCounts(ps: seq<Product>, ids: seq<string>, p: Product)
    ensures multiset(FilterByIds(ps, ids))[p] == if p.id in ids then multiset(ps)[p] else 0
  {
    if ps != [] {
      assert ps == [ps[0]] + ps[1..];
      FilterCounts(ps[1..], ids, p);
    }
  }

  /** The ids the filter finds are the requested ids that are stored. */
  lemma IdsOfFilter(ps: seq<Product>, ids: seq<string>)
    ensures IdsOf(FilterByIds(ps, ids)) == ToSet(ids) * IdsOf(ps)
  {
  }

  /** `set(ids) - {product["id"] for product in found}` */
  function NotFoundIds(ids: seq<string>, found: seq<Product>): (r: set<string>)
    ensures forall x :: x in r <==> x in ids && forall p | p in found :: p.id != x
  {
    ToSet(ids) - IdsOf(found)
  }

  /**
    Lines 91-98 as written: success exactly when the number of matched stored
    products equals the number of requested ids; a failure reports the
    requested ids that no stored product has.
  */
  function CountCheck(ps: seq<Product>, ids: seq<string>): (r: Result<ProductList>)
    ensures r.Ok? <==> |FilterByIds(ps, ids)| == |ids|
    ensures r.Ok? ==> r.value.products == FilterByIds(ps, ids)
    ensures r.Err? ==> r.error == NotFound(MissingIds(ToSet(ids) - IdsOf(ps)))
  {
    var filtered := FilterByIds(ps, ids);
    if |filtered| != |ids| then
      IdsOfFilter(ps, ids);
      assert NotFoundIds(ids, filtered) == ToSet(ids) - IdsOf(ps);
      Err(NotFound(MissingIds(NotFoundIds(ids, filtered))))
    else
      Ok(ProductList(filtered))
  }

  /**
    The rule the comment above line 94 announces: fail exactly when some
    requested id has no stored product, and report those ids.
  */
  function SetCheck(ps: seq<Product>, ids: seq<string>): (r: Result<ProductList>)
    ensures r.Ok? <==> forall x | x in ids :: x in IdsOf(ps)
    ensures r.Ok? ==> r.value.products == FilterByIds(ps, ids)
    ensures r.Err? ==> r.error == NotFound(MissingIds(ToSet(ids) - IdsOf(ps)))
    ensures r.Err? ==> r.error.detail.ids != {}
    ensures r.Err? ==> forall x :: x in r.error.detail.ids <==> x in ids && x !in IdsOf(ps)
  {
    var filtered := FilterByIds(ps, ids);
    var missing := NotFoundIds(ids, filtered);
    IdsOfFilter(ps, ids);
    if missing != {} then
      assert missing == ToSet(ids) - IdsOf(ps);
      Err(NotFound(MissingIds(missing)))
    else
      assert forall x | x in ids :: x in ToSet(ids) && x !in missing;
      Ok(ProductList(filtered))
  }

  /** The batch lookup, as intended: the load errors first, then the set rule with a 404. */
  function FetchDetails(file: FileState, ids: seq<string>): (r: Result<ProductList>)
    ensures file.Absent? ==> r == Err(NotFound(Message(FileMissing)))
    ensures file.Malformed? ==> r == Err(Internal(Message(BadJson)))
    ensures file.Present? ==> (r.Ok? <==> forall x | x in ids :: x in IdsOf(file.products))
    ensures file.Present? && r.Ok? ==> r.value.products == FilterByIds(file.products, ids)
    ensures file.Present? && r.Err? ==>
      r.error == NotFound(MissingIds(ToSet(ids) - IdsOf(file.products)))
  {
    match file
    case Absent => Err(NotFound(Message(FileMissing)))
    case Malformed => Err(Internal(Message(BadJson)))
    case Present(ps) => SetCheck(ps, ids)
  }

  /**
    The batch lookup as the code is written: the count rule, and its 404 is
    caught by the generic handler and answered as 500.
  */
  function FetchDetailsAsWritten(file: FileState, ids: seq<string>): (r: Result<ProductList>)
    ensures file.Present? ==> (r.Ok? <==> |FilterByIds(file.products, ids)| == |ids|)
    ensures file.Present? && r.Ok? ==> r.value.products == FilterByIds(file.products, ids)
    ensures r.Err? && r.error.Status() == 404 ==> file.Absent?
    ensures file.Present? && r.Err? ==>
      r.error == Internal(Reraised(404, MissingIds(ToSet(ids) - IdsOf(file.products))))
  {
    match file
    case Absent => Err(NotFound(Message(FileMissing)))
    case Malformed => Err(Internal(Message(BadJson)))
    case Present(ps) => CatchAll(CountCheck(ps, ids))
  }

  /** The counterexample: a request for an id that is not stored gets 500, where 404 was meant. */
  lemma MissingIdsAnswer500()
    ensures FetchDetails(Present([]), ["z"]) == Err(NotFound(MissingIds({"z"})))
    ensures FetchDetailsAsWritten(Present([]), ["z"])
         == Err(Internal(Reraised(404, MissingIds({"z"}))))
  {
    assert ToSet(["z"]) == {"z"};
    assert IdsOf([]) == {};
    assert ToSet(["z"]) - IdsOf([]) == {"z"};
  }

  /** The three readers agree on a failed load and report it before any lookup. */
  lemma LoadErrorsFirst(file: FileState, id: string, ids: seq<string>)
    requires !file.Present?
    ensures ListProducts(file).Err?
    ensures FetchProduct(file, id) == Err(ListProducts(file).error)
    ensures FetchDetails(file, ids) == Err(ListProducts(file).error)
    ensures FetchProductAsWritten(file, id) == Err(ListProducts(file).error)
    ensures FetchDetailsAsWritten(file, ids) == Err(ListProducts(file).error)
    ensures ListProducts(file).error.Status() == if file.Absent? then 404 else 500
  {
  }
}
