/**
  The product service as an object: the products file is its one field,
  the readers leave it alone (none of them has a modifies clause) and
  storing overwrites it as a whole.
*/
module ProductService {
  import opened ProductApi

  class ProductStore {
    /** What the products file holds on disk. */
    var file: FileState

    constructor (initial: FileState)
      ensures file == initial
    {
      file := initial;
    }

    /** GET /products/: the stored collection, unchanged and in stored order. */
    method GetProducts() returns (r: Result<ProductList>)
      ensures r == ListProducts(file)
      ensures file.Present? ==> r == Ok(ProductList(file.products))
    {
      r := ListProducts(file);
    }

    /**
      POST /products/: replace the whole collection. `writeError` stands for
      the file failing to open for writing, which leaves it as it was.
    */
    method StoreProducts(body: ProductList, writeError: Option<string>) returns (r: Result<string>)
      modifies this
      ensures writeError.None? ==> file == Present(body.products) && r == Ok(StoredMessage)
      ensures writeError.None? ==> ListProducts(file) == Ok(body)
      ensures writeError.Some? ==>
        file == old(file) && r == Err(Internal(Message(writeError.value)))
    {
      match writeError
      case None =>
        file := Present(body.products);
        r := Ok(StoredMessage);
      case Some(e) =>
        r := Err(Internal(Message(e)));
    }

    /**
      GET /products/{item_id} as written: the load errors, then the scan,
      whose 404 for a missing id the generic handler turns into a 500.
    */
    method GetProduct(itemId: string) returns (r: Result<Product>)
      ensures r == FetchProductAsWritten(file, itemId)
    {
      if file.Present? {
        var found := ScanForId(file.products, itemId);
        r := CatchAll(found);
      } else {
        r := Err(ListProducts(file).error);
      }
    }

    /** GET /products/{item_id} as intended: the scan's 404 reaches the client. */
    method GetProductCorrected(itemId: string) returns (r: Result<Product>)
      ensures r == FetchProduct(file, itemId)
    {
      if file.Present? {
        r := ScanForId(file.products, itemId);
      } else {
        r := Err(ListProducts(file).error);
      }
    }

    /** POST /products/details/ as written: the count rule, its 404 answered as 500. */
    method GetProductsDetails(body: ProductIdList) returns (r: Result<ProductList>)
      ensures r == FetchDetailsAsWritten(file, body.ids)
    {
      r := FetchDetailsAsWritten(file, body.ids);
    }

    /** POST /products/details/ as intended: the set rule, answered with 404. */
    method GetProductsDetailsCorrected(body: ProductIdList) returns (r: Result<ProductList>)
      ensures r == FetchDetails(file, body.ids)
    {
      r := FetchDetails(file, body.ids);
    }
  }

  /** The loop of get_product over the loaded list: it stops at the first match. */
  method ScanForId(ps: seq<Product>, itemId: string) returns (r: Result<Product>)
    ensures r == FindProduct(ps, itemId)
  {
    var i := 0;
    while i < |ps|
      invariant 0 <= i <= |ps|
      invariant forall k | 0 <= k < i :: ps[k].id != itemId
    {
      if ps[i].id == itemId {
        assert FirstIndex(ps, itemId) == Some(i);
        return Ok(ps[i]);
      }
      i := i + 1;
    }
    r := Err(NotFound(Message(ProductMissing(itemId))));
  }

  /** Replacing the collection and then listing it gives back exactly what was stored. */
  method StoreThenList(store: ProductStore, ps: seq<Product>) returns (r: Result<ProductList>)
    modifies store
    ensures store.file == Present(ps)
    ensures r == Ok(ProductList(ps))
  {
    var stored := store.StoreProducts(ProductList(ps), None);
    r := store.GetProducts();
  }

  /** Storing a one-product collection and fetching that product by its id. */
  method StoreThenFetch(store: ProductStore, widget: Product) returns (r: Result<Product>)
    modifies store
    ensures r == Ok(widget)
  {
    var stored := store.StoreProducts(ProductList([widget]), None);
    r := store.GetProduct(widget.id);
  }
}
