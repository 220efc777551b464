/**
 * `ProductService`: the product table, a DynamoDB table keyed by the pair
 * (`id`, `sellerId`), guarded by the seller table of `SellerService`.
 * Fresh ids and `Instant.now()` timestamps are parameters.
 */
module Products {
  import opened Wrappers
  import Sellers

  /** A Java `int`. */
  newtype Int32 = x: int | -0x8000_0000 <= x < 0x8000_0000

  datatype Product = Product(
    id: string,
    sellerId: string,
    name: string,
    description: string,
    price: real,
    stockQuantity: Int32,
    reorderPoint: Int32,
    active: bool,
    createdAt: string,
    updatedAt: string)

  /** The partition key and the sort key of a product. */
  datatype Key = Key(id: string, sellerId: string)

  type Table = map<Key, Product>

  function KeyOf(p: Product): Key { Key(p.id, p.sellerId) }

  /** Every product is stored under its own (id, sellerId). */
  predicate KeysMatch(t: Table) {
    forall k :: k in t ==> KeyOf(t[k]) == k
  }

  /** `productTable.putItem(p)`. */
  function Put(t: Table, p: Product): Table {
    t[KeyOf(p) := p]
  }

  /** What the service throws. */
  datatype Failure = IllegalArgument(message: string) | NullPointer

  const InvalidSeller: Failure := IllegalArgument("Invalid or inactive seller")
  const NotOwned: Failure := IllegalArgument("Product does not belong to the seller")

  /** A seller `validateSeller` lets through: stored and active. */
  predicate ValidSeller(sellers: Sellers.Table, sellerId: string) {
    sellerId in sellers && sellers[sellerId].active
  }

  /** `validateProductOwnership`: a null product passes; only a product of another seller fails. */
  function CheckOwnership(product: Option<Product>, sellerId: string): (r: Option<Failure>)
    ensures r.Some? <==> product.Some? && product.value.sellerId != sellerId
    ensures r.Some? ==> r.value == NotOwned
  {
    if product.Some? && product.value.sellerId != sellerId then Some(NotOwned) else None
  }

  /** The stored products of seller `s`. */
  function SellerProducts(t: Table, s: string): (r: set<Product>)
    ensures forall p :: p in r ==> p.sellerId == s
    ensures forall k :: k in t && t[k].sellerId == s ==> t[k] in r
  {
    set k | k in t && t[k].sellerId == s :: t[k]
  }

  /** Those of them at or below their reorder point. */
  function LowStock(t: Table, s: string): (r: set<Product>)
    ensures r <= SellerProducts(t, s)
    ensures forall p :: p in r ==> p.stockQuantity <= p.reorderPoint
  {
    set p | p in SellerProducts(t, s) && p.stockQuantity <= p.reorderPoint
  }

  /** The product `addProduct` stores. */
  function Stamped(product: Product, sellerId: string, freshId: string, now: string): Product {
    product.(id := freshId, sellerId := sellerId, active := true, createdAt := now, updatedAt := now)
  }

  // ----- Properties of the table -----

  /** Storing and deleting keep every product under its own key; only the key concerned changes. */
  lemma TableUpdatesKeepKeys(t: Table, p: Product, k: Key)
    requires KeysMatch(t)
    ensures KeysMatch(Put(t, p)) && KeysMatch(t - {k})
    ensures forall k' :: k' in t && k' != KeyOf(p) ==> k' in Put(t, p) && Put(t, p)[k'] == t[k']
    ensures forall k' :: k' in t && k' != k ==> k' in t - {k} && (t - {k})[k'] == t[k']
    ensures k !in t - {k}
  {
  }

  /** The per-seller filter returns exactly the stored products with that `sellerId`. */
  lemma SellerProductsExact(t: Table, s: string, p: Product)
    requires KeysMatch(t)
    ensures p in SellerProducts(t, s) <==> KeyOf(p) in t && t[KeyOf(p)] == p && p.sellerId == s
  {
    if p in SellerProducts(t, s) {
      var k :| k in t && t[k].sellerId == s && t[k] == p;
    }
  }

  /** The low-stock filter keeps exactly the seller's products with `stockQuantity <= reorderPoint`. */
  lemma LowStockWithinSeller(t: Table, s: string)
    ensures LowStock(t, s) <= SellerProducts(t, s)
    ensures forall p :: p in SellerProducts(t, s) ==> (p in LowStock(t, s) <==> p.stockQuantity <= p.reorderPoint)
  {
  }

  /**
   * With keys matching, the product read under (id, s) belongs to `s`, so the
   * ownership check on it can never fail.
   */
  lemma StoredProductsPassOwnership(t: Table, id: string, s: string)
    requires KeysMatch(t)
    ensures CheckOwnership(if Key(id, s) in t then Some(t[Key(id, s)]) else None, s).None?
  {
    if Key(id, s) in t {
      assert KeyOf(t[Key(id, s)]) == Key(id, s);
    }
  }

  /**
   * Adding a product with an id no product of that seller has yet adds it to
   * that seller's products and changes no other seller's.
   */
  lemma AddedProductListed(t: Table, product: Product, s: string, freshId: string, now: string, other: string)
    requires KeysMatch(t) && Key(freshId, s) !in t
    ensures var p := Stamped(product, s, freshId, now);
            && SellerProducts(Put(t, p), s) == SellerProducts(t, s) + {p}
            && (other != s ==> SellerProducts(Put(t, p), other) == SellerProducts(t, other))
  {
    var p := Stamped(product, s, freshId, now);
    var t' := Put(t, p);
    forall q | q in SellerProducts(t', s) ensures q in SellerProducts(t, s) + {p} {
      var k :| k in t' && t'[k].sellerId == s && t'[k] == q;
      if k != KeyOf(p) { assert k in t && t[k] == q; }
    }
    forall q | q in SellerProducts(t, s) ensures q in SellerProducts(t', s) {
      var k :| k in t && t[k].sellerId == s && t[k] == q;
      assert k != KeyOf(p);
      assert k in t' && t'[k] == q;
    }
    assert p in SellerProducts(t', s) by { assert KeyOf(p) in t' && t'[KeyOf(p)] == p; }
    if other != s {
      forall q | q in SellerProducts(t', other) ensures q in SellerProducts(t, other) {
        var k :| k in t' && t'[k].sellerId == other && t'[k] == q;
        assert k != KeyOf(p);
      }
      forall q | q in SellerProducts(t, other) ensures q in SellerProducts(t', other) {
        var k :| k in t && t[k].sellerId == other && t[k] == q;
        assert k != KeyOf(p);
        assert k in t' && t'[k] == q;
      }
    }
  }

  /** Deleting (id, s) removes exactly the product stored there from `s`'s products. */
  lemma DeletedProductUnlisted(t: Table, id: string, s: string)
    requires KeysMatch(t) && Key(id, s) in t
    ensures SellerProducts(t - {Key(id, s)}, s) == SellerProducts(t, s) - {t[Key(id, s)]}
  {
    var k0 := Key(id, s);
    var t' := t - {k0};
    forall q | q in SellerProducts(t', s) ensures q in SellerProducts(t, s) - {t[k0]} {
      var k :| k in t' && t'[k].sellerId == s && t'[k] == q;
      assert KeyOf(q) == k && KeyOf(t[k0]) == k0;
    }
    forall q | q in SellerProducts(t, s) - {t[k0]} ensures q in SellerProducts(t', s) {
      var k :| k in t && t[k].sellerId == s && t[k] == q;
      assert k in t' && t'[k] == q;
    }
  }

  /** A seller deactivated in the seller table fails validation from then on. */
  lemma DeactivatedSellerRejected(sellers: Sellers.Table, id: string)
    requires Sellers.KeyedById(sellers)
    ensures !ValidSeller(Sellers.Deactivate(sellers, id), id)
  {
    Sellers.DeactivateEffect(sellers, id);
  }

  class ProductService {
    var table: Table
    const sellerService: Sellers.SellerService

    ghost predicate Valid()
      reads this
    {
      KeysMatch(table)
    }

    /** The service over an empty product table. */
    constructor (sellerService: Sellers.SellerService)
      ensures table == map[] && this.sellerService == sellerService && Valid()
    {
      table := map[];
      this.sellerService := sellerService;
    }

    /** `validateSeller(sellerId)`, through `sellerService.getSeller`. */
    function ValidateSeller(sellerId: string): (r: Option<Failure>)
      reads sellerService
      ensures r.None? <==> ValidSeller(sellerService.table, sellerId)
      ensures r.Some? ==> r.value == InvalidSeller
    {
      match sellerService.GetSeller(sellerId)
      case Some(s) => if s.active then None else Some(InvalidSeller)
      case None => Some(InvalidSeller)
    }

    /** `getSellerProducts(sellerId)`. */
    function GetSellerProducts(sellerId: string): (r: Result<set<Product>, Failure>)
      reads this, sellerService
      ensures r.Ok? <==> ValidSeller(sellerService.table, sellerId)
      ensures r.Err? ==> r.error == InvalidSeller
      ensures r.Ok? ==> forall p :: p in r.value <==> exists k :: k in table && table[k] == p && p.sellerId == sellerId
    {
      match ValidateSeller(sellerId)
      case Some(f) => Err(f)
      case None => Ok(SellerProducts(table, sellerId))
    }

    /** `getProduct(id, sellerId)`: the product at (id, sellerId), or null. */
    function GetProduct(id: string, sellerId: string): (r: Result<Option<Product>, Failure>)
      reads this, sellerService
      ensures r.Ok? <==> ValidSeller(sellerService.table, sellerId) &&
                         (Key(id, sellerId) in table ==> table[Key(id, sellerId)].sellerId == sellerId)
      ensures r.Ok? ==> (r.value.Some? <==> Key(id, sellerId) in table)
      ensures r.Ok? && r.value.Some? ==> r.value.value == table[Key(id, sellerId)]
    {
      match ValidateSeller(sellerId)
      case Some(f) => Err(f)
      case None =>
        var product := if Key(id, sellerId) in table then Some(table[Key(id, sellerId)]) else None;
        match CheckOwnership(product, sellerId)
        case Some(f) => Err(f)
        case None => Ok(product)
    }

    /** `checkLowStock(sellerId)`. */
    function CheckLowStock(sellerId: string): (r: Result<set<Product>, Failure>)
      reads this, sellerService
      ensures r.Ok? <==> ValidSeller(sellerService.table, sellerId)
      ensures r.Ok? ==> r.value <= GetSellerProducts(sellerId).value
      ensures r.Ok? ==> forall p :: p in GetSellerProducts(sellerId).value ==>
                          (p in r.value <==> p.stockQuantity <= p.reorderPoint)
    {
      match ValidateSeller(sellerId)
      case Some(f) => Err(f)
      case None =>
        var products := GetSellerProducts(sellerId).value;
        Ok(set p | p in products && p.stockQuantity <= p.reorderPoint)
    }

    /** `addProduct(sellerId, product)`: stamped with a fresh id, the seller, `active` and `now`, then stored. */
    method AddProduct(sellerId: string, product: Product, freshId: string, now: string) returns (r: Result<Product, Failure>)
      requires Valid()
      modifies this
      ensures Valid()
      ensures r.Ok? <==> ValidSeller(sellerService.table, sellerId)
      ensures r.Err? ==> r.error == InvalidSeller && table == old(table)
      ensures r.Ok? ==> r.value == Stamped(product, sellerId, freshId, now) && table == Put(old(table), r.value)
    {
      var invalid := ValidateSeller(sellerId);
      if invalid.Some? {
        return Err(invalid.value);
      }
      var p := Stamped(product, sellerId, freshId, now);
      table := Put(table, p);
      r := Ok(p);
    }

    /**
     * `updateProduct(id, sellerId, product)`: the given record, with the key
     * fields and `updatedAt` forced, replaces whatever was stored there, or is
     * stored afresh when nothing was.
     */
    method UpdateProduct(id: string, sellerId: string, product: Product, now: string) returns (r: Result<Product, Failure>)
      requires Valid()
      modifies this
      ensures Valid()
      ensures r.Ok? <==> ValidSeller(sellerService.table, sellerId)
      ensures r.Err? ==> r.error == InvalidSeller && table == old(table)
      ensures r.Ok? ==> r.value == product.(id := id, sellerId := sellerId, updatedAt := now) && table == Put(old(table), r.value)
    {
      var invalid := ValidateSeller(sellerId);
      if invalid.Some? {
        return Err(invalid.value);
      }
      match GetProduct(id, sellerId)
      case Err(f) => return Err(f);
      case Ok(_) =>
      var p := product.(id := id, sellerId := sellerId, updatedAt := now);
      table := Put(table, p);
      r := Ok(p);
    }

    /** `deleteProduct(id, sellerId)`: only the key (id, sellerId) goes. */
    method DeleteProduct(id: string, sellerId: string) returns (r: Option<Failure>)
      requires Valid()
      modifies this
      ensures Valid()
      ensures r.None? <==> ValidSeller(sellerService.table, sellerId)
      ensures r.Some? ==> r.value == InvalidSeller && table == old(table)
      ensures r.None? ==> table == old(table) - {Key(id, sellerId)}
    {
      r := ValidateSeller(sellerId);
      if r.Some? {
        return;
      }
      match GetProduct(id, sellerId)
      case Err(f) => return Some(f);
      case Ok(_) =>
      table := table - {Key(id, sellerId)};
    }

    /**
     * `updateStock(id, sellerId, newQuantity)`: only `stockQuantity` and
     * `updatedAt` of the stored product change.  A missing product is a null
     * dereference, not an `IllegalArgumentException`.
     */
    method UpdateStock(id: string, sellerId: string, newQuantity: Int32, now: string) returns (r: Result<Product, Failure>)
      requires Valid()
      modifies this
      ensures Valid()
      ensures r.Err? ==> table == old(table)
      ensures !ValidSeller(sellerService.table, sellerId) ==> r == Err(InvalidSeller)
      ensures ValidSeller(sellerService.table, sellerId) && Key(id, sellerId) !in old(table) ==> r == Err(NullPointer)
      ensures ValidSeller(sellerService.table, sellerId) && Key(id, sellerId) in old(table) ==>
                && r == Ok(old(table)[Key(id, sellerId)].(stockQuantity := newQuantity, updatedAt := now))
                && table == old(table)[Key(id, sellerId) := r.value]
    {
      var invalid := ValidateSeller(sellerId);
      if invalid.Some? {
        return Err(invalid.value);
      }
      match GetProduct(id, sellerId)
      case Err(f) => return Err(f);
      case Ok(None) => return Err(NullPointer);
      case Ok(Some(found)) =>
      var p := found.(stockQuantity := newQuantity, updatedAt := now);
      table := Put(table, p);
      r := Ok(p);
    }
  }
}
