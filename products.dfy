/**
 * The catalog (`ProductService`): list queries over the ordered product list, and the one
 * operation that changes it, `updateStock`.
 *
 * The queries are pure filters over the service's `products` list, written here over that list
 * passed as a parameter.
 */
module Products {
  import opened Wrappers
  import opened Sequences
  import opened ProductTypes

  /** Every stock count is non-negative. */
  predicate StockNonNegative(products: seq<Product>)
  {
    forall i :: 0 <= i < |products| ==> products[i].stockQuantity >= 0
  }

  /** No two products share an id. */
  predicate UniqueIds(products: seq<Product>)
  {
    forall i, j :: 0 <= i < j < |products| ==> products[i].id != products[j].id
  }

  /** `getAllProducts`: the in-stock products, in catalog order. */
  function GetAllProducts(products: seq<Product>): (r: seq<Product>)
    ensures forall p :: p in r <==> p in products && p.inStock
    ensures forall p :: multiset(r)[p] == if p.inStock then multiset(products)[p] else 0
    ensures IsSubsequence(r, products)
  {
    Filter(products, (p: Product) => p.inStock)
  }

  /** `getProductsByCategory`: the in-stock products of one category, in catalog order. */
  function GetProductsByCategory(products: seq<Product>, category: Category): (r: seq<Product>)
    ensures forall p :: p in r <==> p in products && p.category == category && p.inStock
    ensures forall p :: multiset(r)[p] == if p.category == category && p.inStock then multiset(products)[p] else 0
    ensures IsSubsequence(r, products)
  {
    Filter(products, (p: Product) => p.category == category && p.inStock)
  }

  // ----- case-insensitive substring search -----

  /** `toLowerCase` on one character, restricted to ASCII letters. */
  function LowerChar(c: char): (d: char)
    ensures 'A' <= c <= 'Z' ==> d as int == c as int + 32
    ensures !('A' <= c <= 'Z') ==> d == c
  {
    if 'A' <= c <= 'Z' then (c as int + 32) as char else c
  }

  /** `toLowerCase` on a string, character by character. */
  function Lower(s: string): (r: string)
    ensures |r| == |s|
    ensures forall i :: 0 <= i < |s| ==> r[i] == LowerChar(s[i])
  {
    seq(|s|, i requires 0 <= i < |s| => LowerChar(s[i]))
  }

  /** `needle` occurs in `hay` starting at position `i`. */
  predicate OccursAt(hay: string, needle: string, i: int)
  {
    0 <= i && i + |needle| <= |hay| && hay[i..i + |needle|] == needle
  }

  /** `hay.includes(needle)`, scanning from the left. */
  function Includes(hay: string, needle: string): (b: bool)
    ensures b <==> exists i :: OccursAt(hay, needle, i)
    decreases |hay|
  {
    if |needle| <= |hay| && hay[..|needle|] == needle then
      assert OccursAt(hay, needle, 0);
      true
    else if hay == [] then
      false
    else
      var b := Includes(hay[1..], needle);
      if b then
        var i :| OccursAt(hay[1..], needle, i);
        assert hay[1..][i..i + |needle|] == hay[i + 1..i + 1 + |needle|];
        assert OccursAt(hay, needle, i + 1);
        true
      else
        assert forall i :: OccursAt(hay, needle, i) ==> i >= 1 && OccursAt(hay[1..], needle, i - 1) by {
          forall i | OccursAt(hay, needle, i)
            ensures i >= 1 && OccursAt(hay[1..], needle, i - 1)
          {
            assert hay[1..][i - 1..i - 1 + |needle|] == hay[i..i + |needle|];
          }
        }
        false
  }

  /** The search predicate of `searchProducts` for an already lower-cased term. */
  predicate MatchesTerm(p: Product, term: string)
  {
    || Includes(Lower(p.name), term)
    || Includes(Lower(p.description), term)
    || (exists t :: t in p.tags && Includes(Lower(t), term))
    || (exists g :: g in p.ingredients && Includes(Lower(g), term))
  }

  /** `searchProducts`: the in-stock products whose name, description, some tag or some ingredient
      contains the lower-cased query, compared case-insensitively, in catalog order. */
  function SearchProducts(products: seq<Product>, query: string): (r: seq<Product>)
    ensures forall p :: p in r <==> p in products && p.inStock && MatchesTerm(p, Lower(query))
    ensures forall p :: multiset(r)[p] == if p.inStock && MatchesTerm(p, Lower(query)) then multiset(products)[p] else 0
    ensures IsSubsequence(r, products)
  {
    var term := Lower(query);
    Filter(products, (p: Product) => p.inStock && MatchesTerm(p, term))
  }

  /** `getProductsByTags`: the in-stock products carrying at least one of `tags` (exact match). */
  function GetProductsByTags(products: seq<Product>, tags: seq<string>): (r: seq<Product>)
    ensures forall p :: p in r <==> p in products && p.inStock && exists t :: t in tags && t in p.tags
    ensures forall p :: multiset(r)[p] == if p.inStock && (exists t :: t in tags && t in p.tags) then multiset(products)[p] else 0
    ensures tags == [] ==> r == []
    ensures IsSubsequence(r, products)
  {
    Filter(products, (p: Product) => p.inStock && exists t :: t in tags && t in p.tags)
  }

  // ----- lookup and availability -----

  /** The index `find` stops at: the first product with this id. */
  function IndexOfProduct(products: seq<Product>, id: string): (r: Option<nat>)
    ensures r.Some? ==> r.value < |products| && products[r.value].id == id
    ensures r.Some? ==> forall j :: 0 <= j < r.value ==> products[j].id != id
    ensures r.None? <==> forall j :: 0 <= j < |products| ==> products[j].id != id
  {
    IndexWhere(products, (p: Product) => p.id == id)
  }

  /** `getProductById`: the first product with this id, or nothing. */
  function GetProductById(products: seq<Product>, id: string): (r: Option<Product>)
    ensures r.Some? ==> r.value in products && r.value.id == id
    ensures r.Some? ==> exists i :: 0 <= i < |products| && products[i] == r.value && forall j :: 0 <= j < i ==> products[j].id != id
    ensures r.None? <==> forall p :: p in products ==> p.id != id
    ensures UniqueIds(products) ==> forall i :: 0 <= i < |products| && products[i].id == id ==> r == Some(products[i])
  {
    match IndexOfProduct(products, id)
    case None => None
    case Some(k) => Some(products[k])
  }

  /** `checkAvailability`: the product exists, is flagged in stock and has at least `quantity` units. */
  function CheckAvailability(products: seq<Product>, id: string, quantity: int): (b: bool)
    ensures b <==> exists i :: 0 <= i < |products| && products[i].id == id
                      && (forall j :: 0 <= j < i ==> products[j].id != id)
                      && products[i].inStock && products[i].stockQuantity >= quantity
    ensures (forall p :: p in products ==> p.id != id) ==> !b
  {
    match GetProductById(products, id)
    case None => false
    case Some(p) =>
      var k := IndexOfProduct(products, id).value;
      assert products[k] == p;
      p.inStock && p.stockQuantity >= quantity
  }

  // ----- updateStock -----

  /** One product after `updateStock(id, quantity)` at time `now`: the count drops by `quantity`;
      a count at or below zero is clamped to zero and clears the in-stock flag; the flag is never set. */
  function AdjustedProduct(p: Product, quantity: int, now: int): (r: Product)
    ensures r.stockQuantity == if p.stockQuantity - quantity <= 0 then 0 else p.stockQuantity - quantity
    ensures r.stockQuantity >= 0
    ensures r.inStock == (p.inStock && p.stockQuantity - quantity > 0)
    ensures r.inStock ==> p.inStock
    ensures r == p.(stockQuantity := r.stockQuantity, inStock := r.inStock, updatedAt := now)
  {
    var left := p.stockQuantity - quantity;
    if left <= 0 then p.(stockQuantity := 0, inStock := false, updatedAt := now)
    else p.(stockQuantity := left, updatedAt := now)
  }

  /** The list after `updateStock(id, quantity)`: only the first product with that id changes. */
  function StockUpdated(products: seq<Product>, id: string, quantity: int, now: int): (r: seq<Product>)
    ensures |r| == |products|
    ensures IndexOfProduct(products, id).None? ==> r == products
    ensures IndexOfProduct(products, id).Some? ==>
      var k := IndexOfProduct(products, id).value;
      r == products[k := AdjustedProduct(products[k], quantity, now)]
    ensures forall i :: 0 <= i < |r| ==> r[i].id == products[i].id
    ensures StockNonNegative(products) ==> StockNonNegative(r)
    ensures UniqueIds(products) ==> UniqueIds(r)
  {
    match IndexOfProduct(products, id)
    case None => products
    case Some(k) => products[k := AdjustedProduct(products[k], quantity, now)]
  }

  /** The catalog service: the product list is the only state, and `updateStock` the only writer. */
  class ProductService {
    var products: seq<Product>

    constructor (initial: seq<Product>)
      ensures products == initial
    {
      products := initial;
    }

    /** `updateStock`: false with no change for an unknown id; otherwise adjusts the first product
        with that id and returns true. */
    method UpdateStock(id: string, quantity: int, now: int) returns (found: bool)
      modifies this
      ensures found <==> exists i :: 0 <= i < |old(products)| && old(products)[i].id == id
      ensures products == StockUpdated(old(products), id, quantity, now)
      ensures !found ==> products == old(products)
      ensures StockNonNegative(old(products)) ==> StockNonNegative(products)
    {
      var k := IndexOfProduct(products, id);
      if k.None? {
        return false;
      }
      var i := k.value;
      products := products[i := AdjustedProduct(products[i], quantity, now)];
      found := true;
    }
  }
}
