/**
 * The product page (`ProductDetailRenderer`): finding a product by id and
 * merging it over the detail file, choosing the related products, prefixing
 * image paths, and the quantity stepper. JSON records are maps from field
 * name to value; fetching them is left out.
 */
module ProductDetail {
  import opened Wrappers
  import opened Quantity

  type Record<V> = map<string, V>

  predicate HasProductId<V(==)>(p: Record<V>, productId: V)
  {
    "id" in p && p["id"] == productId
  }

  /** `products.find(p => p.id == productId)`, as the index of the first match. */
  function FindProduct<V(==)>(products: seq<Record<V>>, productId: V): (r: Option<nat>)
    ensures r.Some? ==> r.value < |products| && HasProductId(products[r.value], productId)
    ensures r.Some? ==> forall j :: 0 <= j < r.value ==> !HasProductId(products[j], productId)
    ensures r.None? <==> forall j :: 0 <= j < |products| ==> !HasProductId(products[j], productId)
    decreases |products|
  {
    if products == [] then None
    else if HasProductId(products[0], productId) then Some(0)
    else
      match FindProduct(products[1..], productId)
      case None => None
      case Some(k) => Some(k + 1)
  }

  /** `{ ...detail, ...product }`: every field of the product wins, detail-only fields stay. */
  function MergeDetail<V>(detail: Record<V>, product: Record<V>): (r: Record<V>)
    ensures r.Keys == detail.Keys + product.Keys
    ensures forall k :: k in product ==> r[k] == product[k]
    ensures forall k :: k in detail && k !in product ==> r[k] == detail[k]
  {
    detail + product
  }

  /** `loadById` once both files are loaded: the first product with the id, merged
      over the detail record, or nothing when no product has the id. */
  function LoadById<V(==)>(products: seq<Record<V>>, detail: Record<V>, productId: V): (r: Option<Record<V>>)
    ensures r.None? <==> forall j :: 0 <= j < |products| ==> !HasProductId(products[j], productId)
    ensures r.Some? ==> var k := FindProduct(products, productId).value;
      r.value == MergeDetail(detail, products[k])
    ensures r.Some? ==> HasProductId(r.value, productId) && detail.Keys <= r.value.Keys
  {
    match FindProduct(products, productId)
    case None => None
    case Some(k) => Some(MergeDetail(detail, products[k]))
  }

  /** The related-products row: the first three of a non-empty array, otherwise
      three copies of the current product. */
  function Related<T>(current: T, relatedProducts: Option<seq<T>>): (r: seq<T>)
    ensures 1 <= |r| <= 3
    ensures relatedProducts.Some? && relatedProducts.value != [] ==>
      r <= relatedProducts.value && |r| == (if |relatedProducts.value| < 3 then |relatedProducts.value| else 3)
    ensures relatedProducts.None? || relatedProducts.value == [] ==>
      |r| == 3 && forall i :: 0 <= i < |r| ==> r[i] == current
  {
    if relatedProducts.Some? && |relatedProducts.value| > 0 then
      if |relatedProducts.value| < 3 then relatedProducts.value else relatedProducts.value[..3]
    else [current, current, current]
  }

  predicate StartsWith(s: string, prefix: string)
  {
    |prefix| <= |s| && s[..|prefix|] == prefix
  }

  /** An image path from the data: absolute URLs are kept, anything else is taken
      relative to the parent directory. */
  function ResolveImage(path: string): (r: string)
    ensures StartsWith(path, "http") ==> r == path
    ensures !StartsWith(path, "http") ==> r == "../" + path
  {
    if StartsWith(path, "http") then path else "../" + path
  }

  /** A resolved path is an absolute URL or a parent-relative path, and ends with the original. */
  lemma ResolvedShape(path: string)
    ensures var r := ResolveImage(path);
      (StartsWith(r, "http") || StartsWith(r, "../")) && |path| <= |r| && r[|r| - |path|..] == path
  {
    var r := ResolveImage(path);
    if !StartsWith(path, "http") {
      assert r[..3] == "../";
      assert r[3..] == path;
    }
  }

  /** A resolved path starts with 'h' exactly when it was kept as an absolute URL. */
  lemma ResolvedFirstChar(path: string)
    ensures |ResolveImage(path)| > 0
    ensures ResolveImage(path)[0] == 'h' <==> StartsWith(path, "http")
  {
    if StartsWith(path, "http") {
      assert path[0] == path[..4][0] == 'h';
    }
  }

  /** Different image paths never resolve to the same one. */
  lemma ResolveImageInjective(a: string, b: string)
    requires ResolveImage(a) == ResolveImage(b)
    ensures a == b
  {
    var r := ResolveImage(a);
    ResolvedFirstChar(a);
    ResolvedFirstChar(b);
    if !StartsWith(a, "http") {
      assert a == r[3..] && b == r[3..];
    }
  }

  /** The gallery: every image resolved, in order. */
  function ResolveGallery(gallery: seq<string>): (r: seq<string>)
    ensures |r| == |gallery|
    ensures forall i :: 0 <= i < |gallery| ==> r[i] == ResolveImage(gallery[i])
  {
    seq(|gallery|, i requires 0 <= i < |gallery| => ResolveImage(gallery[i]))
  }

  /** A related card's image: `image`, or `mainImage` when `image` is empty, resolved. */
  function RelatedImage(image: string, mainImage: string): (r: string)
    ensures image != "" ==> r == ResolveImage(image)
    ensures image == "" ==> r == ResolveImage(mainImage)
  {
    ResolveImage(if image != "" then image else mainImage)
  }

  /** The `#quantity` input beside the buy button. */
  class QuantityInput {
    var value: int

    constructor (initial: int)
      ensures value == initial
    {
      value := initial;
    }

    /** `increaseQuantity`: one more. */
    method Increase()
      modifies this
      ensures value == Increment(old(value)) && value == old(value) + 1
    {
      value := Increment(value);
    }

    /** `decreaseQuantity`: one less only while above 1. */
    method Decrease()
      modifies this
      ensures value == Decrement(old(value))
      ensures old(value) > 1 ==> value == old(value) - 1
      ensures old(value) <= 1 ==> value == old(value)
    {
      value := Decrement(value);
    }
  }
}
