/**
 * function_programming/iterating-over-options: an `Option` iterates as zero
 * or one item. `push`, `extend` and `chain` add an optional product to a list
 * of products, and `flatten` keeps the values of the `Some` entries of a list
 * of options; the file also holds, in comments, the equivalent `for` loop and
 * `filter`/`map` chain.
 *
 * The mutated `Vec` locals of `main` are modelled by the vector value each
 * step produces.
 */
module IteratingOverOptions {
  import opened Wrappers
  import opened Adapters

  /** The items `Option::iter` / `Option::into_iter` yields: the value, or nothing. */
  function Items<T>(o: Option<T>): seq<T>
  {
    match o
    case Some(v) => [v]
    case None => []
  }

  /** The `match` and `if let` forms: push the value of a `Some`, do nothing for `None`. */
  function PushIfSome<T>(products: seq<T>, someProduct: Option<T>): seq<T>
  {
    match someProduct
    case Some(product) => products + [product]
    case None => products
  }

  /** `products.extend(some_product)`: append every item the option yields. */
  function Extend<T>(products: seq<T>, someProduct: Option<T>): seq<T>
  {
    products + Items(someProduct)
  }

  /** `some_product.iter().chain(products.iter())`: the option's items, then the products. */
  function Chain<T>(someProduct: Option<T>, products: seq<T>): seq<T>
  {
    Items(someProduct) + products
  }

  /**
   * `match`, `if let` and `extend` agree: `Some(x)` appends `x` at the end and
   * `None` leaves the vector as it was.
   */
  lemma PushAgreesWithExtend<T>(products: seq<T>, someProduct: Option<T>)
    ensures PushIfSome(products, someProduct) == Extend(products, someProduct)
    ensures someProduct.Some? ==> Extend(products, someProduct) == products + [someProduct.value]
    ensures someProduct.None? ==> Extend(products, someProduct) == products
  {
  }

  /** Chaining yields the option's value first, then the products in order. */
  lemma ChainOrder<T>(someProduct: Option<T>, products: seq<T>)
    ensures someProduct.Some? ==> Chain(someProduct, products) == [someProduct.value] + products
    ensures someProduct.None? ==> Chain(someProduct, products) == products
  {
  }

  /** `products.into_iter().flatten().collect()`: the items of each option, in order. */
  function Flatten<T>(products: seq<Option<T>>): seq<T>
  {
    if products == [] then [] else Items(products[0]) + Flatten(products[1..])
  }

  /** The number of `Some` entries. */
  function CountSome<T>(products: seq<Option<T>>): nat
  {
    if products == [] then 0
    else (if products[0].Some? then 1 else 0) + CountSome(products[1..])
  }

  /** The `filter(|p| p.is_some())` closure. */
  predicate IsSome<T>(product: Option<T>)
  {
    product.Some?
  }

  /** The `map(|p| p.unwrap())` closure; `unwrap` is defined on `Some` only. */
  function Unwrap<T>(product: Option<T>): T
    requires product.Some?
  {
    product.value
  }

  /** The commented chain `filter(is_some).map(unwrap).collect()`. */
  function FilterMap<T>(products: seq<Option<T>>): seq<T>
  {
    var kept := Filter(IsSome, products);
    assert forall i :: 0 <= i < |kept| ==> kept[i] in kept;
    Map(Unwrap, kept)
  }

  /** `flatten` and the `filter`/`map` chain compute the same vector. */
  lemma {:induction false} FlattenIsFilterMap<T>(products: seq<Option<T>>)
    ensures Flatten(products) == FilterMap(products)
  {
    if products != [] {
      FlattenIsFilterMap(products[1..]);
    }
  }

  /** `flatten` keeps one value per `Some` entry. */
  lemma {:induction false} FlattenLength<T>(products: seq<Option<T>>)
    ensures |Flatten(products)| == CountSome(products)
  {
    if products != [] {
      FlattenLength(products[1..]);
    }
  }

  /** `flatten` distributes over concatenation, so the input order is kept. */
  lemma {:induction false} FlattenAppend<T>(a: seq<Option<T>>, b: seq<Option<T>>)
    ensures Flatten(a + b) == Flatten(a) + Flatten(b)
  {
    if a == [] {
      assert a + b == b;
    } else {
      assert (a + b)[1..] == a[1..] + b;
      FlattenAppend(a[1..], b);
    }
  }

  /** A value is in the output exactly when it stands in some `Some` of the input. */
  lemma {:induction false} FlattenMembers<T>(products: seq<Option<T>>, x: T)
    ensures x in Flatten(products) <==> Some(x) in products
  {
    if products != [] {
      FlattenMembers(products[1..], x);
      assert products == [products[0]] + products[1..];
    }
  }

  /** The commented `for` loop: push `product.unwrap()` whenever `product.is_some()`. */
  method FlattenLoop<T>(products: seq<Option<T>>) returns (productsWithoutNone: seq<T>)
    ensures productsWithoutNone == Flatten(products)
  {
    productsWithoutNone := [];
    for k := 0 to |products|
      invariant productsWithoutNone == Flatten(products[..k])
    {
      var product := products[k];
      if product.Some? {
        productsWithoutNone := productsWithoutNone + [product.value];
      }
      assert products[..k + 1] == products[..k] + [product];
      FlattenAppend(products[..k], [product]);
    }
    assert products[..|products|] == products;
  }

  /** The runs in `main`. */
  lemma MainValues()
    ensures Extend(["cellphone", "battery", "charger"], Some("laptop"))
            == ["cellphone", "battery", "charger", "laptop"]
    ensures Chain(Some("laptop"), ["cellphone", "battery", "charger"])
            == ["laptop", "cellphone", "battery", "charger"]
    ensures Flatten([Some("charger"), Some("battery"), None, Some("cellphone")])
            == ["charger", "battery", "cellphone"]
  {
    var products := [Some("charger"), Some("battery"), None, Some("cellphone")];
    assert Flatten(products[3..]) == ["cellphone"];
    assert Flatten(products[2..]) == ["cellphone"];
  }
}
