/**
 * The line items of a cart and what the cart handlers compute from them: the
 * lookup by product id, one step and the whole of the add-to-cart merge, the
 * absolute quantity overwrite, the removal filter, and the batch existence
 * check against the catalog.
 */
module CartLines {

  type ProductId = string

  /** `{product, quantity}`, both for a cart line and for a requested item. */
  datatype LineItem = LineItem(product: ProductId, quantity: int)

  /** At most one line per product. */
  predicate UniqueProducts(lines: seq<LineItem>) {
    forall i, j | 0 <= i < j < |lines| :: lines[i].product != lines[j].product
  }

  /** The products that have a line. */
  function ProductSet(lines: seq<LineItem>): (ps: set<ProductId>)
    ensures forall k | 0 <= k < |lines| :: lines[k].product in ps
    ensures forall p | p in ps :: exists k | 0 <= k < |lines| :: lines[k].product == p
  {
    if lines == [] then {} else {lines[0].product} + ProductSet(lines[1..])
  }

  /** The total quantity `lines` hold of product `p`, over all its lines. */
  function QuantityOf(lines: seq<LineItem>, p: ProductId): int {
    if lines == [] then 0
    else (if lines[0].product == p then lines[0].quantity else 0) + QuantityOf(lines[1..], p)
  }

  lemma {:induction false} QuantityOfAppend(a: seq<LineItem>, b: seq<LineItem>, p: ProductId)
    ensures QuantityOf(a + b, p) == QuantityOf(a, p) + QuantityOf(b, p)
  {
    if a == [] {
      assert a + b == b;
    } else {
      assert (a + b)[0] == a[0] && (a + b)[1..] == a[1..] + b;
      QuantityOfAppend(a[1..], b, p);
    }
  }

  lemma {:induction false} QuantityOfAbsent(lines: seq<LineItem>, p: ProductId)
    requires p !in ProductSet(lines)
    ensures QuantityOf(lines, p) == 0
  {
    if lines != [] {
      QuantityOfAbsent(lines[1..], p);
    }
  }

  /** With one line per product, the quantity of a product is that of its line. */
  lemma {:induction false} QuantityOfUnique(lines: seq<LineItem>, i: nat)
    requires UniqueProducts(lines) && i < |lines|
    ensures QuantityOf(lines, lines[i].product) == lines[i].quantity
  {
    var p := lines[i].product;
    assert lines == lines[..i] + [lines[i]] + lines[i + 1..];
    QuantityOfAppend(lines[..i] + [lines[i]], lines[i + 1..], p);
    QuantityOfAppend(lines[..i], [lines[i]], p);
    QuantityOfAbsent(lines[..i], p);
    QuantityOfAbsent(lines[i + 1..], p);
  }

  /** Replacing one line by a line of the same product changes that product's total by the difference. */
  lemma {:induction false} QuantityOfUpdate(lines: seq<LineItem>, i: nat, q: int, p: ProductId)
    requires i < |lines|
    ensures var updated := lines[i := LineItem(lines[i].product, q)];
      QuantityOf(updated, p)
        == QuantityOf(lines, p) + (if lines[i].product == p then q - lines[i].quantity else 0)
  {
    var updated := lines[i := LineItem(lines[i].product, q)];
    assert lines == lines[..i] + [lines[i]] + lines[i + 1..];
    assert updated == lines[..i] + [updated[i]] + lines[i + 1..];
    QuantityOfAppend(lines[..i] + [lines[i]], lines[i + 1..], p);
    QuantityOfAppend(lines[..i], [lines[i]], p);
    QuantityOfAppend(lines[..i] + [updated[i]], lines[i + 1..], p);
    QuantityOfAppend(lines[..i], [updated[i]], p);
  }

  /**
   * `findIndex` on the product id: the first line for `id`, or -1 when there
   * is none.
   */
  function FindIndex(lines: seq<LineItem>, id: ProductId): (i: int)
    ensures -1 <= i < |lines|
    ensures i == -1 <==> id !in ProductSet(lines)
    ensures i >= 0 ==> lines[i].product == id
    ensures forall k | 0 <= k < i :: lines[k].product != id
  {
    if lines == [] then -1
    else if lines[0].product == id then 0
    else
      var j := FindIndex(lines[1..], id);
      if j == -1 then -1 else j + 1
  }

  /**
   * One pass of the merge loop: a product that has a line gets the requested
   * quantity added to it, any other product is appended as a new line.
   */
  function MergeOne(lines: seq<LineItem>, item: LineItem): (r: seq<LineItem>)
    ensures |r| == if item.product in ProductSet(lines) then |lines| else |lines| + 1
    ensures forall k | 0 <= k < |lines| :: r[k].product == lines[k].product
  {
    var i := FindIndex(lines, item.product);
    if i > -1 then lines[i := LineItem(lines[i].product, lines[i].quantity + item.quantity)]
    else lines + [LineItem(item.product, item.quantity)]
  }

  /** The merge loop over the requested items, in request order. */
  function Merge(lines: seq<LineItem>, items: seq<LineItem>): (r: seq<LineItem>)
    ensures |lines| <= |r| <= |lines| + |items|
    decreases |items|
  {
    if items == [] then lines
    else MergeOne(Merge(lines, items[..|items| - 1]), items[|items| - 1])
  }

  /** Merging one more item of the request is one more step of the loop. */
  lemma MergePrefix(lines: seq<LineItem>, items: seq<LineItem>, k: nat)
    requires k < |items|
    ensures Merge(lines, items[..k + 1]) == MergeOne(Merge(lines, items[..k]), items[k])
  {
    assert items[..k + 1][..k] == items[..k];
  }

  /** Merging one item adds its quantity to its product's total and changes no other total. */
  lemma MergeOneQuantity(lines: seq<LineItem>, item: LineItem, p: ProductId)
    ensures QuantityOf(MergeOne(lines, item), p)
            == QuantityOf(lines, p) + (if item.product == p then item.quantity else 0)
  {
    var i := FindIndex(lines, item.product);
    if i > -1 {
      QuantityOfUpdate(lines, i, lines[i].quantity + item.quantity, p);
    } else {
      QuantityOfAppend(lines, [LineItem(item.product, item.quantity)], p);
    }
  }

  /**
   * Merge semantics, not overwrite: after the merge each product's total is
   * its old total plus everything the request asked for.
   */
  lemma {:induction false} MergeQuantity(lines: seq<LineItem>, items: seq<LineItem>, p: ProductId)
    ensures QuantityOf(Merge(lines, items), p) == QuantityOf(lines, p) + QuantityOf(items, p)
    decreases |items|
  {
    if items != [] {
      var init, last := items[..|items| - 1], items[|items| - 1];
      MergeQuantity(lines, init, p);
      MergeOneQuantity(Merge(lines, init), last, p);
      QuantityOfLast(items, p);
    }
  }

  /** A product's total over a request is its total over all but the last item plus the last item's share. */
  lemma QuantityOfLast(items: seq<LineItem>, p: ProductId)
    requires items != []
    ensures var last := items[|items| - 1];
      QuantityOf(items, p)
      == QuantityOf(items[..|items| - 1], p) + (if last.product == p then last.quantity else 0)
  {
    var init, last := items[..|items| - 1], items[|items| - 1];
    assert items == init + [last];
    QuantityOfAppend(init, [last], p);
  }


  lemma MergeOneUnique(lines: seq<LineItem>, item: LineItem)
    requires UniqueProducts(lines)
    ensures UniqueProducts(MergeOne(lines, item))
  {
  }

  /** The merge never creates a second line for a product. */
  lemma {:induction false} MergeUnique(lines: seq<LineItem>, items: seq<LineItem>)
    requires UniqueProducts(lines)
    ensures UniqueProducts(Merge(lines, items))
    decreases |items|
  {
    if items != [] {
      MergeUnique(lines, items[..|items| - 1]);
      MergeOneUnique(Merge(lines, items[..|items| - 1]), items[|items| - 1]);
    }
  }

  /** The last requested item and the ones before it. */
  lemma InitProducts(items: seq<LineItem>)
    requires items != []
    ensures ProductSet(items[..|items| - 1]) <= ProductSet(items)
    ensures items[|items| - 1].product in ProductSet(items)
  {
    var init := items[..|items| - 1];
    forall p | p in ProductSet(init) ensures p in ProductSet(items) {
      var k :| 0 <= k < |init| && init[k].product == p;
      assert items[k] == init[k];
    }
  }

  /**
   * The merge only grows the cart, and leaves every existing line at its
   * position with its product; a line whose product the request does not
   * name also keeps its quantity.
   */
  lemma {:induction false} MergeKeepsLines(lines: seq<LineItem>, items: seq<LineItem>)
    ensures |Merge(lines, items)| >= |lines|
    ensures forall k | 0 <= k < |lines| :: Merge(lines, items)[k].product == lines[k].product
    ensures forall k | 0 <= k < |lines| && lines[k].product !in ProductSet(items) ::
              Merge(lines, items)[k] == lines[k]
    decreases |items|
  {
    if items != [] {
      var init, last := items[..|items| - 1], items[|items| - 1];
      MergeKeepsLines(lines, init);
      InitProducts(items);
    }
  }

  /**
   * With one line per product, an existing line ends up with its old
   * quantity plus everything requested for its product.
   */
  lemma MergeExistingLine(lines: seq<LineItem>, items: seq<LineItem>, k: nat)
    requires UniqueProducts(lines) && k < |lines|
    ensures k < |Merge(lines, items)|
    ensures Merge(lines, items)[k]
            == LineItem(lines[k].product, lines[k].quantity + QuantityOf(items, lines[k].product))
  {
    var merged := Merge(lines, items);
    MergeKeepsLines(lines, items);
    MergeUnique(lines, items);
    MergeQuantity(lines, items, lines[k].product);
    QuantityOfUnique(lines, k);
    QuantityOfUnique(merged, k);
  }

  /** The requested items whose product has no line in `lines`, in request order. */
  function NewItems(lines: seq<LineItem>, items: seq<LineItem>): seq<LineItem>
    decreases |items|
  {
    if items == [] then []
    else
      var init, last := items[..|items| - 1], items[|items| - 1];
      NewItems(lines, init) + (if last.product in ProductSet(lines) then [] else [last])
  }

  lemma {:induction false} NewItemsProducts(lines: seq<LineItem>, items: seq<LineItem>)
    ensures forall k | 0 <= k < |NewItems(lines, items)| ::
      NewItems(lines, items)[k].product in ProductSet(items)
      && NewItems(lines, items)[k].product !in ProductSet(lines)
    decreases |items|
  {
    if items != [] {
      var init, last := items[..|items| - 1], items[|items| - 1];
      NewItemsProducts(lines, init);
      InitProducts(items);
    }
  }

  /** In a request that names each product once, the last product is not named before. */
  lemma UniqueInitLast(items: seq<LineItem>)
    requires UniqueProducts(items) && items != []
    ensures UniqueProducts(items[..|items| - 1])
    ensures items[|items| - 1].product !in ProductSet(items[..|items| - 1])
  {
  }

  /**
   * One merge step leaves everything from position `n` on alone when it
   * updates a line before `n`, and appends the item there when the product
   * has no line.
   */
  lemma MergeOneSuffix(m: seq<LineItem>, item: LineItem, n: nat)
    requires n <= |m|
    ensures 0 <= FindIndex(m, item.product) < n ==> MergeOne(m, item)[n..] == m[n..]
    ensures FindIndex(m, item.product) == -1 ==> MergeOne(m, item)[n..] == m[n..] + [item]
  {
  }


  /**
   * For a request naming each product once, the lines the merge adds are the
   * requested items for products the cart did not have, appended at the end
   * in request order with their requested quantities.
   */
  lemma {:induction false} MergeAppendsNewItems(lines: seq<LineItem>, items: seq<LineItem>)
    requires UniqueProducts(items)
    ensures |Merge(lines, items)| >= |lines|
    ensures Merge(lines, items)[|lines|..] == NewItems(lines, items)
    decreases |items|
  {
    MergeKeepsLines(lines, items);
    if items != [] {
      var init, last := items[..|items| - 1], items[|items| - 1];
      var m := Merge(lines, init);
      UniqueInitLast(items);
      MergeAppendsNewItems(lines, init);
      MergeKeepsLines(lines, init);
      MergeOneSuffix(m, last, |lines|);
      var i := FindIndex(m, last.product);
      if last.product in ProductSet(lines) {
        var k :| 0 <= k < |lines| && lines[k].product == last.product;
        assert m[k].product == last.product;
      } else if i != -1 {
        NewItemsProducts(lines, init);
        assert false;
      }
    }
  }

  /**
   * What a successful addProductToCart leaves in a cart that had one line per
   * product: the request passed the existence check, so it names each
   * product once; every old line stays in place with the requested quantity
   * added, the new products follow in request order, and there is still one
   * line per product.
   */
  lemma MergeAfterCheck(lines: seq<LineItem>, items: seq<LineItem>, catalog: set<ProductId>)
    requires UniqueProducts(lines) && AllFound(items, catalog)
    ensures var merged := Merge(lines, items);
      && UniqueProducts(merged)
      && |merged| == |lines| + |NewItems(lines, items)|
      && (forall k | 0 <= k < |lines| ::
            merged[k] == LineItem(lines[k].product, lines[k].quantity + QuantityOf(items, lines[k].product)))
      && merged[|lines|..] == NewItems(lines, items)
  {
    AllFoundIff(items, catalog);
    MergeAppendsNewItems(lines, items);
    MergeUnique(lines, items);
    forall k | 0 <= k < |lines|
      ensures Merge(lines, items)[k]
              == LineItem(lines[k].product, lines[k].quantity + QuantityOf(items, lines[k].product))
    {
      MergeExistingLine(lines, items, k);
    }
  }

  /** One merge step keeps every product that had a line and adds the item's product. */
  lemma MergeOneProducts(m: seq<LineItem>, item: LineItem, p: ProductId)
    ensures p in ProductSet(MergeOne(m, item)) <==> p in ProductSet(m) || p == item.product
  {
    var r := MergeOne(m, item);
    var i := FindIndex(m, item.product);
    if i > -1 {
      assert |r| == |m| && forall k | 0 <= k < |m| :: r[k].product == m[k].product;
    } else {
      assert r[|m|].product == item.product;
      assert forall k | 0 <= k < |m| :: r[k] == m[k];
    }
  }

  /** The products with a line after the merge are those before it and those requested. */
  lemma MergeProducts(lines: seq<LineItem>, items: seq<LineItem>)
    ensures ProductSet(Merge(lines, items)) == ProductSet(lines) + ProductSet(items)
  {
    MergeKeepsLines(lines, items);
    forall p | p in ProductSet(Merge(lines, items)) ensures p in ProductSet(lines) + ProductSet(items) {
      MergeNewLineFrom(lines, items, p);
    }
    forall p | p in ProductSet(lines) ensures p in ProductSet(Merge(lines, items)) {
      var k :| 0 <= k < |lines| && lines[k].product == p;
      assert Merge(lines, items)[k].product == p;
    }
    forall p | p in ProductSet(items) ensures p in ProductSet(Merge(lines, items)) {
      MergeCoversRequest(lines, items, p);
    }
  }

  /** Every line of a merge result names a product of the cart or of the request. */
  lemma {:induction false} MergeNewLineFrom(lines: seq<LineItem>, items: seq<LineItem>, p: ProductId)
    requires p in ProductSet(Merge(lines, items))
    ensures p in ProductSet(lines) || p in ProductSet(items)
    decreases |items|
  {
    if items != [] {
      var init, last := items[..|items| - 1], items[|items| - 1];
      InitProducts(items);
      MergeOneProducts(Merge(lines, init), last, p);
      if p in ProductSet(Merge(lines, init)) {
        MergeNewLineFrom(lines, init, p);
      }
    }
  }


  /** Every requested product has a line after the merge. */
  lemma {:induction false} MergeCoversRequest(lines: seq<LineItem>, items: seq<LineItem>, p: ProductId)
    requires p in ProductSet(items)
    ensures p in ProductSet(Merge(lines, items))
    decreases |items|
  {
    var init, last := items[..|items| - 1], items[|items| - 1];
    var k :| 0 <= k < |items| && items[k].product == p;
    if k < |items| - 1 {
      assert init[k] == items[k];
      MergeCoversRequest(lines, init, p);
    }
    MergeOneProducts(Merge(lines, init), last, p);
  }


  /**
   * `updateProductQuantity`'s write: the line for `id` gets quantity `q`
   * outright; without such a line nothing changes.
   */
  function Overwrite(lines: seq<LineItem>, id: ProductId, q: int): (r: seq<LineItem>)
    ensures |r| == |lines|
    ensures forall k | 0 <= k < |lines| :: r[k].product == lines[k].product
    ensures id in ProductSet(lines) ==> r[FindIndex(lines, id)].quantity == q
    ensures forall k | 0 <= k < |lines| && k != FindIndex(lines, id) :: r[k] == lines[k]
  {
    var i := FindIndex(lines, id);
    if i == -1 then lines else lines[i := LineItem(lines[i].product, q)]
  }

  /**
   * The overwrite is an absolute set, not a delta: with one line per
   * product, `id` ends up with quantity `q` whatever it had before, every
   * other line is untouched, and the cart keeps one line per product.
   */
  lemma OverwriteSetsQuantity(lines: seq<LineItem>, id: ProductId, q: int)
    requires UniqueProducts(lines) && id in ProductSet(lines)
    ensures var r := Overwrite(lines, id, q);
      && |r| == |lines|
      && r[FindIndex(lines, id)] == LineItem(id, q)
      && UniqueProducts(r)
      && QuantityOf(r, id) == q
      && (forall k | 0 <= k < |lines| && lines[k].product != id :: r[k] == lines[k])
      && (forall p | p != id :: QuantityOf(r, p) == QuantityOf(lines, p))
  {
    var i := FindIndex(lines, id);
    var r := Overwrite(lines, id, q);
    QuantityOfUnique(r, i);
    forall p | p != id ensures QuantityOf(r, p) == QuantityOf(lines, p) {
      QuantityOfUpdate(lines, i, q, p);
    }
  }

  /** `filter`: the lines whose product is not `id`, in their original order. */
  function Without(lines: seq<LineItem>, id: ProductId): (r: seq<LineItem>)
    ensures |r| <= |lines|
    ensures forall k | 0 <= k < |r| :: r[k].product != id
  {
    if lines == [] then []
    else (if lines[0].product == id then [] else [lines[0]]) + Without(lines[1..], id)
  }

  /** Removal keeps the relative order: filtering a concatenation filters each part. */
  lemma {:induction false} WithoutAppend(a: seq<LineItem>, b: seq<LineItem>, id: ProductId)
    ensures Without(a + b, id) == Without(a, id) + Without(b, id)
  {
    if a == [] {
      assert a + b == b;
    } else {
      assert (a + b)[0] == a[0] && (a + b)[1..] == a[1..] + b;
      WithoutAppend(a[1..], b, id);
    }
  }

  /**
   * After removal no line names `id`, every other product keeps its total,
   * and every remaining line was a line of the cart.
   */
  lemma {:induction false} WithoutRemoves(lines: seq<LineItem>, id: ProductId)
    ensures id !in ProductSet(Without(lines, id))
    ensures forall p | p != id :: QuantityOf(Without(lines, id), p) == QuantityOf(lines, p)
    ensures forall k | 0 <= k < |Without(lines, id)| :: Without(lines, id)[k] in lines
    ensures |Without(lines, id)| <= |lines|
  {
    if lines != [] {
      WithoutRemoves(lines[1..], id);
      var head := if lines[0].product == id then [] else [lines[0]];
      forall p | p != id ensures QuantityOf(Without(lines, id), p) == QuantityOf(lines, p) {
        QuantityOfAppend(head, Without(lines[1..], id), p);
      }
      var w := Without(lines, id);
      forall k | 0 <= k < |w| ensures w[k] in lines {
        if k >= |head| {
          assert w[k] == Without(lines[1..], id)[k - |head|];
          assert w[k] in lines[1..];
        }
      }
    }
  }

  /** Removing a product that has no line returns the same lines. */
  lemma {:induction false} WithoutAbsent(lines: seq<LineItem>, id: ProductId)
    requires id !in ProductSet(lines)
    ensures Without(lines, id) == lines
  {
    if lines != [] {
      WithoutAbsent(lines[1..], id);
    }
  }

  /** Removal is idempotent: removing twice is removing once. */
  lemma WithoutIdempotent(lines: seq<LineItem>, id: ProductId)
    ensures Without(Without(lines, id), id) == Without(lines, id)
  {
    WithoutRemoves(lines, id);
    WithoutAbsent(Without(lines, id), id);
  }

  /**
   * With one line per product, removing a product that has a line drops
   * exactly that line and keeps the others, in order, on both sides of it.
   */
  lemma WithoutUniqueAt(lines: seq<LineItem>, id: ProductId)
    requires UniqueProducts(lines) && id in ProductSet(lines)
    ensures var i := FindIndex(lines, id);
      Without(lines, id) == lines[..i] + lines[i + 1..]
  {
    WithoutOnlyAt(lines, FindIndex(lines, id), id);
  }

  /** Filtering out the product of exactly one line cuts out that line. */
  lemma WithoutOnlyAt(lines: seq<LineItem>, i: nat, id: ProductId)
    requires i < |lines| && lines[i].product == id
    requires forall k | 0 <= k < |lines| && k != i :: lines[k].product != id
    ensures Without(lines, id) == lines[..i] + lines[i + 1..]
  {
    var before, after := lines[..i], lines[i + 1..];
    assert lines == before + [lines[i]] + after;
    forall k | 0 <= k < |before| ensures before[k].product != id {
      assert before[k] == lines[k];
    }
    forall k | 0 <= k < |after| ensures after[k].product != id {
      assert after[k] == lines[i + 1 + k];
    }
    NoLineFor(before, id);
    NoLineFor(after, id);
    assert Without([lines[i]], id) == [];
    WithoutAppend(before, [lines[i]], id);
    assert Without(before + [lines[i]], id) == before;
    WithoutAppend(before + [lines[i]], after, id);
  }

  /** A filter that matches no line keeps them all. */
  lemma NoLineFor(lines: seq<LineItem>, id: ProductId)
    requires forall k | 0 <= k < |lines| :: lines[k].product != id
    ensures Without(lines, id) == lines
  {
    WithoutAbsent(lines, id);
  }

  /** Removal keeps one line per product. */
  lemma {:induction false} WithoutUnique(lines: seq<LineItem>, id: ProductId)
    requires UniqueProducts(lines)
    ensures UniqueProducts(Without(lines, id))
  {
    if lines != [] {
      WithoutUnique(lines[1..], id);
      WithoutRemoves(lines[1..], id);
      var rest := Without(lines[1..], id);
      if lines[0].product != id {
        forall k | 0 <= k < |rest| ensures rest[k].product != lines[0].product {
          assert rest[k] in lines[1..];
        }
      }
    }
  }

  /** The products `Product.find({_id: {$in: ids}})` returns: each catalog product named, once. */
  function FoundCount(items: seq<LineItem>, catalog: set<ProductId>): (n: nat)
    ensures n <= |items|
  {
    ProductSetSize(items);
    IntersectionSize(ProductSet(items), catalog);
    |ProductSet(items) * catalog|
  }

  /** The handler's test `foundProducts.length === productIds.length`. */
  predicate AllFound(items: seq<LineItem>, catalog: set<ProductId>) {
    FoundCount(items, catalog) == |items|
  }

  lemma {:induction false} ProductSetSize(lines: seq<LineItem>)
    ensures |ProductSet(lines)| <= |lines|
    ensures |ProductSet(lines)| == |lines| <==> UniqueProducts(lines)
  {
    if lines != [] {
      var x, rest := lines[0].product, lines[1..];
      ProductSetSize(rest);
      UniqueCons(lines);
      assert ProductSet(lines) == {x} + ProductSet(rest);
      if x in ProductSet(rest) {
        assert ProductSet(lines) == ProductSet(rest);
      } else {
        assert |ProductSet(lines)| == |ProductSet(rest)| + 1;
      }
    }
  }

  /** A sequence has one line per product iff its tail has and its head's product is not in the tail. */
  lemma UniqueCons(lines: seq<LineItem>)
    requires lines != []
    ensures UniqueProducts(lines)
            <==> lines[0].product !in ProductSet(lines[1..]) && UniqueProducts(lines[1..])
  {
    var rest := lines[1..];
    if lines[0].product in ProductSet(rest) {
      var k :| 0 <= k < |rest| && rest[k].product == lines[0].product;
      assert lines[k + 1].product == lines[0].product;
    } else if UniqueProducts(rest) {
      forall i, j | 0 <= i < j < |lines| ensures lines[i].product != lines[j].product {
        if i == 0 {
          assert lines[j].product == rest[j - 1].product;
        } else {
          assert rest[i - 1] == lines[i] && rest[j - 1] == lines[j];
        }
      }
    } else {
      var i, j :| 0 <= i < j < |rest| && rest[i].product == rest[j].product;
      assert lines[i + 1].product == lines[j + 1].product;
    }
  }


  /** Intersecting with the catalog keeps the whole set exactly when the set lies in the catalog. */
  lemma IntersectionSize(ps: set<ProductId>, catalog: set<ProductId>)
    ensures |ps * catalog| <= |ps|
    ensures |ps * catalog| == |ps| <==> ps <= catalog
  {
    var lost := ps - catalog;
    assert ps == (ps * catalog) + lost;
    assert (ps * catalog) * lost == {};
  }

  /**
   * The existence check passes exactly when every requested product is in
   * the catalog AND no product is requested twice: a repeated id is found
   * only once and fails the count.
   */
  lemma AllFoundIff(items: seq<LineItem>, catalog: set<ProductId>)
    ensures AllFound(items, catalog)
            <==> (forall k | 0 <= k < |items| :: items[k].product in catalog) && UniqueProducts(items)
  {
    var ps := ProductSet(items);
    ProductSetSize(items);
    IntersectionSize(ps, catalog);
    if ps <= catalog {
      assert forall k | 0 <= k < |items| :: items[k].product in catalog;
    } else {
      var p :| p in ps && p !in catalog;
    }
  }
}
