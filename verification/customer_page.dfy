/**
 * The catalogue and cart logic of the customer dashboard
 * (src/app/customer/page.tsx): the category tabs, the product filter, and
 * the cart transforms with their item and price totals. Every operation
 * builds a new list from the old one. Prices are integer cents.
 */
module CustomerPage {
  import opened Seqs
  import opened Text

  datatype Product = Product(
    id: string,
    name: string,
    description: string,
    price: int,
    category: string,
    image: string,
    inStock: bool,
    inventory: int,
    rating: nat,
    reviews: nat)

  datatype CartItem = CartItem(product: Product, quantity: int)

  // ---------------------------------------------------------------------------
  // Catalogue

  function CategoryColumn(ps: seq<Product>): (cs: seq<string>)
    ensures |cs| == |ps|
    ensures forall i :: 0 <= i < |ps| ==> cs[i] == ps[i].category
  {
    seq(|ps|, i requires 0 <= i < |ps| => ps[i].category)
  }

  /** The category tabs: "All", then each product category once, in order of first appearance. */
  function Categories(ps: seq<Product>): (r: seq<string>)
    ensures |r| >= 1 && r[0] == "All"
    ensures NoDuplicates(r[1..])
    ensures forall c :: c in r[1..] <==> exists p :: p in ps && p.category == c
    ensures InFirstOccurrenceOrder(r[1..], CategoryColumn(ps))
  {
    var cs := CategoryColumn(ps);
    var tabs := Distinct(cs);
    DistinctFirstOccurrence(cs);
    forall c ensures c in cs <==> exists p :: p in ps && p.category == c {
      if c in cs {
        var i :| 0 <= i < |cs| && cs[i] == c;
        assert ps[i] in ps;
      }
      if exists p :: p in ps && p.category == c {
        var p :| p in ps && p.category == c;
        var i :| 0 <= i < |ps| && ps[i] == p;
        assert cs[i] == c;
      }
    }
    assert (["All"] + tabs)[1..] == tabs;
    ["All"] + tabs
  }

  predicate MatchesSearch(p: Product, term: string)
  {
    ContainsIgnoringCase(p.name, term) || ContainsIgnoringCase(p.description, term)
  }

  predicate Shown(p: Product, selected: string, term: string)
  {
    (selected == "All" || p.category == selected) && MatchesSearch(p, term) && p.inStock
  }

  /** `filteredProducts`: in-stock products of the chosen tab whose name or description contains the search term. */
  function FilteredProducts(ps: seq<Product>, selected: string, term: string): (r: seq<Product>)
    ensures IsSubsequence(r, ps)
    ensures forall p :: p in r <==>
      && p in ps
      && (selected == "All" || p.category == selected)
      && (ContainsIgnoringCase(p.name, term) || ContainsIgnoringCase(p.description, term))
      && p.inStock
    ensures forall p :: multiset(r)[p] == if Shown(p, selected, term) then multiset(ps)[p] else 0
  {
    FilterCount(ps, (p: Product) => Shown(p, selected, term));
    Filter(ps, (p: Product) => Shown(p, selected, term))
  }

  /** With the "All" tab and an empty search, exactly the in-stock products are shown. */
  lemma InitialViewShowsStock(ps: seq<Product>)
    ensures forall p :: p in FilteredProducts(ps, "All", "") <==> p in ps && p.inStock
  {
    forall p: Product ensures ContainsIgnoringCase(p.name, "") {
      EmptyTermMatches(p.name);
    }
  }

  // ---------------------------------------------------------------------------
  // Cart

  function CartIds(cart: seq<CartItem>): (ids: seq<string>)
    ensures |ids| == |cart|
    ensures forall i :: 0 <= i < |cart| ==> ids[i] == cart[i].product.id
  {
    seq(|cart|, i requires 0 <= i < |cart| => cart[i].product.id)
  }

  /** The first cart line for the product `id`, if any. */
  function FindLine(cart: seq<CartItem>, id: string): (r: Option<CartItem>)
    ensures r.None? <==> id !in CartIds(cart)
    ensures r.Some? ==> r.value in cart && r.value.product.id == id
  {
    if cart == [] then None
    else if cart[0].product.id == id then Some(cart[0])
    else
      assert CartIds(cart) == [cart[0].product.id] + CartIds(cart[1..]);
      FindLine(cart[1..], id)
  }

  /** One more unit on a line for `id`; other lines as they are. */
  function Bump(item: CartItem, id: string): CartItem
  {
    if item.product.id == id then item.(quantity := item.quantity + 1) else item
  }

  /** Every line for `id` gets one more unit. */
  function Increment(cart: seq<CartItem>, id: string): seq<CartItem>
  {
    seq(|cart|, i requires 0 <= i < |cart| => Bump(cart[i], id))
  }

  /** Quantity `q` on a line for `id`; other lines as they are. */
  function WithQuantity(item: CartItem, id: string, q: int): CartItem
  {
    if item.product.id == id then item.(quantity := q) else item
  }

  /** Every line for `id` gets quantity `q`. */
  function SetQuantity(cart: seq<CartItem>, id: string, q: int): seq<CartItem>
  {
    seq(|cart|, i requires 0 <= i < |cart| => WithQuantity(cart[i], id, q))
  }

  /** `addToCart`: one more of a product already in the cart, else a new line of one. */
  function AddToCart(cart: seq<CartItem>, p: Product): (r: seq<CartItem>)
    ensures p.id in CartIds(cart) ==> |r| == |cart| && CartIds(r) == CartIds(cart)
    ensures p.id !in CartIds(cart) ==> r == cart + [CartItem(p, 1)]
    ensures forall i :: 0 <= i < |cart| && cart[i].product.id != p.id ==> r[i] == cart[i]
    ensures forall i :: 0 <= i < |cart| && cart[i].product.id == p.id ==>
      r[i] == cart[i].(quantity := cart[i].quantity + 1)
  {
    if FindLine(cart, p.id).Some? then
      var r := Increment(cart, p.id);
      assert CartIds(r) == CartIds(cart);
      r
    else cart + [CartItem(p, 1)]
  }

  function KeepOthers(id: string): CartItem -> bool
  {
    (item: CartItem) => item.product.id != id
  }

  /** `updateCartQuantity`: a quantity of 0 or less drops the product's line, otherwise it is set. */
  function UpdateCartQuantity(cart: seq<CartItem>, id: string, q: int): (r: seq<CartItem>)
    ensures q <= 0 ==> id !in CartIds(r) && IsSubsequence(r, cart)
    ensures q <= 0 ==> forall item :: item in r <==> item in cart && item.product.id != id
    ensures q <= 0 ==> forall item :: multiset(r)[item] == if item.product.id != id then multiset(cart)[item] else 0
    ensures q > 0 ==> |r| == |cart| && CartIds(r) == CartIds(cart)
    ensures q > 0 ==> forall i :: 0 <= i < |cart| ==>
      r[i].product == cart[i].product && r[i].quantity == (if cart[i].product.id == id then q else cart[i].quantity)
  {
    if q <= 0 then
      var r := Filter(cart, KeepOthers(id));
      FilterCount(cart, KeepOthers(id));
      assert id !in CartIds(r) by {
        forall i | 0 <= i < |r| ensures CartIds(r)[i] != id {
          assert r[i] in r;
        }
      }
      r
    else
      var r := SetQuantity(cart, id, q);
      assert CartIds(r) == CartIds(cart);
      r
  }

  /** `getTotalItems`: the sum of the quantities. */
  function TotalItems(cart: seq<CartItem>): int
  {
    if cart == [] then 0 else cart[0].quantity + TotalItems(cart[1..])
  }

  /** `getTotalPrice`: the sum of price times quantity, in cents. */
  function TotalPrice(cart: seq<CartItem>): int
  {
    if cart == [] then 0 else cart[0].product.price * cart[0].quantity + TotalPrice(cart[1..])
  }

  /** How many units of `id` the cart holds. */
  function QuantityOf(cart: seq<CartItem>, id: string): int
  {
    if cart == [] then 0
    else (if cart[0].product.id == id then cart[0].quantity else 0) + QuantityOf(cart[1..], id)
  }

  /** How many lines of the cart are for `id`. */
  function CountLines(cart: seq<CartItem>, id: string): (n: nat)
    ensures n <= |cart|
    ensures n == 0 <==> id !in CartIds(cart)
  {
    if cart == [] then 0
    else
      assert CartIds(cart) == [cart[0].product.id] + CartIds(cart[1..]);
      (if cart[0].product.id == id then 1 else 0) + CountLines(cart[1..], id)
  }

  /** The summed unit price of the lines for `id`. */
  function UnitPriceOf(cart: seq<CartItem>, id: string): int
  {
    if cart == [] then 0
    else (if cart[0].product.id == id then cart[0].product.price else 0) + UnitPriceOf(cart[1..], id)
  }

  /** What the lines for `id` add to the price total. */
  function LineValueOf(cart: seq<CartItem>, id: string): int
  {
    if cart == [] then 0
    else (if cart[0].product.id == id then cart[0].product.price * cart[0].quantity else 0) + LineValueOf(cart[1..], id)
  }

  // ---------------------------------------------------------------------------
  // Cart properties

  lemma TailIds(cart: seq<CartItem>)
    requires cart != []
    ensures CartIds(cart) == [cart[0].product.id] + CartIds(cart[1..])
  {
  }

  /** With product ids unique in the cart, a product in it has exactly one line, and that line is the one `find` returns. */
  lemma {:induction false} UniqueLine(cart: seq<CartItem>, id: string)
    requires NoDuplicates(CartIds(cart))
    requires id in CartIds(cart)
    ensures CountLines(cart, id) == 1
    ensures QuantityOf(cart, id) == FindLine(cart, id).value.quantity
    ensures UnitPriceOf(cart, id) == FindLine(cart, id).value.product.price
    ensures LineValueOf(cart, id) == FindLine(cart, id).value.product.price * FindLine(cart, id).value.quantity
  {
    TailIds(cart);
    var ids := CartIds(cart);
    assert NoDuplicates(CartIds(cart[1..])) by {
      forall i, j | 0 <= i < j < |cart| - 1 ensures CartIds(cart[1..])[i] != CartIds(cart[1..])[j] {
        assert ids[i + 1] != ids[j + 1];
      }
    }
    if cart[0].product.id == id {
      assert id !in CartIds(cart[1..]) by {
        forall i | 0 <= i < |cart| - 1 ensures CartIds(cart[1..])[i] != id {
          assert ids[0] != ids[i + 1];
        }
      }
      NoLine(cart[1..], id);
    } else {
      UniqueLine(cart[1..], id);
    }
  }

  /** A product without a line contributes nothing. */
  lemma {:induction false} NoLine(cart: seq<CartItem>, id: string)
    requires id !in CartIds(cart)
    ensures QuantityOf(cart, id) == 0 && UnitPriceOf(cart, id) == 0 && LineValueOf(cart, id) == 0
  {
    if cart != [] {
      TailIds(cart);
      NoLine(cart[1..], id);
    }
  }

  /** Incrementing adds one unit per matching line to the item count, and those lines' unit prices to the total. */
  lemma {:induction false} IncrementTotals(cart: seq<CartItem>, id: string)
    ensures TotalItems(Increment(cart, id)) == TotalItems(cart) + CountLines(cart, id)
    ensures TotalPrice(Increment(cart, id)) == TotalPrice(cart) + UnitPriceOf(cart, id)
  {
    if cart != [] {
      IncrementTotals(cart[1..], id);
      assert Increment(cart, id)[1..] == Increment(cart[1..], id);
      var c := cart[0];
      if c.product.id == id {
        assert c.product.price * (c.quantity + 1) == c.product.price * c.quantity + c.product.price;
      }
    }
  }

  /**
   * Setting a quantity replaces the units of the matching lines by `q` each,
   * and their value by `q` times their unit prices.
   */
  lemma {:induction false} SetQuantityTotal(cart: seq<CartItem>, id: string, q: int)
    ensures TotalItems(SetQuantity(cart, id, q)) == TotalItems(cart) - QuantityOf(cart, id) + q * CountLines(cart, id)
    ensures TotalPrice(SetQuantity(cart, id, q)) == TotalPrice(cart) - LineValueOf(cart, id) + q * UnitPriceOf(cart, id)
  {
    if cart != [] {
      SetQuantityTotal(cart[1..], id, q);
      assert SetQuantity(cart, id, q)[1..] == SetQuantity(cart[1..], id, q);
      if cart[0].product.id == id {
        Distribute(q, CountLines(cart[1..], id));
        Scale(q, cart[0].product.price, UnitPriceOf(cart[1..], id));
      }
    }
  }

  lemma Distribute(q: int, n: nat)
    ensures q * (1 + n) == q + q * n
  {
  }

  lemma Scale(q: int, a: int, b: int)
    ensures a * q + q * b == q * (a + b)
  {
  }

  /** A cart whose lines hold at least one unit each counts at least one item per line. */
  lemma {:induction false} TotalItemsCountsLines(cart: seq<CartItem>)
    requires forall i :: 0 <= i < |cart| ==> cart[i].quantity >= 1
    ensures TotalItems(cart) >= |cart|
  {
    if cart != [] {
      TotalItemsCountsLines(cart[1..]);
    }
  }

  /** With no negative price or quantity, the price total is never negative. */
  lemma {:induction false} TotalPriceNonNegative(cart: seq<CartItem>)
    requires forall i :: 0 <= i < |cart| ==> cart[i].quantity >= 0 && cart[i].product.price >= 0
    ensures TotalPrice(cart) >= 0
  {
    if cart != [] {
      TotalPriceNonNegative(cart[1..]);
    }
  }

  /** Dropping the lines of `id` removes exactly their units and their value. */
  lemma {:induction false} RemoveTotal(cart: seq<CartItem>, id: string)
    ensures TotalItems(Filter(cart, KeepOthers(id))) == TotalItems(cart) - QuantityOf(cart, id)
    ensures TotalPrice(Filter(cart, KeepOthers(id))) == TotalPrice(cart) - LineValueOf(cart, id)
  {
    if cart != [] {
      RemoveTotal(cart[1..], id);
      if KeepOthers(id)(cart[0]) {
        assert Filter(cart, KeepOthers(id)) == [cart[0]] + Filter(cart[1..], KeepOthers(id));
      }
    }
  }

  /** `addToCart` keeps product ids unique in the cart. */
  lemma AddToCartKeepsIdsUnique(cart: seq<CartItem>, p: Product)
    requires NoDuplicates(CartIds(cart))
    ensures NoDuplicates(CartIds(AddToCart(cart, p)))
  {
    if p.id !in CartIds(cart) {
      assert CartIds(cart + [CartItem(p, 1)]) == CartIds(cart) + [p.id];
      NoDuplicatesAppend(CartIds(cart), p.id);
    }
  }

  /**
   * With unique ids, `addToCart` adds exactly one item, and adds to the
   * total the unit price of the line it bumped, or of the product for a new
   * line.
   */
  lemma AddToCartTotals(cart: seq<CartItem>, p: Product)
    requires NoDuplicates(CartIds(cart))
    ensures TotalItems(AddToCart(cart, p)) == TotalItems(cart) + 1
    ensures TotalPrice(AddToCart(cart, p)) == TotalPrice(cart) +
      (if p.id in CartIds(cart) then FindLine(cart, p.id).value.product.price else p.price)
  {
    if p.id in CartIds(cart) {
      assert AddToCart(cart, p) == Increment(cart, p.id);
      IncrementTotals(cart, p.id);
      UniqueLine(cart, p.id);
    } else {
      assert AddToCart(cart, p) == cart + [CartItem(p, 1)];
      AppendTotals(cart, CartItem(p, 1));
      assert p.price * 1 == p.price;
    }
  }

  lemma {:induction false} AppendTotals(cart: seq<CartItem>, item: CartItem)
    ensures TotalItems(cart + [item]) == TotalItems(cart) + item.quantity
    ensures TotalPrice(cart + [item]) == TotalPrice(cart) + item.product.price * item.quantity
  {
    if cart != [] {
      assert (cart + [item])[1..] == cart[1..] + [item];
      AppendTotals(cart[1..], item);
    } else {
      assert [item][1..] == [];
    }
  }

  /** `updateCartQuantity` keeps product ids unique in the cart. */
  lemma UpdateKeepsIdsUnique(cart: seq<CartItem>, id: string, q: int)
    requires NoDuplicates(CartIds(cart))
    ensures NoDuplicates(CartIds(UpdateCartQuantity(cart, id, q)))
  {
    var r := UpdateCartQuantity(cart, id, q);
    if q <= 0 {
      forall i, j | 0 <= i < j < |r| ensures CartIds(r)[i] != CartIds(r)[j] {
        SubsequenceKeepsDistinct(r, cart, i, j);
      }
    }
  }

  /** Two positions of a subsequence come from two positions of the original, in the same order. */
  lemma {:induction false} SubsequenceKeepsDistinct(r: seq<CartItem>, cart: seq<CartItem>, i: nat, j: nat)
    requires IsSubsequence(r, cart) && NoDuplicates(CartIds(cart))
    requires i < j < |r|
    ensures r[i].product.id != r[j].product.id
    decreases |cart|
  {
    TailIds(cart);
    var ids := CartIds(cart);
    assert NoDuplicates(CartIds(cart[1..])) by {
      forall a, b | 0 <= a < b < |cart| - 1 ensures CartIds(cart[1..])[a] != CartIds(cart[1..])[b] {
        assert ids[a + 1] != ids[b + 1];
      }
    }
    if IsSubsequence(r, cart[1..]) {
      SubsequenceKeepsDistinct(r, cart[1..], i, j);
    } else if i == 0 {
      assert r[j - 1 + 1] == r[1..][j - 1];
      SubsequenceMember(r[1..], cart[1..], j - 1);
      var k :| 0 <= k < |cart| - 1 && cart[1..][k] == r[1..][j - 1];
      assert ids[0] != ids[k + 1];
    } else {
      SubsequenceKeepsDistinct(r[1..], cart[1..], i - 1, j - 1);
    }
  }

  lemma SubsequenceMember(r: seq<CartItem>, s: seq<CartItem>, i: nat)
    requires IsSubsequence(r, s) && i < |r|
    ensures exists k :: 0 <= k < |s| && s[k] == r[i]
    decreases |s|
  {
    if IsSubsequence(r, s[1..]) {
      SubsequenceMember(r, s[1..], i);
      var k :| 0 <= k < |s| - 1 && s[1..][k] == r[i];
      assert s[k + 1] == r[i];
    } else if i > 0 {
      SubsequenceMember(r[1..], s[1..], i - 1);
      var k :| 0 <= k < |s| - 1 && s[1..][k] == r[1..][i - 1];
      assert s[k + 1] == r[i];
    } else {
      assert s[0] == r[0];
    }
  }

  /**
   * With unique ids, removing a product's line takes its units and its value
   * off the totals; setting a positive quantity `q` on a line replaces its
   * units by `q` and its value by `q` times its unit price.
   */
  lemma UpdateCartQuantityTotals(cart: seq<CartItem>, id: string, q: int)
    requires NoDuplicates(CartIds(cart))
    ensures q <= 0 ==> TotalItems(UpdateCartQuantity(cart, id, q)) == TotalItems(cart) - QuantityOf(cart, id)
    ensures q <= 0 && id in CartIds(cart) ==> var line := FindLine(cart, id).value;
      TotalPrice(UpdateCartQuantity(cart, id, q)) == TotalPrice(cart) - line.product.price * line.quantity
    ensures q > 0 && id in CartIds(cart) ==>
      TotalItems(UpdateCartQuantity(cart, id, q)) == TotalItems(cart) - FindLine(cart, id).value.quantity + q
    ensures q > 0 && id in CartIds(cart) ==> var line := FindLine(cart, id).value;
      TotalPrice(UpdateCartQuantity(cart, id, q)) ==
        TotalPrice(cart) - line.product.price * line.quantity + q * line.product.price
  {
    if q <= 0 {
      RemoveTotal(cart, id);
    } else {
      SetQuantityTotal(cart, id, q);
    }
    if id in CartIds(cart) {
      UniqueLine(cart, id);
    }
  }

  /** A product that is not in the cart leaves it as it is, whatever the quantity. */
  lemma UpdateAbsentIsNoOp(cart: seq<CartItem>, id: string, q: int)
    requires id !in CartIds(cart)
    ensures UpdateCartQuantity(cart, id, q) == cart
  {
    if q <= 0 {
      forall item | item in cart ensures KeepOthers(id)(item) {
        var i :| 0 <= i < |cart| && cart[i] == item;
        assert CartIds(cart)[i] == item.product.id;
      }
      FilterKeepsAll(cart, KeepOthers(id));
    } else {
      var r := SetQuantity(cart, id, q);
      forall i | 0 <= i < |cart| ensures r[i] == cart[i] {
        assert CartIds(cart)[i] == cart[i].product.id;
      }
    }
  }
}
