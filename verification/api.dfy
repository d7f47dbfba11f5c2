/**
 * Request handling of the three Express servers. The catalogue query filter,
 * the product and order required-field checks and the order-status whitelist
 * are the same code in all three. The category de-duplication is the backend
 * server's own (the other two ask their store for the categories). The
 * analytics aggregates have one shape in all three, over an order record
 * whose e-mail and amount fields each server reads differently, so they take
 * the two field readers as parameters.
 * Query strings and the product and order request bodies are records of
 * optional, already-typed values; a JavaScript-falsy value is `None`, `""` or `0`.
 */
module Api {
  import opened Seqs
  import opened Text
  import opened JsonStore

  /** Any response status a handler can produce. */
  const Ok := 200
  const Created := 201
  const BadRequest := 400
  const Unauthorized := 401
  const NotFound := 404
  const ServerError := 500

  predicate Falsy(v: Option<string>)
  {
    v.None? || v.value == ""
  }

  predicate FalsyNumber(v: Option<int>)
  {
    v.None? || v.value == 0
  }

  // ---------------------------------------------------------------------------
  // Catalogue query

  datatype Query = Query(category: Option<string>, search: Option<string>)

  /** The category filter applies only to a truthy category other than "All". */
  predicate FiltersCategory(q: Query)
  {
    !Falsy(q.category) && q.category.value != "All"
  }

  predicate MatchesSearch(p: Product, term: string)
  {
    ContainsIgnoringCase(p.name, term) || ContainsIgnoringCase(p.description, term)
  }

  /** A product passes the query: the category when one is chosen, and the search term when one is given. */
  predicate Selected(p: Product, q: Query)
  {
    && (FiltersCategory(q) ==> p.category == q.category.value)
    && (!Falsy(q.search) ==> MatchesSearch(p, q.search.value))
  }

  /**
   * `GET /api/products`: the store listing narrowed first by category, then
   * by a case-insensitive search over name and description.
   */
  function FilterListing(listing: seq<Product>, q: Query): (r: seq<Product>)
    ensures IsSubsequence(r, listing)
    ensures forall p :: p in r <==> p in listing && Selected(p, q)
    ensures forall p :: multiset(r)[p] == if Selected(p, q) then multiset(listing)[p] else 0
    ensures !FiltersCategory(q) && Falsy(q.search) ==> r == listing
  {
    var byCategory :=
      if FiltersCategory(q) then
        (FilterCount(listing, (p: Product) => p.category == q.category.value);
         Filter(listing, (p: Product) => p.category == q.category.value))
      else listing;
    var bySearch :=
      if Falsy(q.search) then byCategory
      else
        (FilterCount(byCategory, (p: Product) => MatchesSearch(p, q.search.value));
         Filter(byCategory, (p: Product) => MatchesSearch(p, q.search.value)));
    SubsequenceIsReflexive(listing);
    SubsequenceIsReflexive(byCategory);
    SubsequenceTransitive(bySearch, byCategory, listing);
    bySearch
  }

  /** Applied to the store listing, the filter only ever returns available products, in (category, name) order. */
  lemma FilterListingOfStore(ps: seq<Product>, q: Query)
    ensures forall p :: p in FilterListing(ListAvailable(ps), q) ==> p in ps && p.available
    ensures forall p :: p in ps && p.available && !FiltersCategory(q) && Falsy(q.search) ==>
      p in FilterListing(ListAvailable(ps), q)
  {
    ListAvailableSpec(ps);
  }

  // ---------------------------------------------------------------------------
  // Product creation

  datatype ProductRequest = ProductRequest(
    name: Option<string>,
    description: Option<string>,
    price: Option<int>,
    category: Option<string>,
    image: Option<string>,
    stock: Option<int>,
    prepTime: Option<int>)

  predicate MissingProductFields(req: ProductRequest)
  {
    Falsy(req.name) || Falsy(req.description) || FalsyNumber(req.price) || Falsy(req.category)
  }

  /**
   * `POST /api/admin/products`: 400 when a required field is falsy (a price of
   * 0 included); otherwise the data handed to the store, with `image`,
   * `stock` and `prep_time` already defaulted.
   */
  function ValidateProduct(req: ProductRequest): (r: Result<NewProductFields, int>)
    ensures r.Failure? <==> MissingProductFields(req)
    ensures r.Failure? ==> r.error == BadRequest
    ensures r.Success? ==>
      && r.value.name == req.name.value && r.value.name != ""
      && r.value.description == req.description.value
      && r.value.price == req.price.value && r.value.price != 0
      && r.value.category == req.category.value
      && r.value.image == Some(if Falsy(req.image) then "" else req.image.value)
      && r.value.stock == Some(if FalsyNumber(req.stock) then 0 else req.stock.value)
      && r.value.prepTime == Some(if FalsyNumber(req.prepTime) then 15 else req.prepTime.value)
  {
    if MissingProductFields(req) then Failure(BadRequest)
    else Success(NewProductFields(
      req.name.value, req.description.value, req.price.value, req.category.value,
      Some(OrString(req.image, "")), Some(OrInt(req.stock, 0)), Some(OrInt(req.prepTime, 15))))
  }

  /**
   * Going through the request check and then the store, a created product
   * carries the request's fields, with '' / 0 / 15 for a falsy image, stock
   * or prep time, is available and unrated.
   */
  lemma ValidatedProductStored(req: ProductRequest, id: nat, now: Timestamp)
    requires !MissingProductFields(req)
    ensures var p := NewProduct(id, ValidateProduct(req).value, now);
      && p.id == id && p.name == req.name.value && p.description == req.description.value
      && p.price == req.price.value && p.category == req.category.value
      && p.image == (if Falsy(req.image) then "" else req.image.value)
      && p.stock == (if FalsyNumber(req.stock) then 0 else req.stock.value)
      && p.prepTime == (if FalsyNumber(req.prepTime) then 15 else req.prepTime.value)
      && p.available && p.rating == 0
  {
  }

  // ---------------------------------------------------------------------------
  // Order creation

  datatype OrderRequest = OrderRequest(
    customerName: Option<string>,
    customerEmail: Option<string>,
    customerPhone: Option<string>,
    address: Option<string>,
    items: Option<seq<LineItem>>,
    total: Option<int>,
    deliveryTime: Option<int>,
    specialInstructions: Option<string>)

  /** An order is refused when the customer name is falsy, the items are missing or empty, or the total is falsy. */
  predicate MissingOrderInfo(req: OrderRequest)
  {
    Falsy(req.customerName) || req.items.None? || req.items.value == [] || FalsyNumber(req.total)
  }

  // ---------------------------------------------------------------------------
  // Order status

  const Statuses: seq<string> := ["pending", "preparing", "ready", "delivered", "cancelled"]

  /** `PUT /api/admin/orders/:id` body check: 400 unless the status is one of the five. */
  function CheckStatus(status: Option<string>): (r: Result<string, int>)
    ensures r.Success? <==> status.Some? && status.value in Statuses
    ensures r.Success? ==> r.value == status.value
    ensures r.Failure? ==> r.error == BadRequest
  {
    if status.Some? && status.value in Statuses then Success(status.value) else Failure(BadRequest)
  }

  // ---------------------------------------------------------------------------
  // Categories

  ghost predicate HasCategory(listing: seq<Product>, c: string)
  {
    exists p :: p in listing && p.category == c
  }

  function CategoryColumn(listing: seq<Product>): (cs: seq<string>)
    ensures |cs| == |listing|
    ensures forall i :: 0 <= i < |listing| ==> cs[i] == listing[i].category
  {
    seq(|listing|, i requires 0 <= i < |listing| => listing[i].category)
  }

  /** The listing's categories, each once, in the order a JavaScript `Set` keeps them. */
  function CategoriesOf(listing: seq<Product>): (r: seq<string>)
    ensures NoDuplicates(r)
    ensures forall c :: c in r <==> HasCategory(listing, c)
    ensures InFirstOccurrenceOrder(r, CategoryColumn(listing))
  {
    var cs := CategoryColumn(listing);
    DistinctFirstOccurrence(cs);
    forall c ensures c in cs <==> HasCategory(listing, c) {
      if c in cs {
        var i :| 0 <= i < |cs| && cs[i] == c;
        assert listing[i] in listing;
      }
      if HasCategory(listing, c) {
        var p :| p in listing && p.category == c;
        var i :| 0 <= i < |listing| && listing[i] == p;
        assert cs[i] == c;
      }
    }
    Distinct(cs)
  }

  /** `GET /api/categories` lists the categories of the available products, and only those. */
  lemma CategoriesOfStore(ps: seq<Product>)
    ensures forall c :: c in CategoriesOf(ListAvailable(ps)) <==>
      exists p :: p in ps && p.available && p.category == c
  {
    ListAvailableSpec(ps);
  }

  // ---------------------------------------------------------------------------
  // Analytics

  datatype Stats = Stats(totalProducts: nat, totalOrders: nat, totalRevenue: int, activeCustomers: nat)

  datatype Analytics<O> = Analytics(stats: Stats, recentOrders: seq<O>)

  /** The distinct customer e-mails among `orders`. */
  ghost function Customers<O>(orders: seq<O>, email: O -> string): set<string>
  {
    set i | 0 <= i < |orders| :: email(orders[i])
  }

  /** The sum of the orders' amounts, read through `amount`. */
  function Revenue<O>(orders: seq<O>, amount: O -> int): (total: int)
  {
    Sum(seq(|orders|, i requires 0 <= i < |orders| => amount(orders[i])))
  }

  /**
   * `GET /api/admin/analytics` over an order record whose e-mail and amount
   * fields are read through `email` and `amount`.
   */
  function ComputeAnalytics<O>(products: seq<Product>, orders: seq<O>, email: O -> string, amount: O -> int)
    : (r: Analytics<O>)
    ensures r.stats.totalProducts == |products|
    ensures r.stats.totalOrders == |orders|
    ensures r.stats.activeCustomers == |Customers(orders, email)|
    ensures r.stats.activeCustomers <= r.stats.totalOrders
    ensures r.stats.totalRevenue == Revenue(orders, amount)
    ensures |r.recentOrders| == if |orders| < 5 then |orders| else 5
    ensures forall i :: 0 <= i < |r.recentOrders| ==> r.recentOrders[i] == orders[i]
  {
    var emails := seq(|orders|, i requires 0 <= i < |orders| => email(orders[i]));
    var amounts := seq(|orders|, i requires 0 <= i < |orders| => amount(orders[i]));
    assert (set x | x in emails) == Customers(orders, email) by {
      forall x | x in emails ensures x in Customers(orders, email) {
        var i :| 0 <= i < |emails| && emails[i] == x;
      }
      forall i | 0 <= i < |orders| ensures email(orders[i]) in emails {
        assert emails[i] == email(orders[i]);
      }
    }
    Analytics(Stats(|products|, |orders|, Sum(amounts), DistinctCount(emails)), Take(orders, 5))
  }

  /** The revenue figure is the sum of the order amounts: one more order adds exactly its amount. */
  lemma RevenueAppend<O>(orders: seq<O>, o: O, amount: O -> int)
    ensures Revenue(orders + [o], amount) == Revenue(orders, amount) + amount(o)
  {
    var xs := seq(|orders|, i requires 0 <= i < |orders| => amount(orders[i]));
    assert seq(|orders + [o]|, i requires 0 <= i < |orders + [o]| => amount((orders + [o])[i])) == xs + [amount(o)];
    SumAppend(xs, amount(o));
  }

  /** Over the newest-first order listing, no order left out of `recentOrders` is newer than one kept. */
  lemma RecentAreNewest(os: seq<Order>, email: Order -> string, amount: Order -> int, products: seq<Product>)
    ensures var recent := ComputeAnalytics(products, ListOrders(os), email, amount).recentOrders;
      forall i, j :: 0 <= i < |recent| <= j < |os| ==> recent[i].createdAt >= ListOrders(os)[j].createdAt
  {
    ListOrdersSpec(os);
  }

  /** An order from a known e-mail leaves `activeCustomers` as it was; one from a new e-mail adds one. */
  lemma ActiveCustomersAppend<O>(orders: seq<O>, o: O, email: O -> string)
    ensures Customers(orders + [o], email) == Customers(orders, email) + {email(o)}
    ensures |Customers(orders + [o], email)| ==
      |Customers(orders, email)| + (if exists i :: 0 <= i < |orders| && email(orders[i]) == email(o) then 0 else 1)
  {
    var s := orders + [o];
    assert s[|orders|] == o;
    forall x | x in Customers(s, email) ensures x in Customers(orders, email) + {email(o)} {
      var i :| 0 <= i < |s| && email(s[i]) == x;
      if i < |orders| {
        assert s[i] == orders[i];
      }
    }
    forall x | x in Customers(orders, email) ensures x in Customers(s, email) {
      var i :| 0 <= i < |orders| && email(orders[i]) == x;
      assert s[i] == orders[i];
    }
    if exists i :: 0 <= i < |orders| && email(orders[i]) == email(o) {
      var i :| 0 <= i < |orders| && email(orders[i]) == email(o);
      assert email(o) in Customers(orders, email);
    }
  }
}
