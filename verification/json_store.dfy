/**
 * The flat-file product and order store (backend/database.js, class
 * `Database`). Each JSON file is a sequence of records held in a field; every
 * method reads the whole collection, changes it and writes it back, so each
 * method is tied to a pure transition function of the old collection, and the
 * lemmas below state what those transitions promise.
 *
 * Money is in integer cents, `rating` in tenths of a star, and timestamps are
 * readings of an abstract clock passed in as `now`.
 */
module JsonStore {
  import opened Seqs
  import opened Text
  import opened Sorting

  type Timestamp = nat

  /** One line of an order: a snapshot of the product at ordering time. */
  datatype LineItem = LineItem(productId: nat, name: string, price: int, quantity: int)

  datatype Product = Product(
    id: nat,
    name: string,
    description: string,
    price: int,
    category: string,
    image: string,
    stock: int,
    available: bool,
    prepTime: int,
    rating: nat,
    createdAt: Timestamp,
    updatedAt: Timestamp)

  /** What `createProduct` is given: image, stock and prep_time may be absent. */
  datatype NewProductFields = NewProductFields(
    name: string,
    description: string,
    price: int,
    category: string,
    image: Option<string>,
    stock: Option<int>,
    prepTime: Option<int>)

  /** What `updateProduct` is given: every field is written as supplied. */
  datatype ProductFields = ProductFields(
    name: string,
    description: string,
    price: int,
    category: string,
    image: string,
    stock: int,
    prepTime: int)

  datatype Order = Order(
    id: nat,
    customerName: string,
    customerPhone: string,
    customerEmail: string,
    deliveryAddress: string,
    items: seq<LineItem>,
    total: int,
    status: string,
    paymentStatus: string,
    deliveryTime: int,
    specialInstructions: string,
    createdAt: Timestamp,
    updatedAt: Timestamp)

  /** What `createOrder` is given: the last four fields fall back to defaults when falsy. */
  datatype NewOrderFields = NewOrderFields(
    customerName: string,
    customerPhone: string,
    customerEmail: string,
    deliveryAddress: string,
    items: seq<LineItem>,
    total: int,
    status: Option<string>,
    paymentStatus: Option<string>,
    deliveryTime: Option<int>,
    specialInstructions: Option<string>)

  // ---------------------------------------------------------------------------
  // Identifiers

  function ProductIds(ps: seq<Product>): (ids: seq<nat>)
  {
    seq(|ps|, i requires 0 <= i < |ps| => ps[i].id)
  }

  function OrderIds(os: seq<Order>): (ids: seq<nat>)
  {
    seq(|os|, i requires 0 <= i < |os| => os[i].id)
  }

  /** The largest id on file, or 0 for an empty file. */
  function MaxId(ids: seq<nat>): (m: nat)
    ensures forall i :: 0 <= i < |ids| ==> ids[i] <= m
    ensures m == 0 || m in ids
  {
    if ids == [] then 0
    else
      var rest := MaxId(ids[1..]);
      if ids[0] < rest then rest else ids[0]
  }

  /** The id a new record gets: one more than every id on file, soft-deleted ones included. */
  function NextId(ids: seq<nat>): (id: nat)
    ensures id >= 1
    ensures forall i :: 0 <= i < |ids| ==> ids[i] < id
  {
    MaxId(ids) + 1
  }

  /** The position of the first record holding `id`, if any. */
  function IndexOf(ids: seq<nat>, id: nat): (r: Option<nat>)
    ensures r.None? <==> id !in ids
    ensures r.Some? ==> r.value < |ids| && ids[r.value] == id && id !in ids[..r.value]
  {
    if id in ids then Some(FirstIndex(ids, id)) else None
  }

  // ---------------------------------------------------------------------------
  // Products

  /** `find` by id: the first record holding the id. */
  function FindProduct(ps: seq<Product>, id: nat): (r: Option<Product>)
    ensures r.None? <==> id !in ProductIds(ps)
    ensures r.Some? ==> r.value.id == id
    ensures r.Some? ==> exists k :: 0 <= k < |ps| && ps[k] == r.value && id !in ProductIds(ps)[..k]
  {
    match IndexOf(ProductIds(ps), id)
    case None => None
    case Some(i) => Some(ps[i])
  }

  predicate IsAvailable(p: Product)
  {
    p.available
  }

  /** The listing comparator: by category, then by name for equal categories. */
  predicate ProductBefore(p: Product, q: Product)
  {
    || (LexLeq(p.category, q.category) && p.category != q.category)
    || (p.category == q.category && LexLeq(p.name, q.name))
  }

  lemma ProductBeforeIsTotalPreorder()
    ensures Total(ProductBefore) && Transitive(ProductBefore)
  {
    forall x: Product, y: Product ensures ProductBefore(x, y) || ProductBefore(y, x) {
      LexLeqTotal(x.category, y.category);
      LexLeqTotal(x.name, y.name);
    }
    forall x: Product, y: Product, z: Product | ProductBefore(x, y) && ProductBefore(y, z)
      ensures ProductBefore(x, z)
    {
      if x.category == y.category && y.category == z.category {
        LexLeqTransitive(x.name, y.name, z.name);
      } else if x.category != y.category && y.category != z.category {
        LexLeqTransitive(x.category, y.category, z.category);
        if x.category == z.category {
          LexLeqAntisymmetric(x.category, y.category);
        }
      }
    }
  }

  /** `getAllProducts`: the available records ordered by category, then name. */
  function ListAvailable(ps: seq<Product>): (r: seq<Product>)
    ensures |r| <= |ps|
    ensures multiset(r) == multiset(Filter(ps, IsAvailable))
  {
    SortBy(Filter(ps, IsAvailable), ProductBefore)
  }

  /** The listing holds exactly the available records, each as often as on file, in (category, name) order. */
  lemma ListAvailableSpec(ps: seq<Product>)
    ensures forall p :: p in ListAvailable(ps) <==> p in ps && p.available
    ensures multiset(ListAvailable(ps)) == multiset(Filter(ps, IsAvailable))
    ensures SortedBy(ListAvailable(ps), ProductBefore)
  {
    ProductBeforeIsTotalPreorder();
    SortBySorted(Filter(ps, IsAvailable), ProductBefore);
    forall p ensures p in ListAvailable(ps) <==> p in ps && p.available {
      SortByMembers(Filter(ps, IsAvailable), ProductBefore, p);
    }
  }

  /** The record `createProduct` writes: available, unrated, never without a prep time. */
  function NewProduct(id: nat, f: NewProductFields, now: Timestamp): (p: Product)
    ensures p.id == id && p.available && p.rating == 0
    ensures p.prepTime != 0
    ensures p.createdAt == now && p.updatedAt == now
  {
    Product(id, f.name, f.description, f.price, f.category,
            OrString(f.image, ""), OrInt(f.stock, 0), true,
            OrInt(f.prepTime, 15), 0, now, now)
  }

  /** `createProduct`: the new record is appended, and reading it back gives the supplied fields plus defaults. */
  lemma {:induction false} CreateProductSpec(ps: seq<Product>, f: NewProductFields, now: Timestamp)
    ensures var id := NextId(ProductIds(ps));
      var ps' := ps + [NewProduct(id, f, now)];
      && (forall p :: p in ps ==> p.id < id)
      && (NoDuplicates(ProductIds(ps)) ==> NoDuplicates(ProductIds(ps')))
      && ps'[..|ps|] == ps
      && FindProduct(ps', id) == Some(NewProduct(id, f, now))
      && var p := FindProduct(ps', id).value;
         && p.name == f.name && p.description == f.description
         && p.price == f.price && p.category == f.category
         && p.available && p.rating == 0
         && p.image == (if f.image.None? || f.image.value == "" then "" else f.image.value)
         && p.stock == (if f.stock.None? || f.stock.value == 0 then 0 else f.stock.value)
         && p.prepTime == (if f.prepTime.None? || f.prepTime.value == 0 then 15 else f.prepTime.value)
         && p.createdAt == now && p.updatedAt == now
  {
    var ids := ProductIds(ps);
    var id := NextId(ids);
    var ps' := ps + [NewProduct(id, f, now)];
    forall p | p in ps ensures p.id < id {
      var k :| 0 <= k < |ps| && ps[k] == p;
      assert ids[k] == p.id;
    }
    assert ProductIds(ps') == ids + [id];
    assert id !in ids;
    if NoDuplicates(ids) {
      NoDuplicatesAppend(ids, id);
    }
    assert id !in ids;
    assert (ids + [id])[..|ids|] == ids;
    FirstIndexAt(ids + [id], id, |ids|);
  }

  /** The record `updateProduct` writes: the supplied fields over the stored record. */
  function UpdatedProduct(p: Product, f: ProductFields, now: Timestamp): (r: Product)
    ensures r.id == p.id && r.available == p.available && r.rating == p.rating
    ensures r.createdAt == p.createdAt && r.updatedAt == now
  {
    p.(name := f.name, description := f.description, price := f.price,
       category := f.category, image := f.image, stock := f.stock,
       prepTime := f.prepTime, updatedAt := now)
  }

  /** `updateProduct` on the collection: the new collection, or the error it reports. */
  function UpdateProductIn(ps: seq<Product>, id: nat, f: ProductFields, now: Timestamp)
    : (r: Result<seq<Product>, string>)
    ensures r.Failure? <==> id !in ProductIds(ps)
    ensures r.Failure? ==> r.error == "Product not found"
  {
    match IndexOf(ProductIds(ps), id)
    case None => Failure("Product not found")
    case Some(i) => Success(ps[i := UpdatedProduct(ps[i], f, now)])
  }

  /**
   * A successful update rewrites the seven editable fields and `updatedAt` of
   * the record `getProductById` finds, keeps its id, availability, rating and
   * creation time, and leaves every other record and every id as it was.
   */
  lemma UpdateProductSpec(ps: seq<Product>, id: nat, f: ProductFields, now: Timestamp)
    requires id in ProductIds(ps)
    ensures var ps' := UpdateProductIn(ps, id, f, now).value;
      && |ps'| == |ps|
      && ProductIds(ps') == ProductIds(ps)
    ensures FindProduct(UpdateProductIn(ps, id, f, now).value, id).Some?
    ensures var ps' := UpdateProductIn(ps, id, f, now).value;
      var old_ := FindProduct(ps, id).value;
      var new_ := FindProduct(ps', id).value;
      && new_.id == old_.id && new_.available == old_.available
      && new_.rating == old_.rating && new_.createdAt == old_.createdAt
      && new_.name == f.name && new_.description == f.description
      && new_.price == f.price && new_.category == f.category
      && new_.image == f.image && new_.stock == f.stock
      && new_.prepTime == f.prepTime && new_.updatedAt == now
    ensures var ps' := UpdateProductIn(ps, id, f, now).value;
      var i := IndexOf(ProductIds(ps), id).value;
      && ps'[i] == FindProduct(ps', id).value
      && (forall j :: 0 <= j < |ps| && j != i ==> ps'[j] == ps[j])
  {
    var i := IndexOf(ProductIds(ps), id).value;
    var ps' := UpdateProductIn(ps, id, f, now).value;
    assert ProductIds(ps') == ProductIds(ps);
    assert IndexOf(ProductIds(ps'), id) == Some(i);
  }

  /** `deleteProduct` on the collection: the record is kept and marked unavailable. */
  function SoftDeleteIn(ps: seq<Product>, id: nat): (r: Result<seq<Product>, string>)
    ensures r.Failure? <==> id !in ProductIds(ps)
    ensures r.Failure? ==> r.error == "Product not found"
  {
    match IndexOf(ProductIds(ps), id)
    case None => Failure("Product not found")
    case Some(i) => Success(ps[i := ps[i].(available := false)])
  }

  /**
   * After a soft delete the record is still found by id, differs from before
   * only in `available`, and nothing else on file changes.
   */
  lemma SoftDeleteSpec(ps: seq<Product>, id: nat)
    requires id in ProductIds(ps)
    ensures var ps' := SoftDeleteIn(ps, id).value;
      && |ps'| == |ps|
      && ProductIds(ps') == ProductIds(ps)
      && FindProduct(ps', id) == Some(FindProduct(ps, id).value.(available := false))
    ensures var ps' := SoftDeleteIn(ps, id).value;
      var i := IndexOf(ProductIds(ps), id).value;
      && ps'[i] == ps[i].(available := false)
      && (forall j :: 0 <= j < |ps| && j != i ==> ps'[j] == ps[j])
  {
    var i := IndexOf(ProductIds(ps), id).value;
    var ps' := SoftDeleteIn(ps, id).value;
    assert ProductIds(ps') == ProductIds(ps);
    assert IndexOf(ProductIds(ps'), id) == Some(i);
  }

  /** Deleting twice succeeds twice and leaves the same collection as deleting once. */
  lemma SoftDeleteIdempotent(ps: seq<Product>, id: nat)
    requires id in ProductIds(ps)
    ensures SoftDeleteIn(SoftDeleteIn(ps, id).value, id) == SoftDeleteIn(ps, id)
  {
    var i := IndexOf(ProductIds(ps), id).value;
    var ps' := SoftDeleteIn(ps, id).value;
    assert ProductIds(ps') == ProductIds(ps);
    assert ps'[i := ps'[i].(available := false)] == ps';
  }

  /** With ids unique on file, a soft-deleted record no longer appears in `getAllProducts`, and no other record's presence changes. */
  lemma SoftDeleteHidesFromListing(ps: seq<Product>, id: nat)
    requires NoDuplicates(ProductIds(ps))
    requires id in ProductIds(ps)
    ensures var ps' := SoftDeleteIn(ps, id).value;
      && (forall p :: p in ListAvailable(ps') ==> p.id != id)
      && (forall p: Product :: p.id != id ==> (p in ListAvailable(ps') <==> p in ListAvailable(ps)))
  {
    var ids := ProductIds(ps);
    var i := IndexOf(ids, id).value;
    var ps' := SoftDeleteIn(ps, id).value;
    ListAvailableSpec(ps);
    ListAvailableSpec(ps');
    forall p | p in ps' && p.available ensures p.id != id {
      var k :| 0 <= k < |ps'| && ps'[k] == p;
      if k != i {
        assert ids[k] != ids[i];
      }
    }
    forall p: Product | p.id != id ensures (p in ps' && p.available) <==> (p in ps && p.available) {
      if p in ps' && p.available {
        var k :| 0 <= k < |ps'| && ps'[k] == p;
        assert k != i && ps[k] == p;
      }
      if p in ps && p.available {
        var k :| 0 <= k < |ps| && ps[k] == p;
        assert k != i by { assert ids[k] == p.id; }
        assert ps'[k] == p;
      }
    }
  }

  // ---------------------------------------------------------------------------
  // Orders

  /** `find` by id: the first order holding the id. */
  function FindOrder(os: seq<Order>, id: nat): (r: Option<Order>)
    ensures r.None? <==> id !in OrderIds(os)
    ensures r.Some? ==> r.value.id == id
    ensures r.Some? ==> exists k :: 0 <= k < |os| && os[k] == r.value && id !in OrderIds(os)[..k]
  {
    match IndexOf(OrderIds(os), id)
    case None => None
    case Some(i) => Some(os[i])
  }

  /** The order listing comparator: the newer order first. */
  predicate NewerFirst(a: Order, b: Order)
  {
    a.createdAt >= b.createdAt
  }

  /** `getAllOrders`: every order, newest first. */
  function ListOrders(os: seq<Order>): (r: seq<Order>)
    ensures multiset(r) == multiset(os)
  {
    SortBy(os, NewerFirst)
  }

  /** The order listing is a permutation of the file, sorted by creation time, newest first. */
  lemma ListOrdersSpec(os: seq<Order>)
    ensures multiset(ListOrders(os)) == multiset(os)
    ensures forall i, j :: 0 <= i < j < |ListOrders(os)| ==>
      ListOrders(os)[i].createdAt >= ListOrders(os)[j].createdAt
  {
    assert Total(NewerFirst) && Transitive(NewerFirst);
    SortBySorted(os, NewerFirst);
  }

  /** The record `createOrder` writes: never without a status, a payment status or a delivery time. */
  function NewOrder(id: nat, f: NewOrderFields, now: Timestamp): (o: Order)
    ensures o.id == id && o.items == f.items && o.total == f.total
    ensures o.status != "" && o.paymentStatus != "" && o.deliveryTime != 0
    ensures o.createdAt == now && o.updatedAt == now
  {
    Order(id, f.customerName, f.customerPhone, f.customerEmail, f.deliveryAddress,
          f.items, f.total,
          OrString(f.status, "pending"), OrString(f.paymentStatus, "pending"),
          OrInt(f.deliveryTime, 30), OrString(f.specialInstructions, ""),
          now, now)
  }

  /** `createOrder`: the new order is appended with a fresh id, its items and total stored verbatim. */
  lemma {:induction false} CreateOrderSpec(os: seq<Order>, f: NewOrderFields, now: Timestamp)
    ensures var id := NextId(OrderIds(os));
      var os' := os + [NewOrder(id, f, now)];
      && (forall o :: o in os ==> o.id < id)
      && (NoDuplicates(OrderIds(os)) ==> NoDuplicates(OrderIds(os')))
      && os'[..|os|] == os
      && FindOrder(os', id) == Some(NewOrder(id, f, now))
      && var o := FindOrder(os', id).value;
         && o.customerName == f.customerName && o.customerEmail == f.customerEmail
         && o.customerPhone == f.customerPhone && o.deliveryAddress == f.deliveryAddress
         && o.items == f.items && o.total == f.total
         && o.status == (if f.status.None? || f.status.value == "" then "pending" else f.status.value)
         && o.paymentStatus == (if f.paymentStatus.None? || f.paymentStatus.value == "" then "pending" else f.paymentStatus.value)
         && o.deliveryTime == (if f.deliveryTime.None? || f.deliveryTime.value == 0 then 30 else f.deliveryTime.value)
         && o.specialInstructions == (if f.specialInstructions.None? || f.specialInstructions.value == "" then "" else f.specialInstructions.value)
  {
    var ids := OrderIds(os);
    var id := NextId(ids);
    var os' := os + [NewOrder(id, f, now)];
    forall o | o in os ensures o.id < id {
      var k :| 0 <= k < |os| && os[k] == o;
      assert ids[k] == o.id;
    }
    assert OrderIds(os') == ids + [id];
    assert id !in ids;
    if NoDuplicates(ids) {
      NoDuplicatesAppend(ids, id);
    }
    assert (ids + [id])[..|ids|] == ids;
    FirstIndexAt(ids + [id], id, |ids|);
  }

  /** `updateOrderStatus` on the collection. */
  function SetOrderStatusIn(os: seq<Order>, id: nat, status: string, now: Timestamp)
    : (r: Result<seq<Order>, string>)
    ensures r.Failure? <==> id !in OrderIds(os)
    ensures r.Failure? ==> r.error == "Order not found"
  {
    match IndexOf(OrderIds(os), id)
    case None => Failure("Order not found")
    case Some(i) => Success(os[i := os[i].(status := status, updatedAt := now)])
  }

  /**
   * A status change touches only `status` and `updatedAt` of the order found
   * by id; items, total and every other order stay as they were.
   */
  lemma SetOrderStatusSpec(os: seq<Order>, id: nat, status: string, now: Timestamp)
    requires id in OrderIds(os)
    ensures var os' := SetOrderStatusIn(os, id, status, now).value;
      var old_ := FindOrder(os, id).value;
      && |os'| == |os|
      && OrderIds(os') == OrderIds(os)
      && FindOrder(os', id) == Some(old_.(status := status, updatedAt := now))
      && FindOrder(os', id).value.items == old_.items
      && FindOrder(os', id).value.total == old_.total
    ensures var os' := SetOrderStatusIn(os, id, status, now).value;
      var i := IndexOf(OrderIds(os), id).value;
      && os'[i] == os[i].(status := status, updatedAt := now)
      && (forall j :: 0 <= j < |os| && j != i ==> os'[j] == os[j])
  {
    var i := IndexOf(OrderIds(os), id).value;
    var os' := SetOrderStatusIn(os, id, status, now).value;
    assert OrderIds(os') == OrderIds(os);
    assert IndexOf(OrderIds(os'), id) == Some(i);
  }

  // ---------------------------------------------------------------------------
  // Seed data

  datatype SampleProduct = SampleProduct(
    name: string, description: string, price: int, category: string,
    image: string, stock: int, prepTime: int, rating: nat)

  datatype SampleOrder = SampleOrder(
    customerName: string, customerPhone: string, customerEmail: string,
    deliveryAddress: string, items: seq<LineItem>, total: int, status: string,
    paymentStatus: string, deliveryTime: int, specialInstructions: string)

  const SampleProducts: seq<SampleProduct> := [
    SampleProduct("Classic Beef Burger", "Juicy beef patty with lettuce, tomato, onion, and our special sauce",
      1299, "Burgers", "https://images.unsplash.com/photo-1568901346375-23c9450c58cd?w=300", 50, 15, 45),
    SampleProduct("Margherita Pizza", "Fresh mozzarella, tomato sauce, and basil on thin crust",
      1699, "Pizza", "https://images.unsplash.com/photo-1604382355076-af4b0eb60143?w=300", 30, 20, 47),
    SampleProduct("Caesar Salad", "Crispy romaine lettuce with parmesan, croutons, and caesar dressing",
      999, "Salads", "https://images.unsplash.com/photo-1546793665-c74683f339c1?w=300", 25, 10, 42),
    SampleProduct("Chicken Wings (8pcs)", "Crispy chicken wings with your choice of buffalo or BBQ sauce",
      1399, "Appetizers", "https://images.unsplash.com/photo-1567620832903-9fc6debc209f?w=300", 40, 18, 46),
    SampleProduct("Pepperoni Pizza", "Classic pepperoni with mozzarella cheese and tomato sauce",
      1899, "Pizza", "https://images.unsplash.com/photo-1565299624946-b28f40a0ca4b?w=300", 35, 22, 48),
    SampleProduct("Fish Tacos (3pcs)", "Grilled fish with cabbage slaw and chipotle mayo in corn tortillas",
      1499, "Mexican", "https://images.unsplash.com/photo-1565299585323-38174c26d82b?w=300", 20, 16, 44),
    SampleProduct("Chocolate Brownie", "Warm chocolate brownie served with vanilla ice cream",
      799, "Desserts", "https://images.unsplash.com/photo-1606313564200-e75d5e30476c?w=300", 15, 5, 43),
    SampleProduct("Grilled Chicken Salad", "Mixed greens with grilled chicken, cherry tomatoes, and balsamic dressing",
      1199, "Salads", "https://images.unsplash.com/photo-1540420773420-3366772f4999?w=300", 28, 12, 41),
    SampleProduct("BBQ Ribs", "Tender pork ribs with our house BBQ sauce and coleslaw",
      1999, "BBQ", "https://images.unsplash.com/photo-1544025162-d76694265947?w=300", 12, 25, 49),
    SampleProduct("Vegetable Stir Fry", "Fresh mixed vegetables stir-fried with teriyaki sauce over rice",
      1099, "Asian", "https://images.unsplash.com/photo-1512058564366-18510be2db19?w=300", 22, 14, 40)
  ]

  const SampleOrders: seq<SampleOrder> := [
    SampleOrder("John Smith", "+1-555-0123", "john@example.com", "123 Main St, Apt 4B, New York, NY 10001",
      [LineItem(1, "Classic Beef Burger", 1299, 2), LineItem(4, "Chicken Wings (8pcs)", 1399, 1)],
      3997, "preparing", "paid", 25, "No onions on the burger please"),
    SampleOrder("Sarah Johnson", "+1-555-0456", "sarah@example.com", "456 Oak Avenue, Brooklyn, NY 11201",
      [LineItem(2, "Margherita Pizza", 1699, 1), LineItem(7, "Chocolate Brownie", 799, 2)],
      3297, "delivered", "paid", 30, "Leave at door")
  ]

  /** The seeded products: each sample at position i gets id i + 1, is available and carries the seeding time. */
  function SeededProducts(samples: seq<SampleProduct>, now: Timestamp): (ps: seq<Product>)
    ensures |ps| == |samples|
    ensures forall i :: 0 <= i < |ps| ==>
      && ps[i].id == i + 1 && ps[i].available
      && ps[i].name == samples[i].name && ps[i].description == samples[i].description
      && ps[i].price == samples[i].price && ps[i].category == samples[i].category
      && ps[i].image == samples[i].image && ps[i].stock == samples[i].stock
      && ps[i].prepTime == samples[i].prepTime && ps[i].rating == samples[i].rating
      && ps[i].createdAt == now && ps[i].updatedAt == now
  {
    seq(|samples|, i requires 0 <= i < |samples| =>
      var s := samples[i];
      Product(i + 1, s.name, s.description, s.price, s.category, s.image, s.stock,
              true, s.prepTime, s.rating, now, now))
  }

  function SeededOrders(samples: seq<SampleOrder>, now: Timestamp): (os: seq<Order>)
    ensures |os| == |samples|
    ensures forall i :: 0 <= i < |os| ==>
      && os[i].id == i + 1 && os[i].customerName == samples[i].customerName
      && os[i].customerPhone == samples[i].customerPhone && os[i].customerEmail == samples[i].customerEmail
      && os[i].deliveryAddress == samples[i].deliveryAddress
      && os[i].items == samples[i].items && os[i].total == samples[i].total
      && os[i].status == samples[i].status && os[i].paymentStatus == samples[i].paymentStatus
      && os[i].deliveryTime == samples[i].deliveryTime
      && os[i].specialInstructions == samples[i].specialInstructions
      && os[i].createdAt == now && os[i].updatedAt == now
  {
    seq(|samples|, i requires 0 <= i < |samples| =>
      var s := samples[i];
      Order(i + 1, s.customerName, s.customerPhone, s.customerEmail, s.deliveryAddress,
            s.items, s.total, s.status, s.paymentStatus, s.deliveryTime,
            s.specialInstructions, now, now))
  }

  /** Seeded records get ids 1..n in list order, are all listed, and the next id after seeding is n + 1. */
  lemma SeededSpec(now: Timestamp)
    ensures var ps := SeededProducts(SampleProducts, now);
      && |ps| == 10
      && (forall i :: 0 <= i < |ps| ==> ps[i].id == i + 1 && ps[i].available)
      && NoDuplicates(ProductIds(ps))
      && NextId(ProductIds(ps)) == 11
    ensures var os := SeededOrders(SampleOrders, now);
      && |os| == 2
      && (forall i :: 0 <= i < |os| ==> os[i].id == i + 1)
      && NoDuplicates(OrderIds(os))
      && NextId(OrderIds(os)) == 3
  {
    var ps := SeededProducts(SampleProducts, now);
    var ids := ProductIds(ps);
    assert ids == [1, 2, 3, 4, 5, 6, 7, 8, 9, 10];
    assert ids[9] == 10;
    var m := MaxId(ids);
    assert m >= 10 && m in ids;
    var os := SeededOrders(SampleOrders, now);
    var oids := OrderIds(os);
    assert oids == [1, 2];
    assert oids[1] == 2;
    var n := MaxId(oids);
    assert n >= 2 && n in oids;
  }

  // ---------------------------------------------------------------------------
  // The store object

  class Database {
    /** The contents of products.json. */
    var products: seq<Product>
    /** The contents of orders.json. */
    var orders: seq<Order>

    /**
     * `new Database()`: a file that does not exist yet is created empty and
     * seeded; a file that exists is used as it is, even when empty.
     */
    constructor (productsFile: Option<seq<Product>>, ordersFile: Option<seq<Order>>, now: Timestamp)
      ensures products == if productsFile.None? then SeededProducts(SampleProducts, now) else productsFile.value
      ensures orders == if ordersFile.None? then SeededOrders(SampleOrders, now) else ordersFile.value
    {
      products := if productsFile.None? then [] else productsFile.value;
      orders := if ordersFile.None? then [] else ordersFile.value;
      new;
      if productsFile.None? {
        SeedProducts(now);
      }
      if ordersFile.None? {
        SeedOrders(now);
      }
    }

    /** Writes the sample catalogue only when the collection is empty. */
    method SeedProducts(now: Timestamp)
      modifies this
      ensures products == if old(products) == [] then SeededProducts(SampleProducts, now) else old(products)
      ensures orders == old(orders)
    {
      if |products| == 0 {
        products := SeededProducts(SampleProducts, now);
      }
    }

    /** Writes the two sample orders only when the collection is empty. */
    method SeedOrders(now: Timestamp)
      modifies this
      ensures orders == if old(orders) == [] then SeededOrders(SampleOrders, now) else old(orders)
      ensures products == old(products)
    {
      if |orders| == 0 {
        orders := SeededOrders(SampleOrders, now);
      }
    }

    method GetAllProducts() returns (r: seq<Product>)
      ensures r == ListAvailable(products)
      ensures forall p :: p in r <==> p in products && p.available
      ensures multiset(r) == multiset(Filter(products, IsAvailable))
      ensures SortedBy(r, ProductBefore)
    {
      r := SortBy(Filter(products, IsAvailable), ProductBefore);
      ListAvailableSpec(products);
    }

    /** The position of the first product holding `id`, by a scan. */
    method FindProductIndex(id: nat) returns (idx: Option<nat>)
      ensures idx == IndexOf(ProductIds(products), id)
    {
      var i := 0;
      while i < |products|
        invariant 0 <= i <= |products|
        invariant forall k :: 0 <= k < i ==> products[k].id != id
      {
        if products[i].id == id {
          ghost var ids := ProductIds(products);
          assert id !in ids[..i] by {
            forall k | 0 <= k < i ensures ids[..i][k] != id {
              assert ids[..i][k] == products[k].id;
            }
          }
          FirstIndexAt(ids, id, i);
          return Some(i);
        }
        i := i + 1;
      }
      assert forall k :: 0 <= k < |products| ==> ProductIds(products)[k] != id;
      return None;
    }

    method GetProductById(id: nat) returns (r: Option<Product>)
      ensures r == FindProduct(products, id)
      ensures r.None? <==> forall p :: p in products ==> p.id != id
    {
      var idx := FindProductIndex(id);
      r := if idx.Some? then Some(products[idx.value]) else None;
      if r.None? {
        forall p | p in products ensures p.id != id {
          var k :| 0 <= k < |products| && products[k] == p;
          assert ProductIds(products)[k] == p.id;
        }
      }
    }

    method CreateProduct(f: NewProductFields, now: Timestamp) returns (id: nat)
      modifies this
      ensures id == NextId(ProductIds(old(products)))
      ensures products == old(products) + [NewProduct(id, f, now)]
      ensures orders == old(orders)
    {
      id := MaxId(ProductIds(products)) + 1;
      products := products + [NewProduct(id, f, now)];
    }

    method UpdateProduct(id: nat, f: ProductFields, now: Timestamp) returns (err: Option<string>)
      modifies this
      ensures var res := UpdateProductIn(old(products), id, f, now);
        && (res.Failure? ==> err == Some(res.error) && products == old(products))
        && (res.Success? ==> err == None && products == res.value)
      ensures orders == old(orders)
    {
      var idx := FindProductIndex(id);
      if idx.None? {
        return Some("Product not found");
      }
      var i := idx.value;
      products := products[i := UpdatedProduct(products[i], f, now)];
      err := None;
    }

    method DeleteProduct(id: nat) returns (err: Option<string>)
      modifies this
      ensures var res := SoftDeleteIn(old(products), id);
        && (res.Failure? ==> err == Some(res.error) && products == old(products))
        && (res.Success? ==> err == None && products == res.value)
      ensures orders == old(orders)
    {
      var idx := FindProductIndex(id);
      if idx.None? {
        return Some("Product not found");
      }
      var i := idx.value;
      products := products[i := products[i].(available := false)];
      err := None;
    }

    method GetAllOrders() returns (r: seq<Order>)
      ensures r == ListOrders(orders)
      ensures multiset(r) == multiset(orders)
      ensures forall i, j :: 0 <= i < j < |r| ==> r[i].createdAt >= r[j].createdAt
    {
      r := SortBy(orders, NewerFirst);
      ListOrdersSpec(orders);
    }

    /** The position of the first order holding `id`, by a scan. */
    method FindOrderIndex(id: nat) returns (idx: Option<nat>)
      ensures idx == IndexOf(OrderIds(orders), id)
    {
      var i := 0;
      while i < |orders|
        invariant 0 <= i <= |orders|
        invariant forall k :: 0 <= k < i ==> orders[k].id != id
      {
        if orders[i].id == id {
          ghost var ids := OrderIds(orders);
          assert id !in ids[..i] by {
            forall k | 0 <= k < i ensures ids[..i][k] != id {
              assert ids[..i][k] == orders[k].id;
            }
          }
          FirstIndexAt(ids, id, i);
          return Some(i);
        }
        i := i + 1;
      }
      assert forall k :: 0 <= k < |orders| ==> OrderIds(orders)[k] != id;
      return None;
    }

    method GetOrderById(id: nat) returns (r: Option<Order>)
      ensures r == FindOrder(orders, id)
      ensures r.None? <==> forall o :: o in orders ==> o.id != id
    {
      var idx := FindOrderIndex(id);
      r := if idx.Some? then Some(orders[idx.value]) else None;
      if r.None? {
        forall o | o in orders ensures o.id != id {
          var k :| 0 <= k < |orders| && orders[k] == o;
          assert OrderIds(orders)[k] == o.id;
        }
      }
    }

    method CreateOrder(f: NewOrderFields, now: Timestamp) returns (id: nat)
      modifies this
      ensures id == NextId(OrderIds(old(orders)))
      ensures orders == old(orders) + [NewOrder(id, f, now)]
      ensures products == old(products)
    {
      id := MaxId(OrderIds(orders)) + 1;
      orders := orders + [NewOrder(id, f, now)];
    }

    method UpdateOrderStatus(id: nat, status: string, now: Timestamp) returns (err: Option<string>)
      modifies this
      ensures var res := SetOrderStatusIn(old(orders), id, status, now);
        && (res.Failure? ==> err == Some(res.error) && orders == old(orders))
        && (res.Success? ==> err == None && orders == res.value)
      ensures products == old(products)
    {
      var idx := FindOrderIndex(id);
      if idx.None? {
        return Some("Order not found");
      }
      var i := idx.value;
      orders := orders[i := orders[i].(status := status, updatedAt := now)];
      err := None;
    }
  }
}
