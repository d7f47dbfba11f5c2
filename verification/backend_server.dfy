/**
 * The route handlers of backend/server.js over the flat-file store: which
 * response status each request gets, what is handed to the store and what
 * comes back. A store call that reports an error becomes 500, so an unknown
 * id on update, delete or status change is a 500, while an unknown id on
 * `GET /api/products/:id` is a 404.
 */
module BackendServer {
  import opened Seqs
  import opened JsonStore
  import opened Api

  /** `GET /api/products`. */
  method ListProducts(db: Database, q: Query) returns (status: nat, data: seq<Product>)
    ensures status == Ok
    ensures data == FilterListing(ListAvailable(db.products), q)
    ensures forall p :: p in data ==> p in db.products && p.available
  {
    var all := db.GetAllProducts();
    data := FilterListing(all, q);
    status := Ok;
  }

  /** `GET /api/products/:id`: 404 exactly when no record has the id; soft-deleted records are still served. */
  method GetProduct(db: Database, id: nat) returns (status: nat, data: Option<Product>)
    ensures status == NotFound <==> id !in ProductIds(db.products)
    ensures status == Ok <==> id in ProductIds(db.products)
    ensures status == Ok ==> data == FindProduct(db.products, id) && data.Some? && data.value.id == id
  {
    data := db.GetProductById(id);
    if data.None? {
      status := NotFound;
    } else {
      status := Ok;
    }
  }

  /** `POST /api/admin/products`: 400 with nothing stored, or 201 with the new id. */
  method PostProduct(db: Database, req: ProductRequest, now: Timestamp) returns (status: nat, id: Option<nat>)
    modifies db
    ensures status == BadRequest <==> MissingProductFields(req)
    ensures status == BadRequest ==> db.products == old(db.products) && id.None?
    ensures status != BadRequest ==>
      && status == Created
      && id == Some(NextId(ProductIds(old(db.products))))
      && db.products == old(db.products) + [NewProduct(id.value, ValidateProduct(req).value, now)]
    ensures db.orders == old(db.orders)
  {
    var checked := ValidateProduct(req);
    if checked.Failure? {
      return checked.error, None;
    }
    var newId := db.CreateProduct(checked.value, now);
    return Created, Some(newId);
  }

  /** `PUT /api/admin/products/:id`: an unknown id surfaces as 500. */
  method PutProduct(db: Database, id: nat, f: ProductFields, now: Timestamp) returns (status: nat)
    modifies db
    ensures status == ServerError <==> id !in ProductIds(old(db.products))
    ensures status == ServerError ==> db.products == old(db.products)
    ensures status != ServerError ==> status == Ok && db.products == UpdateProductIn(old(db.products), id, f, now).value
    ensures db.orders == old(db.orders)
  {
    var err := db.UpdateProduct(id, f, now);
    status := if err.Some? then ServerError else Ok;
  }

  /** `DELETE /api/admin/products/:id`: a soft delete; an unknown id surfaces as 500. */
  method DeleteProduct(db: Database, id: nat) returns (status: nat)
    modifies db
    ensures status == ServerError <==> id !in ProductIds(old(db.products))
    ensures status == ServerError ==> db.products == old(db.products)
    ensures status != ServerError ==> status == Ok && db.products == SoftDeleteIn(old(db.products), id).value
    ensures db.orders == old(db.orders)
  {
    var err := db.DeleteProduct(id);
    status := if err.Some? then ServerError else Ok;
  }

  /** `GET /api/orders`. */
  method ListOrders(db: Database) returns (status: nat, data: seq<Order>)
    ensures status == Ok
    ensures data == JsonStore.ListOrders(db.orders)
    ensures multiset(data) == multiset(db.orders)
  {
    data := db.GetAllOrders();
    status := Ok;
  }

  /** The record `POST /api/orders` hands to the store: status pending, payment taken as paid. */
  function OrderData(req: OrderRequest): (r: Result<NewOrderFields, int>)
    ensures r.Failure? <==> MissingOrderInfo(req)
    ensures r.Failure? ==> r.error == BadRequest
    ensures r.Success? ==>
      && r.value.customerName == req.customerName.value
      && r.value.items == req.items.value && r.value.items != []
      && r.value.total == req.total.value && r.value.total != 0
      && r.value.status == Some("pending")
      && r.value.paymentStatus == Some("paid")
      && r.value.deliveryTime == Some(if FalsyNumber(req.deliveryTime) then 30 else req.deliveryTime.value)
      && r.value.customerEmail == (if Falsy(req.customerEmail) then "" else req.customerEmail.value)
      && r.value.deliveryAddress == (if Falsy(req.address) then "" else req.address.value)
      && r.value.customerPhone == (if Falsy(req.customerPhone) then "" else req.customerPhone.value)
      && r.value.specialInstructions ==
           Some(if Falsy(req.specialInstructions) then "" else req.specialInstructions.value)
  {
    if MissingOrderInfo(req) then Failure(BadRequest)
    else Success(NewOrderFields(
      req.customerName.value, OrString(req.customerPhone, ""), OrString(req.customerEmail, ""),
      OrString(req.address, ""), req.items.value, req.total.value,
      Some("pending"), Some("paid"), Some(OrInt(req.deliveryTime, 30)),
      Some(OrString(req.specialInstructions, ""))))
  }

  /** Every order accepted here is stored as pending and paid, with a delivery time that is never 0. */
  lemma {:induction false} PlacedOrderStored(req: OrderRequest, id: nat, now: Timestamp)
    requires !MissingOrderInfo(req)
    ensures var o := NewOrder(id, OrderData(req).value, now);
      && o.status == "pending" && o.paymentStatus == "paid"
      && o.deliveryTime != 0
      && o.items == req.items.value && o.total == req.total.value
  {
    var f := OrderData(req).value;
    assert f.deliveryTime.value != 0;
  }

  /** `POST /api/orders`. */
  method PostOrder(db: Database, req: OrderRequest, now: Timestamp) returns (status: nat, id: Option<nat>)
    modifies db
    ensures status == BadRequest <==> MissingOrderInfo(req)
    ensures status == BadRequest ==> db.orders == old(db.orders) && id.None?
    ensures status != BadRequest ==>
      && status == Created
      && id == Some(NextId(OrderIds(old(db.orders))))
      && db.orders == old(db.orders) + [NewOrder(id.value, OrderData(req).value, now)]
    ensures db.products == old(db.products)
  {
    var data := OrderData(req);
    if data.Failure? {
      return data.error, None;
    }
    var newId := db.CreateOrder(data.value, now);
    return Created, Some(newId);
  }

  /** `PUT /api/admin/orders/:id`: 400 for a status outside the whitelist, 500 for an unknown id. */
  method PutOrderStatus(db: Database, id: nat, status: Option<string>, now: Timestamp) returns (code: nat)
    modifies db
    ensures code == BadRequest <==> CheckStatus(status).Failure?
    ensures code == ServerError <==> CheckStatus(status).Success? && id !in OrderIds(old(db.orders))
    ensures code == BadRequest || code == ServerError ==> db.orders == old(db.orders)
    ensures code == Ok <==> CheckStatus(status).Success? && id in OrderIds(old(db.orders))
    ensures code == Ok ==> db.orders == SetOrderStatusIn(old(db.orders), id, status.value, now).value
    ensures db.products == old(db.products)
  {
    var checked := CheckStatus(status);
    if checked.Failure? {
      return checked.error;
    }
    var err := db.UpdateOrderStatus(id, checked.value, now);
    code := if err.Some? then ServerError else Ok;
  }

  /** `GET /api/categories`. */
  method Categories(db: Database) returns (status: nat, data: seq<string>)
    ensures status == Ok
    ensures NoDuplicates(data)
    ensures forall c :: c in data <==> exists p :: p in db.products && p.available && p.category == c
    ensures InFirstOccurrenceOrder(data, CategoryColumn(ListAvailable(db.products)))
  {
    var all := db.GetAllProducts();
    data := CategoriesOf(all);
    CategoriesOfStore(db.products);
    status := Ok;
  }

  /** `GET /api/admin/analytics` over the listing and the newest-first orders. */
  method GetAnalytics(db: Database) returns (status: nat, data: Analytics<Order>)
    ensures status == Ok
    ensures data == ComputeAnalytics(ListAvailable(db.products), JsonStore.ListOrders(db.orders),
                                     (o: Order) => o.customerEmail, (o: Order) => o.total)
    ensures data.stats.totalProducts == |Filter(db.products, IsAvailable)|
    ensures data.stats.totalOrders == |db.orders|
    ensures forall i, j :: 0 <= i < |data.recentOrders| <= j < |db.orders| ==>
      data.recentOrders[i].createdAt >= JsonStore.ListOrders(db.orders)[j].createdAt
  {
    var products := db.GetAllProducts();
    var orders := db.GetAllOrders();
    data := ComputeAnalytics(products, orders, (o: Order) => o.customerEmail, (o: Order) => o.total);
    RecentAreNewest(db.orders, (o: Order) => o.customerEmail, (o: Order) => o.total, products);
    status := Ok;
  }
}
