/**
 * What local-server.js does differently: orders are built as a camelCase
 * record (`customerName`, `deliveryAddress`, `totalAmount`, ...) and the
 * analytics read `customerEmail` and `totalAmount` from it. The query
 * filter, the product check and the status whitelist are the shared ones in
 * module Api.
 */
module LocalServer {
  import opened Seqs
  import opened JsonStore
  import opened Api

  datatype LocalOrder = LocalOrder(
    customerName: string,
    customerEmail: string,
    customerPhone: string,
    deliveryAddress: string,
    items: seq<LineItem>,
    totalAmount: int,
    specialInstructions: string)

  /** `POST /api/orders`: 400 for a missing name, items or total; otherwise the camelCase record. */
  function OrderData(req: OrderRequest): (r: Result<LocalOrder, int>)
    ensures r.Failure? <==> MissingOrderInfo(req)
    ensures r.Failure? ==> r.error == BadRequest
    ensures r.Success? ==>
      && r.value.customerName == req.customerName.value && r.value.customerName != ""
      && r.value.items == req.items.value && r.value.items != []
      && r.value.totalAmount == req.total.value && r.value.totalAmount != 0
      && r.value.customerEmail == (if Falsy(req.customerEmail) then "" else req.customerEmail.value)
      && r.value.customerPhone == (if Falsy(req.customerPhone) then "" else req.customerPhone.value)
      && r.value.deliveryAddress == (if Falsy(req.address) then "" else req.address.value)
      && r.value.specialInstructions == (if Falsy(req.specialInstructions) then "" else req.specialInstructions.value)
  {
    if MissingOrderInfo(req) then Failure(BadRequest)
    else Success(LocalOrder(
      req.customerName.value, OrString(req.customerEmail, ""), OrString(req.customerPhone, ""),
      OrString(req.address, ""), req.items.value, req.total.value,
      OrString(req.specialInstructions, "")))
  }

  /** `GET /api/admin/analytics` over camelCase orders. */
  function LocalAnalytics(products: seq<Product>, orders: seq<LocalOrder>): (r: Analytics<LocalOrder>)
    ensures r.stats.totalProducts == |products| && r.stats.totalOrders == |orders|
    ensures r.stats.activeCustomers == |set i | 0 <= i < |orders| :: orders[i].customerEmail|
    ensures r.stats.activeCustomers <= |orders|
    ensures r.stats.totalRevenue == Revenue(orders, (o: LocalOrder) => o.totalAmount)
    ensures r.recentOrders == orders[..if |orders| < 5 then |orders| else 5]
  {
    var a := ComputeAnalytics(products, orders, (o: LocalOrder) => o.customerEmail, (o: LocalOrder) => o.totalAmount);
    assert Customers(orders, (o: LocalOrder) => o.customerEmail)
        == set i | 0 <= i < |orders| :: orders[i].customerEmail;
    a
  }

  /** Two orders from the same e-mail count as one active customer. */
  lemma RepeatCustomerCountedOnce(products: seq<Product>, orders: seq<LocalOrder>, o: LocalOrder)
    requires exists i :: 0 <= i < |orders| && orders[i].customerEmail == o.customerEmail
    ensures LocalAnalytics(products, orders + [o]).stats.activeCustomers
         == LocalAnalytics(products, orders).stats.activeCustomers
    ensures LocalAnalytics(products, orders + [o]).stats.totalOrders
         == LocalAnalytics(products, orders).stats.totalOrders + 1
  {
    var email := (x: LocalOrder) => x.customerEmail;
    ActiveCustomersAppend(orders, o, email);
    assert Customers(orders, email) == set i | 0 <= i < |orders| :: orders[i].customerEmail;
    assert Customers(orders + [o], email) == set i | 0 <= i < |orders + [o]| :: (orders + [o])[i].customerEmail;
  }
}
