/**
 * What cloud-server.js adds to the shared request logic: an admin session
 * flag set by login and cleared by logout, a `requireAuth` guard in front of
 * the admin product routes (but not the order-status route), and an order
 * record that leaves status, payment status and delivery time to the store.
 */
module CloudServer {
  import opened Seqs
  import opened JsonStore
  import opened Api
  import BackendServer

  datatype Credentials = Credentials(username: string, password: string)

  /** `ADMIN_CREDENTIALS`: the environment values when set, 'admin' / 'admin123' otherwise. */
  function ConfiguredCredentials(envUsername: Option<string>, envPassword: Option<string>): (c: Credentials)
    ensures Falsy(envUsername) ==> c.username == "admin"
    ensures Falsy(envPassword) ==> c.password == "admin123"
    ensures !Falsy(envUsername) ==> c.username == envUsername.value
    ensures !Falsy(envPassword) ==> c.password == envPassword.value
  {
    Credentials(OrString(envUsername, "admin"), OrString(envPassword, "admin123"))
  }

  /** The part of an express-session this server reads and writes. */
  class Session {
    var isAuthenticated: bool
    var username: Option<string>

    /** A fresh (or destroyed) session is not authenticated. */
    constructor ()
      ensures !isAuthenticated && username.None?
    {
      isAuthenticated := false;
      username := None;
    }

    /** `POST /api/auth/login`: both values must equal the configured ones; otherwise 401 and no change. */
    method Login(user: Option<string>, password: Option<string>, creds: Credentials) returns (status: nat)
      modifies this
      ensures status == Ok <==> user == Some(creds.username) && password == Some(creds.password)
      ensures status == Ok ==> isAuthenticated && username == user
      ensures status != Ok ==>
        status == Unauthorized && isAuthenticated == old(isAuthenticated) && username == old(username)
    {
      if user == Some(creds.username) && password == Some(creds.password) {
        isAuthenticated := true;
        username := user;
        status := Ok;
      } else {
        status := Unauthorized;
      }
    }

    /** `POST /api/auth/logout`: destroying the session leaves nothing authenticated. */
    method Logout() returns (status: nat)
      modifies this
      ensures status == Ok
      ensures !isAuthenticated && username.None?
    {
      isAuthenticated := false;
      username := None;
      status := Ok;
    }

    /** `GET /api/auth/status`: the flag, and the user name or null. */
    method Status() returns (authenticated: bool, user: Option<string>)
      ensures authenticated == isAuthenticated
      ensures user.Some? <==> username.Some? && username.value != ""
      ensures user.Some? ==> user == username
    {
      authenticated := isAuthenticated;
      user := if username.Some? && username.value != "" then username else None;
    }

    /** `requireAuth`: lets the request through exactly when the session is authenticated. */
    method RequireAuth() returns (allowed: bool)
      ensures allowed == isAuthenticated
    {
      allowed := isAuthenticated;
    }
  }

  /** An admin request as it reaches the route handlers. */
  datatype AdminRequest =
    | CreateProduct(req: ProductRequest)
    | UpdateProduct(productId: nat, fields: ProductFields)
    | DeleteProduct(productId: nat)
    | UpdateOrderStatus(orderId: nat, status: Option<string>)

  /** What the store is then asked to do. */
  datatype StoreCall =
    | InsertProduct(newFields: NewProductFields)
    | ReplaceProduct(productId: nat, fields: ProductFields)
    | RetireProduct(productId: nat)
    | SetStatus(orderId: nat, status: string)

  predicate Guarded(r: AdminRequest)
  {
    !r.UpdateOrderStatus?
  }

  /**
   * The guard and then the body checks: 401 for a product route without an
   * authenticated session, then 400 for a product missing required fields or
   * a status outside the whitelist, otherwise the store call.
   */
  function Admit(authenticated: bool, r: AdminRequest): (res: Result<StoreCall, int>)
    ensures res == Failure(Unauthorized) <==> Guarded(r) && !authenticated
    ensures res == Failure(BadRequest) <==>
      (authenticated || !Guarded(r)) &&
      ((r.CreateProduct? && MissingProductFields(r.req)) || (r.UpdateOrderStatus? && CheckStatus(r.status).Failure?))
    ensures res.Success? ==> match r
      case CreateProduct(req) => res.value == InsertProduct(ValidateProduct(req).value)
      case UpdateProduct(id, f) => res.value == ReplaceProduct(id, f)
      case DeleteProduct(id) => res.value == RetireProduct(id)
      case UpdateOrderStatus(id, s) => res.value == SetStatus(id, s.value) && s.value in Statuses
  {
    if Guarded(r) && !authenticated then Failure(Unauthorized)
    else match r
      case CreateProduct(req) =>
        var v := ValidateProduct(req);
        if v.Failure? then Failure(v.error) else Success(InsertProduct(v.value))
      case UpdateProduct(id, f) => Success(ReplaceProduct(id, f))
      case DeleteProduct(id) => Success(RetireProduct(id))
      case UpdateOrderStatus(id, s) =>
        var c := CheckStatus(s);
        if c.Failure? then Failure(c.error) else Success(SetStatus(id, c.value))
  }

  /** The order-status route answers the same with or without a session. */
  lemma StatusRouteUnguarded(id: nat, status: Option<string>)
    ensures Admit(false, UpdateOrderStatus(id, status)) == Admit(true, UpdateOrderStatus(id, status))
  {
  }

  /** After logout no product route gets past the guard. */
  lemma LoggedOutProductRoutesRejected(r: AdminRequest)
    requires Guarded(r)
    ensures Admit(false, r) == Failure(Unauthorized)
  {
  }

  /** The route dispatch, reading the session flag only for the guarded routes. */
  method Dispatch(session: Session, r: AdminRequest) returns (res: Result<StoreCall, int>)
    ensures res == Admit(session.isAuthenticated, r)
  {
    if Guarded(r) {
      var allowed := session.RequireAuth();
      res := Admit(allowed, r);
    } else {
      res := Admit(false, r);
      StatusRouteUnguarded(r.orderId, r.status);
    }
  }

  /** The record `POST /api/orders` hands to the store: no status, payment status or delivery time. */
  function OrderData(req: OrderRequest): (r: Result<NewOrderFields, int>)
    ensures r.Failure? <==> MissingOrderInfo(req)
    ensures r.Failure? ==> r.error == BadRequest
    ensures r.Success? ==>
      && r.value.customerName == req.customerName.value
      && r.value.items == req.items.value && r.value.items != []
      && r.value.total == req.total.value && r.value.total != 0
      && r.value.status.None? && r.value.paymentStatus.None? && r.value.deliveryTime.None?
      && r.value.customerEmail == (if Falsy(req.customerEmail) then "" else req.customerEmail.value)
      && r.value.customerPhone == (if Falsy(req.customerPhone) then "" else req.customerPhone.value)
      && r.value.deliveryAddress == (if Falsy(req.address) then "" else req.address.value)
      && r.value.specialInstructions ==
           Some(if Falsy(req.specialInstructions) then "" else req.specialInstructions.value)
  {
    if MissingOrderInfo(req) then Failure(BadRequest)
    else Success(NewOrderFields(
      req.customerName.value, OrString(req.customerPhone, ""), OrString(req.customerEmail, ""),
      OrString(req.address, ""), req.items.value, req.total.value,
      None, None, None, Some(OrString(req.specialInstructions, ""))))
  }

  /**
   * Stored through the flat-file store's defaults, a cloud order is pending,
   * its payment is pending too (the backend server marks it paid) and its
   * delivery time is 30, whatever the request said.
   */
  lemma OrderStoredWithDefaults(req: OrderRequest, id: nat, now: Timestamp)
    requires !MissingOrderInfo(req)
    ensures var o := NewOrder(id, OrderData(req).value, now);
      && o.status == "pending" && o.paymentStatus == "pending" && o.deliveryTime == 30
      && NewOrder(id, BackendServer.OrderData(req).value, now).paymentStatus == "paid"
  {
  }
}
