/**
 * The list updates of the admin dashboard (src/app/admin/page.tsx): the
 * product form's edit and add branches, product deletion, the order-status
 * selector and the overview figures. Each update builds a new list with
 * `map`, spread or `filter`. Prices are integer cents.
 */
module AdminPage {
  import opened Seqs

  type Timestamp = nat

  datatype Product = Product(
    id: string,
    name: string,
    description: string,
    price: int,
    category: string,
    image: string,
    inStock: bool,
    inventory: int)

  datatype OrderLine = OrderLine(product: Product, quantity: int)

  datatype Order = Order(
    id: string,
    customerName: string,
    items: seq<OrderLine>,
    total: int,
    status: string,
    createdAt: Timestamp)

  /** The product form's state. */
  datatype Form = Form(
    name: string,
    description: string,
    price: int,
    category: string,
    image: string,
    inventory: int)

  function ProductIds(ps: seq<Product>): (ids: seq<string>)
    ensures |ids| == |ps|
    ensures forall i :: 0 <= i < |ps| ==> ids[i] == ps[i].id
  {
    seq(|ps|, i requires 0 <= i < |ps| => ps[i].id)
  }

  /** The form opens on the edited product's values (each with a falsy-value default), or blank for a new product. */
  function InitialForm(editing: Option<Product>): (f: Form)
    ensures editing.None? ==> f == Form("", "", 0, "", "", 0)
    ensures editing.Some? ==>
      && f.name == editing.value.name && f.description == editing.value.description
      && f.price == editing.value.price && f.category == editing.value.category
      && f.image == editing.value.image && f.inventory == editing.value.inventory
  {
    if editing.None? then Form("", "", 0, "", "", 0)
    else
      var p := editing.value;
      Form(OrString(Some(p.name), ""), OrString(Some(p.description), ""), OrInt(Some(p.price), 0),
           OrString(Some(p.category), ""), OrString(Some(p.image), ""), OrInt(Some(p.inventory), 0))
  }

  /** The product with the form's fields written over it, in stock exactly when the form's inventory is positive. */
  function Overlay(p: Product, f: Form): Product
  {
    p.(name := f.name, description := f.description, price := f.price, category := f.category,
       image := f.image, inventory := f.inventory, inStock := f.inventory > 0)
  }

  /** The edit branch of `handleSubmit`: the product with the edited id takes the form's values. */
  function EditSubmit(ps: seq<Product>, editingId: string, f: Form): (r: seq<Product>)
    ensures |r| == |ps| && ProductIds(r) == ProductIds(ps)
    ensures forall i :: 0 <= i < |ps| && ps[i].id != editingId ==> r[i] == ps[i]
    ensures forall i :: 0 <= i < |ps| && ps[i].id == editingId ==>
      && r[i].name == f.name && r[i].description == f.description && r[i].price == f.price
      && r[i].category == f.category && r[i].image == f.image && r[i].inventory == f.inventory
      && (r[i].inStock <==> f.inventory > 0)
  {
    var r := seq(|ps|, i requires 0 <= i < |ps| => if ps[i].id == editingId then Overlay(ps[i], f) else ps[i]);
    assert ProductIds(r) == ProductIds(ps);
    r
  }

  /** Submitting the same form twice leaves the list as submitting it once. */
  lemma EditSubmitIdempotent(ps: seq<Product>, editingId: string, f: Form)
    ensures EditSubmit(EditSubmit(ps, editingId, f), editingId, f) == EditSubmit(ps, editingId, f)
  {
  }

  /** Reopening a product in the form and submitting it unchanged changes at most its `inStock` flag, to `inventory > 0`. */
  lemma UnchangedFormKeepsProduct(ps: seq<Product>, i: nat)
    requires i < |ps|
    ensures var r := EditSubmit(ps, ps[i].id, InitialForm(Some(ps[i])));
      r[i] == ps[i].(inStock := ps[i].inventory > 0)
  {
  }

  /** The add branch of `handleSubmit`: one new product, in stock exactly when its inventory is positive. */
  function AddSubmit(ps: seq<Product>, newId: string, f: Form): (r: seq<Product>)
    ensures |r| == |ps| + 1 && r[..|ps|] == ps
    ensures r[|ps|].id == newId
    ensures r[|ps|].name == f.name && r[|ps|].description == f.description && r[|ps|].price == f.price
    ensures r[|ps|].category == f.category && r[|ps|].image == f.image && r[|ps|].inventory == f.inventory
    ensures r[|ps|].inStock <==> r[|ps|].inventory > 0
  {
    ps + [Product(newId, f.name, f.description, f.price, f.category, f.image, f.inventory > 0, f.inventory)]
  }

  function KeepOthers(id: string): Product -> bool
  {
    (p: Product) => p.id != id
  }

  /** `deleteProduct` once confirmed: every product with the id goes, the rest keep their order. */
  function DeleteProduct(ps: seq<Product>, id: string): (r: seq<Product>)
    ensures id !in ProductIds(r)
    ensures IsSubsequence(r, ps)
    ensures forall p :: p in r <==> p in ps && p.id != id
    ensures forall p :: multiset(r)[p] == if p.id != id then multiset(ps)[p] else 0
  {
    var r := Filter(ps, KeepOthers(id));
    FilterCount(ps, KeepOthers(id));
    assert id !in ProductIds(r) by {
      forall i | 0 <= i < |r| ensures ProductIds(r)[i] != id {
        assert r[i] in r;
      }
    }
    r
  }

  /** Deleting a product that was just added under a fresh id gives back the list from before. */
  lemma DeleteUndoesAdd(ps: seq<Product>, newId: string, f: Form)
    requires newId !in ProductIds(ps)
    ensures DeleteProduct(AddSubmit(ps, newId, f), newId) == ps
  {
    var added := Product(newId, f.name, f.description, f.price, f.category, f.image, f.inventory > 0, f.inventory);
    FilterAppend(ps, added, KeepOthers(newId));
    forall p | p in ps ensures KeepOthers(newId)(p) {
      var i :| 0 <= i < |ps| && ps[i] == p;
      assert ProductIds(ps)[i] == p.id;
    }
    FilterKeepsAll(ps, KeepOthers(newId));
  }

  /** The status `<select>`: only the matching order's status changes. */
  function SetOrderStatus(os: seq<Order>, id: string, status: string): (r: seq<Order>)
    ensures |r| == |os|
    ensures forall i :: 0 <= i < |os| ==> r[i] == os[i].(status := r[i].status)
    ensures forall i :: 0 <= i < |os| ==> r[i].status == (if os[i].id == id then status else os[i].status)
  {
    seq(|os|, i requires 0 <= i < |os| => if os[i].id == id then os[i].(status := status) else os[i])
  }

  /** The last status chosen for an order is the one that stays. */
  lemma SetOrderStatusLastWins(os: seq<Order>, id: string, s1: string, s2: string)
    ensures SetOrderStatus(SetOrderStatus(os, id, s1), id, s2) == SetOrderStatus(os, id, s2)
  {
  }

  datatype Overview = Overview(productCount: nat, orderCount: nat, recent: seq<Order>)

  /** The overview tab: both counts and at most five orders from the front of the list. */
  function OverviewOf(ps: seq<Product>, os: seq<Order>): (v: Overview)
    ensures v.productCount == |ps| && v.orderCount == |os|
    ensures |v.recent| <= 5 && |v.recent| <= |os|
    ensures |v.recent| == if |os| < 5 then |os| else 5
    ensures v.recent == os[..|v.recent|]
  {
    Overview(|ps|, |os|, Take(os, 5))
  }
}
