/** The admin's product management page: loading the products by auction,
    the create and update guards, the form and the product totals. */
module AdminProducts {
  import opened Wrappers
  import opened Seqs
  import opened Entities
  import AdminDashboard

  /** The two tabs. */
  datatype Tab = UnassignedTab | AuctionTab

  /** What `updateProduct` does. */
  datatype UpdateOutcome =
    | NotEditing                                   // no product being edited: nothing at all
    | MissingFields                                // "Fill required fields"
    | Update(id: string, name: string, description: string)   // updateProduct is called

  /** `updateProduct`'s guards: nothing without a product being edited; an
      error without a name or a description; otherwise the update of the
      edited product's id with the form's name and description. */
  function DecideUpdate(editing: Option<Product>, form: ProductForm): (r: UpdateOutcome)
    ensures r == NotEditing <==> editing.None?
    ensures r == MissingFields <==> editing.Some? && (form.name == "" || form.description == "")
    ensures r.Update? ==> r == Update(editing.value.id, form.name, form.description) && r.name != "" && r.description != ""
  {
    if editing.None? then NotEditing
    else if form.name == "" || form.description == "" then MissingFields
    else Update(editing.value.id, form.name, form.description)
  }

  /** The form `openEdit` fills in: a missing description becomes ''. */
  function EditForm(p: Product): (r: ProductForm)
    ensures r.id == p.id && r.name == p.name
    ensures p.description.Some? ==> r.description == p.description.value
    ensures p.description.None? ==> r.description == ""
  {
    ProductForm(p.id, p.name, p.description.GetOr(""))
  }

  /** Opening a product with a name and a description and saving it unchanged
      sends exactly its own fields back. */
  lemma OpenEditThenUpdate(p: Product)
    requires p.name != "" && p.description.Some? && p.description.value != ""
    ensures DecideUpdate(Some(p), EditForm(p)) == Update(p.id, p.name, p.description.value)
  {
  }

  /** A product opened without a description cannot be saved until one is typed. */
  lemma MissingDescriptionBlocksUpdate(p: Product)
    requires p.description.None?
    ensures DecideUpdate(Some(p), EditForm(p)) == MissingFields
  {
  }

  /** The "By Auction" badge: the lengths of the auctions' product lists, a
      missing list counting as 0. */
  function ByAuctionCount(auctions: seq<Auction>, byAuction: map<string, seq<Product>>): (r: int)
    ensures r >= 0
    ensures forall i :: 0 <= i < |auctions| && auctions[i].id in byAuction ==> |byAuction[auctions[i].id]| <= r
  {
    var count := (a: Auction) => if a.id in byAuction then |byAuction[a.id]| else 0;
    SumBoundsEach(count, auctions);
    Sum(count, auctions)
  }

  /** The page's state. */
  class ProductsPage {
    var unassigned: seq<Product>
    var auctions: seq<Auction>
    var byAuction: map<string, seq<Product>>
    var activeTab: Tab
    var selectedAuction: string
    var showCreate: bool
    var showEdit: bool
    var editingProd: Option<Product>
    var form: ProductForm
    var loading: bool

    constructor ()
      ensures unassigned == [] && auctions == [] && byAuction == map[] && activeTab == UnassignedTab
      ensures selectedAuction == "" && !showCreate && !showEdit && editingProd.None? && form == EmptyProductForm && loading
    {
      unassigned, auctions, byAuction, activeTab, selectedAuction := [], [], map[], UnassignedTab, "";
      showCreate, showEdit, editingProd, form, loading := false, false, None, EmptyProductForm, true;
    }

    /** The loop that fills `prodMap` auction by auction; `productsOf` is the
        per-auction call (empty when it fails). */
    static method FillByAuction(myAucs: seq<Auction>, productsOf: string -> seq<Product>)
      returns (prodMap: map<string, seq<Product>>)
      ensures forall k :: k in prodMap <==> exists i :: 0 <= i < |myAucs| && myAucs[i].id == k
      ensures forall k :: k in prodMap ==> prodMap[k] == productsOf(k)
    {
      prodMap := map[];
      for n := 0 to |myAucs|
        invariant forall k :: k in prodMap <==> exists i :: 0 <= i < n && myAucs[i].id == k
        invariant forall k :: k in prodMap ==> prodMap[k] == productsOf(k)
      {
        prodMap := prodMap[myAucs[n].id := productsOf(myAucs[n].id)];
      }
    }

    /** `refresh`: the unassigned products, the admin's auctions and each
        auction's products (a failed call counts as an empty list); the first
        auction is selected when there is one and none is selected yet. */
    method Refresh(un: seq<Product>, myAucs: seq<Auction>, productsOf: string -> seq<Product>)
      modifies this
      ensures unassigned == un && auctions == myAucs
      ensures forall i :: 0 <= i < |myAucs| ==> myAucs[i].id in byAuction && byAuction[myAucs[i].id] == productsOf(myAucs[i].id)
      ensures forall k :: k in byAuction ==> exists i :: 0 <= i < |myAucs| && myAucs[i].id == k
      ensures myAucs != [] && old(selectedAuction) == "" ==> selectedAuction == myAucs[0].id
      ensures !(myAucs != [] && old(selectedAuction) == "") ==> selectedAuction == old(selectedAuction)
      ensures !loading
      ensures activeTab == old(activeTab) && showCreate == old(showCreate) && showEdit == old(showEdit)
      ensures editingProd == old(editingProd) && form == old(form)
    {
      loading := true;
      unassigned := un;
      auctions := myAucs;
      var prodMap := FillByAuction(myAucs, productsOf);
      byAuction := prodMap;
      if |myAucs| > 0 && selectedAuction == "" {
        selectedAuction := myAucs[0].id;
      }
      loading := false;
    }

    /** `resetForm`. */
    method ResetForm()
      modifies this
      ensures form == EmptyProductForm && editingProd.None?
      ensures unassigned == old(unassigned) && auctions == old(auctions) && byAuction == old(byAuction)
      ensures activeTab == old(activeTab) && selectedAuction == old(selectedAuction)
      ensures showCreate == old(showCreate) && showEdit == old(showEdit) && loading == old(loading)
    {
      form := EmptyProductForm;
      editingProd := None;
    }

    /** `openEdit`. */
    method OpenEdit(p: Product)
      modifies this
      ensures editingProd == Some(p) && form == EditForm(p) && showEdit
      ensures unassigned == old(unassigned) && auctions == old(auctions) && byAuction == old(byAuction)
      ensures activeTab == old(activeTab) && selectedAuction == old(selectedAuction)
      ensures showCreate == old(showCreate) && loading == old(loading)
    {
      editingProd := Some(p);
      form := ProductForm(p.id, p.name, p.description.GetOr(""));
      showEdit := true;
    }

    /** `createProduct`: the dashboard's add-product guard. When it holds the
        form is returned as the request; when the service accepts (`ok`) the
        modal closes and the form is reset, and the page is then reloaded by
        `Refresh`. */
    method CreateProduct(ok: bool) returns (request: Option<ProductForm>)
      modifies this
      ensures request.Some? <==> AdminDashboard.CanAddProduct(old(form))
      ensures request.Some? ==> request.value == old(form)
      ensures request.Some? && ok ==> !showCreate && form == EmptyProductForm && editingProd.None?
      ensures !(request.Some? && ok) ==> showCreate == old(showCreate) && form == old(form) && editingProd == old(editingProd)
      ensures unassigned == old(unassigned) && auctions == old(auctions) && byAuction == old(byAuction)
      ensures activeTab == old(activeTab) && selectedAuction == old(selectedAuction)
      ensures showEdit == old(showEdit) && loading == old(loading)
    {
      if !AdminDashboard.CanAddProduct(form) {
        return None;
      }
      request := Some(form);
      if ok {
        showCreate := false;
        ResetForm();
      }
    }

    /** `updateProduct`: the outcome of its guards; an accepted update
        (`ok`) closes the modal and resets the form. */
    method UpdateProduct(ok: bool) returns (outcome: UpdateOutcome)
      modifies this
      ensures outcome == DecideUpdate(old(editingProd), old(form))
      ensures outcome.Update? && ok ==> !showEdit && form == EmptyProductForm && editingProd.None?
      ensures !(outcome.Update? && ok) ==> showEdit == old(showEdit) && form == old(form) && editingProd == old(editingProd)
      ensures unassigned == old(unassigned) && auctions == old(auctions) && byAuction == old(byAuction)
      ensures activeTab == old(activeTab) && selectedAuction == old(selectedAuction)
      ensures showCreate == old(showCreate) && loading == old(loading)
    {
      outcome := DecideUpdate(editingProd, form);
      if outcome.Update? && ok {
        showEdit := false;
        ResetForm();
      }
    }
  }

  /** After a refresh the "By Auction" badge counts every product of every
      auction, which is also the dashboard's product total. */
  lemma {:induction false} ByAuctionAfterRefresh(auctions: seq<Auction>, byAuction: map<string, seq<Product>>,
                                                 productsOf: string -> seq<Product>)
    requires forall i :: 0 <= i < |auctions| ==> auctions[i].id in byAuction && byAuction[auctions[i].id] == productsOf(auctions[i].id)
    ensures ByAuctionCount(auctions, byAuction) == Sum((a: Auction) => |productsOf(a.id)|, auctions)
    decreases |auctions|
  {
    if auctions != [] {
      ByAuctionAfterRefresh(auctions[1..], byAuction, productsOf);
    }
  }
}
