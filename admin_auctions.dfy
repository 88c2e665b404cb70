/** The admin's auction management page: the create and edit guards, the
    product checkboxes, resetting the form and opening an auction for editing. */
module AdminAuctions {
  import opened Wrappers
  import opened Seqs
  import opened Entities
  import AdminDashboard

  /** `handleEditAuction`'s guard: an auction being edited, a name and an
      end date; an empty product list is allowed. */
  predicate CanEditAuction(editing: Option<Auction>, form: AuctionForm)
  {
    !(editing.None? || form.name == "" || form.validUntil == "")
  }

  /** The edit guard does not read the id field and allows an empty
      selection, which the create guard refuses. */
  lemma EditAllowsEmptySelection(a: Auction, form: AuctionForm)
    requires form.name != "" && form.validUntil != ""
    ensures CanEditAuction(Some(a), form) && CanEditAuction(Some(a), form.(id := ""))
    ensures !AdminDashboard.CanCreateAuction(form, [])
  {
  }

  /** A product checkbox: checking appends the id, unchecking removes every
      occurrence of it. */
  function CheckProduct(selected: seq<string>, id: string, checked: bool): (r: seq<string>)
    ensures checked ==> r == selected + [id]
    ensures !checked ==> r == Without(selected, id)
  {
    if checked then selected + [id] else Without(selected, id)
  }

  /** Checking a box that was clear and clearing it again restores the
      selection; clearing a box that was clear changes nothing. */
  lemma CheckThenUncheck(selected: seq<string>, id: string)
    requires id !in selected
    ensures CheckProduct(CheckProduct(selected, id, true), id, false) == selected
    ensures CheckProduct(selected, id, false) == selected
  {
    WithoutAppended(selected, id);
    WithoutAbsent(selected, id);
  }

  /** Unchecking keeps every other id, each as often as before. */
  lemma UncheckKeepsOthers(selected: seq<string>, id: string, other: string)
    requires other != id
    ensures multiset(CheckProduct(selected, id, false))[other] == multiset(selected)[other]
    ensures id !in CheckProduct(selected, id, false)
  {
  }

  /** The page's state. */
  class AuctionsPage {
    var auctions: seq<Auction>
    var products: seq<Product>
    var selectedProducts: seq<string>
    var showCreateModal: bool
    var showEditModal: bool
    var editingAuction: Option<Auction>
    var loading: bool
    var formData: AuctionForm

    constructor ()
      ensures auctions == [] && products == [] && selectedProducts == []
      ensures !showCreateModal && !showEditModal && editingAuction.None? && loading && formData == EmptyAuctionForm
    {
      auctions, products, selectedProducts := [], [], [];
      showCreateModal, showEditModal, editingAuction, loading, formData := false, false, None, true, EmptyAuctionForm;
    }

    /** `loadData`: both lists arrive together or not at all. */
    method LoadData(data: Option<(seq<Auction>, seq<Product>)>)
      modifies this
      ensures data.Some? ==> auctions == data.value.0 && products == data.value.1
      ensures data.None? ==> auctions == old(auctions) && products == old(products)
      ensures !loading
      ensures selectedProducts == old(selectedProducts) && showCreateModal == old(showCreateModal)
      ensures showEditModal == old(showEditModal) && editingAuction == old(editingAuction) && formData == old(formData)
    {
      if data.Some? {
        auctions := data.value.0;
        products := data.value.1;
      }
      loading := false;
    }

    /** `resetForm`: the fields cleared, nothing selected, nothing being edited. */
    method ResetForm()
      modifies this
      ensures formData == EmptyAuctionForm && selectedProducts == [] && editingAuction.None?
      ensures auctions == old(auctions) && products == old(products) && loading == old(loading)
      ensures showCreateModal == old(showCreateModal) && showEditModal == old(showEditModal)
    {
      formData := EmptyAuctionForm;
      selectedProducts := [];
      editingAuction := None;
    }

    /** `openEditModal`. `validUntilText` is the auction's `valid_until` as
        the service sent it. */
    method OpenEditModal(auction: Auction, validUntilText: string)
      modifies this
      ensures editingAuction == Some(auction)
      ensures formData == AuctionForm(auction.id, auction.name, validUntilText)
      ensures selectedProducts == auction.productIds.GetOr([])
      ensures showEditModal
      ensures auctions == old(auctions) && products == old(products) && loading == old(loading)
      ensures showCreateModal == old(showCreateModal)
    {
      editingAuction := Some(auction);
      formData := AuctionForm(auction.id, auction.name, validUntilText);
      selectedProducts := auction.productIds.GetOr([]);
      showEditModal := true;
    }

    /** A change of the checkbox of product `id`. */
    method ToggleCheckbox(id: string, checked: bool)
      modifies this
      ensures selectedProducts == CheckProduct(old(selectedProducts), id, checked)
      ensures auctions == old(auctions) && products == old(products) && loading == old(loading)
      ensures showCreateModal == old(showCreateModal) && showEditModal == old(showEditModal)
      ensures editingAuction == old(editingAuction) && formData == old(formData)
    {
      selectedProducts := CheckProduct(selectedProducts, id, checked);
    }

    /** `handleCreateAuction`: the same guard as the dashboard's. When it
        holds the request (the form and the selection) is returned; when the
        service accepts (`ok`) the modal closes and the form is reset, and the
        page is then reloaded by `LoadData`. */
    method HandleCreateAuction(ok: bool) returns (request: Option<(AuctionForm, seq<string>)>)
      modifies this
      ensures request.Some? <==> AdminDashboard.CanCreateAuction(old(formData), old(selectedProducts))
      ensures request.Some? ==> request.value == (old(formData), old(selectedProducts))
      ensures request.Some? && ok ==>
        !showCreateModal && formData == EmptyAuctionForm && selectedProducts == [] && editingAuction.None?
      ensures !(request.Some? && ok) ==>
        && showCreateModal == old(showCreateModal) && formData == old(formData)
        && selectedProducts == old(selectedProducts) && editingAuction == old(editingAuction)
      ensures auctions == old(auctions) && products == old(products) && loading == old(loading)
      ensures showEditModal == old(showEditModal)
    {
      if !AdminDashboard.CanCreateAuction(formData, selectedProducts) {
        return None;
      }
      request := Some((formData, selectedProducts));
      if ok {
        showCreateModal := false;
        ResetForm();
      }
    }

    /** `handleEditAuction`: the request carries the edited auction's id, the
        name, the end date and the selection. */
    method HandleEditAuction(ok: bool) returns (request: Option<(string, string, string, seq<string>)>)
      modifies this
      ensures request.Some? <==> CanEditAuction(old(editingAuction), old(formData))
      ensures request.Some? ==>
        request.value == (old(editingAuction).value.id, old(formData).name, old(formData).validUntil, old(selectedProducts))
      ensures request.Some? && ok ==>
        !showEditModal && formData == EmptyAuctionForm && selectedProducts == [] && editingAuction.None?
      ensures !(request.Some? && ok) ==>
        && showEditModal == old(showEditModal) && formData == old(formData)
        && selectedProducts == old(selectedProducts) && editingAuction == old(editingAuction)
      ensures auctions == old(auctions) && products == old(products) && loading == old(loading)
      ensures showCreateModal == old(showCreateModal)
    {
      if !CanEditAuction(editingAuction, formData) {
        return None;
      }
      request := Some((editingAuction.value.id, formData.name, formData.validUntil, selectedProducts));
      if ok {
        showEditModal := false;
        ResetForm();
      }
    }
  }
}
