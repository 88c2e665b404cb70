/** The stand-alone "create auction" page: the product selection, the form
    fields and the submit guard. */
module CreateAuction {
  import opened Wrappers
  import opened Seqs
  import opened Entities

  /** The form as an object whose fields are named by the inputs' `name`
      attribute; it starts with `id`, `name` and `valid_until` empty. */
  type FormData = map<string, string>

  const InitialForm: FormData := map["id" := "", "name" := "", "valid_until" := ""]

  /** `handleChange`: the field named by the input takes its value; every
      other field keeps its own. A name that is not yet a field adds one. */
  function ChangeField(form: FormData, field: string, value: string): (r: FormData)
    ensures field in r && r[field] == value
    ensures r.Keys == form.Keys + {field}
    ensures forall k :: k in form && k != field ==> r[k] == form[k]
  {
    form[field := value]
  }

  /** `toggleProduct`: a selected id is removed (every occurrence), an
      unselected one is appended. */
  function Toggle(selected: seq<string>, id: string): (r: seq<string>)
    ensures id in selected ==> r == Without(selected, id)
    ensures id !in selected ==> r == selected + [id]
    ensures id in r <==> id !in selected
    ensures forall x :: x != id ==> (x in r <==> x in selected)
  {
    if id in selected then
      var w := Without(selected, id);
      assert forall x :: x != id && x in selected ==> x in w by {
        forall x | x != id && x in selected
          ensures x in w
        {
          var i :| 0 <= i < |selected| && selected[i] == x;
        }
      }
      assert forall x :: x in w ==> x in selected by {
        forall x | x in w
          ensures x in selected
        {
          assert multiset(w)[x] > 0;
        }
      }
      w
    else selected + [id]
  }

  /** Toggling an unselected id twice gives back exactly the selection. */
  lemma ToggleTwice(selected: seq<string>, id: string)
    requires id !in selected
    ensures Toggle(Toggle(selected, id), id) == selected
  {
    WithoutAppended(selected, id);
  }

  /** Toggling keeps a selection free of duplicates. */
  lemma ToggleDistinct(selected: seq<string>, id: string)
    requires Distinct(selected)
    ensures Distinct(Toggle(selected, id))
  {
    if id in selected {
      WithoutDistinct(selected, id);
    } else {
      var r := selected + [id];
      forall i, j | 0 <= i < j < |r|
        ensures r[i] != r[j]
      {
        if j == |selected| {
          assert r[i] == selected[i];
        }
      }
    }
  }

  /** `getSelectedProductDetails`: the available products whose id is
      selected, in the order of the available list. */
  function SelectedDetails(available: seq<CatalogProduct>, selected: seq<string>): (r: seq<CatalogProduct>)
    ensures IsSubseq(r, available)
    ensures forall i :: 0 <= i < |r| ==> r[i].id in selected
    ensures forall i :: 0 <= i < |available| && available[i].id in selected ==> available[i] in r
    ensures forall x :: multiset(r)[x] == if x.id in selected then multiset(available)[x] else 0
  {
    FilterCounts((p: CatalogProduct) => p.id in selected, available);
    Filter((p: CatalogProduct) => p.id in selected, available)
  }

  /** With nothing selected there is nothing to show, and every available
      product shows once all of their ids are selected. */
  lemma SelectedDetailsExtremes(available: seq<CatalogProduct>, selected: seq<string>)
    ensures SelectedDetails(available, []) == []
    ensures (forall i :: 0 <= i < |available| ==> available[i].id in selected) ==> SelectedDetails(available, selected) == available
  {
    if forall i :: 0 <= i < |available| ==> available[i].id in selected {
      FilterAll((p: CatalogProduct) => p.id in selected, available);
    }
    FilterNone((p: CatalogProduct) => p.id in [], available);
  }

  /** The page's state. */
  class CreateAuctionPage {
    var isLoading: bool
    var availableProducts: seq<CatalogProduct>
    var selectedProducts: seq<string>
    var formData: FormData

    constructor ()
      ensures !isLoading && availableProducts == [] && selectedProducts == [] && formData == InitialForm
    {
      isLoading, availableProducts, selectedProducts, formData := false, [], [], InitialForm;
    }

    /** `fetchProducts`: a failed call keeps the list. */
    method FetchProducts(products: Option<seq<CatalogProduct>>)
      modifies this
      ensures products.Some? ==> availableProducts == products.value
      ensures products.None? ==> availableProducts == old(availableProducts)
      ensures isLoading == old(isLoading) && selectedProducts == old(selectedProducts) && formData == old(formData)
    {
      if products.Some? {
        availableProducts := products.value;
      }
    }

    method HandleChange(field: string, value: string)
      modifies this
      ensures formData == ChangeField(old(formData), field, value)
      ensures isLoading == old(isLoading) && availableProducts == old(availableProducts) && selectedProducts == old(selectedProducts)
    {
      formData := formData[field := value];
    }

    method ToggleProduct(id: string)
      modifies this
      ensures selectedProducts == Toggle(old(selectedProducts), id)
      ensures isLoading == old(isLoading) && availableProducts == old(availableProducts) && formData == old(formData)
    {
      selectedProducts := Toggle(selectedProducts, id);
    }

    /** `handleSubmit`: with nothing selected no request is made. Otherwise
        the request is the form plus the selection; when the service accepts
        (`ok`) the page goes to "/admin". */
    method HandleSubmit(ok: bool) returns (request: Option<(FormData, seq<string>)>, navigateTo: Option<string>)
      modifies this
      ensures request.Some? <==> |old(selectedProducts)| != 0
      ensures request.Some? ==> request.value == (old(formData), old(selectedProducts))
      ensures navigateTo.Some? <==> request.Some? && ok
      ensures navigateTo.Some? ==> navigateTo.value == "/admin"
      ensures request.Some? ==> !isLoading
      ensures request.None? ==> isLoading == old(isLoading)
      ensures availableProducts == old(availableProducts) && selectedProducts == old(selectedProducts) && formData == old(formData)
    {
      navigateTo := None;
      if |selectedProducts| == 0 {
        return None, None;
      }
      isLoading := true;
      request := Some((formData, selectedProducts));
      if ok {
        navigateTo := Some("/admin");
      }
      isLoading := false;
    }
  }
}
