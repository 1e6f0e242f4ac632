/**
 * The product dialog flags of apps/frontend/src/features/products/stores/modal.store.ts:
 * a store object whose actions each replace one field.
 */
module ModalStore {
  import opened Wrappers

  /** `Product` of apps/frontend/src/features/products/model/types.ts. */
  datatype Product = Product(id: string, name: string, currentQuantity: int, desiredQuantity: int, unit: string, category: string)

  /** The store's state as one value. */
  datatype ModalState = ModalState(
    isAddModalOpen: bool,
    isEditModalOpen: bool,
    editingProduct: Option<Product>,
    isDeleteModalOpen: bool,
    deletingProductId: string)

  const Initial: ModalState := ModalState(false, false, None, false, "")

  function ToggleAdd(s: ModalState): (t: ModalState)
    ensures t.isAddModalOpen == !s.isAddModalOpen && t.(isAddModalOpen := s.isAddModalOpen) == s
  {
    s.(isAddModalOpen := !s.isAddModalOpen)
  }

  function ToggleEdit(s: ModalState): (t: ModalState)
    ensures t.isEditModalOpen == !s.isEditModalOpen && t.(isEditModalOpen := s.isEditModalOpen) == s
  {
    s.(isEditModalOpen := !s.isEditModalOpen)
  }

  function ToggleDelete(s: ModalState): (t: ModalState)
    ensures t.isDeleteModalOpen == !s.isDeleteModalOpen && t.(isDeleteModalOpen := s.isDeleteModalOpen) == s
  {
    s.(isDeleteModalOpen := !s.isDeleteModalOpen)
  }

  /** Each toggle undoes itself, and the three toggles commute. */
  lemma TogglesAreInvolutions(s: ModalState)
    ensures ToggleAdd(ToggleAdd(s)) == s
    ensures ToggleEdit(ToggleEdit(s)) == s
    ensures ToggleDelete(ToggleDelete(s)) == s
    ensures ToggleAdd(ToggleEdit(s)) == ToggleEdit(ToggleAdd(s))
    ensures ToggleAdd(ToggleDelete(s)) == ToggleDelete(ToggleAdd(s))
    ensures ToggleEdit(ToggleDelete(s)) == ToggleDelete(ToggleEdit(s))
  {
  }

  class ProductModalStore {
    var isAddModalOpen: bool
    var isEditModalOpen: bool
    var editingProduct: Option<Product>
    var isDeleteModalOpen: bool
    var deletingProductId: string

    function State(): ModalState
      reads this
    {
      ModalState(isAddModalOpen, isEditModalOpen, editingProduct, isDeleteModalOpen, deletingProductId)
    }

    /** Every dialog closed, nothing selected. */
    constructor ()
      ensures State() == Initial
    {
      isAddModalOpen, isEditModalOpen, editingProduct := false, false, None;
      isDeleteModalOpen, deletingProductId := false, "";
    }

    method ToggleAddModal()
      modifies this
      ensures State() == ToggleAdd(old(State()))
    {
      isAddModalOpen := !isAddModalOpen;
    }

    method ToggleEditModal()
      modifies this
      ensures State() == ToggleEdit(old(State()))
    {
      isEditModalOpen := !isEditModalOpen;
    }

    method SetEditingProduct(product: Product)
      modifies this
      ensures State() == old(State()).(editingProduct := Some(product))
    {
      editingProduct := Some(product);
    }

    method ToggleDeleteModal()
      modifies this
      ensures State() == ToggleDelete(old(State()))
    {
      isDeleteModalOpen := !isDeleteModalOpen;
    }

    method SetDeletingProductId(id: string)
      modifies this
      ensures State() == old(State()).(deletingProductId := id)
    {
      deletingProductId := id;
    }
  }

  /** Opening and closing the edit dialog around a selection leaves only the selection behind. */
  method EditRoundTrip(store: ProductModalStore, product: Product)
    modifies store
    ensures store.State() == old(store.State()).(editingProduct := Some(product))
  {
    store.SetEditingProduct(product);
    store.ToggleEditModal();
    store.ToggleEditModal();
    TogglesAreInvolutions(old(store.State()).(editingProduct := Some(product)));
  }
}
