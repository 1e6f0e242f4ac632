/**
 * The stock movement form of apps/frontend/src/features/products/model/quantity.model.ts:
 * one numeric form field, the request it submits and the toasts it shows.
 * The dialog flag, the movement type and the selected product come from a
 * store and are parameters here.
 */
module QuantityModel {
  import opened Wrappers
  import ProductSchema
  import Strings

  datatype MovementType = In | Out

  /** `PATCH products/update-stock/${selectedProductId}` with body `{ quantity, type }`; a missing id is spelled `null` in the path. */
  datatype StockPatch = StockPatch(path: string, quantity: real, movementType: MovementType)

  const DefaultQuantity: real := 0.0

  /** `Math.max(1, current + change)`. */
  function Stepped(current: real, change: real): (r: real)
    ensures r >= 1.0
    ensures current + change >= 1.0 ==> r == current + change
    ensures current + change < 1.0 ==> r == 1.0
  {
    if current + change >= 1.0 then current + change else 1.0
  }

  /** Any value the buttons produce passes `quantitySchema`. */
  lemma SteppedIsValidQuantity(current: real, change: real)
    ensures ProductSchema.QuantityIssues(Stepped(current, change)) == []
  {
  }

  const UpdateStockPrefix: string := "products/update-stock/"

  /** The PATCH path: `${selectedProductId}` spells a missing id `null` and an id in decimal. */
  function SelectedPath(selectedProductId: Option<nat>): (path: string)
    ensures |path| > |UpdateStockPrefix| && path[..|UpdateStockPrefix|] == UpdateStockPrefix
    ensures selectedProductId.None? ==> path[|UpdateStockPrefix|..] == "null"
    ensures selectedProductId.Some? ==> path[|UpdateStockPrefix|..] == Strings.DecimalText(selectedProductId.value)
  {
    UpdateStockPrefix + match selectedProductId
      case None => "null"
      case Some(id) => Strings.DecimalText(id)
  }

  /** The decimal text of an id never spells `null`. */
  lemma DecimalTextIsNotNull(id: nat)
    ensures Strings.DecimalText(id) != "null"
  {
    assert Strings.IsDigit(Strings.DecimalText(id)[0]);
  }

  /** Different selections, a missing one included, patch different paths. */
  lemma SelectedPathInjective(a: Option<nat>, b: Option<nat>)
    ensures SelectedPath(a) == SelectedPath(b) ==> a == b
  {
    var n := |UpdateStockPrefix|;
    if a.Some? { DecimalTextIsNotNull(a.value); }
    if b.Some? { DecimalTextIsNotNull(b.value); }
    if SelectedPath(a) == SelectedPath(b) {
      assert SelectedPath(a)[n..] == SelectedPath(b)[n..];
      if a.Some? && b.Some? {
        Strings.DecimalTextInjective(a.value, b.value);
      }
    }
  }

  function SubmitPatch(selectedProductId: Option<nat>, quantity: real, movementType: MovementType): (p: StockPatch)
    ensures p.quantity == quantity && p.movementType == movementType
    ensures selectedProductId.Some? ==> p.path == "products/update-stock/" + Strings.DecimalText(selectedProductId.value)
  {
    StockPatch(SelectedPath(selectedProductId), quantity, movementType)
  }

  const DuplicateName: string := "Já existe um produto com o mesmo nome."
  const AddFailed: string := "Falha ao adicionar produto, tente novamente mais tarde"
  const Added: string := "Produto adicionado com sucesso"
  const Removed: string := "Produto removido com sucesso"

  /** `onError`, switching on `error.response?.status`. */
  function ErrorToast(status: Option<int>): (message: string)
    ensures message == DuplicateName <==> status == Some(422)
    ensures message != DuplicateName ==> message == AddFailed
  {
    if status == Some(422) then DuplicateName else AddFailed
  }

  /** `onSuccess`. */
  function SuccessToast(movementType: MovementType): (message: string)
    ensures message == Added <==> movementType.In?
    ensures message == Removed <==> movementType.Out?
  {
    assert Added != Removed by { assert Added[8] == 'a' && Removed[8] == 'r'; }
    if movementType == In then Added else Removed
  }

  class QuantityForm {
    var quantity: real

    /** `useForm` with `defaultValues: { quantity: 0 }`. */
    constructor ()
      ensures quantity == DefaultQuantity
    {
      quantity := DefaultQuantity;
    }

    /** `handleQuantityChange(change)`. */
    method HandleQuantityChange(change: real)
      modifies this
      ensures quantity == Stepped(old(quantity), change)
    {
      quantity := if quantity + change >= 1.0 then quantity + change else 1.0;
    }

    /** The `useEffect` on the dialog flag: opening the dialog resets the field to 0. */
    method OnOpenChanged(isQuantityModalOpen: bool)
      modifies this
      ensures quantity == if isQuantityModalOpen then 0.0 else old(quantity)
    {
      if isQuantityModalOpen {
        quantity := 0.0;
      }
    }

    /** `onSuccess`: the toast for the movement type and `form.reset()` back to the default. */
    method OnSuccess(movementType: MovementType) returns (toast: string)
      modifies this
      ensures toast == SuccessToast(movementType)
      ensures quantity == DefaultQuantity
    {
      toast := if movementType == In then Added else Removed;
      quantity := DefaultQuantity;
    }
  }

  /** A freshly opened dialog holds 0, which `quantitySchema` refuses until a button is pressed. */
  method OpenThenStep(form: QuantityForm, change: real)
    modifies form
    ensures ProductSchema.QuantityIssues(form.quantity) == []
    ensures form.quantity == Stepped(0.0, change)
  {
    form.OnOpenChanged(true);
    assert ProductSchema.QuantityIssues(form.quantity) != [];
    form.HandleQuantityChange(change);
    SteppedIsValidQuantity(0.0, change);
  }
}
