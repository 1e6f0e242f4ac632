/**
 * The error toast and the form rules of
 * apps/frontend/src/features/products/ui/update-product-dialog.tsx.
 */
module UpdateProductDialog {
  import opened Wrappers
  import opened ProductSchema

  /** What reached `handleProductEditError`: an Axios error with its status, or any other error. */
  datatype EditError = AxiosError(status: Option<int>) | OtherError

  const ProductNotFound: string := "Produto não encontrado"
  const NotAllowed: string := "Você não tem permissão para editar este produto"
  const NameInUse: string := "Já existe um produto com este nome"
  const EditFailed: string := "Falha ao editar produto"

  /** The toast shown, None when the error is not an Axios error. */
  function EditErrorToast(error: EditError): (toast: Option<string>)
    ensures toast.None? <==> error.OtherError?
    ensures toast == Some(ProductNotFound) <==> error.AxiosError? && (error.status == Some(400) || error.status == Some(404))
    ensures toast == Some(NotAllowed) <==> error.AxiosError? && (error.status == Some(401) || error.status == Some(403))
    ensures toast == Some(NameInUse) <==> error == AxiosError(Some(409))
    ensures toast == Some(EditFailed) <==>
      error.AxiosError? && error.status !in {Some(400), Some(404), Some(401), Some(403), Some(409)}
  {
    match error
    case OtherError => None
    case AxiosError(status) =>
      if status == Some(400) || status == Some(404) then Some(ProductNotFound)
      else if status == Some(401) || status == Some(403) then Some(NotAllowed)
      else if status == Some(409) then Some(NameInUse)
      else Some(EditFailed)
  }

  /** The Conflict that `update` raises on a duplicate name is the one status shown as "name in use". */
  lemma ConflictShowsNameInUse()
    ensures EditErrorToast(AxiosError(Some(409))) == Some(NameInUse)
    ensures EditErrorToast(AxiosError(Some(422))) == Some(EditFailed)
    ensures EditErrorToast(AxiosError(None)) == Some(EditFailed)
  {
  }

  const InvalidId: string := "ID inválido"

  /** The edit form is the create form plus the product's id. */
  datatype EditForm = EditForm(id: real, product: ProductForm)

  /** `formSchema.safeParse`: its own id rule first, then the create schema's rules. */
  function EditIssues(f: EditForm): (issues: seq<Issue>)
    ensures issues == [] <==> IsInteger(f.id) && CreateProductIssues(f.product) == []
    ensures Issue(Id, Some(InvalidId)) in issues <==> !IsInteger(f.id)
  {
    var own := IssueIf(!IsInteger(f.id), Issue(Id, Some(InvalidId)));
    assert Issue(Id, Some(InvalidId)) !in CreateProductIssues(f.product);
    own + CreateProductIssues(f.product)
  }

  /** An edit form whose id is an integer is accepted exactly when its product part passes the create schema. */
  lemma EditAgreesWithCreate(f: EditForm)
    requires IsInteger(f.id)
    ensures EditIssues(f) == CreateProductIssues(f.product)
  {
  }
}
