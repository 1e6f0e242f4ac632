/**
 * The product form rules of apps/frontend/src/features/products/ui/product.schema.ts,
 * as the list of issues zod reports, in the schema's field order.
 * Numbers are the values after `z.coerce.number()`.
 */
module ProductSchema {
  import opened Wrappers

  /** The `Unit` enum of apps/frontend/src/features/products/model/types.ts. */
  const Units: seq<string> := ["kg", "g", "L", "lata", "pacote", "unidade"]

  datatype ProductForm = ProductForm(
    name: string,
    description: Option<string>,
    unit: string,
    categoryId: real,
    currentQuantity: real,
    desiredQuantity: real)

  datatype Field = Id | Name | UnitField | CategoryId | CurrentQuantity | DesiredQuantity | Quantity

  /** A failed rule; `message` is None where the schema keeps zod's own message. */
  datatype Issue = Issue(field: Field, message: Option<string>)

  const NameRequired: string := "Nome é obrigatório"
  const InvalidCategory: string := "Categoria inválida"
  const CurrentBelowZero: string := "Quantidade atual deve ser maior ou igual a 0"
  const DesiredNotPositive: string := "Quantidade desejada deve ser um número positivo"

  /** `Number.isInteger`. */
  predicate IsInteger(x: real) {
    x.Floor as real == x
  }

  function IssueIf(failed: bool, issue: Issue): (r: seq<Issue>)
    ensures r == [] <==> !failed
    ensures failed ==> r == [issue]
  {
    if failed then [issue] else []
  }

  /** `createProductSchema.safeParse`: every failing field once, in declaration order. */
  function CreateProductIssues(f: ProductForm): (issues: seq<Issue>)
    ensures issues == [] <==>
      (|f.name| > 0 && f.unit in Units && IsInteger(f.categoryId) && f.currentQuantity >= 0.0 && f.desiredQuantity > 0.0)
    ensures Issue(Name, Some(NameRequired)) in issues <==> |f.name| == 0
    ensures Issue(UnitField, None) in issues <==> f.unit !in Units
    ensures Issue(CategoryId, Some(InvalidCategory)) in issues <==> !IsInteger(f.categoryId)
    ensures Issue(CurrentQuantity, Some(CurrentBelowZero)) in issues <==> f.currentQuantity < 0.0
    ensures Issue(DesiredQuantity, Some(DesiredNotPositive)) in issues <==> f.desiredQuantity <= 0.0
    ensures |issues| <= 5
  {
    IssueIf(|f.name| == 0, Issue(Name, Some(NameRequired)))
    + IssueIf(f.unit !in Units, Issue(UnitField, None))
    + IssueIf(!IsInteger(f.categoryId), Issue(CategoryId, Some(InvalidCategory)))
    + IssueIf(f.currentQuantity < 0.0, Issue(CurrentQuantity, Some(CurrentBelowZero)))
    + IssueIf(f.desiredQuantity <= 0.0, Issue(DesiredQuantity, Some(DesiredNotPositive)))
  }

  /** `quantitySchema`: a movement quantity must be strictly positive. */
  function QuantityIssues(quantity: real): (issues: seq<Issue>)
    ensures issues == [] <==> quantity > 0.0
    ensures issues != [] ==> issues == [Issue(Quantity, None)]
  {
    IssueIf(quantity <= 0.0, Issue(Quantity, None))
  }

  /** Zero on hand is a valid product, zero wanted is not; the description never matters. */
  lemma QuantityBoundaries(f: ProductForm)
    requires |f.name| > 0 && f.unit == "unidade" && f.categoryId == 3.0
    ensures f.currentQuantity == 0.0 && f.desiredQuantity == 1.5 ==> CreateProductIssues(f) == []
    ensures f.desiredQuantity == 0.0 ==> CreateProductIssues(f) != []
    ensures CreateProductIssues(f) == CreateProductIssues(f.(description := None))
  {
    assert "unidade" == Units[5];
  }

  /** A fractional category id is refused with the category message alone. */
  lemma FractionalCategoryRefused(f: ProductForm)
    requires |f.name| > 0 && f.unit in Units && f.currentQuantity >= 0.0 && f.desiredQuantity > 0.0
    requires f.categoryId == 2.5
    ensures CreateProductIssues(f) == [Issue(CategoryId, Some(InvalidCategory))]
  {
    assert (2.5).Floor == 2;
  }
}
