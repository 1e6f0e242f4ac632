/**
 * The product table operations of apps/backend/src/products/products.service.ts.
 * A user's product names are unique: `create` refuses a name the user
 * already has, `update` a name another of the user's products has.
 * Prisma is a table of rows; existence of the referenced category and user
 * rows (foreign keys) is a parameter.
 */
module Products {
  import opened Wrappers

  datatype Product = Product(
    id: nat,
    name: string,
    description: Option<string>,
    unit: string,
    categoryId: int,
    userId: int,
    createdAt: int)

  datatype Stock = Stock(id: nat, productId: nat, currentQuantity: int, desiredQuantity: int)

  /** `CreateProductDto` after validation and defaults. */
  datatype CreateProductDto = CreateProductDto(
    name: string,
    description: Option<string>,
    unit: string,
    categoryId: int,
    desiredQuantity: int,
    currentQuantity: int)

  /** The fields `update` writes; a missing `description` leaves the column as it is (Prisma skips `undefined`). */
  datatype UpdateProductDto = UpdateProductDto(name: string, description: Option<string>, unit: string, categoryId: int)

  /** The rows a foreign key may point to. */
  datatype ForeignKeys = ForeignKeys(categoryIds: set<int>, userIds: set<int>)

  /** `{ ...product, stock }`. */
  datatype ProductWithStock = ProductWithStock(product: Product, stock: Stock)

  /**
   * `RecordNotFound` and `ForeignKeyViolation` are Prisma rejections of the
   * un-awaited `update`, which reach the caller as a server error.
   */
  datatype ProductError =
    | UnprocessableEntity(message: string)
    | BadRequest(message: string)
    | Conflict(message: string)
    | RecordNotFound
    | ForeignKeyViolation

  datatype Result<T> = Ok(value: T) | Err(error: ProductError)

  const DuplicateName: string := "Já existe um produto com o mesmo nome."
  const CreateFailed: string := "Erro ao criar o produto ou o estoque."

  /** Some product of `userId` other than `except` is called `name` (`findFirst` in `create` and `update`). */
  predicate NameTaken(products: seq<Product>, name: string, userId: int, except: Option<nat>) {
    exists p :: p in products && p.name == name && p.userId == userId && (except.None? || p.id != except.value)
  }

  /** The per-user uniqueness of product names that `create` and `update` defend. */
  ghost predicate NamesUniquePerUser(products: seq<Product>) {
    forall i, j :: 0 <= i < j < |products| && products[i].userId == products[j].userId ==> products[i].name != products[j].name
  }

  ghost predicate IdsUnique(products: seq<Product>) {
    forall i, j :: 0 <= i < j < |products| ==> products[i].id != products[j].id
  }

  /** The row with id `id` after the update's four writes. */
  function Updated(p: Product, dto: UpdateProductDto): (r: Product)
    ensures r.id == p.id && r.userId == p.userId && r.createdAt == p.createdAt
    ensures r.name == dto.name && r.unit == dto.unit && r.categoryId == dto.categoryId
    ensures dto.description.Some? ==> r.description == dto.description
    ensures dto.description.None? ==> r.description == p.description
  {
    p.(name := dto.name, description := if dto.description.Some? then dto.description else p.description,
       unit := dto.unit, categoryId := dto.categoryId)
  }

  /** The table after `product.update({ where: { id } })`: every row with that id rewritten, the others as they were. */
  function UpdateRows(products: seq<Product>, id: nat, dto: UpdateProductDto): (r: seq<Product>)
    ensures |r| == |products|
    ensures forall i :: 0 <= i < |r| ==> r[i] == if products[i].id == id then Updated(products[i], dto) else products[i]
    ensures forall i :: 0 <= i < |r| ==> r[i].id == products[i].id && r[i].userId == products[i].userId
  {
    if |products| == 0 then []
    else [if products[0].id == id then Updated(products[0], dto) else products[0]] + UpdateRows(products[1..], id, dto)
  }

  predicate HasId(products: seq<Product>, id: nat) {
    exists p :: p in products && p.id == id
  }

  /**
   * `update` as written: the name check is scoped to the caller's products,
   * but the row is found by `id` alone, whoever owns it.
   */
  function UpdateAsWritten(products: seq<Product>, keys: ForeignKeys, id: nat, dto: UpdateProductDto, userId: int): (r: Result<seq<Product>>)
    ensures r.Err? && r.error == Conflict(DuplicateName) <==> NameTaken(products, dto.name, userId, Some(id))
    ensures r == Err(RecordNotFound) <==> !NameTaken(products, dto.name, userId, Some(id)) && !HasId(products, id)
    ensures r == Err(ForeignKeyViolation) <==>
      !NameTaken(products, dto.name, userId, Some(id)) && HasId(products, id) && dto.categoryId !in keys.categoryIds
    ensures r.Ok? <==> !NameTaken(products, dto.name, userId, Some(id)) && HasId(products, id) && dto.categoryId in keys.categoryIds
    ensures r.Ok? ==> r.value == UpdateRows(products, id, dto)
  {
    if NameTaken(products, dto.name, userId, Some(id)) then Err(Conflict(DuplicateName))
    else if !HasId(products, id) then Err(RecordNotFound)
    else if dto.categoryId !in keys.categoryIds then Err(ForeignKeyViolation)
    else Ok(UpdateRows(products, id, dto))
  }

  /** As written, one user can rename another user's product into a duplicate name of that other user. */
  lemma UpdateAsWrittenBreaksUniqueness()
    ensures var products := [
        Product(2, "milk", None, "L", 1, 20, 0),
        Product(3, "bread", None, "unidade", 1, 20, 0)];
      var r := UpdateAsWritten(products, ForeignKeys({1}, {10, 20}), 3, UpdateProductDto("milk", None, "L", 1), 10);
      && NamesUniquePerUser(products)
      && r.Ok? && !NamesUniquePerUser(r.value)
  {
    var products := [
      Product(2, "milk", None, "L", 1, 20, 0),
      Product(3, "bread", None, "unidade", 1, 20, 0)];
    var dto := UpdateProductDto("milk", None, "L", 1);
    assert "milk" != "bread";
    assert !NameTaken(products, "milk", 10, Some(3));
    assert HasId(products, 3) by { assert products[1] in products; }
    var after := UpdateRows(products, 3, dto);
    assert after[0].name == after[1].name;
  }

  /** The user owns a row with that id. */
  predicate OwnsId(products: seq<Product>, id: nat, userId: int) {
    exists p :: p in products && p.id == id && p.userId == userId
  }

  /**
   * `update` with the row also matched on its owner (`where: { id, userId }`),
   * so that a product of another user is as absent as a missing one.
   */
  function UpdateOwned(products: seq<Product>, keys: ForeignKeys, id: nat, dto: UpdateProductDto, userId: int): (r: Result<seq<Product>>)
    ensures r.Err? && r.error == Conflict(DuplicateName) <==> NameTaken(products, dto.name, userId, Some(id))
    ensures r == Err(RecordNotFound) <==> !NameTaken(products, dto.name, userId, Some(id)) && !OwnsId(products, id, userId)
    ensures r == Err(ForeignKeyViolation) <==>
      !NameTaken(products, dto.name, userId, Some(id)) && OwnsId(products, id, userId) && dto.categoryId !in keys.categoryIds
    ensures r.Ok? <==> !NameTaken(products, dto.name, userId, Some(id)) && OwnsId(products, id, userId) && dto.categoryId in keys.categoryIds
    ensures r.Ok? ==> r.value == UpdateRows(products, id, dto)
    ensures r.Ok? ==> exists p :: p in products && p.id == id && p.userId == userId
  {
    if NameTaken(products, dto.name, userId, Some(id)) then Err(Conflict(DuplicateName))
    else if !OwnsId(products, id, userId) then Err(RecordNotFound)
    else if dto.categoryId !in keys.categoryIds then Err(ForeignKeyViolation)
    else Ok(UpdateRows(products, id, dto))
  }

  /** An update rewrites no id, so unique ids below a bound stay so. */
  lemma UpdateRowsKeepsIds(products: seq<Product>, id: nat, dto: UpdateProductDto, bound: nat)
    requires IdsUnique(products) && forall p :: p in products ==> p.id < bound
    ensures IdsUnique(UpdateRows(products, id, dto))
    ensures forall p :: p in UpdateRows(products, id, dto) ==> p.id < bound
  {
    var after := UpdateRows(products, id, dto);
    forall q | q in after ensures q.id < bound {
      var i :| 0 <= i < |after| && after[i] == q;
      assert products[i] in products;
    }
  }

  /** Renaming an owned row to a name its owner does not use elsewhere keeps every user's product names unique. */
  lemma {:induction false} RenameKeepsNamesUnique(products: seq<Product>, k: nat, dto: UpdateProductDto)
    requires NamesUniquePerUser(products) && IdsUnique(products)
    requires k < |products|
    requires !NameTaken(products, dto.name, products[k].userId, Some(products[k].id))
    ensures NamesUniquePerUser(UpdateRows(products, products[k].id, dto))
  {
    var id := products[k].id;
    var after := UpdateRows(products, id, dto);
    forall i, j | 0 <= i < j < |after| && after[i].userId == after[j].userId
      ensures after[i].name != after[j].name
    {
      if products[i].id == id {
        assert i == k && products[j].id != id;
        assert products[j] in products;
      } else if products[j].id == id {
        assert j == k;
        assert products[i] in products;
      }
    }
  }

  /** The owner-scoped update keeps every user's product names unique. */
  lemma UpdateOwnedKeepsNamesUnique(products: seq<Product>, keys: ForeignKeys, id: nat, dto: UpdateProductDto, userId: int)
    requires NamesUniquePerUser(products) && IdsUnique(products)
    requires UpdateOwned(products, keys, id, dto, userId).Ok?
    ensures NamesUniquePerUser(UpdateOwned(products, keys, id, dto, userId).value)
  {
    var p :| p in products && p.id == id && p.userId == userId;
    var k :| 0 <= k < |products| && products[k] == p;
    RenameKeepsNamesUnique(products, k, dto);
  }

  /** Everything `ProductsService.Update` needs about a successful owner-scoped update. */
  lemma OwnedUpdateKeepsValid(products: seq<Product>, keys: ForeignKeys, id: nat, dto: UpdateProductDto, userId: int, bound: nat, p: Product)
    requires NamesUniquePerUser(products) && IdsUnique(products) && forall q :: q in products ==> q.id < bound
    requires UpdateOwned(products, keys, id, dto, userId).Ok?
    requires p in products && p.id == id
    ensures var after := UpdateOwned(products, keys, id, dto, userId).value;
      && NamesUniquePerUser(after) && IdsUnique(after) && (forall q :: q in after ==> q.id < bound)
      && Updated(p, dto) in after && Updated(p, dto).id == id && Updated(p, dto).userId == p.userId
  {
    UpdateOwnedKeepsNamesUnique(products, keys, id, dto, userId);
    UpdateRowsKeepsIds(products, id, dto, bound);
    var after := UpdateRows(products, id, dto);
    var k :| 0 <= k < |products| && products[k] == p;
    assert after[k] == Updated(p, dto);
  }

  /** Insertion into a list ordered newest first. */
  function InsertByCreatedAt(p: Product, sorted: seq<Product>): (r: seq<Product>)
    requires NewestFirst(sorted)
    ensures NewestFirst(r) && multiset(r) == multiset(sorted) + multiset{p}
    ensures |r| > 0 && (r[0] == p || (|sorted| > 0 && r[0] == sorted[0]))
  {
    if |sorted| == 0 then [p]
    else if p.createdAt >= sorted[0].createdAt then [p] + sorted
    else
      var rest := InsertByCreatedAt(p, sorted[1..]);
      assert sorted == [sorted[0]] + sorted[1..];
      [sorted[0]] + rest
  }

  ghost predicate NewestFirst(s: seq<Product>) {
    forall i, j :: 0 <= i < j < |s| ==> s[i].createdAt >= s[j].createdAt
  }

  /** The rows of one user. */
  function OwnedBy(products: seq<Product>, userId: int): (r: seq<Product>)
    ensures forall p :: p in r <==> p in products && p.userId == userId
  {
    if |products| == 0 then []
    else if products[0].userId == userId then [products[0]] + OwnedBy(products[1..], userId)
    else OwnedBy(products[1..], userId)
  }

  function SortNewestFirst(s: seq<Product>): (r: seq<Product>)
    ensures NewestFirst(r) && multiset(r) == multiset(s)
  {
    if |s| == 0 then []
    else
      assert s == [s[0]] + s[1..];
      InsertByCreatedAt(s[0], SortNewestFirst(s[1..]))
  }

  /** `findAll(user)`: exactly the user's products, each as often as in the table, newest `createdAt` first. */
  function FindAll(products: seq<Product>, userId: int): (r: seq<Product>)
    ensures multiset(r) == multiset(OwnedBy(products, userId))
    ensures forall p :: p in r <==> p in products && p.userId == userId
    ensures NewestFirst(r)
  {
    var r := SortNewestFirst(OwnedBy(products, userId));
    assert forall p :: p in r <==> p in multiset(r);
    r
  }

  class ProductsService {
    var products: seq<Product>
    var stocks: seq<Stock>
    var nextProductId: nat
    var nextStockId: nat

    ghost predicate Valid()
      reads this
    {
      && NamesUniquePerUser(products)
      && IdsUnique(products)
      && (forall p :: p in products ==> p.id < nextProductId)
      && (forall s :: s in stocks ==> s.id < nextStockId)
    }

    constructor ()
      ensures Valid() && products == [] && stocks == []
    {
      products, stocks := [], [];
      nextProductId, nextStockId := 1, 1;
    }

    /**
     * `create`: UnprocessableEntity when the user already has a product with
     * that name (other users' products do not count); BadRequest, with
     * nothing written, when the category or the user row does not exist;
     * otherwise one product and one stock linked to it.
     */
    method Create(dto: CreateProductDto, userId: int, keys: ForeignKeys, now: int) returns (r: Result<ProductWithStock>)
      requires Valid()
      modifies this
      ensures Valid()
      ensures r.Err? && r.error == UnprocessableEntity(DuplicateName) <==> NameTaken(old(products), dto.name, userId, None)
      ensures r.Err? ==> products == old(products) && stocks == old(stocks)
      ensures r.Err? && !NameTaken(old(products), dto.name, userId, None) ==>
        r.error == BadRequest(CreateFailed) && (dto.categoryId !in keys.categoryIds || userId !in keys.userIds)
      ensures !NameTaken(old(products), dto.name, userId, None) && (dto.categoryId !in keys.categoryIds || userId !in keys.userIds) ==>
        r == Err(BadRequest(CreateFailed))
      ensures r.Ok? <==> !NameTaken(old(products), dto.name, userId, None) && dto.categoryId in keys.categoryIds && userId in keys.userIds
      ensures r.Ok? ==>
        && r.value.product == Product(old(nextProductId), dto.name, dto.description, dto.unit, dto.categoryId, userId, now)
        && r.value.stock == Stock(old(nextStockId), r.value.product.id, dto.currentQuantity, dto.desiredQuantity)
        && products == old(products) + [r.value.product]
        && stocks == old(stocks) + [r.value.stock]
    {
      if NameTaken(products, dto.name, userId, None) {
        return Err(UnprocessableEntity(DuplicateName));
      }
      if dto.categoryId !in keys.categoryIds || userId !in keys.userIds {
        return Err(BadRequest(CreateFailed));
      }
      var product := Product(nextProductId, dto.name, dto.description, dto.unit, dto.categoryId, userId, now);
      var stock := Stock(nextStockId, product.id, dto.currentQuantity, dto.desiredQuantity);
      products := products + [product];
      stocks := stocks + [stock];
      nextProductId := nextProductId + 1;
      nextStockId := nextStockId + 1;
      r := Ok(ProductWithStock(product, stock));
    }

    /**
     * `update`, with the row matched on its owner as well (see
     * `UpdateAsWritten` for the code as written). Writes name, description,
     * unit and category; the stock table is untouched.
     */
    method Update(id: nat, dto: UpdateProductDto, userId: int, keys: ForeignKeys) returns (r: Result<Product>)
      requires Valid()
      modifies this
      ensures Valid()
      ensures stocks == old(stocks)
      ensures r.Err? <==> UpdateOwned(old(products), keys, id, dto, userId).Err?
      ensures r.Err? ==> r.error == UpdateOwned(old(products), keys, id, dto, userId).error && products == old(products)
      ensures r.Ok? ==>
        && products == UpdateRows(old(products), id, dto)
        && r.value in products && r.value.id == id && r.value.userId == userId
    {
      var outcome := UpdateOwned(products, keys, id, dto, userId);
      if outcome.Err? {
        return Err(outcome.error);
      }
      var p :| p in products && p.id == id && p.userId == userId;
      OwnedUpdateKeepsValid(products, keys, id, dto, userId, nextProductId, p);
      products := outcome.value;
      r := Ok(Updated(p, dto));
    }
  }
}
