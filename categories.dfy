/**
 * The category table of apps/backend/src/categories/categories.service.ts.
 * Category names are unique across the whole table (not per user).
 */
module Categories {
  datatype Category = Category(id: nat, name: string)

  datatype CategoryError = UnprocessableEntity(message: string) | NotFound

  datatype Result<T> = Ok(value: T) | Err(error: CategoryError)

  const CategoryExists: string := "Categoria já existe"

  predicate NameUsed(categories: seq<Category>, name: string) {
    exists c :: c in categories && c.name == name
  }

  ghost predicate NamesUnique(categories: seq<Category>) {
    forall i, j :: 0 <= i < j < |categories| ==> categories[i].name != categories[j].name
  }

  ghost predicate IdsUnique(categories: seq<Category>) {
    forall i, j :: 0 <= i < j < |categories| ==> categories[i].id != categories[j].id
  }

  /** `findUnique({ where: { id } })` followed by the NotFound check. */
  function Find(categories: seq<Category>, id: nat): (r: Result<Category>)
    ensures r.Ok? ==> r.value in categories && r.value.id == id
    ensures r.Err? <==> forall c :: c in categories ==> c.id != id
    ensures r.Err? ==> r.error == NotFound
  {
    if |categories| == 0 then Err(NotFound)
    else if categories[0].id == id then Ok(categories[0])
    else Find(categories[1..], id)
  }

  /** With unique ids, `Find` returns the one category with that id. */
  lemma FindIsTheCategory(categories: seq<Category>, c: Category)
    requires IdsUnique(categories) && c in categories
    ensures Find(categories, c.id) == Ok(c)
  {
    var r := Find(categories, c.id);
    var i :| 0 <= i < |categories| && categories[i] == c;
    var j :| 0 <= j < |categories| && categories[j] == r.value;
    assert i == j;
  }

  class CategoriesService {
    var categories: seq<Category>
    var nextId: nat

    ghost predicate Valid()
      reads this
    {
      && NamesUnique(categories)
      && IdsUnique(categories)
      && forall c :: c in categories ==> c.id < nextId
    }

    constructor ()
      ensures Valid() && categories == []
    {
      categories := [];
      nextId := 1;
    }

    /** `create`: UnprocessableEntity, with nothing written, when some category already has that name; otherwise one new row. */
    method Create(name: string) returns (r: Result<Category>)
      requires Valid()
      modifies this
      ensures Valid()
      ensures r.Err? <==> NameUsed(old(categories), name)
      ensures r.Err? ==> r.error == UnprocessableEntity(CategoryExists) && categories == old(categories)
      ensures r.Ok? ==> r.value == Category(old(nextId), name) && categories == old(categories) + [r.value]
    {
      if NameUsed(categories, name) {
        return Err(UnprocessableEntity(CategoryExists));
      }
      var category := Category(nextId, name);
      categories := categories + [category];
      nextId := nextId + 1;
      r := Ok(category);
    }

    /** `findAll`: every row, in table order (the query asks for no order). */
    method FindAll() returns (r: seq<Category>)
      ensures forall c :: c in r <==> c in categories
      ensures |r| == |categories| && multiset(r) == multiset(categories)
    {
      r := categories;
    }

    /** `findOne`: the category with that id, NotFound when there is none; the user argument only reaches a log line. */
    method FindOne(id: nat) returns (r: Result<Category>)
      requires Valid()
      ensures r.Err? <==> forall c :: c in categories ==> c.id != id
      ensures r.Err? ==> r.error == NotFound
      ensures r.Ok? ==> r.value in categories && r.value.id == id
    {
      r := Find(categories, id);
    }
  }

  /** A category just created is what `findOne` then returns for its id. */
  method CreateThenFindOne(service: CategoriesService, name: string) returns (created: Result<Category>, found: Result<Category>)
    requires service.Valid()
    modifies service
    ensures created.Ok? ==> found == created
  {
    created := service.Create(name);
    found := created;
    if created.Ok? {
      FindIsTheCategory(service.categories, created.value);
      found := service.FindOne(created.value.id);
    }
  }
}
