/**
 * apps/backend/src/stocks/dto/update-stock.dto.ts: a stock update.
 */
module UpdateStockDto {
  import opened ClassValidator
  import UpdateProductStockDto

  datatype StockUpdate = StockUpdate(productId: int, currentQuantity: real, movementType: UpdateProductStockDto.Movement)

  predicate PositiveInteger(v: Value) {
    v.Num? && IsIntegral(v.n) && v.n > 0.0
  }

  lemma ProductIdRules(v: Value)
    ensures Check("productId", false, [IsInt, IsPositive, IsNotEmpty], v, _ => true) == [] <==> PositiveInteger(v)
  {
    var rules := [IsInt, IsPositive, IsNotEmpty];
    NoFailuresIffAllPass("productId", rules, v, _ => true);
    if !PositiveInteger(v) {
      assert !Passes(rules[0], v, _ => true) || !Passes(rules[1], v, _ => true);
    }
  }

  /** The product id must be a positive integer, the quantity a positive number, the type "IN" or "OUT". */
  function Failures(body: Body): (fs: seq<Failure>)
    ensures fs == [] <==>
      && PositiveInteger(Get(body, "productId"))
      && Get(body, "currentQuantity").Num? && Get(body, "currentQuantity").n > 0.0
      && (Get(body, "type") == Str("IN") || Get(body, "type") == Str("OUT"))
  {
    ProductIdRules(Get(body, "productId"));
    UpdateProductStockDto.PositiveNumberRules("currentQuantity", Get(body, "currentQuantity"));
    UpdateProductStockDto.MovementRule("type", Get(body, "type"));
    Check("productId", false, [IsInt, IsPositive, IsNotEmpty], Get(body, "productId"), _ => true)
    + Check("currentQuantity", false, [IsPositive, IsNumber], Get(body, "currentQuantity"), _ => true)
    + Check("type", false, [IsEnum(UpdateProductStockDto.MovementTypes)], Get(body, "type"), _ => true)
  }

  function Parse(body: Body): (r: Validated<StockUpdate>)
    ensures r.Valid? <==> Failures(body) == []
    ensures r.Invalid? ==> r.failures == Failures(body)
    ensures r.Valid? ==>
      && r.value.productId > 0 && r.value.productId as real == Get(body, "productId").n
      && r.value.currentQuantity > 0.0 && Get(body, "currentQuantity") == Num(r.value.currentQuantity)
      && Get(body, "type") == Str(UpdateProductStockDto.MovementText(r.value.movementType))
  {
    var failures := Failures(body);
    if failures != [] then Invalid(failures)
    else
      var movement := if Get(body, "type") == Str("IN") then UpdateProductStockDto.In else UpdateProductStockDto.Out;
      Valid(StockUpdate(Get(body, "productId").n.Floor, Get(body, "currentQuantity").n, movement))
  }
}

/**
 * apps/backend/src/stocks/dto/create-stock.dto.ts: a new stock row.
 */
module CreateStockDto {
  import opened ClassValidator
  import UpdateStockDto
  import UpdateProductStockDto

  datatype NewStock = NewStock(productId: int, desiredQuantity: real, currentQuantity: real)

  lemma ProductIdRules(v: Value)
    ensures Check("productId", false, [IsInt, IsPositive], v, _ => true) == [] <==> UpdateStockDto.PositiveInteger(v)
  {
    var rules := [IsInt, IsPositive];
    NoFailuresIffAllPass("productId", rules, v, _ => true);
    if !UpdateStockDto.PositiveInteger(v) {
      assert !Passes(rules[0], v, _ => true) || !Passes(rules[1], v, _ => true);
    }
  }

  lemma NumberRule(v: Value)
    ensures Check("currentQuantity", false, [IsNumber], v, _ => true) == [] <==> v.Num?
  {
    NoFailuresIffAllPass("currentQuantity", [IsNumber], v, _ => true);
  }

  /** The product id must be a positive integer, the desired quantity a positive number, the current quantity any number. */
  function Failures(body: Body): (fs: seq<Failure>)
    ensures fs == [] <==>
      && UpdateStockDto.PositiveInteger(Get(body, "productId"))
      && Get(body, "desiredQuantity").Num? && Get(body, "desiredQuantity").n > 0.0
      && Get(body, "currentQuantity").Num?
  {
    ProductIdRules(Get(body, "productId"));
    UpdateProductStockDto.PositiveNumberRules("desiredQuantity", Get(body, "desiredQuantity"));
    NumberRule(Get(body, "currentQuantity"));
    Check("productId", false, [IsInt, IsPositive], Get(body, "productId"), _ => true)
    + Check("desiredQuantity", false, [IsPositive, IsNumber], Get(body, "desiredQuantity"), _ => true)
    + Check("currentQuantity", false, [IsNumber], Get(body, "currentQuantity"), _ => true)
  }

  function Parse(body: Body): (r: Validated<NewStock>)
    ensures r.Valid? <==> Failures(body) == []
    ensures r.Invalid? ==> r.failures == Failures(body)
    ensures r.Valid? ==>
      && r.value.productId > 0 && r.value.productId as real == Get(body, "productId").n
      && r.value.desiredQuantity > 0.0 && Get(body, "desiredQuantity") == Num(r.value.desiredQuantity)
      && Get(body, "currentQuantity") == Num(r.value.currentQuantity)
  {
    var failures := Failures(body);
    if failures != [] then Invalid(failures)
    else Valid(NewStock(Get(body, "productId").n.Floor, Get(body, "desiredQuantity").n, Get(body, "currentQuantity").n))
  }

  /** A new stock may start below zero: the current quantity has no lower bound, unlike every quantity of a stock update. */
  lemma NegativeStartAccepted(productId: nat, desired: real, current: real)
    requires productId > 0 && desired > 0.0 && current < 0.0
    ensures var body := map["productId" := Num(productId as real), "desiredQuantity" := Num(desired), "currentQuantity" := Num(current)];
      && Parse(body).Valid?
      && UpdateStockDto.Parse(body["type" := Str("IN")]).Invalid?
  {
    var body := map["productId" := Num(productId as real), "desiredQuantity" := Num(desired), "currentQuantity" := Num(current)];
    assert Get(body, "productId") == Num(productId as real) && IsIntegral(productId as real);
    assert Get(body, "desiredQuantity") == Num(desired);
    assert Get(body, "currentQuantity") == Num(current);
    var update := body["type" := Str("IN")];
    assert Get(update, "currentQuantity") == Num(current);
  }
}
