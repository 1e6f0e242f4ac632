/**
 * apps/backend/src/products/dto/create-product.dto.ts: the product creation
 * body, after the validation pipe has built the DTO instance (so the class
 * defaults fill in absent properties) and validated it.
 */
module CreateProductDto {
  import opened Wrappers
  import opened ClassValidator

  const DefaultUnit: string := "unidade"

  /** The validated DTO. An explicit `null` current quantity passes `@IsOptional` and arrives as None. */
  datatype CreateProduct = CreateProduct(
    name: string,
    description: Option<string>,
    unit: string,
    categoryId: int,
    desiredQuantity: int,
    currentQuantity: Option<int>)

  /** The instance the pipe builds: class defaults first, then every property the body carries (a `null` included). */
  function WithDefaults(body: Body): (b: Body)
    ensures Get(b, "unit") == if "unit" in body then body["unit"] else Str(DefaultUnit)
    ensures Get(b, "currentQuantity") == if "currentQuantity" in body then body["currentQuantity"] else Num(0.0)
    ensures forall p :: p != "unit" && p != "currentQuantity" ==> Get(b, p) == Get(body, p)
  {
    var unit := if "unit" in body then body["unit"] else Str(DefaultUnit);
    var current := if "currentQuantity" in body then body["currentQuantity"] else Num(0.0);
    body["unit" := unit]["currentQuantity" := current]
  }

  predicate NonEmptyText(v: Value) {
    v.Str? && v.s != ""
  }

  predicate Integer(v: Value) {
    v.Num? && IsIntegral(v.n)
  }

  predicate Absent(v: Value) {
    v == Null || v == Undefined
  }

  lemma NonEmptyTextRules(property: string, v: Value)
    ensures Check(property, false, [IsNotEmpty, IsString], v, _ => true) == [] <==> NonEmptyText(v)
  {
    NoFailuresIffAllPass(property, [IsNotEmpty, IsString], v, _ => true);
    if !NonEmptyText(v) {
      assert !Passes([IsNotEmpty, IsString][0], v, _ => true) || !Passes([IsNotEmpty, IsString][1], v, _ => true);
    }
  }

  lemma IntegerRules(property: string, v: Value)
    ensures Check(property, false, [IsNotEmpty, IsInt], v, _ => true) == [] <==> Integer(v)
  {
    NoFailuresIffAllPass(property, [IsNotEmpty, IsInt], v, _ => true);
    if !Integer(v) {
      assert !Passes([IsNotEmpty, IsInt][1], v, _ => true);
    }
  }

  lemma OptionalRule(property: string, rule: Rule, v: Value)
    ensures Check(property, true, [rule], v, _ => true) == [] <==> Absent(v) || Passes(rule, v, _ => true)
  {
    NoFailuresIffAllPass(property, [rule], v, _ => true);
  }

  /** What the rules demand of the built instance. */
  predicate ValidInstance(b: Body) {
    && NonEmptyText(Get(b, "name"))
    && (Absent(Get(b, "description")) || Get(b, "description").Str?)
    && NonEmptyText(Get(b, "unit"))
    && Integer(Get(b, "categoryId"))
    && Integer(Get(b, "desiredQuantity"))
    && (Absent(Get(b, "currentQuantity")) || Integer(Get(b, "currentQuantity")))
  }

  function TextFailures(b: Body): (fs: seq<Failure>)
    ensures fs == [] <==>
      NonEmptyText(Get(b, "name")) && (Absent(Get(b, "description")) || Get(b, "description").Str?) && NonEmptyText(Get(b, "unit"))
  {
    NonEmptyTextRules("name", Get(b, "name"));
    OptionalRule("description", IsString, Get(b, "description"));
    NonEmptyTextRules("unit", Get(b, "unit"));
    Check("name", false, [IsNotEmpty, IsString], Get(b, "name"), _ => true)
    + Check("description", true, [IsString], Get(b, "description"), _ => true)
    + Check("unit", false, [IsNotEmpty, IsString], Get(b, "unit"), _ => true)
  }

  function NumberFailures(b: Body): (fs: seq<Failure>)
    ensures fs == [] <==>
      Integer(Get(b, "categoryId")) && Integer(Get(b, "desiredQuantity"))
      && (Absent(Get(b, "currentQuantity")) || Integer(Get(b, "currentQuantity")))
  {
    IntegerRules("categoryId", Get(b, "categoryId"));
    IntegerRules("desiredQuantity", Get(b, "desiredQuantity"));
    OptionalRule("currentQuantity", IsInt, Get(b, "currentQuantity"));
    Check("categoryId", false, [IsNotEmpty, IsInt], Get(b, "categoryId"), _ => true)
    + Check("desiredQuantity", false, [IsNotEmpty, IsInt], Get(b, "desiredQuantity"), _ => true)
    + Check("currentQuantity", true, [IsInt], Get(b, "currentQuantity"), _ => true)
  }

  /** Every failed rule of the instance built from `body`: properties in declaration order, each property's rules last-written first. */
  function Failures(body: Body): (fs: seq<Failure>)
    ensures fs == [] <==> ValidInstance(WithDefaults(body))
  {
    var b := WithDefaults(body);
    TextFailures(b) + NumberFailures(b)
  }

  function Parse(body: Body): (r: Validated<CreateProduct>)
    ensures r.Valid? <==> Failures(body) == []
    ensures r.Invalid? ==> r.failures == Failures(body)
    ensures r.Valid? ==>
      var b := WithDefaults(body);
      && r.value.name == Get(b, "name").s
      && r.value.unit == Get(b, "unit").s
      && r.value.categoryId as real == Get(b, "categoryId").n
      && r.value.desiredQuantity as real == Get(b, "desiredQuantity").n
      && (r.value.currentQuantity.Some? <==> Get(b, "currentQuantity").Num?)
      && (r.value.currentQuantity.Some? ==> r.value.currentQuantity.value as real == Get(b, "currentQuantity").n)
      && (r.value.description.Some? <==> Get(b, "description").Str?)
      && (r.value.description.Some? ==> r.value.description.value == Get(b, "description").s)
  {
    var failures := Failures(body);
    if failures != [] then Invalid(failures)
    else
      var b := WithDefaults(body);
      var description := if Get(b, "description").Str? then Some(Get(b, "description").s) else None;
      var current := if Get(b, "currentQuantity").Num? then Some(Get(b, "currentQuantity").n.Floor) else None;
      Valid(CreateProduct(Get(b, "name").s, description, Get(b, "unit").s,
        Get(b, "categoryId").n.Floor, Get(b, "desiredQuantity").n.Floor, current))
  }

  /** A body that leaves out unit and current quantity gets "unidade" and 0. */
  lemma DefaultsApply(body: Body)
    requires "unit" !in body && "currentQuantity" !in body
    requires NonEmptyText(Get(body, "name")) && !("description" in body)
    requires Integer(Get(body, "categoryId")) && Integer(Get(body, "desiredQuantity"))
    ensures Parse(body).Valid?
    ensures Parse(body).value.unit == DefaultUnit && Parse(body).value.currentQuantity == Some(0)
    ensures Parse(body).value.description == None
  {
    var b := WithDefaults(body);
    assert Get(b, "currentQuantity") == Num(0.0);
    assert (0.0).Floor == 0;
  }

  /** An explicit `null` unit is not replaced by the default and is refused. */
  lemma NullUnitRefused(body: Body)
    requires "unit" in body && body["unit"] == Null
    ensures Parse(body).Invalid?
  {
  }

  /** Only integrality is checked: a negative desired quantity passes. */
  lemma NegativeDesiredQuantityPasses(body: Body)
    requires NonEmptyText(Get(body, "name")) && Absent(Get(body, "description"))
    requires "unit" !in body && "currentQuantity" !in body
    requires Integer(Get(body, "categoryId")) && Get(body, "desiredQuantity") == Num(-5.0)
    ensures Parse(body).Valid? && Parse(body).value.desiredQuantity == -5
  {
    var b := WithDefaults(body);
    assert Get(b, "desiredQuantity") == Num(-5.0);
    assert Get(b, "currentQuantity") == Num(0.0);
    assert IsIntegral(-5.0) && IsIntegral(0.0);
    assert Failures(body) == [];
    assert (-5.0).Floor == -5;
  }
}

/**
 * apps/backend/src/products/dto/update-product-stock.dto.ts: a stock movement.
 */
module UpdateProductStockDto {
  import opened ClassValidator

  datatype Movement = In | Out

  datatype ProductStockMovement = ProductStockMovement(quantity: real, movementType: Movement)

  const MovementTypes: seq<string> := ["IN", "OUT"]

  function MovementText(m: Movement): (s: string)
    ensures s in MovementTypes
  {
    if m == In then "IN" else "OUT"
  }

  lemma PositiveNumberRules(property: string, v: Value)
    ensures Check(property, false, [IsPositive, IsNumber], v, _ => true) == [] <==> v.Num? && v.n > 0.0
  {
    NoFailuresIffAllPass(property, [IsPositive, IsNumber], v, _ => true);
  }

  lemma MovementRule(property: string, v: Value)
    ensures Check(property, false, [IsEnum(MovementTypes)], v, _ => true) == [] <==> v == Str("IN") || v == Str("OUT")
  {
    NoFailuresIffAllPass(property, [IsEnum(MovementTypes)], v, _ => true);
  }

  /** The quantity must be a positive number (fractions allowed), the type exactly "IN" or "OUT". */
  function Failures(body: Body): (fs: seq<Failure>)
    ensures fs == [] <==>
      && Get(body, "quantity").Num? && Get(body, "quantity").n > 0.0
      && (Get(body, "type") == Str("IN") || Get(body, "type") == Str("OUT"))
  {
    PositiveNumberRules("quantity", Get(body, "quantity"));
    MovementRule("type", Get(body, "type"));
    Check("quantity", false, [IsPositive, IsNumber], Get(body, "quantity"), _ => true)
    + Check("type", false, [IsEnum(MovementTypes)], Get(body, "type"), _ => true)
  }

  function Parse(body: Body): (r: Validated<ProductStockMovement>)
    ensures r.Valid? <==> Failures(body) == []
    ensures r.Invalid? ==> r.failures == Failures(body)
    ensures r.Valid? ==> Get(body, "quantity") == Num(r.value.quantity) && Get(body, "type") == Str(MovementText(r.value.movementType))
  {
    var failures := Failures(body);
    if failures != [] then Invalid(failures)
    else Valid(ProductStockMovement(Get(body, "quantity").n, if Get(body, "type") == Str("IN") then In else Out))
  }

  /** Every body the movement form can send (a positive quantity and a type) is accepted, and read back unchanged. */
  lemma FormMovementAccepted(quantity: real, m: Movement)
    requires quantity > 0.0
    ensures Parse(map["quantity" := Num(quantity), "type" := Str(MovementText(m))]) == Valid(ProductStockMovement(quantity, m))
  {
    var body := map["quantity" := Num(quantity), "type" := Str(MovementText(m))];
    assert Get(body, "quantity") == Num(quantity);
    assert Get(body, "type") == Str(MovementText(m));
    assert "IN" != "OUT";
  }
}

/**
 * apps/backend/src/products/dto/most-consumed.dto.ts: the month and year of
 * the most-consumed query, each read from the query string with
 * `parseInt(value, 10)` before validation.
 */
module MostConsumedDto {
  import opened Strings
  import opened EcmaScript
  import opened ClassValidator

  /** A query-string parameter: one text, a repeated parameter (an array), or a bracketed one (an object). */
  datatype QueryValue = Text(s: string) | Repeated(items: seq<string>) | Bracketed

  /** `String(value)`: an array joins its items with commas, an object is "[object Object]". */
  function QueryText(v: QueryValue): (r: string)
    ensures v.Text? ==> r == v.s
    ensures v.Bracketed? ==> r == "[object Object]"
    ensures v.Repeated? && |v.items| == 0 ==> r == ""
    ensures v.Repeated? && |v.items| > 0 ==> |v.items[0]| <= |r| && r[..|v.items[0]|] == v.items[0]
    ensures v.Repeated? && |v.items| > 1 ==> |v.items[0]| < |r| && r[|v.items[0]|] == ','
  {
    match v
    case Text(s) => s
    case Repeated(items) => if |items| == 0 then "" else Join(items, ',')
    case Bracketed => "[object Object]"
  }

  function Transformed(query: map<string, QueryValue>, name: string): (v: Value)
    ensures name !in query ==> v == Undefined
  {
    if name !in query then Undefined
    else match ParseInt10(QueryText(query[name]))
      case Integer(k) => Num(k as real)
      case NotANumber => NaN
  }

  datatype MostConsumed = MostConsumed(month: int, year: int)

  lemma RangeRules(property: string, v: Value, lower: int, upper: int)
    ensures Check(property, false, [IsInt, Min(lower), Max(upper)], v, _ => true) == []
      <==> v.Num? && IsIntegral(v.n) && lower as real <= v.n <= upper as real
  {
    var rules := [IsInt, Min(lower), Max(upper)];
    NoFailuresIffAllPass(property, rules, v, _ => true);
    if !(v.Num? && IsIntegral(v.n) && lower as real <= v.n <= upper as real) {
      assert !Passes(rules[0], v, _ => true) || !Passes(rules[1], v, _ => true) || !Passes(rules[2], v, _ => true);
    }
  }

  /** The rules on the transformed values: the month an integer in 1..12, the year one in 1900..2100. */
  function ValueFailures(month: Value, year: Value): (fs: seq<Failure>)
    ensures fs == [] <==> month.Num? && 1.0 <= month.n <= 12.0 && year.Num? && 1900.0 <= year.n <= 2100.0 && IsIntegral(month.n) && IsIntegral(year.n)
  {
    RangeRules("month", month, 1, 12);
    RangeRules("year", year, 1900, 2100);
    Check("month", false, [IsInt, Min(1), Max(12)], month, _ => true)
    + Check("year", false, [IsInt, Min(1900), Max(2100)], year, _ => true)
  }

  function Failures(query: map<string, QueryValue>): seq<Failure> {
    ValueFailures(Transformed(query, "month"), Transformed(query, "year"))
  }

  function ParseValues(month: Value, year: Value): (r: Validated<MostConsumed>)
    ensures r.Valid? <==> ValueFailures(month, year) == []
    ensures r.Invalid? ==> r.failures == ValueFailures(month, year)
    ensures r.Valid? ==> month == Num(r.value.month as real) && year == Num(r.value.year as real)
  {
    var failures := ValueFailures(month, year);
    if failures != [] then Invalid(failures)
    else Valid(MostConsumed(month.n.Floor, year.n.Floor))
  }

  /** The query parsed, transformed and validated; a valid one names a month of the supported years. */
  function Parse(query: map<string, QueryValue>): (r: Validated<MostConsumed>)
    ensures r.Valid? <==> Failures(query) == []
    ensures r.Invalid? ==> r.failures == Failures(query)
    ensures r.Valid? ==> Transformed(query, "month") == Num(r.value.month as real) && Transformed(query, "year") == Num(r.value.year as real)
    ensures r.Valid? ==> 1 <= r.value.month <= 12 && 1900 <= r.value.year <= 2100
  {
    ParseValues(Transformed(query, "month"), Transformed(query, "year"))
  }

  /** Integers in range after the transform are accepted as they are. */
  lemma InRangeAccepted(month: int, year: int)
    requires 1 <= month <= 12 && 1900 <= year <= 2100
    ensures ParseValues(Num(month as real), Num(year as real)) == Valid(MostConsumed(month, year))
  {
    assert (month as real).Floor == month && (year as real).Floor == year;
    assert ValueFailures(Num(month as real), Num(year as real)) == [];
  }

  /** A month and year in range, written in decimal and followed by anything that does not start with a digit, are read back. */
  lemma DecimalQueryRoundTrip(month: nat, year: nat, monthTail: string, yearTail: string)
    requires 1 <= month <= 12 && 1900 <= year <= 2100
    requires |monthTail| == 0 || !IsDigit(monthTail[0])
    requires |yearTail| == 0 || !IsDigit(yearTail[0])
    ensures Parse(map["month" := Text(DecimalText(month) + monthTail), "year" := Text(DecimalText(year) + yearTail)])
      == Valid(MostConsumed(month, year))
  {
    var query := map["month" := Text(DecimalText(month) + monthTail), "year" := Text(DecimalText(year) + yearTail)];
    assert query["month"] == Text(DecimalText(month) + monthTail);
    assert query["year"] == Text(DecimalText(year) + yearTail);
    ParseDecimalText(month, monthTail);
    ParseDecimalText(year, yearTail);
    assert Transformed(query, "month") == Num(month as real);
    assert Transformed(query, "year") == Num(year as real);
    InRangeAccepted(month, year);
  }

  /** A repeated parameter is read from its first item: `?month=3&month=4` asks for March. */
  lemma RepeatedMonthUsesFirst(year: nat)
    requires 1900 <= year <= 2100
    ensures Parse(map["month" := Repeated(["3", "4"]), "year" := Text(DecimalText(year))]) == Valid(MostConsumed(3, year))
  {
    var query := map["month" := Repeated(["3", "4"]), "year" := Text(DecimalText(year))];
    assert query["month"] == Repeated(["3", "4"]);
    assert query["year"] == Text(DecimalText(year) + "");
    assert QueryText(Repeated(["3", "4"])) == DecimalText(3) + ",4";
    ParseDecimalText(3, ",4");
    ParseDecimalText(year, "");
    assert Transformed(query, "month") == Num(3.0);
    assert Transformed(query, "year") == Num(year as real);
    InRangeAccepted(3, year);
  }

  /** A missing month, or one given as an object, is refused. */
  lemma UnreadableMonthRefused(query: map<string, QueryValue>)
    requires "month" !in query || query["month"] == Bracketed
    ensures Parse(query).Invalid?
  {
    if "month" in query {
      var t := "[object Object]";
      assert TrimStart(t) == t;
      assert Unsigned(t) == t;
      assert DigitRun(t) == 0;
      assert ParseInt10(QueryText(query["month"])) == NotANumber;
    }
    var month := Transformed(query, "month");
    assert !month.Num?;
    assert ValueFailures(month, Transformed(query, "year")) != [];
  }
}
