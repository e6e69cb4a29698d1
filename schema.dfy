/**
 * The shared data contract of the fare calculator: the three string
 * enumerations, the seven-field fare breakdown, the `transactions` table
 * declaration, and the user and transaction records with their insert shapes.
 */
module Schema {
  import opened Wrappers

  /** The fare models, stored and exchanged by their lower-case names. */
  datatype FareModel = Balanced | Premium | Budget {
    function Name(): string {
      match this
      case Balanced => "balanced"
      case Premium => "premium"
      case Budget => "budget"
    }
  }

  datatype FuelType = Gasoline | Hybrid | EV {
    function Name(): string {
      match this
      case Gasoline => "gasoline"
      case Hybrid => "hybrid"
      case EV => "ev"
    }
  }

  /** The surcharge kinds; `NoSurcharge` is the string "none". */
  datatype SurchargeType = Flat | PerMile | NoSurcharge {
    function Name(): string {
      match this
      case Flat => "flat"
      case PerMile => "perMile"
      case NoSurcharge => "none"
    }
  }

  const AllFareModels: set<FareModel> := {Balanced, Premium, Budget}
  const AllFuelTypes: set<FuelType> := {Gasoline, Hybrid, EV}
  const AllSurchargeTypes: set<SurchargeType> := {Flat, PerMile, NoSurcharge}

  /** Each enumeration has exactly three values, and each value has its own name. */
  lemma EnumerationsHaveThreeValues()
    ensures forall m: FareModel :: m in AllFareModels
    ensures forall f: FuelType :: f in AllFuelTypes
    ensures forall t: SurchargeType :: t in AllSurchargeTypes
    ensures |AllFareModels| == 3 && |AllFuelTypes| == 3 && |AllSurchargeTypes| == 3
    ensures forall m: FareModel, m': FareModel :: m.Name() == m'.Name() ==> m == m'
    ensures forall f: FuelType, f': FuelType :: f.Name() == f'.Name() ==> f == f'
    ensures forall t: SurchargeType, t': SurchargeType :: t.Name() == t'.Name() ==> t == t'
  {
    forall m: FareModel ensures m in AllFareModels { match m case Balanced => case Premium => case Budget => }
    forall f: FuelType ensures f in AllFuelTypes { match f case Gasoline => case Hybrid => case EV => }
    forall t: SurchargeType ensures t in AllSurchargeTypes { match t case Flat => case PerMile => case NoSurcharge => }
  }

  /** The string-typed columns read back as enumeration values. */
  function ParseFareModel(s: string): (r: Option<FareModel>)
    ensures r.Some? ==> r.value.Name() == s
    ensures r.None? ==> forall m: FareModel :: m.Name() != s
  {
    if s == "balanced" then Some(Balanced)
    else if s == "premium" then Some(Premium)
    else if s == "budget" then Some(Budget)
    else None
  }

  function ParseFuelType(s: string): (r: Option<FuelType>)
    ensures r.Some? ==> r.value.Name() == s
    ensures r.None? ==> forall f: FuelType :: f.Name() != s
  {
    if s == "gasoline" then Some(Gasoline)
    else if s == "hybrid" then Some(Hybrid)
    else if s == "ev" then Some(EV)
    else None
  }

  function ParseSurchargeType(s: string): (r: Option<SurchargeType>)
    ensures r.Some? ==> r.value.Name() == s
    ensures r.None? ==> forall t: SurchargeType :: t.Name() != s
  {
    if s == "flat" then Some(Flat)
    else if s == "perMile" then Some(PerMile)
    else if s == "none" then Some(NoSurcharge)
    else None
  }

  /** The itemised fare: seven numbers, no other state. */
  datatype FareCalculation = FareCalculation(
    baseFare: real,
    distanceCharge: real,
    timeCharge: real,
    fuelSurcharge: real,
    fuelCost: real,
    subtotal: real,
    total: real)

  // ---------------------------------------------------------------------------
  // The `transactions` table as declared

  datatype ColumnType = Varchar | Text | Decimal(precision: nat, scale: nat) | Timestamp | Jsonb

  /** One column declaration: its property name, SQL type, and whether it is
      `notNull`, the primary key, or filled by a database default. */
  datatype Column = Column(name: string, ty: ColumnType, notNull: bool, primaryKey: bool, hasDefault: bool) {
    predicate Nullable() { !notNull && !primaryKey }
  }

  const Money := Decimal(10, 2)

  const TransactionColumns: seq<Column> := [
    Column("id", Varchar, false, true, true),
    Column("baseFare", Money, true, false, false),
    Column("costPerMile", Money, true, false, false),
    Column("costPerMinute", Money, true, false, false),
    Column("distance", Money, true, false, false),
    Column("duration", Money, true, false, false),
    Column("fuelType", Text, true, false, false),
    Column("mpg", Money, true, false, false),
    Column("gasPrice", Money, true, false, false),
    Column("fuelSurchargeType", Text, false, false, false),
    Column("fuelSurchargeAmount", Money, false, false, false),
    Column("fareModel", Text, true, false, false),
    Column("totalFare", Money, true, false, false),
    Column("fuelCost", Money, true, false, false),
    Column("breakdown", Jsonb, false, false, false),
    Column("createdAt", Timestamp, true, false, true)
  ]

  /** The columns whose names are not in `omitted`, in declaration order. */
  function Omit(cols: seq<Column>, omitted: set<string>): (r: seq<Column>)
    ensures forall c :: c in r <==> c in cols && c.name !in omitted
    ensures |r| <= |cols|
  {
    if cols == [] then []
    else if cols[0].name in omitted then Omit(cols[1..], omitted)
    else [cols[0]] + Omit(cols[1..], omitted)
  }

  /** The insert shape: every column except the generated `id` and `createdAt`. */
  const InsertTransactionColumns: seq<Column> := Omit(TransactionColumns, {"id", "createdAt"})

  /** Only the surcharge pair and the breakdown may be null; the amount
      columns are exactly the decimals, each of precision 10 and scale 2. */
  lemma TransactionColumnsDeclared()
    ensures |TransactionColumns| == 16
    ensures forall i :: 0 <= i < |TransactionColumns| ==>
      (TransactionColumns[i].Nullable() <==> i == 9 || i == 10 || i == 14)
    ensures TransactionColumns[9].name == "fuelSurchargeType" && TransactionColumns[10].name == "fuelSurchargeAmount"
      && TransactionColumns[14].name == "breakdown"
    ensures forall i :: 0 <= i < |TransactionColumns| ==>
      (TransactionColumns[i].ty.Decimal? <==> i in {1, 2, 3, 4, 5, 7, 8, 10, 12, 13})
    ensures forall i :: 0 <= i < |TransactionColumns| && TransactionColumns[i].ty.Decimal? ==>
      TransactionColumns[i].ty == Decimal(10, 2)
  {
  }

  lemma {:induction false} OmitAppend(xs: seq<Column>, ys: seq<Column>, omitted: set<string>)
    ensures Omit(xs + ys, omitted) == Omit(xs, omitted) + Omit(ys, omitted)
  {
    if xs == [] {
      assert xs + ys == ys;
    } else {
      assert (xs + ys)[0] == xs[0];
      assert (xs + ys)[1..] == xs[1..] + ys;
      OmitAppend(xs[1..], ys, omitted);
    }
  }

  lemma {:induction false} OmitNothing(cols: seq<Column>, omitted: set<string>)
    requires forall c :: c in cols ==> c.name !in omitted
    ensures Omit(cols, omitted) == cols
  {
    if cols != [] {
      OmitNothing(cols[1..], omitted);
    }
  }

  /** Between the generated `id` and `createdAt` lie the columns a client supplies. */
  lemma SuppliedColumns()
    ensures |TransactionColumns| == 16
    ensures TransactionColumns[0].name == "id" && TransactionColumns[15].name == "createdAt"
    ensures forall c :: c in TransactionColumns[1..15] ==> c.name != "id" && c.name != "createdAt" && !c.hasDefault
  {
    var cols := TransactionColumns;
    forall i | 1 <= i < 15 ensures cols[i].name != "id" && cols[i].name != "createdAt" && !cols[i].hasDefault {
      assert |cols[i].name| >= 3;
    }
  }

  lemma OmitEnds(cols: seq<Column>, omitted: set<string>)
    requires |cols| >= 2 && cols[0].name in omitted && cols[|cols| - 1].name in omitted
    requires forall c :: c in cols[1..|cols| - 1] ==> c.name !in omitted
    ensures Omit(cols, omitted) == cols[1..|cols| - 1]
  {
    var n := |cols|;
    assert cols == [cols[0]] + cols[1..n - 1] + [cols[n - 1]];
    OmitAppend([cols[0]] + cols[1..n - 1], [cols[n - 1]], omitted);
    OmitAppend([cols[0]], cols[1..n - 1], omitted);
    OmitNothing(cols[1..n - 1], omitted);
  }

  /** The insert shape is the table minus `id` and `createdAt`, in the same order,
      and no column of it has a database default. */
  lemma InsertShapeOmitsGeneratedColumns()
    ensures InsertTransactionColumns == TransactionColumns[1..15]
    ensures forall c :: c in InsertTransactionColumns ==> !c.hasDefault
  {
    SuppliedColumns();
    OmitEnds(TransactionColumns, {"id", "createdAt"});
  }

  // ---------------------------------------------------------------------------
  // Records

  datatype User = User(id: string, username: string, password: string)
  datatype InsertUser = InsertUser(username: string, password: string)

  /** A nullable column in an insert payload may be absent, explicitly null, or given. */
  datatype Nullish<T> = Missing | Null | Given(value: T) {
    /** `x ?? null`: absent and null both become null. */
    function OrNull(): (r: Option<T>)
      ensures r.Some? <==> Given?
      ensures Given? ==> r.value == value
    {
      if Given? then Some(value) else None
    }
  }

  /** The validated body of a create request. Decimal columns carry the
      number their decimal string denotes. */
  datatype InsertTransaction = InsertTransaction(
    baseFare: real,
    costPerMile: real,
    costPerMinute: real,
    distance: real,
    duration: real,
    fuelType: string,
    mpg: real,
    gasPrice: real,
    fuelSurchargeType: Nullish<string>,
    fuelSurchargeAmount: Nullish<real>,
    fareModel: string,
    totalFare: real,
    fuelCost: real,
    breakdown: Nullish<FareCalculation>)

  /** A stored transaction; `createdAt` is in milliseconds since the epoch. */
  datatype Transaction = Transaction(
    id: string,
    baseFare: real,
    costPerMile: real,
    costPerMinute: real,
    distance: real,
    duration: real,
    fuelType: string,
    mpg: real,
    gasPrice: real,
    fuelSurchargeType: Option<string>,
    fuelSurchargeAmount: Option<real>,
    fareModel: string,
    totalFare: real,
    fuelCost: real,
    breakdown: Option<FareCalculation>,
    createdAt: int)

  function ToNullish<T>(o: Option<T>): (n: Nullish<T>)
    ensures n != Missing
    ensures n.OrNull() == o
  {
    match o
    case Some(v) => Given(v)
    case None => Null
  }

  /** The insert record a transaction was made from: the same columns without
      `id` and `createdAt`, its nulls written as explicit nulls. */
  function InsertPart(t: Transaction): (ins: InsertTransaction)
    ensures ins.fuelSurchargeType != Missing && ins.fuelSurchargeAmount != Missing && ins.breakdown != Missing
  {
    InsertTransaction(t.baseFare, t.costPerMile, t.costPerMinute, t.distance, t.duration, t.fuelType,
                      t.mpg, t.gasPrice, ToNullish(t.fuelSurchargeType), ToNullish(t.fuelSurchargeAmount),
                      t.fareModel, t.totalFare, t.fuelCost, ToNullish(t.breakdown))
  }
}
