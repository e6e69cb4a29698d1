/**
 * The calculator page: eleven pieces of state, the fare they determine, the
 * handlers that overwrite them, the settings it saves and restores, and the
 * transaction it submits on export.
 */
module CalculatorPage {
  import opened Wrappers
  import opened Schema
  import FareInputs
  import FuelInputs
  import FareModelSelector
  import PresetButtons

  // ---------------------------------------------------------------------------
  // State and the fare it determines

  /** The page's state, field for field; it is also the shape of the saved settings. */
  datatype Settings = Settings(
    fareModel: FareModel,
    baseFare: real,
    costPerMile: real,
    costPerMinute: real,
    distance: real,
    duration: real,
    fuelType: FuelType,
    mpg: real,
    gasPrice: real,
    surchargeType: SurchargeType,
    surchargeAmount: real)

  const InitialSettings := Settings(Balanced, 7.0, 2.0, 0.35, 8.0, 20.0, Gasoline, 25.0, 3.5, Flat, 2.0)

  /** The seven money and trip amounts are non-negative; the efficiency may be anything. */
  predicate NonNegativeAmounts(s: Settings) {
    && s.baseFare >= 0.0 && s.costPerMile >= 0.0 && s.costPerMinute >= 0.0
    && s.distance >= 0.0 && s.duration >= 0.0
    && s.gasPrice >= 0.0 && s.surchargeAmount >= 0.0
  }

  /** What the input handlers guarantee: every amount is non-negative and the
      efficiency is positive. */
  predicate WellFormed(s: Settings) {
    NonNegativeAmounts(s) && s.mpg > 0.0
  }

  /** The breakdown adds up: the subtotal is the four charges, the total adds fuel. */
  predicate Itemised(c: FareCalculation) {
    && c.subtotal == c.baseFare + c.distanceCharge + c.timeCharge + c.fuelSurcharge
    && c.total == c.subtotal + c.fuelCost
  }

  predicate NonNegativeItems(c: FareCalculation) {
    && c.baseFare >= 0.0 && c.distanceCharge >= 0.0 && c.timeCharge >= 0.0
    && c.fuelSurcharge >= 0.0 && c.fuelCost >= 0.0 && c.subtotal >= 0.0 && c.total >= 0.0
  }

  lemma ProductNonNegative(a: real, b: real)
    requires a >= 0.0 && b >= 0.0
    ensures a * b >= 0.0
  {
  }

  lemma ProductNonNegativeIf(a: real, b: real)
    ensures a >= 0.0 && b >= 0.0 ==> a * b >= 0.0
  {
    if a >= 0.0 && b >= 0.0 {
      ProductNonNegative(a, b);
    }
  }

  /** Energy cost: per mile for an electric vehicle, per gallon otherwise;
      nothing when the efficiency is not positive. */
  function FuelCost(s: Settings): (r: real)
    ensures s.mpg <= 0.0 ==> r == 0.0
    ensures NonNegativeAmounts(s) ==> r >= 0.0
  {
    if s.mpg > 0.0 then
      if s.fuelType == EV then
        ProductNonNegativeIf(s.distance, s.mpg);
        ProductNonNegativeIf(s.distance * s.mpg, s.gasPrice);
        s.distance * s.mpg * s.gasPrice
      else
        ProductNonNegativeIf(s.distance / s.mpg, s.gasPrice);
        (s.distance / s.mpg) * s.gasPrice
    else 0.0
  }

  /** The surcharge: nothing for "none", the amount itself when flat, the
      amount for every mile when per mile. */
  function FuelSurcharge(s: Settings): (r: real)
    ensures s.surchargeType == NoSurcharge ==> r == 0.0
    ensures NonNegativeAmounts(s) ==> r >= 0.0
  {
    if s.surchargeType == Flat then s.surchargeAmount
    else if s.surchargeType == PerMile then
      ProductNonNegativeIf(s.distance, s.surchargeAmount);
      s.distance * s.surchargeAmount
    else 0.0
  }

  /** `calculateFare`: the itemised fare for the current state. */
  function CalculateFare(s: Settings): (c: FareCalculation)
    ensures Itemised(c)
    ensures c.baseFare == s.baseFare
  {
    var distanceCharge := s.distance * s.costPerMile;
    var timeCharge := s.duration * s.costPerMinute;
    var fuelCost := FuelCost(s);
    var fuelSurcharge := FuelSurcharge(s);
    var subtotal := s.baseFare + distanceCharge + timeCharge + fuelSurcharge;
    var total := subtotal + fuelCost;
    FareCalculation(s.baseFare, distanceCharge, timeCharge, fuelSurcharge, fuelCost, subtotal, total)
  }

  /** With every amount non-negative, no item of the fare is negative and
      fuel only adds to the subtotal, whatever the efficiency. */
  lemma FareNonNegative(s: Settings)
    requires NonNegativeAmounts(s)
    ensures NonNegativeItems(CalculateFare(s))
    ensures CalculateFare(s).total >= CalculateFare(s).subtotal
  {
    ProductNonNegative(s.distance, s.costPerMile);
    ProductNonNegative(s.duration, s.costPerMinute);
  }

  /** The distance and time charges are the trip times the matching rate. */
  lemma DistanceAndTimeCharges(s: Settings)
    ensures CalculateFare(s).distanceCharge == s.distance * s.costPerMile
    ensures CalculateFare(s).timeCharge == s.duration * s.costPerMinute
  {
  }

  /** With no positive efficiency there is no fuel cost, whatever else is set. */
  lemma NoEfficiencyNoFuelCost(s: Settings)
    requires s.mpg <= 0.0
    ensures CalculateFare(s).fuelCost == 0.0
  {
  }

  /** With a positive efficiency, an electric vehicle pays energy per mile
      times distance times price, and a combustion vehicle pays for the
      gallons it burns: its fuel cost times its miles per gallon is distance
      times price. */
  lemma FuelCostByFuelType(s: Settings)
    requires s.mpg > 0.0
    ensures s.fuelType == EV ==> CalculateFare(s).fuelCost == s.distance * s.mpg * s.gasPrice
    ensures s.fuelType != EV ==> CalculateFare(s).fuelCost * s.mpg == s.distance * s.gasPrice
  {
    if s.fuelType != EV {
      calc {
        CalculateFare(s).fuelCost * s.mpg;
        (s.distance / s.mpg) * s.gasPrice * s.mpg;
        { assert (s.distance / s.mpg) * s.mpg == s.distance; }
        s.distance * s.gasPrice;
      }
    }
  }

  /** Fuel cost is proportional to distance, for every fuel type. */
  lemma FuelCostProportionalToDistance(s: Settings, k: real)
    ensures CalculateFare(s.(distance := k * s.distance)).fuelCost == k * CalculateFare(s).fuelCost
  {
    var t := s.(distance := k * s.distance);
    if s.mpg > 0.0 {
      if s.fuelType == EV {
        assert FuelCost(t) == (k * s.distance) * s.mpg * s.gasPrice;
      } else {
        assert (k * s.distance) / s.mpg == k * (s.distance / s.mpg);
      }
    }
  }

  /** No surcharge means none, whatever amount is entered; a flat surcharge is
      the amount, and a per-mile one is distance times the amount. */
  lemma SurchargeByType(s: Settings, amount: real)
    ensures s.surchargeType == NoSurcharge ==>
      CalculateFare(s).fuelSurcharge == 0.0 && CalculateFare(s.(surchargeAmount := amount)) == CalculateFare(s)
    ensures s.surchargeType == Flat ==> CalculateFare(s).fuelSurcharge == s.surchargeAmount
    ensures s.surchargeType == PerMile ==> CalculateFare(s).fuelSurcharge == s.distance * s.surchargeAmount
  {
  }

  /** The selected fare model only labels the rates; it does not enter the fare. */
  lemma FareModelDoesNotEnterFare(s: Settings, m: FareModel)
    ensures CalculateFare(s.(fareModel := m)) == CalculateFare(s)
  {
  }

  /** A trip of no distance and no time costs the base fare plus a flat surcharge. */
  lemma ZeroTrip(s: Settings)
    requires s.distance == 0.0 && s.duration == 0.0
    ensures CalculateFare(s).distanceCharge == 0.0 && CalculateFare(s).timeCharge == 0.0
    ensures CalculateFare(s).fuelCost == 0.0
    ensures CalculateFare(s).total == s.baseFare + CalculateFare(s).fuelSurcharge
    ensures CalculateFare(s).total == s.baseFare + (if s.surchargeType == Flat then s.surchargeAmount else 0.0)
  {
  }

  lemma ScaleMonotone(a: real, b: real, r: real)
    requires a <= b && r >= 0.0
    ensures a * r <= b * r
  {
    ProductNonNegative(b - a, r);
    assert b * r == a * r + (b - a) * r;
  }

  lemma FuelCostMonotoneInDistance(s: Settings, d: real)
    requires WellFormed(s) && s.distance <= d
    ensures FuelCost(s) <= FuelCost(s.(distance := d))
  {
    var t := s.(distance := d);
    if s.fuelType == EV {
      ScaleMonotone(s.distance, d, s.mpg);
      ScaleMonotone(s.distance * s.mpg, d * s.mpg, s.gasPrice);
      calc {
        FuelCost(s);
        s.distance * s.mpg * s.gasPrice;
      <= d * s.mpg * s.gasPrice;
        FuelCost(t);
      }
    } else {
      assert s.distance / s.mpg <= d / s.mpg by {
        ScaleMonotone(s.distance, d, 1.0 / s.mpg);
        assert s.distance / s.mpg == s.distance * (1.0 / s.mpg);
        assert d / s.mpg == d * (1.0 / s.mpg);
      }
      ScaleMonotone(s.distance / s.mpg, d / s.mpg, s.gasPrice);
      calc {
        FuelCost(s);
        (s.distance / s.mpg) * s.gasPrice;
      <= (d / s.mpg) * s.gasPrice;
        FuelCost(t);
      }
    }
  }

  lemma FuelSurchargeMonotoneInDistance(s: Settings, d: real)
    requires WellFormed(s) && s.distance <= d
    ensures FuelSurcharge(s) <= FuelSurcharge(s.(distance := d))
  {
    var t := s.(distance := d);
    if s.surchargeType == PerMile {
      ScaleMonotone(s.distance, d, s.surchargeAmount);
      calc {
        FuelSurcharge(s);
        s.distance * s.surchargeAmount;
      <= d * s.surchargeAmount;
        FuelSurcharge(t);
      }
    } else {
      assert FuelSurcharge(s) == FuelSurcharge(t);
    }
  }

  /** The part of the fare that grows with the trip's distance. */
  function DistancePart(s: Settings): real {
    s.distance * s.costPerMile + FuelSurcharge(s) + FuelCost(s)
  }

  lemma TotalSplitsByDistance(s: Settings)
    ensures CalculateFare(s).total == s.baseFare + s.duration * s.costPerMinute + DistancePart(s)
  {
  }

  lemma DistancePartMonotone(s: Settings, d: real)
    requires WellFormed(s) && s.distance <= d
    ensures DistancePart(s) <= DistancePart(s.(distance := d))
  {
    var t := s.(distance := d);
    assert s.distance * s.costPerMile <= t.distance * t.costPerMile by {
      ScaleMonotone(s.distance, d, s.costPerMile);
    }
    FuelCostMonotoneInDistance(s, d);
    FuelSurchargeMonotoneInDistance(s, d);
  }

  /** With well-formed settings a longer trip never costs less. */
  lemma TotalMonotoneInDistance(s: Settings, d: real)
    requires WellFormed(s) && s.distance <= d
    ensures CalculateFare(s).total <= CalculateFare(s.(distance := d)).total
  {
    TotalSplitsByDistance(s);
    TotalSplitsByDistance(s.(distance := d));
    DistancePartMonotone(s, d);
  }

  /** The fare shown when the page opens. */
  lemma InitialBreakdown()
    ensures CalculateFare(InitialSettings) == FareCalculation(7.0, 16.0, 7.0, 2.0, 1.12, 32.0, 33.12)
  {
  }

  /** 100 miles at 25 MPG and 4.00 a gallon burn 16.00 of fuel; 10 miles at a
      0.50 per-mile surcharge add 5.00. */
  lemma WorkedExamples(s: Settings)
    ensures CalculateFare(s.(fuelType := Gasoline, distance := 100.0, mpg := 25.0, gasPrice := 4.0)).fuelCost == 16.0
    ensures CalculateFare(s.(surchargeType := PerMile, distance := 10.0, surchargeAmount := 0.5)).fuelSurcharge == 5.0
  {
  }

  // ---------------------------------------------------------------------------
  // Handlers, as transitions of the state

  /** Every field of the trip and of the fuel configuration is the same. */
  predicate SameTripAndFuel(s: Settings, r: Settings) {
    && r.distance == s.distance && r.duration == s.duration
    && r.fuelType == s.fuelType && r.mpg == s.mpg && r.gasPrice == s.gasPrice
    && r.surchargeType == s.surchargeType && r.surchargeAmount == s.surchargeAmount
  }

  /** `handleFareModelSelect`: choose the model and copy its rates from the table. */
  function WithFareModel(s: Settings, m: FareModel): (r: Settings)
    ensures r.fareModel == m && SameTripAndFuel(s, r)
    ensures forall o :: o in FareModelSelector.FareModels && o.id == m ==>
      r.baseFare == o.baseFare && r.costPerMile == o.costPerMile && r.costPerMinute == o.costPerMinute
  {
    FareModelSelector.TableCoversEveryModel(m);
    match FareModelSelector.FindFareModel(m)
    case Some(o) => s.(fareModel := m, baseFare := o.baseFare, costPerMile := o.costPerMile, costPerMinute := o.costPerMinute)
    case None => s.(fareModel := m)
  }

  /** `handlePresetSelect`: take the preset's model and its own three rates. */
  function WithPreset(s: Settings, p: PresetButtons.ZonePreset): (r: Settings)
    ensures r.fareModel == p.fareModel && SameTripAndFuel(s, r)
    ensures r.baseFare == p.baseFare && r.costPerMile == p.costPerMile && r.costPerMinute == p.costPerMinute
  {
    s.(fareModel := p.fareModel, baseFare := p.baseFare, costPerMile := p.costPerMile, costPerMinute := p.costPerMinute)
  }

  /** One user edit: a typed number (None when it does not parse) or a choice. */
  datatype Edit =
    | FareEdit(field: FareInputs.FareField, raw: Option<real>)
    | MpgEdit(raw: Option<real>)
    | GasPriceEdit(raw: Option<real>)
    | SurchargeAmountEdit(raw: Option<real>)
    | FuelTypeEdit(fuelType: FuelType)
    | SurchargeTypeEdit(surchargeType: SurchargeType)

  /** The state after an edit: the handler's sanitised value lands in its field.
      No edit changes the fare model, a typed amount never makes an amount
      negative, and a typed efficiency is always positive. */
  function WithEdit(s: Settings, e: Edit): (r: Settings)
    ensures r.fareModel == s.fareModel
    ensures NonNegativeAmounts(s) ==> NonNegativeAmounts(r)
    ensures e.MpgEdit? ==> r.mpg > 0.0
  {
    match e
    case FareEdit(field, raw) =>
      var v := FareInputs.NonNegative(raw);
      (match field
       case BaseFare => s.(baseFare := v)
       case CostPerMile => s.(costPerMile := v)
       case CostPerMinute => s.(costPerMinute := v)
       case Distance => s.(distance := v)
       case Duration => s.(duration := v))
    case MpgEdit(raw) => s.(mpg := FuelInputs.PositiveMpg(raw))
    case GasPriceEdit(raw) => s.(gasPrice := FareInputs.NonNegative(raw))
    case SurchargeAmountEdit(raw) => s.(surchargeAmount := FareInputs.NonNegative(raw))
    case FuelTypeEdit(f) => s.(fuelType := f)
    case SurchargeTypeEdit(t) => s.(surchargeType := t)
  }

  /** The page opens well formed, and every handler keeps it so. */
  lemma HandlersKeepWellFormed(s: Settings, m: FareModel, p: PresetButtons.ZonePreset, e: Edit)
    requires WellFormed(s) && p in PresetButtons.ZonePresets
    ensures WellFormed(InitialSettings)
    ensures WellFormed(WithFareModel(s, m))
    ensures WellFormed(WithPreset(s, p))
    ensures WellFormed(WithEdit(s, e))
  {
    FareModelSelector.RatesIncreaseWithTier();
    FareModelSelector.TableCoversEveryModel(m);
    PresetButtons.PresetModelsAndRates();
  }

  /** Whatever the efficiency field receives, the fare takes its positive branch. */
  lemma EditedEfficiencyIsPositive(s: Settings, raw: Option<real>)
    ensures WithEdit(s, MpgEdit(raw)).mpg > 0.0
    ensures var t := WithEdit(s, MpgEdit(raw));
      CalculateFare(t).fuelCost == if t.fuelType == EV then t.distance * t.mpg * t.gasPrice else (t.distance / t.mpg) * t.gasPrice
  {
  }

  /** An edit changes only its own field, to the value its handler computes. */
  lemma EditTouchesOneField(s: Settings, e: Edit)
    ensures e.FareEdit? && e.field == FareInputs.BaseFare ==> WithEdit(s, e) == s.(baseFare := FareInputs.NonNegative(e.raw))
    ensures e.FareEdit? && e.field == FareInputs.CostPerMile ==> WithEdit(s, e) == s.(costPerMile := FareInputs.NonNegative(e.raw))
    ensures e.FareEdit? && e.field == FareInputs.CostPerMinute ==> WithEdit(s, e) == s.(costPerMinute := FareInputs.NonNegative(e.raw))
    ensures e.FareEdit? && e.field == FareInputs.Distance ==> WithEdit(s, e) == s.(distance := FareInputs.NonNegative(e.raw))
    ensures e.FareEdit? && e.field == FareInputs.Duration ==> WithEdit(s, e) == s.(duration := FareInputs.NonNegative(e.raw))
    ensures e.MpgEdit? ==> WithEdit(s, e) == s.(mpg := FuelInputs.PositiveMpg(e.raw))
    ensures e.GasPriceEdit? ==> WithEdit(s, e) == s.(gasPrice := FareInputs.NonNegative(e.raw))
    ensures e.SurchargeAmountEdit? ==> WithEdit(s, e) == s.(surchargeAmount := FareInputs.NonNegative(e.raw))
    ensures e.FuelTypeEdit? ==> WithEdit(s, e) == s.(fuelType := e.fuelType)
    ensures e.SurchargeTypeEdit? ==> WithEdit(s, e) == s.(surchargeType := e.surchargeType)
  {
  }

  /** Repeating an edit changes nothing. */
  lemma EditIdempotent(s: Settings, e: Edit)
    ensures WithEdit(WithEdit(s, e), e) == WithEdit(s, e)
  {
  }

  /** The balanced table entry holds the rates the page opens with. */
  lemma BalancedIsInitial()
    ensures WithFareModel(InitialSettings, Balanced) == InitialSettings
  {
    FareModelSelector.TableRates();
  }

  /** After a preset the rates need not be the table's rates for its model. */
  lemma PresetRatesNotTableRates()
    ensures var s := WithPreset(InitialSettings, PresetButtons.Westchester);
      s.fareModel == Balanced && s != WithFareModel(s, s.fareModel)
  {
    FareModelSelector.TableRates();
  }

  // ---------------------------------------------------------------------------
  // Saved settings

  /** The settings as read back from local storage. `None` stands for a field
      that is missing or null (a NaN is saved as null). */
  datatype SavedSettings = SavedSettings(
    fareModel: Option<FareModel>,
    baseFare: Option<real>,
    costPerMile: Option<real>,
    costPerMinute: Option<real>,
    distance: Option<real>,
    duration: Option<real>,
    fuelType: Option<FuelType>,
    mpg: Option<real>,
    gasPrice: Option<real>,
    surchargeType: Option<SurchargeType>,
    surchargeAmount: Option<real>)

  /** What the page writes on every change: all eleven fields. */
  function Persist(s: Settings): (saved: SavedSettings)
    ensures saved.fareModel == Some(s.fareModel) && saved.fuelType == Some(s.fuelType)
      && saved.surchargeType == Some(s.surchargeType)
    ensures saved.baseFare == Some(s.baseFare) && saved.costPerMile == Some(s.costPerMile)
      && saved.costPerMinute == Some(s.costPerMinute)
    ensures saved.distance == Some(s.distance) && saved.duration == Some(s.duration)
    ensures saved.mpg == Some(s.mpg) && saved.gasPrice == Some(s.gasPrice)
      && saved.surchargeAmount == Some(s.surchargeAmount)
  {
    SavedSettings(Some(s.fareModel), Some(s.baseFare), Some(s.costPerMile), Some(s.costPerMinute),
                  Some(s.distance), Some(s.duration), Some(s.fuelType), Some(s.mpg), Some(s.gasPrice),
                  Some(s.surchargeType), Some(s.surchargeAmount))
  }

  /** `saved || fallback` for a number: missing, null and 0 are falsy. */
  function NumberOr(saved: Option<real>, fallback: real): (r: real)
    ensures saved.Some? && saved.value != 0.0 ==> r == saved.value
    ensures saved.None? || saved.value == 0.0 ==> r == fallback
  {
    if saved.Some? && saved.value != 0.0 then saved.value else fallback
  }

  /** Missing, null or 0: what `||` replaces by its right-hand side. */
  predicate Falsy(saved: Option<real>) {
    saved.None? || saved.value == 0.0
  }

  /** `loadFromLocalStorage` on a saved object: each field, or, when it is
      falsy, the value the page opens with. */
  function Restore(saved: SavedSettings): (r: Settings)
    ensures r.fareModel == if saved.fareModel.Some? then saved.fareModel.value else InitialSettings.fareModel
    ensures r.fuelType == if saved.fuelType.Some? then saved.fuelType.value else InitialSettings.fuelType
    ensures r.surchargeType == if saved.surchargeType.Some? then saved.surchargeType.value else InitialSettings.surchargeType
    ensures r.baseFare == if Falsy(saved.baseFare) then InitialSettings.baseFare else saved.baseFare.value
    ensures r.costPerMile == if Falsy(saved.costPerMile) then InitialSettings.costPerMile else saved.costPerMile.value
    ensures r.costPerMinute == if Falsy(saved.costPerMinute) then InitialSettings.costPerMinute else saved.costPerMinute.value
    ensures r.distance == if Falsy(saved.distance) then InitialSettings.distance else saved.distance.value
    ensures r.duration == if Falsy(saved.duration) then InitialSettings.duration else saved.duration.value
    ensures r.mpg == if Falsy(saved.mpg) then InitialSettings.mpg else saved.mpg.value
    ensures r.gasPrice == if Falsy(saved.gasPrice) then InitialSettings.gasPrice else saved.gasPrice.value
    ensures r.surchargeAmount == if Falsy(saved.surchargeAmount) then InitialSettings.surchargeAmount else saved.surchargeAmount.value
  {
    Settings(
      saved.fareModel.GetOr(Balanced),
      NumberOr(saved.baseFare, 7.0),
      NumberOr(saved.costPerMile, 2.0),
      NumberOr(saved.costPerMinute, 0.35),
      NumberOr(saved.distance, 8.0),
      NumberOr(saved.duration, 20.0),
      saved.fuelType.GetOr(Gasoline),
      NumberOr(saved.mpg, 25.0),
      NumberOr(saved.gasPrice, 3.5),
      saved.surchargeType.GetOr(Flat),
      NumberOr(saved.surchargeAmount, 2.0))
  }

  predicate NoZeroNumber(s: Settings) {
    && s.baseFare != 0.0 && s.costPerMile != 0.0 && s.costPerMinute != 0.0
    && s.distance != 0.0 && s.duration != 0.0 && s.mpg != 0.0
    && s.gasPrice != 0.0 && s.surchargeAmount != 0.0
  }

  /** The defaults are the opening state: an empty saved object restores it. */
  lemma EmptySavedRestoresInitial()
    ensures Restore(SavedSettings(None, None, None, None, None, None, None, None, None, None, None)) == InitialSettings
  {
  }

  /** Saving and restoring gives back the same state exactly when no number in it is 0. */
  lemma RestoreRoundTrip(s: Settings)
    ensures Restore(Persist(s)) == s <==> NoZeroNumber(s)
  {
    if Restore(Persist(s)) == s {
      assert s.baseFare == NumberOr(Some(s.baseFare), 7.0);
      assert s.costPerMile == NumberOr(Some(s.costPerMile), 2.0);
      assert s.costPerMinute == NumberOr(Some(s.costPerMinute), 0.35);
      assert s.distance == NumberOr(Some(s.distance), 8.0);
      assert s.duration == NumberOr(Some(s.duration), 20.0);
      assert s.mpg == NumberOr(Some(s.mpg), 25.0);
      assert s.gasPrice == NumberOr(Some(s.gasPrice), 3.5);
      assert s.surchargeAmount == NumberOr(Some(s.surchargeAmount), 2.0);
    }
  }

  /** A saved 0 reloads as the default: distance 8, duration 20, base fare 7,
      surcharge amount 2. */
  lemma SavedZeroReloadsDefault(s: Settings)
    ensures var r := Restore(Persist(s));
      && r.distance == (if s.distance == 0.0 then 8.0 else s.distance)
      && r.duration == (if s.duration == 0.0 then 20.0 else s.duration)
      && r.baseFare == (if s.baseFare == 0.0 then 7.0 else s.baseFare)
      && r.surchargeAmount == (if s.surchargeAmount == 0.0 then 2.0 else s.surchargeAmount)
      && r.fareModel == s.fareModel && r.fuelType == s.fuelType && r.surchargeType == s.surchargeType
  {
  }

  /** Restoring what a well-formed state saved gives a well-formed state. */
  lemma RestoreKeepsWellFormed(s: Settings)
    requires WellFormed(s)
    ensures WellFormed(Restore(Persist(s)))
  {
  }

  // ---------------------------------------------------------------------------
  // The submitted transaction

  /** The body posted on export: the state as decimals and names, the
      surcharge pair null when there is no surcharge, and the breakdown. */
  function TransactionPayload(s: Settings): (p: InsertTransaction)
    ensures p.fuelSurchargeType.Null? <==> s.surchargeType == NoSurcharge
    ensures p.fuelSurchargeAmount.Null? <==> s.surchargeType == NoSurcharge
    ensures p.breakdown == Given(CalculateFare(s))
    ensures p.totalFare == CalculateFare(s).total && p.fuelCost == CalculateFare(s).fuelCost
  {
    var c := CalculateFare(s);
    InsertTransaction(
      s.baseFare, s.costPerMile, s.costPerMinute, s.distance, s.duration,
      s.fuelType.Name(), s.mpg, s.gasPrice,
      if s.surchargeType == NoSurcharge then Null else Given(s.surchargeType.Name()),
      if s.surchargeType == NoSurcharge then Null else Given(s.surchargeAmount),
      s.fareModel.Name(), c.total, c.fuelCost, Given(c))
  }

  /** Reads the page state back out of a submitted body; a null surcharge reads
      as no surcharge with amount 0. */
  function PayloadSettings(p: InsertTransaction): Option<Settings> {
    var surchargeType := if p.fuelSurchargeType.Given? then ParseSurchargeType(p.fuelSurchargeType.value) else Some(NoSurcharge);
    var fareModel := ParseFareModel(p.fareModel);
    var fuelType := ParseFuelType(p.fuelType);
    if fareModel.None? || fuelType.None? || surchargeType.None? then None
    else
      Some(Settings(fareModel.value, p.baseFare, p.costPerMile, p.costPerMinute, p.distance, p.duration,
                    fuelType.value, p.mpg, p.gasPrice, surchargeType.value,
                    if p.fuelSurchargeAmount.Given? then p.fuelSurchargeAmount.value else 0.0))
  }

  /** The body determines the state it came from, except the unused amount of
      a "none" surcharge; the fare recomputed from the body is its breakdown. */
  lemma PayloadDeterminesFare(s: Settings)
    ensures PayloadSettings(TransactionPayload(s)).Some?
    ensures s.surchargeType != NoSurcharge ==> PayloadSettings(TransactionPayload(s)) == Some(s)
    ensures s.surchargeType == NoSurcharge ==> PayloadSettings(TransactionPayload(s)) == Some(s.(surchargeAmount := 0.0))
    ensures TransactionPayload(s).breakdown == Given(CalculateFare(PayloadSettings(TransactionPayload(s)).value))
  {
    EnumerationsHaveThreeValues();
    assert ParseFareModel(s.fareModel.Name()) == Some(s.fareModel);
    assert ParseFuelType(s.fuelType.Name()) == Some(s.fuelType);
    assert ParseSurchargeType(s.surchargeType.Name()) == Some(s.surchargeType);
    SurchargeByType(s, 0.0);
  }

  // ---------------------------------------------------------------------------
  // The page as an object whose handlers update its fields

  class Calculator {
    var fareModel: FareModel
    var baseFare: real
    var costPerMile: real
    var costPerMinute: real
    var distance: real
    var duration: real
    var fuelType: FuelType
    var mpg: real
    var gasPrice: real
    var surchargeType: SurchargeType
    var surchargeAmount: real
    /** The `cabFareSettings` entry the page writes to local storage. */
    var stored: SavedSettings

    function Current(): Settings
      reads this
    {
      Settings(fareModel, baseFare, costPerMile, costPerMinute, distance, duration,
               fuelType, mpg, gasPrice, surchargeType, surchargeAmount)
    }

    /** The save effect has run: the stored entry is the current state. */
    predicate Saved()
      reads this
    {
      stored == Persist(Current())
    }

    /** The fare the receipt shows. */
    function Calculation(): (c: FareCalculation)
      reads this
      ensures c == CalculateFare(Current())
      ensures Itemised(c)
      ensures NonNegativeAmounts(Current()) ==> NonNegativeItems(c)
    {
      var s := Current();
      if NonNegativeAmounts(s) then FareNonNegative(s); CalculateFare(s) else CalculateFare(s)
    }

    constructor ()
      ensures Current() == InitialSettings && Saved()
    {
      fareModel := Balanced;
      baseFare := 7.0;
      costPerMile := 2.0;
      costPerMinute := 0.35;
      distance := 8.0;
      duration := 20.0;
      fuelType := Gasoline;
      mpg := 25.0;
      gasPrice := 3.5;
      surchargeType := Flat;
      surchargeAmount := 2.0;
      stored := Persist(InitialSettings);
    }

    method HandleFareModelSelect(m: FareModel)
      modifies this
      ensures Current() == WithFareModel(old(Current()), m) && Saved()
    {
      fareModel := m;
      var selected := FareModelSelector.FindFareModel(m);
      if selected.Some? {
        baseFare := selected.value.baseFare;
        costPerMile := selected.value.costPerMile;
        costPerMinute := selected.value.costPerMinute;
      }
      // the save effect
      stored := Persist(Current());
    }

    method HandlePresetSelect(p: PresetButtons.ZonePreset)
      modifies this
      ensures Current() == WithPreset(old(Current()), p) && Saved()
    {
      fareModel := p.fareModel;
      baseFare := p.baseFare;
      costPerMile := p.costPerMile;
      costPerMinute := p.costPerMinute;
      // the save effect
      stored := Persist(Current());
    }

    /** An input's change handler calling the matching setter. */
    method HandleEdit(e: Edit)
      modifies this
      ensures Current() == WithEdit(old(Current()), e) && Saved()
    {
      match e {
      case FareEdit(field, raw) =>
        var v := FareInputs.NonNegative(raw);
        match field {
          case BaseFare => baseFare := v;
          case CostPerMile => costPerMile := v;
          case CostPerMinute => costPerMinute := v;
          case Distance => distance := v;
          case Duration => duration := v;
        }
      case MpgEdit(raw) => mpg := FuelInputs.PositiveMpg(raw);
      case GasPriceEdit(raw) => gasPrice := FareInputs.NonNegative(raw);
      case SurchargeAmountEdit(raw) => surchargeAmount := FareInputs.NonNegative(raw);
      case FuelTypeEdit(f) => fuelType := f;
      case SurchargeTypeEdit(t) => surchargeType := t;
      }
      // the save effect
      stored := Persist(Current());
    }

    /** `loadFromLocalStorage`: `None` when nothing is saved or it does not
        parse as an object, in which case the state is left alone. */
    method LoadFromLocalStorage(saved: Option<SavedSettings>)
      modifies this
      ensures Current() == if saved.Some? then Restore(saved.value) else old(Current())
      ensures Saved()
    {
      if saved.Some? {
        var settings := saved.value;
        fareModel := settings.fareModel.GetOr(Balanced);
        baseFare := NumberOr(settings.baseFare, 7.0);
        costPerMile := NumberOr(settings.costPerMile, 2.0);
        costPerMinute := NumberOr(settings.costPerMinute, 0.35);
        distance := NumberOr(settings.distance, 8.0);
        duration := NumberOr(settings.duration, 20.0);
        fuelType := settings.fuelType.GetOr(Gasoline);
        mpg := NumberOr(settings.mpg, 25.0);
        gasPrice := NumberOr(settings.gasPrice, 3.5);
        surchargeType := settings.surchargeType.GetOr(Flat);
        surchargeAmount := NumberOr(settings.surchargeAmount, 2.0);
      }
      // the save effect runs after every change of state, and on mount
      stored := Persist(Current());
    }

    /** The `transactionData` built on export. */
    method TransactionData() returns (p: InsertTransaction)
      ensures p == TransactionPayload(Current())
      ensures p.breakdown == Given(Calculation())
      ensures p.fuelSurchargeAmount.Null? <==> surchargeType == NoSurcharge
    {
      var c := Calculation();
      p := InsertTransaction(
        baseFare, costPerMile, costPerMinute, distance, duration,
        fuelType.Name(), mpg, gasPrice,
        if surchargeType == NoSurcharge then Null else Given(surchargeType.Name()),
        if surchargeType == NoSurcharge then Null else Given(surchargeAmount),
        fareModel.Name(), c.total, c.fuelCost, Given(c));
    }
  }

  /** A session: open the page, restore saved settings, pick a preset, type a
      bad efficiency; the state stays well formed as long as what was saved
      came from a well-formed state. */
  method Session(saved: Settings, raw: Option<real>) returns (c: FareCalculation)
    requires WellFormed(saved)
    ensures NonNegativeItems(c) && Itemised(c)
  {
    var page := new Calculator();
    page.LoadFromLocalStorage(Some(Persist(saved)));
    RestoreKeepsWellFormed(saved);
    page.HandlePresetSelect(PresetButtons.Nyc);
    PresetButtons.PresetModelsAndRates();
    page.HandleEdit(MpgEdit(raw));
    c := page.Calculation();
  }
}
