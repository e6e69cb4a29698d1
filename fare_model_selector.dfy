/**
 * The three fare models the user picks from, each a card that is
 * highlighted when it is the selected one.
 */
module FareModelSelector {
  import opened Wrappers
  import opened Schema

  datatype FareModelOption = FareModelOption(
    id: FareModel,
    name: string,
    description: string,
    baseFare: real,
    costPerMile: real,
    costPerMinute: real)

  const FareModels: seq<FareModelOption> := [
    FareModelOption(Budget, "Budget", "Affordable rates for cost-conscious riders", 5.0, 1.5, 0.25),
    FareModelOption(Balanced, "Balanced", "Standard pricing for everyday trips", 7.0, 2.0, 0.35),
    FareModelOption(Premium, "Premium", "Higher rates for premium service", 10.0, 3.0, 0.5)
  ]

  /** `Array.prototype.find`: the first option with the given id, if any. */
  function Find(options: seq<FareModelOption>, id: FareModel): (r: Option<FareModelOption>)
    ensures r.Some? ==> r.value in options && r.value.id == id
    ensures r.None? <==> forall o :: o in options ==> o.id != id
  {
    if options == [] then None
    else if options[0].id == id then Some(options[0])
    else Find(options[1..], id)
  }

  /** The lookup the calculator performs on selection: it always finds an
      entry of the table, the one for the requested model. */
  function FindFareModel(id: FareModel): (r: Option<FareModelOption>)
    ensures r.Some? && r.value in FareModels && r.value.id == id
  {
    assert FareModels[match id case Budget => 0 case Balanced => 1 case Premium => 2].id == id;
    Find(FareModels, id)
  }

  /** Every fare model has exactly one entry in the table, so the lookup
      always succeeds, and it yields that entry. */
  lemma TableCoversEveryModel(m: FareModel)
    ensures exists i :: 0 <= i < |FareModels| && FareModels[i].id == m
    ensures forall i, j ::
      (0 <= i < |FareModels| && 0 <= j < |FareModels| && FareModels[i].id == m && FareModels[j].id == m) ==> i == j
    ensures FindFareModel(m).Some?
    ensures forall o :: o in FareModels && o.id == m ==> FindFareModel(m) == Some(o)
  {
    match m
    case Budget => assert FareModels[0].id == m;
    case Balanced => assert FareModels[1].id == m;
    case Premium => assert FareModels[2].id == m;
  }

  /** The published rates of each model. */
  lemma TableRates()
    ensures FindFareModel(Budget) == Some(FareModelOption(Budget, "Budget", "Affordable rates for cost-conscious riders", 5.0, 1.5, 0.25))
    ensures FindFareModel(Balanced) == Some(FareModelOption(Balanced, "Balanced", "Standard pricing for everyday trips", 7.0, 2.0, 0.35))
    ensures FindFareModel(Premium) == Some(FareModelOption(Premium, "Premium", "Higher rates for premium service", 10.0, 3.0, 0.5))
  {
    TableCoversEveryModel(Budget);
    TableCoversEveryModel(Balanced);
    TableCoversEveryModel(Premium);
  }

  /** Every rate strictly increases from budget to balanced to premium. */
  lemma RatesIncreaseWithTier()
    ensures forall i, j :: 0 <= i < j < |FareModels| ==>
      FareModels[i].baseFare < FareModels[j].baseFare
      && FareModels[i].costPerMile < FareModels[j].costPerMile
      && FareModels[i].costPerMinute < FareModels[j].costPerMinute
    ensures FareModels[0].id == Budget && FareModels[1].id == Balanced && FareModels[2].id == Premium
  {
  }

  /** One rendered card: the option it shows and whether it wears the
      selection ring and check mark. */
  datatype FareCard = FareCard(option: FareModelOption, highlighted: bool)

  function Cards(selected: FareModel): (cards: seq<FareCard>)
    ensures |cards| == |FareModels|
    ensures forall i :: 0 <= i < |cards| ==> cards[i].option == FareModels[i]
  {
    seq(|FareModels|, i requires 0 <= i < |FareModels| => FareCard(FareModels[i], selected == FareModels[i].id))
  }

  /** Exactly one card is highlighted: the one whose id is the selected model. */
  lemma ExactlyOneCardHighlighted(selected: FareModel)
    ensures forall i :: 0 <= i < |Cards(selected)| ==>
      (Cards(selected)[i].highlighted <==> Cards(selected)[i].option.id == selected)
    ensures exists i :: 0 <= i < |Cards(selected)| && Cards(selected)[i].highlighted
    ensures forall i, j ::
      (0 <= i < |Cards(selected)| && 0 <= j < |Cards(selected)|
       && Cards(selected)[i].highlighted && Cards(selected)[j].highlighted) ==> i == j
  {
    var cards := Cards(selected);
    TableCoversEveryModel(selected);
    forall i | 0 <= i < |cards| ensures cards[i].highlighted <==> cards[i].option.id == selected {
    }
  }
}
