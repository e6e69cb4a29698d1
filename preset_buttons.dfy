/**
 * The quick-zone presets: four named bundles of a fare model and three
 * rates, each rendered as a button that hands its preset to the calculator.
 */
module PresetButtons {
  import opened Schema
  import FareModelSelector

  datatype ZonePreset = ZonePreset(
    id: string,
    name: string,
    baseFare: real,
    costPerMile: real,
    costPerMinute: real,
    fareModel: FareModel)

  const Nyc := ZonePreset("nyc", "NYC", 8.0, 2.5, 0.5, Premium)
  const Westchester := ZonePreset("westchester", "Westchester", 6.0, 2.0, 0.35, Balanced)
  const Newark := ZonePreset("newark", "Newark", 5.5, 1.8, 0.3, Balanced)
  const LongIsland := ZonePreset("longisland", "Long Island", 7.0, 2.2, 0.4, Balanced)

  const ZonePresets: seq<ZonePreset> := [Nyc, Westchester, Newark, LongIsland]

  /** One rendered button: its React key, its caption, and the argument its
      click handler passes to `onPresetSelect`. */
  datatype PresetButton = PresetButton(key: string, caption: string, onClickArgument: ZonePreset)

  function Buttons(): (buttons: seq<PresetButton>)
    ensures |buttons| == |ZonePresets|
  {
    seq(|ZonePresets|, i requires 0 <= i < |ZonePresets| =>
      PresetButton(ZonePresets[i].id, ZonePresets[i].name, ZonePresets[i]))
  }

  /** Clicking a button passes exactly the preset it shows, and the buttons'
      keys are distinct. */
  lemma ButtonsPassTheirPreset()
    ensures forall i :: 0 <= i < |Buttons()| ==>
      Buttons()[i].onClickArgument == ZonePresets[i] && Buttons()[i].caption == ZonePresets[i].name
    ensures forall i, j :: 0 <= i < j < |Buttons()| ==> Buttons()[i].key != Buttons()[j].key
  {
    PresetsDistinct();
  }

  /** Four presets with distinct ids, the first one NYC. */
  lemma PresetsDistinct()
    ensures |ZonePresets| == 4
    ensures ZonePresets[0].id == "nyc" && ZonePresets[1].id == "westchester"
      && ZonePresets[2].id == "newark" && ZonePresets[3].id == "longisland"
    ensures forall i, j :: 0 <= i < j < |ZonePresets| ==> ZonePresets[i].id != ZonePresets[j].id
  {
    // the four ids have four different lengths
    assert |"nyc"| == 3 && |"westchester"| == 11 && |"newark"| == 6 && |"longisland"| == 10;
  }

  /** NYC is the only premium zone; all rates are strictly positive. */
  lemma PresetModelsAndRates()
    ensures forall p :: p in ZonePresets ==> (p.fareModel == Premium <==> p == Nyc)
    ensures forall p :: p in ZonePresets ==> p.baseFare > 0.0 && p.costPerMile > 0.0 && p.costPerMinute > 0.0
  {
    PresetsDistinct();
  }

  /** A preset's rates are its own, not its model's: Westchester is balanced but
      its base fare differs from the balanced table entry. */
  lemma PresetRatesNeedNotMatchModel()
    ensures Westchester in ZonePresets && Westchester.fareModel == Balanced
    ensures FareModelSelector.FindFareModel(Westchester.fareModel).Some?
    ensures Westchester.baseFare != FareModelSelector.FindFareModel(Westchester.fareModel).value.baseFare
  {
    FareModelSelector.TableRates();
  }
}
