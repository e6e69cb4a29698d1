/**
 * The fuel inputs: fuel type, efficiency (`mpg`), energy price, surcharge
 * type and surcharge amount, with the labels that depend on them. The gas
 * price and surcharge amount handlers use `FareInputs.NonNegative`.
 */
module FuelInputs {
  import opened Wrappers
  import opened Schema

  /** `val > 0 ? val : 0.1`: a positive efficiency passes through; zero, a
      negative number and NaN (for which `NaN > 0` is false) all become 0.1. */
  function PositiveMpg(raw: Option<real>): (r: real)
    ensures r > 0.0
    ensures raw.Some? && raw.value > 0.0 ==> r == raw.value
    ensures raw.None? || raw.value <= 0.0 ==> r == 0.1
  {
    match raw
    case Some(v) => if v > 0.0 then v else 0.1
    case None => 0.1
  }

  /** The efficiency field is per mile for an electric vehicle, per gallon
      otherwise: it reads "kWh per Mile" exactly for an EV. */
  function EfficiencyLabel(f: FuelType): (caption: string)
    ensures caption == "kWh per Mile" <==> f == EV
    ensures f != EV ==> caption == "MPG"
  {
    assert "MPG"[0] != "kWh per Mile"[0];
    if f == EV then "kWh per Mile" else "MPG"
  }

  /** The price field is per kilowatt-hour exactly for an EV. */
  function PriceLabel(f: FuelType): (caption: string)
    ensures caption == "Cost per kWh" <==> f == EV
    ensures f != EV ==> caption == "Gas Price"
  {
    assert "Gas Price"[0] != "Cost per kWh"[0];
    if f == EV then "Cost per kWh" else "Gas Price"
  }

  /** The surcharge amount input, if shown, with its label: shown exactly when
      a surcharge applies, and labelled by its kind. */
  function SurchargeAmountLabel(t: SurchargeType): (caption: Option<string>)
    ensures caption.Some? <==> t != NoSurcharge
    ensures caption == Some("Flat Surcharge Amount") <==> t == Flat
    ensures caption == Some("Surcharge per Mile") <==> t == PerMile
  {
    assert "Flat Surcharge Amount"[0] != "Surcharge per Mile"[0];
    if t != NoSurcharge then Some(if t == Flat then "Flat Surcharge Amount" else "Surcharge per Mile")
    else None
  }

  /** Feeding a sanitised efficiency back through the handler changes nothing. */
  lemma PositiveMpgIdempotent(raw: Option<real>)
    ensures PositiveMpg(Some(PositiveMpg(raw))) == PositiveMpg(raw)
  {
  }

  /** The two labels switch together: the efficiency is per mile exactly when
      the price is per kilowatt-hour. */
  lemma LabelsFollowFuelType(f: FuelType)
    ensures EfficiencyLabel(f) == "kWh per Mile" <==> PriceLabel(f) == "Cost per kWh"
    ensures EfficiencyLabel(f) == "MPG" <==> PriceLabel(f) == "Gas Price"
  {
  }
}
