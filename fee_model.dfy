/**
 * `FeeModel`: a fixed table of maker and taker rates per tier; a model is
 * built for one known tier and charges a volume linearly.
 */
module Fees {
  import opened Common

  datatype Rates = Rates(maker: real, taker: real)

  /** `FEE_TABLE`. */
  const FeeTable: map<string, Rates> := map[
    "Tier 1" := Rates(0.001, 0.002),
    "Tier 2" := Rates(0.0008, 0.0015),
    "Tier 3" := Rates(0.0005, 0.001)
  ]

  /** The `ValueError` raised for a tier that is not in the table. */
  datatype FeeError = UnknownTier(tier: string)

  datatype FeeModel = FeeModel(tier: string, makerFee: real, takerFee: real)
  {
    /** The rate `calculate_fee` charges a maker or a taker. */
    function Rate(isMaker: bool): real
    {
      if isMaker then makerFee else takerFee
    }

    /**
     * `calculate_fee`: the volume times the maker or the taker rate, so it is
     * zero exactly when the volume or the rate is, and a non-negative volume
     * at a non-negative rate is never paid back.
     */
    function CalculateFee(volume: real, isMaker: bool): (fee: real)
      ensures fee == 0.0 <==> volume == 0.0 || Rate(isMaker) == 0.0
      ensures 0.0 <= volume && 0.0 <= Rate(isMaker) ==> 0.0 <= fee
    {
      var feeRate := Rate(isMaker);
      volume * feeRate
    }
  }

  /** `FeeModel(tier)`: the rates of a known tier, or the error for an unknown one. */
  function NewFeeModel(tier: string): (r: Result<FeeModel, FeeError>)
    ensures r.Err? <==> tier !in FeeTable
    ensures r.Err? ==> r.error == UnknownTier(tier)
    ensures r.Ok? ==> && r.value.tier == tier
                      && r.value.makerFee == FeeTable[tier].maker
                      && r.value.takerFee == FeeTable[tier].taker
  {
    if tier !in FeeTable then Err(UnknownTier(tier))
    else Ok(FeeModel(tier, FeeTable[tier].maker, FeeTable[tier].taker))
  }

  /**
   * The fee charges nothing for no volume, the chosen rate for a unit
   * volume, and is additive and homogeneous in volume.
   */
  lemma FeeLinear(m: FeeModel, a: real, b: real, k: real, isMaker: bool)
    ensures m.CalculateFee(0.0, isMaker) == 0.0
    ensures m.CalculateFee(1.0, isMaker) == m.Rate(isMaker)
    ensures m.CalculateFee(k * a, isMaker) == k * m.CalculateFee(a, isMaker)
    ensures m.CalculateFee(a + b, isMaker) == m.CalculateFee(a, isMaker) + m.CalculateFee(b, isMaker)
  {
  }

  /** In every tier of the table the maker rate is below the taker rate, so makers never pay more. */
  lemma MakerCheaperInEveryTier(tier: string, volume: real)
    requires tier in FeeTable && 0.0 <= volume
    ensures FeeTable[tier].maker < FeeTable[tier].taker
    ensures var m := NewFeeModel(tier).value;
      m.CalculateFee(volume, true) <= m.CalculateFee(volume, false)
  {
    var m := NewFeeModel(tier).value;
    assert m.makerFee < m.takerFee;
    assert volume * m.makerFee <= volume * m.takerFee by {
      assert volume * (m.takerFee - m.makerFee) >= 0.0;
    }
  }

  /** Both rates fall, never rise, from Tier 1 to Tier 3. */
  lemma RatesNonIncreasingByTier()
    ensures FeeTable["Tier 2"].maker <= FeeTable["Tier 1"].maker
    ensures FeeTable["Tier 3"].maker <= FeeTable["Tier 2"].maker
    ensures FeeTable["Tier 2"].taker <= FeeTable["Tier 1"].taker
    ensures FeeTable["Tier 3"].taker <= FeeTable["Tier 2"].taker
  {
  }

  /** The table holds exactly the three tiers the dashboard offers. */
  lemma KnownTiers(tier: string)
    ensures NewFeeModel(tier).Ok? <==> tier in {"Tier 1", "Tier 2", "Tier 3"}
  {
  }
}
