/**
 * `CustomerLevelState` and its Silver, Gold and Platinum subclasses: a
 * constant-only encoding of the tiers that nothing else in the program uses.
 * The class hierarchy is a closed datatype; each variant carries the two
 * fields `fee` and `level` of the abstract base class.
 */
module LevelStates {
  import opened CustomerLevels

  datatype CustomerLevelState =
    | SilverLevelState(fee: real, level: string)
    | GoldLevelState(fee: real, level: string)
    | PlatinumLevelState(fee: real, level: string)
  {
    function GetFee(): real { fee }

    function GetLevel(): string { level }

    /** The base class's invariant; a string here is never null. */
    predicate BaseRepOk() { fee >= 0.0 }

    /**
     * Each subclass's invariant: the base invariant and the level name of its
     * own class, so every valid concrete state is a valid base state.
     */
    predicate RepOk() {
      BaseRepOk() &&
      match this
      case SilverLevelState(_, _) => level == "Silver"
      case GoldLevelState(_, _) => level == "Gold"
      case PlatinumLevelState(_, _) => level == "Platinum"
    }
  }

  function NewSilverLevelState(): (s: CustomerLevelState)
    ensures s.SilverLevelState? && s.RepOk()
    ensures forall b :: b < SILVER_LIMIT ==> s.GetLevel() == LevelFor(b) && s.GetFee() == FeeFor(b)
  {
    SilverLevelState(20.0, "Silver")
  }

  function NewGoldLevelState(): (s: CustomerLevelState)
    ensures s.GoldLevelState? && s.RepOk()
    ensures forall b :: SILVER_LIMIT <= b < GOLD_LIMIT ==> s.GetLevel() == LevelFor(b) && s.GetFee() == FeeFor(b)
  {
    GoldLevelState(10.0, "Gold")
  }

  function NewPlatinumLevelState(): (s: CustomerLevelState)
    ensures s.PlatinumLevelState? && s.RepOk()
    ensures forall b :: GOLD_LIMIT <= b ==> s.GetLevel() == LevelFor(b) && s.GetFee() == FeeFor(b)
  {
    PlatinumLevelState(0.0, "Platinum")
  }

  /**
   * The state hierarchy and the threshold ladder of `CustomerLevel` agree:
   * for every balance, exactly one constructed state has that balance's
   * level name, and it carries that balance's fee.
   */
  lemma StatesAgreeWithLadder(b: real)
    ensures var states := [NewSilverLevelState(), NewGoldLevelState(), NewPlatinumLevelState()];
      exists k :: 0 <= k < 3 && states[k].GetLevel() == LevelFor(b) && states[k].GetFee() == FeeFor(b)
        && forall m :: 0 <= m < 3 && m != k ==> states[m].GetLevel() != LevelFor(b)
  {
    var states := [NewSilverLevelState(), NewGoldLevelState(), NewPlatinumLevelState()];
    var k := if b < SILVER_LIMIT then 0 else if b < GOLD_LIMIT then 1 else 2;
    assert states[k].GetLevel() == LevelFor(b) && states[k].GetFee() == FeeFor(b);
  }
}
