/** The persistent API budget (`CostTracker`): an accumulated cost stored in
    a JSON file, a price of 0.43 USD per started 6-second unit of video with
    at least one unit per call, and a 50 USD ceiling. The file system is the
    field `file`; a write that fails leaves it as it was. */
module CostTracker {
  import opened Wrappers
  import JsMath

  const MaxCostUsd: real := 50.00
  const CostPer6SecondsUsd: real := 0.43

  /** What reading `apiCost.json` can find. */
  datatype LedgerFile =
    | Missing
    | Unreadable                                  // read error or invalid JSON
    | Stored(accumulatedCost: Option<real>)       // parsed; the field may be absent

  /** `readAccumulatedCost`: a missing, unreadable or zero/absent value reads as 0. */
  function ReadAccumulatedCost(file: LedgerFile): (c: real)
    ensures file.Missing? || file.Unreadable? ==> c == 0.0
    ensures file.Stored? && file.accumulatedCost.None? ==> c == 0.0
    ensures file.Stored? && file.accumulatedCost.Some? ==> c == file.accumulatedCost.value
  {
    match file
    case Stored(Some(v)) => v
    case _ => 0.0
  }

  /** `Math.max(1, Math.ceil(durationSeconds / 6))` */
  function Units(durationSeconds: real): (u: int)
    ensures u >= 1
    ensures u > 1 ==> 6.0 * ((u - 1) as real) < durationSeconds <= 6.0 * (u as real)
  {
    var c := JsMath.Ceil(durationSeconds / 6.0);
    if c > 1 then c else 1
  }

  /** `calculateCallCost` */
  function CallCost(durationSeconds: real): real {
    (Units(durationSeconds) as real) * CostPer6SecondsUsd
  }

  /** The unit count is the number of started 6-second blocks. */
  lemma UnitsBand(k: int, d: real)
    requires k >= 1 && 6.0 * ((k - 1) as real) < d <= 6.0 * (k as real)
    ensures Units(d) == k
    ensures CallCost(d) == (k as real) * 0.43
  {
    var c := JsMath.Ceil(d / 6.0);
    assert (c as real) - 1.0 < d / 6.0 <= c as real;
    assert ((k - 1) as real) < d / 6.0 <= k as real;
  }

  /** Every call costs at least one unit; a call of at most 6 seconds costs one. */
  lemma CallCostAtLeastOneUnit(d: real)
    ensures CallCost(d) >= 0.43
    ensures d <= 6.0 ==> CallCost(d) == 0.43
  {
    if d <= 6.0 {
      var c := JsMath.Ceil(d / 6.0);
      assert c <= 1;
    }
  }

  /** A longer call never costs less. */
  lemma CallCostMonotone(d1: real, d2: real)
    requires d1 <= d2
    ensures Units(d1) <= Units(d2)
    ensures CallCost(d1) <= CallCost(d2)
  {
    var c1 := JsMath.Ceil(d1 / 6.0);
    var c2 := JsMath.Ceil(d2 / 6.0);
    assert d1 / 6.0 <= d2 / 6.0;
    assert c1 <= c2;
  }

  /** The two durations the generator prices: one 10-second clip and the
      50-second estimate checked before a narrative. */
  lemma EstimatedCosts()
    ensures CallCost(10.0) == 0.86
    ensures CallCost(50.0) == 3.87
  {
    UnitsBand(2, 10.0);
    UnitsBand(9, 50.0);
  }

  /** Writing a cost and reading it back gives the cost (a stored 0 reads as 0). */
  lemma WriteThenRead(cost: real)
    ensures ReadAccumulatedCost(Stored(Some(cost))) == cost
  {
  }

  /** The budget predicate `canMakeApiCall` answers. */
  predicate WithinBudget(file: LedgerFile, estimatedDurationSeconds: real) {
    ReadAccumulatedCost(file) + CallCost(estimatedDurationSeconds) <= MaxCostUsd
  }

  /** A call the budget allows, once recorded, leaves the ledger at most 50 USD. */
  lemma ApprovedCallKeepsBudget(file: LedgerFile, d: real)
    requires WithinBudget(file, d)
    ensures ReadAccumulatedCost(Stored(Some(ReadAccumulatedCost(file) + CallCost(d)))) <= MaxCostUsd
  {
  }

  class CostLedger {
    var file: LedgerFile

    constructor (initial: LedgerFile)
      ensures file == initial
    {
      file := initial;
    }

    /** `readAccumulatedCost()` */
    method ReadCost() returns (c: real)
      ensures c == ReadAccumulatedCost(file)
      ensures c == 0.0 || file.Stored?
    {
      c := ReadAccumulatedCost(file);
    }

    /** `canMakeApiCall`: false exactly when the call would take the total above 50 USD. */
    method CanMakeApiCall(estimatedDurationSeconds: real) returns (ok: bool)
      ensures ok <==> ReadAccumulatedCost(file) + CallCost(estimatedDurationSeconds) <= MaxCostUsd
    {
      var currentCost := ReadAccumulatedCost(file);
      var callCost := CallCost(estimatedDurationSeconds);
      var potentialTotalCost := currentCost + callCost;
      if potentialTotalCost > MaxCostUsd {
        ok := false;
      } else {
        ok := true;
      }
    }

    /** `writeAccumulatedCost`: a failed write is swallowed. */
    method WriteAccumulatedCost(cost: real, writeOk: bool)
      modifies this
      ensures file == if writeOk then Stored(Some(cost)) else old(file)
    {
      if writeOk {
        file := Stored(Some(cost));
      }
    }

    /** `recordApiCallCost`: adds the call's price to the stored total. */
    method RecordApiCallCost(durationSeconds: real, writeOk: bool)
      modifies this
      ensures writeOk ==> ReadAccumulatedCost(file) == ReadAccumulatedCost(old(file)) + CallCost(durationSeconds)
      ensures writeOk ==> ReadAccumulatedCost(file) >= ReadAccumulatedCost(old(file)) + 0.43
      ensures file == if writeOk then Stored(Some(ReadAccumulatedCost(old(file)) + CallCost(durationSeconds)))
                      else old(file)
    {
      var currentCost := ReadCost();
      var callCost := CallCost(durationSeconds);
      CallCostAtLeastOneUnit(durationSeconds);
      WriteAccumulatedCost(currentCost + callCost, writeOk);
    }

    /** `resetApiCost` */
    method ResetApiCost(writeOk: bool)
      modifies this
      ensures writeOk ==> ReadAccumulatedCost(file) == 0.0
      ensures file == if writeOk then Stored(Some(0.0)) else old(file)
    {
      WriteAccumulatedCost(0.0, writeOk);
    }
  }
}
