/** The pure decisions of backend/app/domain/scheduled_flow.py: reorder
    thresholds, transfer sizing, donor choice and partial receipts.  Demand is
    a real number; the rounding functions are exact. */
module ReplenishmentPolicy {

  const BOOTSTRAP_REORDER_THRESHOLD := 10
  const MINIMUM_REORDER_QUANTITY := 20
  const DEMAND_LOOKBACK_DAYS := 14
  const REORDER_SAFETY_DAYS := 14
  const REORDER_TARGET_DAYS_OF_SUPPLY := 30

  datatype Option<+T> = None | Some(value: T)

  function Ceil(x: real): (c: int)
    ensures (c - 1) as real < x <= c as real
  {
    -((-x).Floor)
  }

  /** The least level covering both the bootstrap minimum and the safety days of demand. */
  function ReorderThreshold(demand: real, safetyDays: int): (t: real)
    ensures t >= BOOTSTRAP_REORDER_THRESHOLD as real
    ensures t >= demand * safetyDays as real
    ensures t > BOOTSTRAP_REORDER_THRESHOLD as real ==> t <= demand * safetyDays as real
  {
    var scaled := demand * safetyDays as real;
    if scaled > BOOTSTRAP_REORDER_THRESHOLD as real then scaled else BOOTSTRAP_REORDER_THRESHOLD as real
  }

  predicate IsBelowReorderPoint(position: int, demand: real, safetyDays: int) {
    position as real < ReorderThreshold(demand, safetyDays)
  }

  /** The least order of at least the minimum that covers the target days of demand. */
  function ReorderQuantity(demand: real, targetDays: int): (q: int)
    ensures q >= MINIMUM_REORDER_QUANTITY
    ensures q as real >= demand * targetDays as real
    ensures q > MINIMUM_REORDER_QUANTITY ==> (q - 1) as real < demand * targetDays as real
  {
    var needed := Ceil(demand * targetDays as real);
    if needed > MINIMUM_REORDER_QUANTITY then needed else MINIMUM_REORDER_QUANTITY
  }

  /** The least non-negative top-up that brings the position to its threshold. */
  function WarehouseDeficit(position: int, demand: real, safetyDays: int): (d: int)
    ensures d >= 0
    ensures d > 0 <==> IsBelowReorderPoint(position, demand, safetyDays)
    ensures (position + d) as real >= ReorderThreshold(demand, safetyDays)
    ensures d > 0 ==> (position + d - 1) as real < ReorderThreshold(demand, safetyDays)
  {
    var shortfall := Ceil(ReorderThreshold(demand, safetyDays) - position as real);
    if shortfall > 0 then shortfall else 0
  }

  /** The most a donor can give and still keep its own threshold unallocated. */
  function TransferableSurplus(position: int, reserved: int, demand: real, safetyDays: int): (s: int)
    ensures s >= 0
    ensures s > 0 ==> (position - reserved - s) as real >= ReorderThreshold(demand, safetyDays)
    ensures (position - reserved - s - 1) as real < ReorderThreshold(demand, safetyDays)
  {
    var spare := ((position - reserved) as real - ReorderThreshold(demand, safetyDays)).Floor;
    if spare > 0 then spare else 0
  }

  datatype Candidate = Candidate(warehouse: nat, surplus: int)

  /** a is served before b: larger surplus first, then the lower warehouse id. */
  predicate Preferred(a: Candidate, b: Candidate) {
    a.surplus > b.surplus || (a.surplus == b.surplus && a.warehouse <= b.warehouse)
  }

  function PickTransferDonor(candidates: seq<Candidate>): (picked: Option<Candidate>)
    ensures picked.None? <==> forall c :: c in candidates ==> c.surplus <= 0
    ensures picked.Some? ==> picked.value in candidates && picked.value.surplus > 0
    ensures picked.Some? ==> forall c :: c in candidates && c.surplus > 0 ==>
      || c.surplus < picked.value.surplus
      || (c.surplus == picked.value.surplus && picked.value.warehouse <= c.warehouse)
  {
    if candidates == [] then None
    else
      var n := |candidates| - 1;
      var last := candidates[n];
      assert forall c :: c in candidates <==> c in candidates[..n] || c == last;
      match PickTransferDonor(candidates[..n])
      case None => if last.surplus > 0 then Some(last) else None
      case Some(best) => if last.surplus > 0 && !Preferred(best, last) then Some(last) else Some(best)
  }

  type TenThousandths = k: nat | k <= 10000

  /** One partial-receipt roll.  Partial(k) stands for the decimal fraction
      0.5 + (k / 10000) * 0.4, which is (12500 + k) / 25000. */
  datatype Roll = Full | Partial(k: TenThousandths)

  /** A share between one half and nine tenths, rounded down. */
  lemma ShareBounds(remaining: int, product: int)
    requires remaining > 0 && remaining * 12500 <= product <= remaining * 22500
    ensures remaining / 2 <= product / 25000 && 10 * (product / 25000) <= 9 * remaining
  {
  }

  lemma FractionBounds(remaining: int, k: TenThousandths)
    requires remaining > 0
    ensures remaining * 12500 <= remaining * (12500 + k) <= remaining * 22500
  {
  }

  /** Units received of a line with `remaining` outstanding. */
  function ReceiveQuantity(remaining: int, roll: Roll): (q: int)
    requires remaining > 0
    ensures 1 <= q <= remaining
    ensures roll.Full? ==> q == remaining
    ensures roll.Partial? ==> q == 1 || 10 * q <= 9 * remaining
    ensures roll.Partial? ==> q == 1 || 25000 * q <= remaining * (12500 + roll.k)
    ensures roll.Partial? ==> 25000 * (q + 1) > remaining * (12500 + roll.k)
    ensures remaining - q <= remaining - remaining / 2
    ensures remaining == 1 ==> q == 1
  {
    match roll
    case Full => remaining
    case Partial(k) =>
      var product := remaining * (12500 + k);
      FractionBounds(remaining, k);
      ShareBounds(remaining, product);
      var share := product / 25000;
      var atLeastOne := if share > 1 then share else 1;
      if atLeastOne < remaining then atLeastOne else remaining
  }
}
