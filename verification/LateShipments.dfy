/** When a late-shipment flag is permanent: the shipment life cycle of
    _progress_shipments against the verdict of evaluate_late_shipment. */
module LateShipments {
  import opened ReplenishmentPolicy
  import opened FlowTables
  import opened FlowSpec
  import opened ExceptionEngine

  /** What daily ticks maintain for a shipment as of `today`. */
  predicate OnSchedule(s: Shipment, today: int, delay: nat) {
    && s.promisedDay >= s.shipDay
    && match s.status
       case ShPending => s.shipDay == today
       case ShInTransit => s.shipDay < today && (today == s.shipDay + 1 || today < s.promisedDay + delay)
       case ShDelivered => s.actualDay == Some(s.promisedDay + delay) && today >= s.promisedDay + delay && today >= s.shipDay + 2
       case ShException => false
  }

  lemma StaysOnSchedule(s: Shipment, today: int, delay: nat)
    requires OnSchedule(s, today, delay)
    ensures OnSchedule(NextShipment(s, today + 1, delay), today + 1, delay)
  {
  }

  /** The carriers promise at least a day, or the rule grants at least a day. */
  predicate FlagsSettle(promisedTransit: int, grace: int) {
    promisedTransit >= 1 || grace >= 1
  }

  lemma LateStaysLate(s: Shipment, today: int, delay: nat, grace: int)
    requires OnSchedule(s, today, delay) && grace >= 0
    requires FlagsSettle(s.promisedDay - s.shipDay, grace)
    requires IsLate(s, today, grace)
    ensures IsLate(NextShipment(s, today + 1, delay), today + 1, grace)
  {
  }

  /** The shipment n daily ticks after it was created. */
  function ShipmentAfter(s: Shipment, delay: nat, n: nat): Shipment {
    if n == 0 then s else NextShipment(ShipmentAfter(s, delay, n - 1), s.shipDay + n, delay)
  }

  /** Once the verdict is late on some day it is late on every later day. */
  ghost predicate LateForever(s: Shipment, delay: nat, grace: int) {
    forall m: nat, n: nat :: m <= n && IsLate(ShipmentAfter(s, delay, m), s.shipDay + m, grace) ==>
      IsLate(ShipmentAfter(s, delay, n), s.shipDay + n, grace)
  }

  lemma {:induction false} LateFrom(s: Shipment, delay: nat, grace: int, m: nat, n: nat)
    requires OnSchedule(s, s.shipDay, delay) && grace >= 0 && m <= n
    requires FlagsSettle(s.promisedDay - s.shipDay, grace)
    ensures var t := ShipmentAfter(s, delay, n);
            t.shipDay == s.shipDay && t.promisedDay == s.promisedDay && OnSchedule(t, s.shipDay + n, delay)
    ensures IsLate(ShipmentAfter(s, delay, m), s.shipDay + m, grace) ==>
              IsLate(ShipmentAfter(s, delay, n), s.shipDay + n, grace)
    decreases n
  {
    if n > 0 {
      LateFrom(s, delay, grace, if m < n then m else 0, n - 1);
      var t := ShipmentAfter(s, delay, n - 1);
      StaysOnSchedule(t, s.shipDay + n - 1, delay);
      if IsLate(t, s.shipDay + n - 1, grace) {
        LateStaysLate(t, s.shipDay + n - 1, delay, grace);
      }
    }
  }

  /** Late verdicts are permanent for every delay exactly when the promise or
      the grace period is at least one day; a same-day promise with no grace is
      flagged the next day and cleared by its on-time delivery. */
  lemma PermanentIffSettled(s: Shipment, grace: int)
    requires s.status == ShPending && s.promisedDay >= s.shipDay && grace >= 0
    ensures (forall delay: nat :: LateForever(s, delay, grace)) <==> FlagsSettle(s.promisedDay - s.shipDay, grace)
  {
    if FlagsSettle(s.promisedDay - s.shipDay, grace) {
      forall delay: nat ensures LateForever(s, delay, grace) {
        forall m: nat, n: nat | m <= n && IsLate(ShipmentAfter(s, delay, m), s.shipDay + m, grace)
          ensures IsLate(ShipmentAfter(s, delay, n), s.shipDay + n, grace)
        {
          LateFrom(s, delay, grace, m, n);
        }
      }
    } else {
      var day1 := ShipmentAfter(s, 0, 1);
      assert ShipmentAfter(s, 0, 0) == s;
      assert day1 == NextShipment(s, s.shipDay + 1, 0);
      var day2 := ShipmentAfter(s, 0, 2);
      assert day2 == NextShipment(day1, s.shipDay + 2, 0);
      assert IsLate(day1, s.shipDay + 1, grace) && !IsLate(day2, s.shipDay + 2, grace);
      assert !LateForever(s, 0, grace);
    }
  }
}
