/**
  `check_price`: the per-commodity alert lock with hysteresis. The state is
  the dictionary read from `state.json`; an observation below the target
  while the commodity is not yet notified triggers one alert, and only an
  observation at or above the target re-arms it.
 */
module Alerts {
  import opened Options
  import opened Commodity

  /** The JSON scalars a state record can hold. */
  datatype Json = Null | Bool(b: bool) | Number(x: real) | Text(s: string)

  type Record = map<string, Json>

  /** Python truthiness of a JSON scalar. */
  predicate Truthy(v: Json) {
    match v
    case Null => false
    case Bool(b) => b
    case Number(x) => x != 0.0
    case Text(s) => s != ""
  }

  function PriceKey(kind: Kind): string {
    match kind
    case Electricity => "last_electricity_price"
    case Gas => "last_gas_price"
  }

  function NotifiedKey(kind: Kind): string {
    match kind
    case Electricity => "electricity_notified"
    case Gas => "gas_notified"
  }

  /** `state.get(notified_key, False)`, read for its truth: a missing key is not notified. */
  predicate Notified(m: Record, kind: Kind) {
    NotifiedKey(kind) in m && Truthy(m[NotifiedKey(kind)])
  }

  /**
    `state.get(notified_key, False)` read for its truth: a missing key or a
    `None` is not notified, a boolean is itself, a number notifies unless
    zero and a string unless empty.
   */
  lemma NotifiedIsGetOrFalse(m: Record, kind: Kind)
    ensures NotifiedKey(kind) !in m ==> !Notified(m, kind)
    ensures NotifiedKey(kind) in m ==>
              match m[NotifiedKey(kind)]
              case Null => !Notified(m, kind)
              case Bool(b) => Notified(m, kind) == b
              case Number(x) => Notified(m, kind) == (x != 0.0)
              case Text(s) => Notified(m, kind) == (s != "")
  {
  }

  /** The four keys name four different entries. */
  lemma KeysDistinct(kind: Kind, other: Kind)
    ensures PriceKey(kind) != NotifiedKey(other)
    ensures kind != other ==> PriceKey(kind) != PriceKey(other) && NotifiedKey(kind) != NotifiedKey(other)
  {
    assert PriceKey(kind)[0] == 'l' && NotifiedKey(other)[0] != 'l';
  }

  /** What one check leaves behind: the new record and whether an alert was attempted. */
  datatype Outcome = Outcome(record: Record, attempted: bool)

  /**
    One check of one commodity, with the fetched price and the answer the
    message sender would give taken as inputs.
   */
  function Evaluate(m: Record, kind: Kind, target: real, observed: Option<real>, delivered: bool): (o: Outcome)
    ensures observed.None? ==> o == Outcome(m, false)
    ensures observed.Some? ==> PriceKey(kind) in o.record && o.record[PriceKey(kind)] == Number(observed.value)
    ensures forall k :: k != PriceKey(kind) && k != NotifiedKey(kind) ==>
              (k in o.record <==> k in m) && (k in m ==> o.record[k] == m[k])
    ensures o.attempted <==> observed.Some? && observed.value < target && !Notified(m, kind)
    ensures observed.Some? ==>
              Notified(o.record, kind) == (if observed.value < target then Notified(m, kind) || delivered else false)
    ensures (observed.Some? && observed.value < target && (Notified(m, kind) || !delivered)) ||
            (observed.Some? && observed.value >= target && !Notified(m, kind)) ==>
              (NotifiedKey(kind) in o.record <==> NotifiedKey(kind) in m) &&
              (NotifiedKey(kind) in m ==> o.record[NotifiedKey(kind)] == m[NotifiedKey(kind)])
  {
    KeysDistinct(kind, kind);
    match observed
    case None => Outcome(m, false)
    case Some(price) =>
      var m1 := m[PriceKey(kind) := Number(price)];
      if price < target && !Notified(m1, kind) then
        Outcome(if delivered then m1[NotifiedKey(kind) := Bool(true)] else m1, true)
      else if price >= target && Notified(m1, kind) then
        Outcome(m1[NotifiedKey(kind) := Bool(false)], false)
      else
        Outcome(m1, false)
  }

  /** The record `load_state` starts from when there is no state file. */
  const DefaultRecord: Record := map[
    "last_electricity_price" := Null,
    "last_gas_price" := Null,
    "electricity_notified" := Bool(false),
    "gas_notified" := Bool(false)
  ]

  /** The state record of a run, updated in place by each check. */
  class MonitorState {
    var record: Record

    /** `load_state()` when no state file exists: no price seen, both commodities armed. */
    constructor Default()
      ensures record == DefaultRecord
      ensures forall kind: Kind :: !Notified(record, kind) && record[PriceKey(kind)] == Null
    {
      record := DefaultRecord;
    }

    /** A state read back from `state.json`. */
    constructor Loaded(saved: Record)
      ensures record == saved
    {
      record := saved;
    }

    /**
      `check_price` once the price has been fetched: `observed` is what the
      scraper returned and `delivered` what the sender reports if asked. The
      result says whether an alert was attempted.
     */
    method CheckPrice(kind: Kind, target: real, observed: Option<real>, delivered: bool)
      returns (attempted: bool)
      modifies this
      ensures Outcome(record, attempted) == Evaluate(old(record), kind, target, observed, delivered)
    {
      attempted := false;
      if observed.None? {
        return;
      }
      var price := observed.value;
      var notifiedKey;
      if kind == Electricity {
        record := record["last_electricity_price" := Number(price)];
        notifiedKey := "electricity_notified";
      } else {
        record := record["last_gas_price" := Number(price)];
        notifiedKey := "gas_notified";
      }
      var notified := notifiedKey in record && Truthy(record[notifiedKey]);
      if price < target && !notified {
        attempted := true;
        if delivered {
          record := record[notifiedKey := Bool(true)];
        }
      } else if price >= target && notified {
        record := record[notifiedKey := Bool(false)];
      }
    }

    /**
      `main` between loading and saving: electricity is checked first, then
      gas, each with its own target, observation and delivery answer.
     */
    method CheckAll(config: Config, power: Option<real>, powerDelivered: bool,
                    gas: Option<real>, gasDelivered: bool)
      returns (powerAttempted: bool, gasAttempted: bool)
      modifies this
      ensures var first := Evaluate(old(record), Electricity, config.Target(Electricity), power, powerDelivered);
              var second := Evaluate(first.record, Gas, config.Target(Gas), gas, gasDelivered);
              record == second.record && powerAttempted == first.attempted && gasAttempted == second.attempted
    {
      powerAttempted := CheckPrice(Electricity, config.Target(Electricity), power, powerDelivered);
      gasAttempted := CheckPrice(Gas, config.Target(Gas), gas, gasDelivered);
    }
  }

  /**
    Successive runs for one commodity, the i-th run seeing observations[i]
    and the sender answering deliveries[i]: the final record and the number
    of alerts attempted.
   */
  function Replay(m: Record, kind: Kind, target: real, observations: seq<Option<real>>, deliveries: seq<bool>)
    : (r: (Record, nat))
    requires |deliveries| == |observations|
    ensures r.1 <= |observations|
    decreases |observations|
  {
    if observations == [] then (m, 0)
    else
      var o := Evaluate(m, kind, target, observations[0], deliveries[0]);
      var rest := Replay(o.record, kind, target, observations[1..], deliveries[1..]);
      (rest.0, rest.1 + (if o.attempted then 1 else 0))
  }

  /**
    The lock's invariant: a commodity is notified only while the price last
    recorded for it is below its target.
   */
  predicate LockHeld(m: Record, kind: Kind, target: real) {
    Notified(m, kind) ==>
      PriceKey(kind) in m && m[PriceKey(kind)].Number? && m[PriceKey(kind)].x < target
  }

  /** The default record holds exactly the four keys: no prices, both commodities armed. */
  lemma DefaultRecordIsArmed()
    ensures DefaultRecord.Keys == {PriceKey(Electricity), PriceKey(Gas), NotifiedKey(Electricity), NotifiedKey(Gas)}
    ensures forall kind: Kind :: DefaultRecord[PriceKey(kind)] == Null && DefaultRecord[NotifiedKey(kind)] == Bool(false)
  {
  }

  lemma DefaultLockHeld(kind: Kind, target: real)
    ensures !Notified(DefaultRecord, kind) && LockHeld(DefaultRecord, kind, target)
  {
  }

  /** Every check keeps the invariant, whatever the observation and the sender's answer. */
  lemma EvaluateKeepsLock(m: Record, kind: Kind, target: real, observed: Option<real>, delivered: bool)
    requires LockHeld(m, kind, target)
    ensures LockHeld(Evaluate(m, kind, target, observed, delivered).record, kind, target)
  {
  }

  lemma {:induction false} ReplayKeepsLock(m: Record, kind: Kind, target: real,
                                           observations: seq<Option<real>>, deliveries: seq<bool>)
    requires |deliveries| == |observations| && LockHeld(m, kind, target)
    ensures LockHeld(Replay(m, kind, target, observations, deliveries).0, kind, target)
    decreases |observations|
  {
    if observations != [] {
      var o := Evaluate(m, kind, target, observations[0], deliveries[0]);
      EvaluateKeepsLock(m, kind, target, observations[0], deliveries[0]);
      ReplayKeepsLock(o.record, kind, target, observations[1..], deliveries[1..]);
    }
  }

  /** A check of one commodity leaves the other commodity's entries as they were. */
  lemma EvaluateLeavesOtherKind(m: Record, kind: Kind, other: Kind, target: real,
                                observed: Option<real>, delivered: bool)
    requires kind != other
    ensures var r := Evaluate(m, kind, target, observed, delivered).record;
            (forall k | k in {PriceKey(other), NotifiedKey(other)} :: (k in r <==> k in m) && (k in m ==> r[k] == m[k]))
            && Notified(r, other) == Notified(m, other)
  {
    KeysDistinct(kind, other);
    KeysDistinct(other, kind);
  }

  /**
    Checking the same observation again, after a check whose alert (if any)
    was delivered, changes nothing and attempts nothing.
   */
  lemma RecheckIsIdempotent(m: Record, kind: Kind, target: real, price: real, delivered: bool)
    ensures var first := Evaluate(m, kind, target, Some(price), true);
            Evaluate(first.record, kind, target, Some(price), delivered) == Outcome(first.record, false)
  {
    var first := Evaluate(m, kind, target, Some(price), true);
    var second := Evaluate(first.record, kind, target, Some(price), delivered);
    assert second.record == first.record;
  }

  /** A failed delivery leaves the commodity armed, so the next run tries again. */
  lemma FailedDeliveryRetries(m: Record, kind: Kind, target: real, price: real, next: bool)
    requires price < target && !Notified(m, kind)
    ensures var first := Evaluate(m, kind, target, Some(price), false);
            first.attempted && !Notified(first.record, kind)
            && Evaluate(first.record, kind, target, Some(price), next).attempted
  {
  }

  /** While notified, prices that stay below the target never alert again. */
  lemma {:induction false} SteadyLowPriceNeverRenotifies(m: Record, kind: Kind, target: real,
                                                         observations: seq<Option<real>>, deliveries: seq<bool>)
    requires |deliveries| == |observations| && Notified(m, kind)
    requires forall i :: 0 <= i < |observations| ==> observations[i].Some? && observations[i].value < target
    ensures var r := Replay(m, kind, target, observations, deliveries);
            r.1 == 0 && Notified(r.0, kind)
    decreases |observations|
  {
    if observations != [] {
      var o := Evaluate(m, kind, target, observations[0], deliveries[0]);
      SteadyLowPriceNeverRenotifies(o.record, kind, target, observations[1..], deliveries[1..]);
    }
  }

  /** From armed, a run of below-target prices with every message delivered alerts exactly once. */
  lemma SustainedDipAlertsOnce(m: Record, kind: Kind, target: real,
                               observations: seq<Option<real>>, deliveries: seq<bool>)
    requires |deliveries| == |observations| > 0 && !Notified(m, kind)
    requires forall i :: 0 <= i < |observations| ==> observations[i].Some? && observations[i].value < target
    requires forall i :: 0 <= i < |deliveries| ==> deliveries[i]
    ensures var r := Replay(m, kind, target, observations, deliveries);
            r.1 == 1 && Notified(r.0, kind)
  {
    var o := Evaluate(m, kind, target, observations[0], deliveries[0]);
    assert o.attempted && Notified(o.record, kind);
    SteadyLowPriceNeverRenotifies(o.record, kind, target, observations[1..], deliveries[1..]);
  }

  /** Observations that fail to arrive leave the record as it was and attempt nothing. */
  lemma {:induction false} MissingObservationsChangeNothing(m: Record, kind: Kind, target: real,
                                                            observations: seq<Option<real>>, deliveries: seq<bool>)
    requires |deliveries| == |observations|
    requires forall i :: 0 <= i < |observations| ==> observations[i].None?
    ensures Replay(m, kind, target, observations, deliveries) == (m, 0)
    decreases |observations|
  {
    if observations != [] {
      MissingObservationsChangeNothing(m, kind, target, observations[1..], deliveries[1..]);
    }
  }

  /**
    Hysteresis: from armed, a dip, a second dip, a recovery to the target
    and a third dip, every message delivered, attempt two alerts, not three.
   */
  lemma DipRecoveryDipAlertsTwice(m: Record, kind: Kind, target: real, a: real, b: real, c: real, d: real)
    requires !Notified(m, kind) && a < target && b < target && c >= target && d < target
    ensures Replay(m, kind, target, [Some(a), Some(b), Some(c), Some(d)], [true, true, true, true]).1 == 2
  {
    var obs, ok := [Some(a), Some(b), Some(c), Some(d)], [true, true, true, true];
    var o1 := Evaluate(m, kind, target, Some(a), true);
    var o2 := Evaluate(o1.record, kind, target, Some(b), true);
    var o3 := Evaluate(o2.record, kind, target, Some(c), true);
    assert o1.attempted && Notified(o1.record, kind);
    assert !o2.attempted && Notified(o2.record, kind);
    assert !o3.attempted && !Notified(o3.record, kind);
    assert Replay(o3.record, kind, target, obs[3..], ok[3..]).1 == 1 by {
      SustainedDipAlertsOnce(o3.record, kind, target, obs[3..], ok[3..]);
    }
    assert Replay(o2.record, kind, target, obs[2..], ok[2..]).1 == 1 by {
      assert obs[2..][1..] == obs[3..] && ok[2..][1..] == ok[3..];
    }
    assert Replay(o1.record, kind, target, obs[1..], ok[1..]).1 == 1 by {
      assert obs[1..][1..] == obs[2..] && ok[1..][1..] == ok[2..];
    }
  }

  /** The same with the default electricity target and prices 0.05, 0.05, 0.12, 0.05. */
  lemma HysteresisExample()
    ensures Replay(DefaultRecord, Electricity, DefaultConfig.Target(Electricity),
                   [Some(0.05), Some(0.05), Some(0.12), Some(0.05)], [true, true, true, true]).1 == 2
  {
    assert DefaultConfig.Target(Electricity) == 0.11;
    DefaultLockHeld(Electricity, 0.11);
    DipRecoveryDipAlertsTwice(DefaultRecord, Electricity, 0.11, 0.05, 0.05, 0.12, 0.05);
  }

}
