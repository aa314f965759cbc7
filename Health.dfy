/**
 * The health-record screen (components/screens/Health.tsx,
 * `HealthRecordScreen`): a simulated smartwatch link whose heart rate drifts
 * while connected, and a blood-pressure record entered through two range
 * filtered fields.
 */
module Health {
  import opened Wrappers
  import opened JsText
  import opened JsMath

  const MaxSystolic: int := 240
  const MaxDiastolic: int := 200
  const ConnectedHeartRate: int := 72

  /** A field value the range filter lets through: empty, or text whose
      `parseInt` is a number from 0 to `max`. */
  predicate InRangeText(s: string, max: int) {
    s == "" || (ParseInt(s).Some? && 0 <= ParseInt(s).value <= max)
  }

  /**
   * The `onChange` of a numeric field: clearing is always taken, other text
   * only when it reads as a number from 0 to `max`; anything else leaves the
   * field as it was.
   */
  function RangeInput(current: string, typed: string, max: int): (r: string)
    ensures r == typed || r == current
    ensures r == typed <== InRangeText(typed, max)
    ensures InRangeText(current, max) ==> InRangeText(r, max)
  {
    if typed == "" then ""
    else match ParseInt(typed)
      case Some(n) => if 0 <= n <= max then typed else current
      case None => current
  }

  /** Text above the bound is refused. */
  lemma RangeInputRefusesAboveBound(current: string, n: nat, max: int)
    requires n > max
    ensures RangeInput(current, NatToString(n), max) == current
  {
    ParseIntOfIntToString(n, true);
  }

  /** `Math.floor(Math.random() * 5) - 2`: one step of the simulated heart rate. */
  function HeartRateStep(draw: real): (d: int)
    requires IsDraw(draw)
    ensures -2 <= d <= 2
  {
    Pick(draw, 5) - 2
  }

  /** Every step from -2 to 2 is drawn by some value of `Math.random()`. */
  lemma EveryHeartRateStepReachable(d: int)
    requires -2 <= d <= 2
    ensures IsDraw((d + 2) as real / 5.0) && HeartRateStep((d + 2) as real / 5.0) == d
  {
    EveryIndexReachable(d + 2, 5);
  }

  class HealthRecord {
    var isScanning: bool
    var isConnected: bool
    var heartRate: int
    /** The saved reading as `"sys/dia"`; `None` is no record. */
    var bloodPressure: Option<string>
    var isAdding: bool
    var systolic: string
    var diastolic: string

    /** The fields only hold what their filters let through, and the heart rate
        reads 0 whenever no watch is connected. */
    ghost predicate Valid()
      reads this
    {
      && InRangeText(systolic, MaxSystolic) && InRangeText(diastolic, MaxDiastolic)
      && (!isConnected ==> heartRate == 0)
    }

    constructor ()
      ensures Valid()
      ensures !isScanning && !isConnected && heartRate == 0
      ensures bloodPressure.None? && !isAdding && systolic == "" && diastolic == ""
    {
      isScanning, isConnected, heartRate := false, false, 0;
      bloodPressure, isAdding := None, false;
      systolic, diastolic := "", "";
    }

    /** `handleConnectBluetooth`: scanning starts; the link is made by `ResolveScan`. */
    method ConnectBluetooth()
      requires Valid()
      modifies this
      ensures Valid()
      ensures isScanning && isConnected == old(isConnected) && heartRate == old(heartRate)
      ensures bloodPressure == old(bloodPressure) && isAdding == old(isAdding)
      ensures systolic == old(systolic) && diastolic == old(diastolic)
    {
      isScanning := true;
    }

    /** The timer two seconds after scanning started: connected, at 72 beats per minute. */
    method ResolveScan()
      requires Valid() && isScanning
      modifies this
      ensures Valid()
      ensures !isScanning && isConnected && heartRate == ConnectedHeartRate
      ensures bloodPressure == old(bloodPressure) && isAdding == old(isAdding)
      ensures systolic == old(systolic) && diastolic == old(diastolic)
    {
      isScanning := false;
      isConnected := true;
      heartRate := ConnectedHeartRate;
    }

    /** `handleDisconnect`: the link is dropped and the heart rate reads 0. */
    method Disconnect()
      requires Valid()
      modifies this
      ensures Valid()
      ensures !isConnected && heartRate == 0 && isScanning == old(isScanning)
      ensures bloodPressure == old(bloodPressure) && isAdding == old(isAdding)
      ensures systolic == old(systolic) && diastolic == old(diastolic)
    {
      isConnected := false;
      heartRate := 0;
    }

    /** One tick of the interval that runs while connected: the rate moves by at most 2. */
    method HeartRateTick(draw: real)
      requires Valid() && isConnected && IsDraw(draw)
      modifies this
      ensures Valid()
      ensures heartRate == old(heartRate) + HeartRateStep(draw)
      ensures old(heartRate) - 2 <= heartRate <= old(heartRate) + 2
      ensures isConnected && isScanning == old(isScanning)
      ensures bloodPressure == old(bloodPressure) && isAdding == old(isAdding)
      ensures systolic == old(systolic) && diastolic == old(diastolic)
    {
      heartRate := heartRate + HeartRateStep(draw);
    }

    /** The "add" button: the form opens. */
    method OpenForm()
      requires Valid()
      modifies this
      ensures Valid()
      ensures isAdding && bloodPressure == old(bloodPressure)
      ensures systolic == old(systolic) && diastolic == old(diastolic)
      ensures isConnected == old(isConnected) && heartRate == old(heartRate) && isScanning == old(isScanning)
    {
      isAdding := true;
    }

    /** An edit of the systolic field, through its 0..240 filter. */
    method EditSystolic(typed: string)
      requires Valid()
      modifies this
      ensures Valid()
      ensures systolic == RangeInput(old(systolic), typed, MaxSystolic)
      ensures diastolic == old(diastolic) && bloodPressure == old(bloodPressure) && isAdding == old(isAdding)
      ensures isConnected == old(isConnected) && heartRate == old(heartRate) && isScanning == old(isScanning)
    {
      systolic := RangeInput(systolic, typed, MaxSystolic);
    }

    /** An edit of the diastolic field, through its 0..200 filter. */
    method EditDiastolic(typed: string)
      requires Valid()
      modifies this
      ensures Valid()
      ensures diastolic == RangeInput(old(diastolic), typed, MaxDiastolic)
      ensures systolic == old(systolic) && bloodPressure == old(bloodPressure) && isAdding == old(isAdding)
      ensures isConnected == old(isConnected) && heartRate == old(heartRate) && isScanning == old(isScanning)
    {
      diastolic := RangeInput(diastolic, typed, MaxDiastolic);
    }

    /** `handleSaveRecord`: with both fields filled the record becomes
        `"sys/dia"`, the fields are cleared and the form closes; otherwise nothing changes. */
    method SaveRecord()
      requires Valid()
      modifies this
      ensures Valid()
      ensures old(systolic) != "" && old(diastolic) != "" ==>
        && bloodPressure == Some(old(systolic) + "/" + old(diastolic))
        && !isAdding && systolic == "" && diastolic == ""
      ensures old(systolic) == "" || old(diastolic) == "" ==>
        bloodPressure == old(bloodPressure) && isAdding == old(isAdding)
        && systolic == old(systolic) && diastolic == old(diastolic)
      ensures isConnected == old(isConnected) && heartRate == old(heartRate) && isScanning == old(isScanning)
    {
      if systolic != "" && diastolic != "" {
        bloodPressure := Some(systolic + "/" + diastolic);
        isAdding := false;
        systolic := "";
        diastolic := "";
      }
    }

    /** `handleCancelAdd`: the fields are cleared and the form closes; the record stays. */
    method CancelAdd()
      requires Valid()
      modifies this
      ensures Valid()
      ensures !isAdding && systolic == "" && diastolic == "" && bloodPressure == old(bloodPressure)
      ensures isConnected == old(isConnected) && heartRate == old(heartRate) && isScanning == old(isScanning)
    {
      isAdding := false;
      systolic := "";
      diastolic := "";
    }

    /** `handleDeleteRecord`: no record afterwards. */
    method DeleteRecord()
      requires Valid()
      modifies this
      ensures Valid()
      ensures bloodPressure.None?
      ensures isAdding == old(isAdding) && systolic == old(systolic) && diastolic == old(diastolic)
      ensures isConnected == old(isConnected) && heartRate == old(heartRate) && isScanning == old(isScanning)
    {
      bloodPressure := None;
    }
  }

  /** The saved record reads back as the two numbers entered, each within its range. */
  lemma SavedRecordReadsBack(sys: nat, dia: nat)
    requires sys <= MaxSystolic && dia <= MaxDiastolic
    ensures var record := NatToString(sys) + "/" + NatToString(dia);
      ParseInt(BeforeFirst(record, '/')) == Some(sys)
      && InRangeText(NatToString(sys), MaxSystolic) && InRangeText(NatToString(dia), MaxDiastolic)
  {
    var s := NatToString(sys);
    assert '/' !in s;
    BeforeFirstAppend(s, '/', NatToString(dia));
    assert s + "/" + NatToString(dia) == s + ['/'] + NatToString(dia);
    ParseIntOfIntToString(sys, true);
    ParseIntOfIntToString(dia, true);
  }
}
