/**
 * Two metric cards: the average session time, written as minutes and
 * seconds (components/metrics/AvgSessionTimeCard.tsx), and the weekly trend
 * with its sign, magnitude and encouragement message
 * (components/metrics/cards/WeeklyTrendCard.tsx). A card's rendering is
 * reduced to which of its states shows and the text it carries.
 */
module MetricCards {
  import opened Wrappers
  import opened JsText
  import JsMath

  /** `formattedTime`: `{⌊s/60⌋}m {s % 60}s`, with JavaScript's truncated remainder. */
  function FormattedTime(avgSeconds: int): (t: string)
    ensures avgSeconds >= 0 ==>
      t == NatToString(avgSeconds / 60) + "m " + NatToString(avgSeconds % 60) + "s"
  {
    IntToString(avgSeconds / 60) + "m " + IntToString(JsMath.Rem(avgSeconds, 60)) + "s"
  }

  /** The two parts of a non-negative time: seconds below a minute, and together the whole time. */
  lemma MinutesAndSeconds(avgSeconds: nat)
    ensures 0 <= JsMath.Rem(avgSeconds, 60) < 60
    ensures (avgSeconds / 60) * 60 + JsMath.Rem(avgSeconds, 60) == avgSeconds
  {
  }

  /** The minutes part is everything before the `m`; the seconds part sits
      between the space and the final `s`. */
  lemma FormattedTimeParts(avgSeconds: nat)
    ensures var t := FormattedTime(avgSeconds);
      var minutes := NatToString(avgSeconds / 60);
      && BeforeFirst(t, 'm') == minutes
      && t[|minutes| + 2 .. |t| - 1] == NatToString(avgSeconds % 60)
  {
    var t := FormattedTime(avgSeconds);
    var minutes := NatToString(avgSeconds / 60);
    var seconds := NatToString(avgSeconds % 60);
    assert 'm' !in minutes by {
      forall i | 0 <= i < |minutes| ensures minutes[i] != 'm' {
        assert IsDigit(minutes[i]);
      }
    }
    assert t == minutes + ['m'] + (" " + seconds + "s");
    BeforeFirstAppend(minutes, 'm', " " + seconds + "s");
    assert t[|minutes| + 2 .. |t| - 1] == seconds;
  }

  /** Different non-negative times are written differently: the card's text
      gives the time back. */
  lemma FormattedTimeInjective(a: nat, b: nat)
    requires FormattedTime(a) == FormattedTime(b)
    ensures a == b
  {
    FormattedTimeParts(a);
    FormattedTimeParts(b);
    NatToStringValue(a / 60);
    NatToStringValue(b / 60);
    NatToStringValue(a % 60);
    NatToStringValue(b % 60);
  }

  /** What a card shows: nothing, a loading placeholder, or its text. */
  datatype CardView = Hidden | Placeholder | Shown(text: string)

  /** The average-session-time card: an error hides it, loading shows the
      placeholder, otherwise the formatted time. */
  function AvgSessionCard(avgSeconds: int, loading: bool, error: Option<string>): (v: CardView)
    ensures v.Hidden? <==> Truthy(error)
    ensures v.Placeholder? <==> !Truthy(error) && loading
    ensures v.Shown? ==> v.text == FormattedTime(avgSeconds)
  {
    if Truthy(error) then Hidden
    else if loading then Placeholder
    else Shown(FormattedTime(avgSeconds))
  }

  const NoTrendMessage: string := "Sin datos suficientes para tendencia semanal."
  const CaregiverUpMessage: string := "El paciente muestra una mejora en su desempeño esta semana. ¡Buen progreso!"
  const CaregiverDownMessage: string := "Se observa una ligera disminución en el desempeño semanal."
  const PatientUpMessage: string := "¡Excelente trabajo! Has mejorado tu precisión respecto a la semana pasada."
  const PatientDownMessage: string := "Sigue practicando, cada esfuerzo cuenta para mantener tu mente activa."

  /** The weekly trend row; a missing change is `None`. */
  datatype WeeklyTrend = WeeklyTrend(currentWeekScore: real, previousWeekScore: real, percentageChange: Option<real>)

  /** `percentage_change || 0`. */
  function ChangeOrZero(trend: WeeklyTrend): real {
    trend.percentageChange.GetOr(0.0)
  }

  /** `isPositive`: a missing or zero change counts as positive. */
  predicate IsPositive(trend: WeeklyTrend) {
    ChangeOrZero(trend) >= 0.0
  }

  /** `absChange`: the size of the change, never negative. */
  function AbsChange(trend: WeeklyTrend): (a: real)
    ensures a >= 0.0
    ensures a == ChangeOrZero(trend) || a == -ChangeOrZero(trend)
  {
    if ChangeOrZero(trend) >= 0.0 then ChangeOrZero(trend) else -ChangeOrZero(trend)
  }

  /** The message for the reader and the direction of the trend. */
  function TrendMessage(forCaregiver: bool, positive: bool): (m: string)
    ensures forCaregiver && positive ==> m == CaregiverUpMessage
    ensures forCaregiver && !positive ==> m == CaregiverDownMessage
    ensures !forCaregiver && positive ==> m == PatientUpMessage
    ensures !forCaregiver && !positive ==> m == PatientDownMessage
  {
    if forCaregiver then (if positive then CaregiverUpMessage else CaregiverDownMessage)
    else (if positive then PatientUpMessage else PatientDownMessage)
  }

  /** The four messages differ, so a message tells whom it addresses and which way the trend went. */
  lemma TrendMessageIdentifiesCase(c1: bool, p1: bool, c2: bool, p2: bool)
    requires TrendMessage(c1, p1) == TrendMessage(c2, p2)
    ensures c1 == c2 && p1 == p2
  {
    assert |CaregiverUpMessage| == 75 && |CaregiverDownMessage| == 58;
    assert |PatientUpMessage| == 74 && |PatientDownMessage| == 70;
  }

  datatype TrendView = Skeleton | NoData | Trend(positive: bool, absChange: real, message: string)

  /** The weekly-trend card: loading shows the skeleton, no trend the no-data
      text, otherwise the direction, the size of the change and the message. */
  function WeeklyTrendCard(trend: Option<WeeklyTrend>, loading: bool, forCaregiver: bool): (v: TrendView)
    ensures v.Skeleton? <==> loading
    ensures v.NoData? <==> !loading && trend.None?
    ensures v.Trend? ==>
      && trend.Some?
      && v.positive == IsPositive(trend.value)
      && v.absChange == AbsChange(trend.value)
      && v.message == TrendMessage(forCaregiver, v.positive)
  {
    if loading then Skeleton
    else if trend.None? then NoData
    else Trend(IsPositive(trend.value), AbsChange(trend.value), TrendMessage(forCaregiver, IsPositive(trend.value)))
  }

  /** The card loses nothing about the change: its direction and size give it
      back, and a missing change reads as no change upward. */
  lemma TrendCardKeepsChange(trend: WeeklyTrend, forCaregiver: bool)
    ensures var v := WeeklyTrendCard(Some(trend), false, forCaregiver);
      && (if v.positive then v.absChange else -v.absChange) == ChangeOrZero(trend)
      && (trend.percentageChange.None? ==> v.positive && v.absChange == 0.0)
  {
  }
}
