/** The chronic-malnutrition (DCI) screen of the second page script: a
    linear expected-height rule, a Z-score rule over an illustrative
    height-for-age reference table for ages 0 to 60 months, and the three
    reference curves its chart adds to that table. */
module Dci {
  import opened Wrappers
  import opened Series

  datatype DciStatus = Riesgo | Normal

  /** The status text the page shows. */
  function StatusText(s: DciStatus): (r: string)
    ensures r == "Riesgo de Desnutrición Crónica" <==> s == Riesgo
  {
    match s
    case Riesgo => "Riesgo de Desnutrición Crónica"
    case Normal => "Normal"
  }

  // The linear rule (the first `classify_dci`).

  /** Expected height in cm: 49.9 cm at birth plus 2.5 cm a month up to two
      years, then 90 cm plus 0.7 cm a month. */
  function ExpectedHeight(ageMonths: int): (r: real)
    ensures 0 <= ageMonths <= 60 ==> 49.9 <= r <= 115.2
  {
    if ageMonths <= 24 then 49.9 + ageMonths as real * 2.5
    else 90.0 + (ageMonths - 24) as real * 0.7
  }

  /** The linear `classify_dci(age_months, height_cm)`: at risk exactly when
      the height is below 90 % of the expected height; a height equal to
      that threshold is normal. */
  function ClassifyLinear(ageMonths: int, heightCm: real): (r: DciStatus)
    ensures r == Riesgo <==> heightCm < 0.9 * ExpectedHeight(ageMonths)
  {
    if heightCm < ExpectedHeight(ageMonths) * 0.9 then Riesgo else Normal
  }

  /** The expected height grows within each piece of the rule, but falls
      from 109.9 cm at 24 months to 90.7 cm at 25 months, so the rule is
      not monotone in age. */
  lemma ExpectedHeightShape(a: int, b: int)
    requires a <= b
    ensures b <= 24 ==> ExpectedHeight(a) <= ExpectedHeight(b)
    ensures 24 < a ==> ExpectedHeight(a) <= ExpectedHeight(b)
    ensures ExpectedHeight(24) == 109.9 && ExpectedHeight(25) == 90.7
  {
  }

  /** The linear rule is downward closed in height: a child shorter than
      one at risk of the same age is at risk too, and a taller child than a
      normal one is normal. */
  lemma LinearMonotoneInHeight(ageMonths: int, h1: real, h2: real)
    requires h1 <= h2
    ensures ClassifyLinear(ageMonths, h2) == Riesgo ==> ClassifyLinear(ageMonths, h1) == Riesgo
    ensures ClassifyLinear(ageMonths, h1) == Normal ==> ClassifyLinear(ageMonths, h2) == Normal
  {
  }

  // The WHO-style reference table (`get_who_data`).

  /** The table's three columns, one value per row. */
  datatype WhoTable = WhoTable(ageMonths: seq<int>, median: seq<real>, stdDev: seq<real>)

  /** One value per row in every column. */
  predicate WellFormed(t: WhoTable) {
    |t.ageMonths| == |t.median| == |t.stdDev|
  }

  /** Every row has a positive standard deviation. */
  predicate PositiveStdDev(t: WhoTable) {
    forall i :: 0 <= i < |t.stdDev| ==> t.stdDev[i] > 0.0
  }

  /** `mediana_z0`, line by line as the source writes it. */
  const MedianLine1: seq<real> :=
    [49.9, 54.7, 58.4, 61.4, 63.9, 66.0, 67.8, 69.2, 70.6, 71.9, 73.1, 74.5, 75.7, 76.9, 78.0, 79.1, 80.1, 81.1, 82.0, 82.9]
  const MedianLine2: seq<real> :=
    [83.8, 84.7, 85.5, 86.4, 87.2, 88.0, 88.8, 89.5, 90.3, 91.0, 91.7, 92.4, 93.0, 93.7, 94.3, 94.9, 95.5, 96.1, 96.7, 97.2]
  const MedianLine3: seq<real> :=
    [97.8, 98.4, 98.9, 99.5, 100.0, 100.6, 101.1, 101.7, 102.2, 102.8, 103.3, 103.8, 104.3, 104.8, 105.3, 105.8, 106.3, 106.8]
  const MedianLine4: seq<real> :=
    [107.3, 107.8, 108.3]

  function WhoMedians(): seq<real> {
    MedianLine1 + MedianLine2 + MedianLine3 + MedianLine4
  }

  /** `desviacion_estandar`, line by line. */
  const StdDevLine1: seq<real> :=
    [1.8, 2.1, 2.3, 2.4, 2.5, 2.5, 2.6, 2.6, 2.6, 2.6, 2.7, 2.7, 2.7, 2.7, 2.7, 2.7, 2.7, 2.7, 2.7, 2.7]
  const StdDevLine2: seq<real> :=
    [2.7, 2.7, 2.7, 2.7, 2.7, 2.7, 2.7, 2.7, 2.7, 2.7, 2.7, 2.7, 2.7, 2.7, 2.7, 2.7, 2.7, 2.7, 2.7, 2.7]
  const StdDevLine3: seq<real> := StdDevLine2
  const StdDevLine4: seq<real> := [2.7]

  function WhoStdDevs(): seq<real> {
    StdDevLine1 + StdDevLine2 + StdDevLine3 + StdDevLine4
  }

  /** Each value exceeds the one before it. */
  predicate StrictlyIncreasing(s: seq<real>) {
    forall i :: 0 < i < |s| ==> s[i - 1] < s[i]
  }

  /** Every value is positive. */
  predicate AllPositive(s: seq<real>) {
    forall i :: 0 <= i < |s| ==> s[i] > 0.0
  }

  /** Joining two increasing runs whose seam also increases gives an
      increasing run. */
  lemma IncreasingAppend(a: seq<real>, b: seq<real>)
    requires StrictlyIncreasing(a) && StrictlyIncreasing(b)
    requires a == [] || b == [] || a[|a| - 1] < b[0]
    ensures StrictlyIncreasing(a + b)
  {
    var s := a + b;
    forall i | 0 < i < |s|
      ensures s[i - 1] < s[i]
    {
      if i < |a| {
        assert s[i - 1] == a[i - 1] && s[i] == a[i];
      } else if i == |a| {
        assert s[i - 1] == a[|a| - 1] && s[i] == b[0];
      } else {
        assert s[i - 1] == b[i - 1 - |a|] && s[i] == b[i - |a|];
      }
    }
  }

  /** Joining two all-positive runs gives an all-positive run. */
  lemma PositiveAppend(a: seq<real>, b: seq<real>)
    requires AllPositive(a) && AllPositive(b)
    ensures AllPositive(a + b)
  {
    var s := a + b;
    forall i | 0 <= i < |s|
      ensures s[i] > 0.0
    {
      if i < |a| {
        assert s[i] == a[i];
      } else {
        assert s[i] == b[i - |a|];
      }
    }
  }

  /** `get_who_data()`: 61 rows keyed by the ages 0 to 60 in order, every
      standard deviation positive, medians strictly increasing with age. */
  function GetWhoData(): (t: WhoTable)
    ensures WellFormed(t) && |t.ageMonths| == 61
    ensures forall i :: 0 <= i < 61 ==> t.ageMonths[i] == i
    ensures PositiveStdDev(t)
    ensures forall i :: 0 < i < 61 ==> t.median[i - 1] < t.median[i]
  {
    ArangeLength(0, 61, 1, 61);
    WhoColumnsShape();
    WhoTable(Arange(0, 61, 1), WhoMedians(), WhoStdDevs())
  }

  /** The literal columns have 61 entries, positive deviations and
      increasing medians. */
  lemma WhoColumnsShape()
    ensures |WhoMedians()| == 61 && |WhoStdDevs()| == 61
    ensures AllPositive(WhoStdDevs())
    ensures StrictlyIncreasing(WhoMedians())
  {
    assert StrictlyIncreasing(MedianLine1);
    assert StrictlyIncreasing(MedianLine2);
    assert StrictlyIncreasing(MedianLine3);
    assert StrictlyIncreasing(MedianLine4);
    IncreasingAppend(MedianLine1, MedianLine2);
    IncreasingAppend(MedianLine1 + MedianLine2, MedianLine3);
    IncreasingAppend(MedianLine1 + MedianLine2 + MedianLine3, MedianLine4);
    assert AllPositive(StdDevLine1);
    assert AllPositive(StdDevLine2);
    assert AllPositive(StdDevLine4);
    PositiveAppend(StdDevLine1, StdDevLine2);
    PositiveAppend(StdDevLine1 + StdDevLine2, StdDevLine3);
    PositiveAppend(StdDevLine1 + StdDevLine2 + StdDevLine3, StdDevLine4);
  }

  /** The row `who_df[who_df['age_months'] == age].iloc[0]`: the first row
      with that age, if there is one. */
  function FindRow(ages: seq<int>, age: int): (r: Option<nat>)
    ensures r.None? <==> age !in ages
    ensures r.Some? ==> r.value < |ages| && ages[r.value] == age
                        && forall j :: 0 <= j < r.value ==> ages[j] != age
  {
    if ages == [] then None
    else if ages[0] == age then Some(0)
    else
      match FindRow(ages[1..], age)
      case None => None
      case Some(k) => Some(k + 1)
  }

  /** The failure of `.iloc[0]` on an empty selection. */
  datatype LookupError = NoReferenceData(ageMonths: int)

  /** The Z-score `classify_dci(age_months, height_cm, who_df)`: an age with
      no row fails; otherwise the child is at risk exactly when
      `(height - median) / sd` is below -2, so z = -2 is normal. */
  function ClassifyZScore(t: WhoTable, ageMonths: int, heightCm: real): (r: Result<DciStatus, LookupError>)
    requires WellFormed(t) && PositiveStdDev(t)
    ensures r.Err? <==> ageMonths !in t.ageMonths
    ensures r.Err? ==> r.error == NoReferenceData(ageMonths)
    ensures r.Ok? ==>
      var k := FindRow(t.ageMonths, ageMonths).value;
      (r.value == Riesgo <==> (heightCm - t.median[k]) / t.stdDev[k] < -2.0)
  {
    match FindRow(t.ageMonths, ageMonths)
    case None => Err(NoReferenceData(ageMonths))
    case Some(k) =>
      var zScore := (heightCm - t.median[k]) / t.stdDev[k];
      if zScore < -2.0 then Ok(Riesgo) else Ok(Normal)
  }

  /** Dividing by a positive deviation: z < -2 exactly when the height is
      below the median by more than two deviations. */
  lemma BelowTwoDeviations(height: real, median: real, sd: real)
    requires sd > 0.0
    ensures (height - median) / sd < -2.0 <==> height < median - 2.0 * sd
  {
    var z := (height - median) / sd;
    assert z * sd == height - median;
    if z < -2.0 {
      assert z * sd < -2.0 * sd;
    } else {
      assert z * sd >= -2.0 * sd;
    }
  }

  /** On a table whose row `i` is keyed by age `i`, an age has a row
      exactly when it is a row number, that row is the age's own, and the
      child is at risk exactly when strictly below the row's "Z-score -2"
      value. */
  lemma ZScoreOnAgeKeyedTable(t: WhoTable, ageMonths: int, heightCm: real)
    requires WellFormed(t) && PositiveStdDev(t)
    requires forall i :: 0 <= i < |t.ageMonths| ==> t.ageMonths[i] == i
    ensures ClassifyZScore(t, ageMonths, heightCm).Ok? <==> 0 <= ageMonths < |t.ageMonths|
    ensures 0 <= ageMonths < |t.ageMonths| ==>
      (ClassifyZScore(t, ageMonths, heightCm) == Ok(Riesgo)
       <==> heightCm < ZMinus2(t.median, t.stdDev)[ageMonths])
  {
    if 0 <= ageMonths < |t.ageMonths| {
      assert t.ageMonths[ageMonths] == ageMonths;
      var k := FindRow(t.ageMonths, ageMonths).value;
      assert t.ageMonths[k] == k;
      BelowTwoDeviations(heightCm, t.median[k], t.stdDev[k]);
    } else {
      assert forall i :: 0 <= i < |t.ageMonths| ==> t.ageMonths[i] != ageMonths;
    }
  }

  /** On the page's table every age of the slider, 1 to 60 months (and 0),
      has its row, and the child is at risk exactly when strictly below
      that age's "Z-score -2" value; ages outside 0..60 fail. */
  lemma ZScoreOnWhoData(ageMonths: int, heightCm: real)
    ensures var t := GetWhoData();
      && (ClassifyZScore(t, ageMonths, heightCm).Ok? <==> 0 <= ageMonths <= 60)
      && (0 <= ageMonths <= 60 ==>
            (ClassifyZScore(t, ageMonths, heightCm) == Ok(Riesgo)
             <==> heightCm < ZMinus2(t.median, t.stdDev)[ageMonths]))
  {
    ZScoreOnAgeKeyedTable(GetWhoData(), ageMonths, heightCm);
  }

  // The reference curves of the chart.

  /** `mediana_z0 + desviacion_estandar * 2`. */
  function ZPlus2(median: seq<real>, sd: seq<real>): (r: seq<real>)
    requires |median| == |sd|
    ensures |r| == |median|
  {
    seq(|median|, i requires 0 <= i < |median| => median[i] + sd[i] * 2.0)
  }

  /** `mediana_z0 - desviacion_estandar * 2`. */
  function ZMinus2(median: seq<real>, sd: seq<real>): (r: seq<real>)
    requires |median| == |sd|
    ensures |r| == |median|
  {
    seq(|median|, i requires 0 <= i < |median| => median[i] - sd[i] * 2.0)
  }

  /** The three curves have one value per row and, where the deviation is
      positive, the upper curve lies above the median, which lies above the
      lower curve, each two deviations away. */
  lemma ZBandsOrdered(median: seq<real>, sd: seq<real>)
    requires |median| == |sd|
    requires forall i :: 0 <= i < |sd| ==> sd[i] > 0.0
    ensures |ZPlus2(median, sd)| == |median| == |ZMinus2(median, sd)|
    ensures forall i :: 0 <= i < |median| ==>
      ZMinus2(median, sd)[i] < median[i] < ZPlus2(median, sd)[i]
    ensures forall i :: 0 <= i < |median| ==>
      ZPlus2(median, sd)[i] - median[i] == median[i] - ZMinus2(median, sd)[i] == 2.0 * sd[i]
  {
  }

  /** The column names the chart step adds. */
  const ZPlus2Column: string := "Z-score +2"
  const Z0Column: string := "Z-score 0"
  const ZMinus2Column: string := "Z-score -2"

  /** `who_df`: the ages column and the numeric columns by name. It starts
      with "mediana_z0" and "desviacion_estandar"; the chart step adds
      three more in place. */
  class WhoFrame {
    var ageMonths: seq<int>
    var columns: map<string, seq<real>>

    /** Every column has one value per row. */
    ghost predicate Valid()
      reads this
    {
      forall c :: c in columns ==> |columns[c]| == |ageMonths|
    }

    /** `pd.DataFrame(get_who_data())`. */
    constructor FromWhoData()
      ensures Valid()
      ensures ageMonths == GetWhoData().ageMonths
      ensures columns == map["mediana_z0" := GetWhoData().median,
                             "desviacion_estandar" := GetWhoData().stdDev]
    {
      var t := GetWhoData();
      ageMonths := t.ageMonths;
      columns := map["mediana_z0" := t.median, "desviacion_estandar" := t.stdDev];
    }

    /** The chart step: adds (or replaces) the columns "Z-score +2",
        "Z-score 0" and "Z-score -2" computed from the median and the
        deviation; the ages and every other column stay as they were. */
    method AddZScoreColumns()
      requires Valid()
      requires "mediana_z0" in columns && "desviacion_estandar" in columns
      modifies this
      ensures Valid()
      ensures ageMonths == old(ageMonths)
      ensures var m, s := old(columns)["mediana_z0"], old(columns)["desviacion_estandar"];
        columns == old(columns)[ZPlus2Column := ZPlus2(m, s)][Z0Column := m][ZMinus2Column := ZMinus2(m, s)]
    {
      var m, s := columns["mediana_z0"], columns["desviacion_estandar"];
      columns := columns[ZPlus2Column := ZPlus2(m, s)];
      columns := columns[Z0Column := m];
      columns := columns[ZMinus2Column := ZMinus2(m, s)];
    }
  }

  /** After the chart step on the page's table, the three added columns
      have 61 values each and are strictly ordered at every age, and the
      Z-score rule flags exactly the heights below the lower one. */
  method ChartColumns() returns (frame: WhoFrame)
    ensures fresh(frame) && frame.Valid()
    ensures ZPlus2Column in frame.columns && Z0Column in frame.columns && ZMinus2Column in frame.columns
    ensures forall c :: c in [ZPlus2Column, Z0Column, ZMinus2Column] ==> |frame.columns[c]| == 61
    ensures forall i :: 0 <= i < 61 ==>
      frame.columns[ZMinus2Column][i] < frame.columns[Z0Column][i] < frame.columns[ZPlus2Column][i]
    ensures forall a, h :: 0 <= a <= 60 ==>
      (ClassifyZScore(GetWhoData(), a, h) == Ok(Riesgo) <==> h < frame.columns[ZMinus2Column][a])
  {
    frame := new WhoFrame.FromWhoData();
    frame.AddZScoreColumns();
    var t := GetWhoData();
    ZBandsOrdered(t.median, t.stdDev);
    forall a, h | 0 <= a <= 60
      ensures ClassifyZScore(t, a, h) == Ok(Riesgo) <==> h < ZMinus2(t.median, t.stdDev)[a]
    {
      ZScoreOnWhoData(a, h);
    }
  }

  // Which rule the page uses.

  /** How the page shows the status: an error box for the risk, a success
      box otherwise. */
  datatype Alert = ErrorBox | SuccessBox

  datatype Submission = Submission(status: DciStatus, alert: Alert)

  /** The analysis after "Analizar". The call at the top of the results
      resolves `classify_dci` to the linear rule: the Z-score rule is bound
      to the same name only further down the script, and its own call is
      commented out. The same status is the one sent for recommendations.
      The page reaches this point only once an API key has been typed in:
      the whole analysis sits in the branch for a non-empty key. */
  function Analyze(ageMonths: int, heightCm: real): (r: Submission)
    ensures r.status == ClassifyLinear(ageMonths, heightCm)
    ensures r.alert == ErrorBox <==> r.status == Riesgo
  {
    var status := ClassifyLinear(ageMonths, heightCm);
    Submission(status, if StatusText(status) == "Riesgo de Desnutrición Crónica" then ErrorBox else SuccessBox)
  }

  /** The two rules disagree, so the shadowing decides what the page
      shows: at 24 months and 90 cm the linear rule finds a risk and the
      Z-score rule does not; at 1 month and 48 cm it is the other way
      round. */
  lemma RulesDisagree()
    ensures Analyze(24, 90.0).status == Riesgo
    ensures ClassifyZScore(GetWhoData(), 24, 90.0) == Ok(Normal)
    ensures Analyze(1, 48.0).status == Normal
    ensures ClassifyZScore(GetWhoData(), 1, 48.0) == Ok(Riesgo)
  {
    ZScoreOnWhoData(24, 90.0);
    ZScoreOnWhoData(1, 48.0);
    WhoRows1And24();
  }

  /** Two rows of the page's table. */
  lemma WhoRows1And24()
    ensures var t := GetWhoData();
      && ZMinus2(t.median, t.stdDev)[1] == 50.5
      && ZMinus2(t.median, t.stdDev)[24] == 81.8
  {
    var m, s := WhoMedians(), WhoStdDevs();
    assert m[1] == MedianLine1[1] == 54.7 && s[1] == StdDevLine1[1] == 2.1;
    assert m[24] == MedianLine2[4] == 87.2 && s[24] == StdDevLine2[4] == 2.7;
  }
}
