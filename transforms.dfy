/** The small sequence and string transforms inside the chart builders:
    date labels, the element-wise sales difference and the zips of parallel
    arrays into points. Each keeps length and order, and each has an inverse
    or a pointwise characterisation proved about it. */
module Transforms {

  import opened Options
  import opened Decimal
  import opened ChartOptions

  /** `7月${d}日`: an exchange-rate date as a July day label. */
  function JulyDayLabel(d: int): string {
    "7月" + IntToDecimal(d) + "日"
  }

  /** `${d}日`: a temperature date as a day label. */
  function DayLabel(d: int): string {
    IntToDecimal(d) + "日"
  }

  /** Reads the day back out of a July day label. */
  function ParseJulyDayLabel(s: string): Option<int> {
    if |s| >= 3 && s[0] == '7' && s[1] == '月' && s[|s| - 1] == '日'
    then ParseDecimal(s[2..|s| - 1]) else None
  }

  /** Reads the day back out of a day label. */
  function ParseDayLabel(s: string): Option<int> {
    if |s| >= 1 && s[|s| - 1] == '日' then ParseDecimal(s[..|s| - 1]) else None
  }

  lemma JulyDayLabelParses(d: int)
    ensures ParseJulyDayLabel(JulyDayLabel(d)) == Some(d)
  {
    var s := JulyDayLabel(d);
    NatToDecimalDigits(if d < 0 then -d else d);
    assert s[2..|s| - 1] == IntToDecimal(d);
    ParseRendered(d);
  }

  lemma DayLabelParses(d: int)
    ensures ParseDayLabel(DayLabel(d)) == Some(d)
  {
    var s := DayLabel(d);
    assert s[..|s| - 1] == IntToDecimal(d);
    ParseRendered(d);
  }

  /** A text reads back as July day d exactly when it is the label of d. */
  lemma JulyDayLabelParseExact(s: string, d: int)
    ensures ParseJulyDayLabel(s) == Some(d) <==> s == JulyDayLabel(d)
  {
    if s == JulyDayLabel(d) {
      JulyDayLabelParses(d);
    }
    if ParseJulyDayLabel(s) == Some(d) {
      var t := s[2..|s| - 1];
      ParseIsInverse(t, d);
      assert s == s[..2] + t + [s[|s| - 1]];
      assert s[..2] == "7月";
    }
  }

  /** A text reads back as day d exactly when it is the label of d. */
  lemma DayLabelParseExact(s: string, d: int)
    ensures ParseDayLabel(s) == Some(d) <==> s == DayLabel(d)
  {
    if s == DayLabel(d) {
      DayLabelParses(d);
    }
    if ParseDayLabel(s) == Some(d) {
      var t := s[..|s| - 1];
      ParseIsInverse(t, d);
      assert s == t + [s[|s| - 1]];
    }
  }

  /** `dates.map(d => `7月${d}日`)`: one label per date, in order, each of
      which reads back as its own date. */
  function JulyDayLabels(dates: seq<int>): (labels: seq<string>)
    ensures |labels| == |dates|
    ensures forall i :: 0 <= i < |dates| ==> ParseJulyDayLabel(labels[i]) == Some(dates[i])
  {
    var labels := seq(|dates|, i requires 0 <= i < |dates| => JulyDayLabel(dates[i]));
    assert forall i :: 0 <= i < |dates| ==> ParseJulyDayLabel(labels[i]) == Some(dates[i]) by {
      forall i | 0 <= i < |dates| { JulyDayLabelParses(dates[i]); }
    }
    labels
  }

  /** `dates.map(d => `${d}日`)`: one label per date, in order, each of
      which reads back as its own date. */
  function DayLabels(dates: seq<int>): (labels: seq<string>)
    ensures |labels| == |dates|
    ensures forall i :: 0 <= i < |dates| ==> ParseDayLabel(labels[i]) == Some(dates[i])
  {
    var labels := seq(|dates|, i requires 0 <= i < |dates| => DayLabel(dates[i]));
    assert forall i :: 0 <= i < |dates| ==> ParseDayLabel(labels[i]) == Some(dates[i]) by {
      forall i | 0 <= i < |dates| { DayLabelParses(dates[i]); }
    }
    labels
  }

  /** Distinct dates give distinct category labels. */
  lemma JulyDayLabelsDistinct(dates: seq<int>, i: nat, j: nat)
    requires i < |dates| && j < |dates| && dates[i] != dates[j]
    ensures JulyDayLabels(dates)[i] != JulyDayLabels(dates)[j]
  {
  }

  lemma DayLabelsDistinct(dates: seq<int>, i: nat, j: nat)
    requires i < |dates| && j < |dates| && dates[i] != dates[j]
    ensures DayLabels(dates)[i] != DayLabels(dates)[j]
  {
  }

  /** `salesA.map((val, idx) => val - salesC[idx])`. */
  function SalesDifference(a: seq<Number>, c: seq<Number>): (d: seq<Number>)
    requires |a| <= |c|
    ensures |d| == |a|
    ensures forall i :: 0 <= i < |a| ==> d[i] == a[i] - c[i]
  {
    if |a| == 0 then [] else [a[0] - c[0]] + SalesDifference(a[1..], c[1..])
  }

  /** `x.map((x, i) => [x, y[i], values[i]])`. */
  function ZipTriples(x: seq<Number>, y: seq<Number>, v: seq<Number>): (t: seq<(Number, Number, Number)>)
    requires |x| <= |y| && |x| <= |v|
    ensures |t| == |x|
    ensures forall i :: 0 <= i < |x| ==> t[i] == (x[i], y[i], v[i])
  {
    if |x| == 0 then [] else [(x[0], y[0], v[0])] + ZipTriples(x[1..], y[1..], v[1..])
  }

  /** `x.map((x, i) => [x, y[i]])`. */
  function ZipPairs(x: seq<Number>, y: seq<Number>): (p: seq<(Number, Number)>)
    requires |x| <= |y|
    ensures |p| == |x|
    ensures forall i :: 0 <= i < |x| ==> p[i] == (x[i], y[i])
  {
    if |x| == 0 then [] else [(x[0], y[0])] + ZipPairs(x[1..], y[1..])
  }

  /** Splits pairs back into their two coordinates. */
  function UnzipPairs(p: seq<(Number, Number)>): (seq<Number>, seq<Number>) {
    (seq(|p|, i requires 0 <= i < |p| => p[i].0), seq(|p|, i requires 0 <= i < |p| => p[i].1))
  }

  /** Splits triples back into their three coordinates. */
  function UnzipTriples(t: seq<(Number, Number, Number)>): (seq<Number>, seq<Number>, seq<Number>) {
    (seq(|t|, i requires 0 <= i < |t| => t[i].0),
     seq(|t|, i requires 0 <= i < |t| => t[i].1),
     seq(|t|, i requires 0 <= i < |t| => t[i].2))
  }

  /** Unzipping the triples gives back x and the matching prefixes of y and values. */
  lemma UnzipZipTriples(x: seq<Number>, y: seq<Number>, v: seq<Number>)
    requires |x| <= |y| && |x| <= |v|
    ensures UnzipTriples(ZipTriples(x, y, v)) == (x, y[..|x|], v[..|x|])
  {
    var u := UnzipTriples(ZipTriples(x, y, v));
    assert u.0 == x;
    assert u.1 == y[..|x|];
    assert u.2 == v[..|x|];
  }

  /** Unzipping the pairs gives back x and the matching prefix of y. */
  lemma UnzipZipPairs(x: seq<Number>, y: seq<Number>)
    requires |x| <= |y|
    ensures UnzipPairs(ZipPairs(x, y)) == (x, y[..|x|])
  {
    var u := UnzipPairs(ZipPairs(x, y));
    assert u.0 == x;
    assert u.1 == y[..|x|];
  }
}
