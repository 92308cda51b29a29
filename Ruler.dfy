/** The horizontal and vertical rulers beside the page.  A ruler steps from its
    anchor (where position 0 of the page appears on the ruler) in units of the
    current measurement: forward while the position is inside the ruler, labelled
    0, 1, 2, ..., and backward from one unit before the anchor down to one unit
    before the ruler's start, labelled 1, 2, 3, ....  Every unit gets a full-length
    line, seven minor ticks at eighths of the unit, and its number.  Instead of
    drawing, the model returns one record per unit. */
module Rulers {
  import opened Units

  datatype Axis = Horizontal | Vertical

  /** A minor tick: its position along the ruler and its length across it. */
  datatype Tick = Tick(at: real, length: nat)

  /** A piece of label text and the point it is drawn at, in ruler coordinates. */
  datatype Label = Label(text: string, x: real, y: real)

  /** One unit of the ruler: the full-length line at `at`, the unit's number, its
      minor ticks and its label text. */
  datatype UnitMark = UnitMark(at: real, number: nat, ticks: seq<Tick>, labels: seq<Label>)

  // ---------------------------------------------------------------------------
  // Termination of loops that step a real position by a positive amount

  /** How many more steps of `step` fit while the gap to the bound is non-negative. */
  function Steps(gap: real, step: real): nat
    requires step > 0.0
  {
    if gap >= 0.0 then (gap / step).Floor + 1 else 0
  }

  lemma StepsShrink(gap: real, step: real)
    requires step > 0.0 && gap >= 0.0
    ensures Steps(gap - step, step) < Steps(gap, step)
  {
    assert step / step == 1.0;
    assert (gap - step) / step == gap / step - step / step;
  }

  /** One more unit further along: (k + 1)·m = k·m + m. */
  lemma MulStep(k: int, m: real)
    ensures (k + 1) as real * m == k as real * m + m
  {
  }

  // ---------------------------------------------------------------------------
  // Decimal labels

  function DigitChar(d: nat): (c: char)
    requires d < 10
    ensures '0' <= c <= '9' && c as int - '0' as int == d
  {
    (d + '0' as int) as char
  }

  /** The decimal text of a number, as the framework prints a non-negative int. */
  function NatToString(n: nat): (s: string)
    ensures |s| >= 1
    ensures forall k :: 0 <= k < |s| ==> '0' <= s[k] <= '9'
    ensures |s| == 1 <==> n < 10
    ensures s[0] == '0' ==> n == 0
  {
    if n < 10 then [DigitChar(n)] else NatToString(n / 10) + [DigitChar(n % 10)]
  }

  /** Reading a string of decimal digits back as a number. */
  function ParseDecimal(s: string): nat
    requires forall k :: 0 <= k < |s| ==> '0' <= s[k] <= '9'
  {
    if s == [] then 0
    else 10 * ParseDecimal(s[..|s| - 1]) + (s[|s| - 1] as int - '0' as int)
  }

  /** The label text spells the unit's number. */
  lemma {:induction false} ParseNatToString(n: nat)
    ensures ParseDecimal(NatToString(n)) == n
  {
    var s := NatToString(n);
    if n >= 10 {
      ParseNatToString(n / 10);
      assert s[..|s| - 1] == NatToString(n / 10);
    }
  }

  // ---------------------------------------------------------------------------
  // Minor ticks

  /** Length of the `ntc`-th minor tick: 8 in the middle, 4 and 6 alternating around. */
  function TickLength(ntc: nat): (len: nat)
    ensures ntc < 7 ==> len == [4, 6, 4, 8, 4, 6, 4][ntc]
    ensures 4 <= len <= 8
    ensures ntc == 3 ==> len == 8
    ensures ntc != 3 ==> len == if ntc % 2 == 0 then 4 else 6
  {
    if ntc == 3 then 8 else if ntc % 2 == 0 then 4 else 6
  }

  /** The minor ticks the inner loop emits from offset `j` on: one every `n` while
      still inside the unit of size `m`. */
  function MinorsFrom(d: real, j: real, n: real, m: real, ntc: nat): seq<Tick>
    requires n > 0.0
    decreases Steps(m - j, n)
  {
    if j < m then
      StepsShrink(m - j, n);
      [Tick(d + j, TickLength(ntc))] + MinorsFrom(d, j + n, n, m, ntc + 1)
    else []
  }

  /** The minor ticks of the unit starting at `d`: the inner loop starts at an
      eighth of the unit and steps by an eighth. */
  function Minors(d: real, m: real): seq<Tick>
    requires m > 0.0
  {
    MinorsFrom(d, m / 8.0, m / 8.0, m, 0)
  }

  /** Seven minor ticks per unit, at eighths of the unit, 4, 6, 4, 8, 4, 6, 4 long. */
  lemma MinorsShape(d: real, m: real)
    requires m > 0.0
    ensures Minors(d, m) == [
      Tick(d + m / 8.0, 4), Tick(d + 2.0 * m / 8.0, 6), Tick(d + 3.0 * m / 8.0, 4),
      Tick(d + 4.0 * m / 8.0, 8), Tick(d + 5.0 * m / 8.0, 4), Tick(d + 6.0 * m / 8.0, 6),
      Tick(d + 7.0 * m / 8.0, 4)]
  {
    var n := m / 8.0;
    assert MinorsFrom(d, 8.0 * n, n, m, 7) == [];
    assert MinorsFrom(d, 7.0 * n, n, m, 6) == [Tick(d + 7.0 * n, 4)];
    assert MinorsFrom(d, 6.0 * n, n, m, 5) == [Tick(d + 6.0 * n, 6)] + MinorsFrom(d, 7.0 * n, n, m, 6);
    assert MinorsFrom(d, 5.0 * n, n, m, 4) == [Tick(d + 5.0 * n, 4)] + MinorsFrom(d, 6.0 * n, n, m, 5);
    assert MinorsFrom(d, 4.0 * n, n, m, 3) == [Tick(d + 4.0 * n, 8)] + MinorsFrom(d, 5.0 * n, n, m, 4);
    assert MinorsFrom(d, 3.0 * n, n, m, 2) == [Tick(d + 3.0 * n, 4)] + MinorsFrom(d, 4.0 * n, n, m, 3);
    assert MinorsFrom(d, 2.0 * n, n, m, 1) == [Tick(d + 2.0 * n, 6)] + MinorsFrom(d, 3.0 * n, n, m, 2);
    assert MinorsFrom(d, n, n, m, 0) == [Tick(d + n, 4)] + MinorsFrom(d, 2.0 * n, n, m, 1);
  }

  /** The inner loop of both rulers' OnRender. */
  method MinorTicks(d: real, m: real) returns (ticks: seq<Tick>)
    requires m > 0.0
    ensures ticks == Minors(d, m)
  {
    var n := m / 8.0;
    ticks := [];
    var ntc := 0;
    var j := n;
    while j < m
      invariant ticks + MinorsFrom(d, j, n, m, ntc) == Minors(d, m)
      decreases Steps(m - j, n)
    {
      StepsShrink(m - j, n);
      var w := if ntc == 3 then 8 else (if ntc % 2 == 0 then 4 else 6);
      ticks := ticks + [Tick(d + j, w)];
      ntc := ntc + 1;
      j := j + n;
    }
  }

  // ---------------------------------------------------------------------------
  // Labels

  /** One label per character of `s`, each a further 8 pixels down. */
  function Stacked(s: string, x: real, y: real): (labels: seq<Label>)
    ensures |labels| == |s|
    ensures forall z :: 0 <= z < |s| ==> labels[z] == Label([s[z]], x, y + (8 * z) as real)
  {
    seq(|s|, z requires 0 <= z < |s| => Label([s[z]], x, y + (8 * z) as real))
  }

  /** The label of unit `number` at position `d`: the horizontal ruler writes the
      number to the right of the line; the vertical ruler, whose width is `cross`,
      writes numbers below 10 as one string and larger ones one digit per line. */
  function LabelsOf(axis: Axis, number: nat, d: real, cross: real): seq<Label>
  {
    match axis
    case Horizontal => [Label(NatToString(number), d + 4.0, 1.0)]
    case Vertical =>
      if number < 10 then [Label(NatToString(number), cross - 15.0, d + 2.0)]
      else Stacked(NatToString(number), cross - 15.0, d + 2.0)
  }

  /** The vertical ruler's two label forms agree: every number is drawn one digit
      per line, a single digit being the one-string case. */
  lemma VerticalLabelsStacked(number: nat, d: real, cross: real)
    ensures LabelsOf(Vertical, number, d, cross) == Stacked(NatToString(number), cross - 15.0, d + 2.0)
  {
    if number < 10 {
      var s := NatToString(number);
      assert [s[0]] == s;
    }
  }

  /** The digit loop of the vertical ruler. */
  method StackDigits(s: string, x: real, y: real) returns (labels: seq<Label>)
    ensures labels == Stacked(s, x, y)
  {
    labels := [];
    var zt := 0;
    var k := 0;
    while k < |s|
      invariant 0 <= k <= |s| && zt == 8 * k
      invariant labels == Stacked(s, x, y)[..k]
    {
      labels := labels + [Label([s[k]], x, y + zt as real)];
      zt := zt + 8;
      k := k + 1;
    }
  }

  method DrawLabels(axis: Axis, number: nat, d: real, cross: real) returns (labels: seq<Label>)
    ensures labels == LabelsOf(axis, number, d, cross)
  {
    if axis == Horizontal {
      labels := [Label(NatToString(number), d + 4.0, 1.0)];
    } else if number < 10 {
      labels := [Label(NatToString(number), cross - 15.0, d + 2.0)];
    } else {
      labels := StackDigits(NatToString(number), cross - 15.0, d + 2.0);
    }
  }

  // ---------------------------------------------------------------------------
  // Units

  /** A unit boundary the loops visit: its position and its number. */
  datatype Major = Major(at: real, number: nat)

  /** The record drawn for the unit boundary `p`: its line, ticks and label. */
  function UnitAt(axis: Axis, p: Major, m: real, cross: real): UnitMark
    requires m > 0.0
  {
    UnitMark(p.at, p.number, Minors(p.at, m), LabelsOf(axis, p.number, p.at, cross))
  }

  /** The records for a run of unit boundaries, one each, in order. */
  function UnitsAt(axis: Axis, ps: seq<Major>, m: real, cross: real): (units: seq<UnitMark>)
    requires m > 0.0
    ensures |units| == |ps|
    ensures forall k :: 0 <= k < |ps| ==> units[k] == UnitAt(axis, ps[k], m, cross)
  {
    seq(|ps|, k requires 0 <= k < |ps| => UnitAt(axis, ps[k], m, cross))
  }

  lemma UnitsAtAppend(axis: Axis, ps: seq<Major>, p: Major, m: real, cross: real)
    requires m > 0.0
    ensures UnitsAt(axis, ps + [p], m, cross) == UnitsAt(axis, ps, m, cross) + [UnitAt(axis, p, m, cross)]
  {
  }

  /** The forward loop from position `d`, numbering from `number`, while inside
      the ruler's length `extent`. */
  function Forward(d: real, number: nat, m: real, extent: real): seq<Major>
    requires m > 0.0
    decreases Steps(extent - d, m)
  {
    if d < extent then
      StepsShrink(extent - d, m);
      [Major(d, number)] + Forward(d + m, number + 1, m, extent)
    else []
  }

  /** The backward loop from position `d`, numbering from `number`, while the
      position is no more than one unit before the ruler's start (at or after −m). */
  function Backward(d: real, number: nat, m: real): seq<Major>
    requires m > 0.0
    decreases Steps(d + m, m)
  {
    if d >= -m then
      StepsShrink(d + m, m);
      [Major(d, number)] + Backward(d - m, number + 1, m)
    else []
  }

  /** The unit boundaries a ruler visits: forward from the anchor numbered from 0,
      then backward from one unit before it numbered from 1. */
  function Majors(anchor: real, m: real, extent: real): seq<Major>
    requires m > 0.0
  {
    Forward(anchor, 0, m, extent) + Backward(anchor - m, 1, m)
  }

  /** Everything a ruler draws, one record per unit boundary it visits. */
  function Marks(axis: Axis, anchor: real, m: real, extent: real, cross: real): seq<UnitMark>
    requires m > 0.0
  {
    UnitsAt(axis, Majors(anchor, m, extent), m, cross)
  }

  /** The k-th forward boundary sits k units after the start, is numbered k on from
      the first, and lies inside the ruler. */
  lemma {:induction false} ForwardAt(d: real, number: nat, m: real, extent: real, k: nat)
    requires m > 0.0
    requires k < |Forward(d, number, m, extent)|
    ensures Forward(d, number, m, extent)[k] == Major(d + k as real * m, number + k)
    ensures d + k as real * m < extent
    decreases Steps(extent - d, m)
  {
    if k > 0 {
      StepsShrink(extent - d, m);
      ForwardAt(d + m, number + 1, m, extent, k - 1);
      MulStep(k - 1, m);
    }
  }

  /** The first forward boundary not visited would lie at or past the ruler's end. */
  lemma {:induction false} ForwardEnd(d: real, number: nat, m: real, extent: real)
    requires m > 0.0
    ensures d + |Forward(d, number, m, extent)| as real * m >= extent
    decreases Steps(extent - d, m)
  {
    if d < extent {
      StepsShrink(extent - d, m);
      ForwardEnd(d + m, number + 1, m, extent);
      MulStep(|Forward(d + m, number + 1, m, extent)|, m);
    }
  }

  /** The k-th backward boundary sits k units before the start, is numbered k on
      from the first, and is no more than one unit before the ruler's start
      (at or after −m). */
  lemma {:induction false} BackwardAt(d: real, number: nat, m: real, k: nat)
    requires m > 0.0
    requires k < |Backward(d, number, m)|
    ensures Backward(d, number, m)[k] == Major(d - k as real * m, number + k)
    ensures d - k as real * m >= -m
    decreases Steps(d + m, m)
  {
    if k > 0 {
      StepsShrink(d + m, m);
      BackwardAt(d - m, number + 1, m, k - 1);
      MulStep(k - 1, m);
    }
  }

  /** The first backward boundary not visited would lie more than a unit before
      the ruler's start. */
  lemma {:induction false} BackwardEnd(d: real, number: nat, m: real)
    requires m > 0.0
    ensures d - |Backward(d, number, m)| as real * m < -m
    decreases Steps(d + m, m)
  {
    if d >= -m {
      StepsShrink(d + m, m);
      BackwardEnd(d - m, number + 1, m);
      MulStep(|Backward(d - m, number + 1, m)|, m);
    }
  }

  /** The boundaries a ruler visits: first anchor + k·m numbered k, inside the
      ruler; then anchor − b·m numbered b = 1, 2, ... (never negative), no more
      than one unit before the start (at or after −m). */
  lemma MajorsAt(anchor: real, m: real, extent: real, k: nat)
    requires m > 0.0
    requires k < |Majors(anchor, m, extent)|
    ensures var f := |Forward(anchor, 0, m, extent)|;
            var p := Majors(anchor, m, extent)[k];
      && (k < f ==> p == Major(anchor + k as real * m, k) && p.at < extent)
      && (k >= f ==> p == Major(anchor - (k - f + 1) as real * m, k - f + 1) && p.at >= -m)
  {
    var f := Forward(anchor, 0, m, extent);
    var bw := Backward(anchor - m, 1, m);
    var r := Majors(anchor, m, extent);
    assert r == f + bw;
    if k < |f| {
      ForwardAt(anchor, 0, m, extent, k);
      assert r[k] == f[k];
    } else {
      var i := k - |f|;
      BackwardAt(anchor - m, 1, m, i);
      assert r[k] == bw[i];
      MulStep(i, m);
    }
  }

  /** Both loops stop at the first boundary outside their range: the next forward
      one would be at or past the end of the ruler, the next backward one more than
      a unit before its start. */
  lemma MajorsEnds(anchor: real, m: real, extent: real)
    requires m > 0.0
    ensures var f := |Forward(anchor, 0, m, extent)|;
            var b := |Majors(anchor, m, extent)| - f;
      && anchor + f as real * m >= extent
      && anchor - (b + 1) as real * m < -m
  {
    ForwardEnd(anchor, 0, m, extent);
    BackwardEnd(anchor - m, 1, m);
    MulStep(|Backward(anchor - m, 1, m)|, m);
  }

  lemma UnitsAtConcat(axis: Axis, ps: seq<Major>, qs: seq<Major>, m: real, cross: real)
    requires m > 0.0
    ensures UnitsAt(axis, ps + qs, m, cross) == UnitsAt(axis, ps, m, cross) + UnitsAt(axis, qs, m, cross)
  {
  }

  /** The body of both OnRender loops: the unit's line, its minor ticks and its label. */
  method DrawUnit(axis: Axis, at: real, number: nat, m: real, cross: real) returns (unit: UnitMark)
    requires m > 0.0
    ensures unit == UnitAt(axis, Major(at, number), m, cross)
  {
    var ticks := MinorTicks(at, m);
    var labels := DrawLabels(axis, number, at, cross);
    unit := UnitMark(at, number, ticks, labels);
  }

  /** The forward loop of OnRender, from position `d` numbered `i`. */
  method RenderForward(axis: Axis, d: real, i: nat, m: real, extent: real, cross: real) returns (marks: seq<UnitMark>)
    requires m > 0.0
    ensures marks == UnitsAt(axis, Forward(d, i, m, extent), m, cross)
  {
    marks := [];
    ghost var visited: seq<Major> := [];
    var number := i;
    var at := d;
    while at < extent
      invariant visited + Forward(at, number, m, extent) == Forward(d, i, m, extent)
      invariant marks == UnitsAt(axis, visited, m, cross)
      decreases |Forward(at, number, m, extent)|
    {
      var unit := DrawUnit(axis, at, number, m, cross);
      assert Forward(at, number, m, extent) == [Major(at, number)] + Forward(at + m, number + 1, m, extent);
      assert (visited + [Major(at, number)]) + Forward(at + m, number + 1, m, extent)
          == visited + Forward(at, number, m, extent);
      UnitsAtAppend(axis, visited, Major(at, number), m, cross);
      marks := marks + [unit];
      visited := visited + [Major(at, number)];
      number := number + 1;
      at := at + m;
    }
    assert Forward(at, number, m, extent) == [];
    assert visited == Forward(d, i, m, extent);
  }

  /** The backward loop of OnRender, from position `d` numbered `i`. */
  method RenderBackward(axis: Axis, d: real, i: nat, m: real, cross: real) returns (marks: seq<UnitMark>)
    requires m > 0.0
    ensures marks == UnitsAt(axis, Backward(d, i, m), m, cross)
  {
    marks := [];
    ghost var visited: seq<Major> := [];
    var number := i;
    var at := d;
    while at >= -m
      invariant visited + Backward(at, number, m) == Backward(d, i, m)
      invariant marks == UnitsAt(axis, visited, m, cross)
      decreases |Backward(at, number, m)|
    {
      var unit := DrawUnit(axis, at, number, m, cross);
      assert Backward(at, number, m) == [Major(at, number)] + Backward(at - m, number + 1, m);
      assert (visited + [Major(at, number)]) + Backward(at - m, number + 1, m)
          == visited + Backward(at, number, m);
      UnitsAtAppend(axis, visited, Major(at, number), m, cross);
      marks := marks + [unit];
      visited := visited + [Major(at, number)];
      number := number + 1;
      at := at - m;
    }
    assert Backward(at, number, m) == [];
    assert visited == Backward(d, i, m);
  }

  /** The two loops of OnRender, for either ruler: `extent` is the ruler's length
      and `cross` its thickness. */
  method RenderUnits(axis: Axis, anchor: real, m: real, extent: real, cross: real) returns (marks: seq<UnitMark>)
    requires m > 0.0
    ensures marks == Marks(axis, anchor, m, extent, cross)
  {
    var forward := RenderForward(axis, anchor, 0, m, extent, cross);
    var backward := RenderBackward(axis, anchor - m, 1, m, cross);
    UnitsAtConcat(axis, Forward(anchor, 0, m, extent), Backward(anchor - m, 1, m), m, cross);
    marks := forward + backward;
  }

  /** A ruler: its orientation, the measurement it shows, the pixel size of one unit
      of that measurement (`_measurement`) and its anchor. */
  class Ruler {
    const axis: Axis
    var measurement: Measurement
    var unitPx: real
    var anchor: real

    /** The unit size is that of the measurement shown. */
    ghost predicate Valid()
      reads this
    {
      unitPx == UnitPx(measurement)
    }

    constructor (axis: Axis)
      ensures Valid() && this.axis == axis
      ensures measurement == Inch && unitPx == 96.0 && anchor == 0.0
    {
      this.axis := axis;
      measurement := Inch;
      unitPx := InchFactor;
      anchor := 0.0;
    }

    /** Setting Measurement: the change callback, which runs only when the value
        changes, sets the unit size to one inch or one centimetre in pixels. */
    method SetMeasurement(value: Measurement)
      modifies this`measurement, this`unitPx
      ensures measurement == value
      ensures value != old(measurement) ==> unitPx == UnitPx(value)
      ensures value == old(measurement) ==> unitPx == old(unitPx)
      ensures old(Valid()) ==> Valid()
    {
      if measurement != value {
        measurement := value;
        match measurement
        case Inch =>
          unitPx := InchToPx(1.0);
        case Centimeter =>
          unitPx := CmToPx(1.0);
      }
    }

    method SetAnchor(value: real)
      modifies this`anchor
      ensures anchor == value
    {
      anchor := value;
    }

    /** OnRender of the horizontal (HRuler) or vertical (VRuler) ruler of the given
        actual size. */
    method Render(actualWidth: real, actualHeight: real) returns (marks: seq<UnitMark>)
      requires Valid()
      ensures axis == Horizontal ==> marks == Marks(Horizontal, anchor, unitPx, actualWidth, actualHeight)
      ensures axis == Vertical ==> marks == Marks(Vertical, anchor, unitPx, actualHeight, actualWidth)
    {
      if axis == Horizontal {
        marks := RenderUnits(Horizontal, anchor, unitPx, actualWidth, actualHeight);
      } else {
        marks := RenderUnits(Vertical, anchor, unitPx, actualHeight, actualWidth);
      }
    }
  }
}
