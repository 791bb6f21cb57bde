/** The disposable-funds gauge: an axis spanning the population's range,
    split into two coloured steps at the population mean, with a marker at
    the selected customer's value and a delta against the mean. */
module Gauge {
  import opened Stats

  datatype Band = Band(lo: real, hi: real)

  datatype Dial = Dial(value: real, reference: real, delta: real, axis: Band, steps: seq<Band>)

  predicate InBand(b: Band, x: real)
  {
    b.lo <= x <= b.hi
  }

  /** The gauge for `value` drawn against the population `pop`, which holds
      the value itself (the selected customer is one of the rows). */
  function BuildDial(pop: seq<real>, value: real): (d: Dial)
    requires value in pop
    ensures d.value == value && d.delta == value - d.reference
    ensures Mean(pop) == Num(d.reference)
    ensures d.axis.lo in pop && d.axis.hi in pop
    ensures forall i :: 0 <= i < |pop| ==> InBand(d.axis, pop[i])
    ensures d.axis.lo <= d.reference <= d.axis.hi
    ensures InBand(d.axis, d.value)
    ensures |d.steps| == 2
    ensures d.steps[0] == Band(d.axis.lo, d.reference)
    ensures d.steps[1] == Band(d.reference, d.axis.hi)
  {
    MeanWithinRange(pop);
    var mean := Mean(pop).x;
    Dial(value, mean, value - mean, Band(Min(pop), Max(pop)),
         [Band(Min(pop), mean), Band(mean, Max(pop))])
  }

  /** The two steps meet at the mean and together cover the axis: every
      point of the axis lies in one of them. */
  lemma StepsCoverAxis(pop: seq<real>, value: real, x: real)
    requires value in pop
    requires InBand(BuildDial(pop, value).axis, x)
    ensures exists s :: s in BuildDial(pop, value).steps && InBand(s, x)
  {
    var d := BuildDial(pop, value);
    if x <= d.reference {
      assert d.steps[0] in d.steps && InBand(d.steps[0], x);
    } else {
      assert d.steps[1] in d.steps && InBand(d.steps[1], x);
    }
  }
}
