/**
 * A yield-curve manipulator that shifts individual curve points. Before the
 * curve is rebuilt, each point shift is turned into the x-value of the point
 * it names and the shift to apply there; relative shifts are expressed as
 * factors (a shift of 0.1 becomes 1.1).
 */
module PointShiftManipulator {
  import opened Common

  datatype ScenarioShiftType = ABSOLUTE | RELATIVE

  /** A shift of the curve point at `pointIndex`. */
  datatype YieldCurvePointShift = YieldCurvePointShift(pointIndex: Int32, shift: real)

  datatype YieldCurvePointShiftManipulator = YieldCurvePointShiftManipulator(
    shiftType: ScenarioShiftType,
    pointShifts: seq<YieldCurvePointShift>)

  /** The lists handed to the curve rebuild: x-values of the shifted points and the shifts. */
  datatype PointShifts = PointShifts(points: seq<real>, shifts: seq<real>)

  /** Both the shift type and the list are required; the list is kept as a copy. */
  function NewManipulator(shiftType: Option<ScenarioShiftType>, pointShifts: Option<seq<YieldCurvePointShift>>)
    : (r: Result<YieldCurvePointShiftManipulator>)
    ensures r.Success? <==> shiftType.Some? && pointShifts.Some?
    ensures shiftType.None? ==> r == Failure(NullArgument("shiftType"))
    ensures shiftType.Some? && pointShifts.None? ==> r == Failure(NullArgument("pointShifts"))
    ensures r.Success? ==> r.value.shiftType == shiftType.value && r.value.pointShifts == pointShifts.value
  {
    if shiftType.None? then Failure(NullArgument("shiftType"))
    else if pointShifts.None? then Failure(NullArgument("pointShifts"))
    else Success(YieldCurvePointShiftManipulator(shiftType.value, pointShifts.value))
  }

  /** A point index the curve has. */
  predicate InBounds(shift: YieldCurvePointShift, pointCount: nat) {
    0 <= shift.pointIndex < pointCount
  }

  /**
   * What an index outside the curve raises: an index at or past the end is
   * refused explicitly; a negative one fails on the array read.
   */
  function OutOfBounds(shift: YieldCurvePointShift, pointCount: nat): (e: Error)
    requires !InBounds(shift, pointCount)
    ensures shift.pointIndex >= pointCount ==> e.IllegalArgument?
    ensures shift.pointIndex < 0 ==> e == IndexOutOfBounds(shift.pointIndex)
  {
    if shift.pointIndex >= pointCount then IllegalArgument("Shift index is out of bounds")
    else IndexOutOfBounds(shift.pointIndex)
  }

  /**
   * Builds the point and shift lists for a curve with x-values `xData`.
   * Fails at the first shift whose index the curve does not have; otherwise
   * there is one point and one shift per point shift, in list order.
   */
  method Execute(manipulator: YieldCurvePointShiftManipulator, xData: seq<real>) returns (r: Result<PointShifts>)
    ensures r.Success? <==>
      forall i :: 0 <= i < |manipulator.pointShifts| ==> InBounds(manipulator.pointShifts[i], |xData|)
    ensures r.Success? ==>
      var shifts := manipulator.pointShifts;
      && |r.value.points| == |shifts| && |r.value.shifts| == |shifts|
      && (forall i :: 0 <= i < |shifts| ==> r.value.points[i] == xData[shifts[i].pointIndex])
      && (manipulator.shiftType == RELATIVE ==>
            forall i :: 0 <= i < |shifts| ==> r.value.shifts[i] == shifts[i].shift + 1.0)
      && (manipulator.shiftType == ABSOLUTE ==>
            forall i :: 0 <= i < |shifts| ==> r.value.shifts[i] == shifts[i].shift)
    ensures r.Failure? ==>
      exists k :: 0 <= k < |manipulator.pointShifts|
        && !InBounds(manipulator.pointShifts[k], |xData|)
        && (forall j :: 0 <= j < k ==> InBounds(manipulator.pointShifts[j], |xData|))
        && r.error == OutOfBounds(manipulator.pointShifts[k], |xData|)
  {
    var points: seq<real> := [];
    var shifts: seq<real> := [];
    var pointShifts := manipulator.pointShifts;
    for i := 0 to |pointShifts|
      invariant forall j :: 0 <= j < i ==> InBounds(pointShifts[j], |xData|)
      invariant |points| == i && |shifts| == i
      invariant forall j :: 0 <= j < i ==> points[j] == xData[pointShifts[j].pointIndex]
      invariant manipulator.shiftType == RELATIVE ==> forall j :: 0 <= j < i ==> shifts[j] == pointShifts[j].shift + 1.0
      invariant manipulator.shiftType == ABSOLUTE ==> forall j :: 0 <= j < i ==> shifts[j] == pointShifts[j].shift
    {
      var shift := pointShifts[i];
      var index := shift.pointIndex;
      if index >= |xData| {
        return Failure(IllegalArgument("Shift index is out of bounds"));
      }
      if index < 0 {
        return Failure(IndexOutOfBounds(index));
      }
      points := points + [xData[index]];
      if manipulator.shiftType == RELATIVE {
        shifts := shifts + [shift.shift + 1.0];
      } else {
        shifts := shifts + [shift.shift];
      }
    }
    r := Success(PointShifts(points, shifts));
  }
}
