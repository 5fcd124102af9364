/**
 * The lidar snapshot store behind the lidar view: the points of the
 * latest scan, replaced wholesale by each new scan.
 */
module LidarSnapshot {

  datatype LidarPoint = LidarPoint(angle: real, distance: real)

  // The item roles; Qt::UserRole is 256.
  const AngleRole := 257
  const DistanceRole := 258
  const XRole := 259
  const YRole := 260

  /**
   * What a row yields for a role. The cartesian roles are kept as their
   * polar inputs: cos and sin are floating point that is not modelled.
   */
  datatype LidarCell =
    | Invalid
    | Float(f: real)
    | CosProduct(distance: real, angle: real)
    | SinProduct(distance: real, angle: real)

  class LidarDataModel {
    var points: seq<LidarPoint>

    constructor ()
      ensures points == []
    {
      points := [];
    }

    /** The old points are dropped, never merged: the store becomes exactly the new scan. */
    method UpdateData(newPoints: seq<LidarPoint>)
      modifies this
      ensures points == newPoints
      ensures RowCount() == |newPoints|
    {
      points := newPoints;
    }

    method ClearData()
      modifies this
      ensures points == [] && RowCount() == 0
    {
      points := [];
    }

    function RowCount(): (n: nat)
      reads this
    {
      |points|
    }

    /** An invalid cell for a row outside the scan or an unknown role. */
    function Data(row: int, role: int): (cell: LidarCell)
      reads this
      ensures !(0 <= row < |points|) ==> cell == Invalid
      ensures 0 <= row < |points| ==>
        && (role == AngleRole ==> cell == Float(points[row].angle))
        && (role == DistanceRole ==> cell == Float(points[row].distance))
        && (role == XRole ==> cell == CosProduct(points[row].distance, points[row].angle))
        && (role == YRole ==> cell == SinProduct(points[row].distance, points[row].angle))
        && (role !in {AngleRole, DistanceRole, XRole, YRole} ==> cell == Invalid)
    {
      if row < 0 || row >= |points| then Invalid
      else
        var p := points[row];
        if role == AngleRole then Float(p.angle)
        else if role == DistanceRole then Float(p.distance)
        else if role == XRole then CosProduct(p.distance, p.angle)
        else if role == YRole then SinProduct(p.distance, p.angle)
        else Invalid
    }
  }
}
