/**
 * The gyro history buffer behind the gyro view: at most 100 readings,
 * the most recent first.
 */
module GyroHistory {

  datatype GyroReading = GyroReading(x: real, y: real, z: real, timestamp: int)

  /** The reading a default-constructed GyroReading holds. */
  const ZeroReading := GyroReading(0.0, 0.0, 0.0, 0)

  const MaxReadings: nat := 100

  // The item roles; Qt::UserRole is 256.
  const XRole := 257
  const YRole := 258
  const ZRole := 259
  const TimestampRole := 260
  const MagnitudeRole := 261

  /**
   * What a row yields for a role. The magnitude role is kept as its three
   * components: the square root is floating point that is not modelled.
   */
  datatype GyroCell = Invalid | Float(f: real) | Timestamp(t: int) | Magnitude(x: real, y: real, z: real)

  /** The first n elements of s, or all of s when it is shorter. */
  function Take<T>(s: seq<T>, n: nat): (r: seq<T>)
    ensures |r| == if |s| <= n then |s| else n
    ensures r == s[..|r|]
  {
    if |s| <= n then s else s[..n]
  }

  /** The buffer after a reading: the reading goes in front, the oldest past 100 fall off. */
  function Pushed(readings: seq<GyroReading>, r: GyroReading): (s: seq<GyroReading>)
    ensures |s| == if |readings| < MaxReadings then |readings| + 1 else MaxReadings
    ensures s[0] == r
    ensures forall i :: 1 <= i < |s| ==> s[i] == readings[i - 1]
  {
    Take([r] + readings, MaxReadings)
  }

  /** The buffer after each of rs is added, first to last. */
  function AddAll(readings: seq<GyroReading>, rs: seq<GyroReading>): (s: seq<GyroReading>)
    decreases |rs|
  {
    if rs == [] then readings else AddAll(Pushed(readings, rs[0]), rs[1..])
  }

  /**
   * From a buffer within capacity, adding readings one by one keeps the
   * newest 100 of all: the additions, last one first, then the old buffer.
   */
  lemma {:induction false} AddAllKeepsNewest(readings: seq<GyroReading>, rs: seq<GyroReading>)
    requires |readings| <= MaxReadings
    ensures |AddAll(readings, rs)| ==
      if |rs| + |readings| < MaxReadings then |rs| + |readings| else MaxReadings
    ensures forall k :: 0 <= k < |AddAll(readings, rs)| ==>
      AddAll(readings, rs)[k] == if k < |rs| then rs[|rs| - 1 - k] else readings[k - |rs|]
    decreases |rs|
  {
    if rs != [] {
      var pushed := Pushed(readings, rs[0]);
      AddAllKeepsNewest(pushed, rs[1..]);
      forall k | 0 <= k < |AddAll(readings, rs)|
        ensures AddAll(readings, rs)[k] == if k < |rs| then rs[|rs| - 1 - k] else readings[k - |rs|]
      {
        if k < |rs| - 1 {
          assert rs[1..][|rs| - 2 - k] == rs[|rs| - 1 - k];
        } else if k >= |rs| {
          assert pushed[k - |rs| + 1] == readings[k - |rs|];
        }
      }
    }
  }

  /** From an empty buffer, at least 100 additions leave the last 100, most recent first. */
  lemma FromEmptyKeepsLastHundred(rs: seq<GyroReading>)
    requires |rs| >= MaxReadings
    ensures |AddAll([], rs)| == MaxReadings
    ensures forall k :: 0 <= k < MaxReadings ==> AddAll([], rs)[k] == rs[|rs| - 1 - k]
  {
    AddAllKeepsNewest([], rs);
  }

  /** The 150-reading case: the readings at indices 149 down to 50 remain, in that order. */
  lemma OneHundredFiftyAdditions(rs: seq<GyroReading>)
    requires |rs| == 150
    ensures |AddAll([], rs)| == 100
    ensures forall k :: 0 <= k < 100 ==> AddAll([], rs)[k] == rs[149 - k]
  {
    FromEmptyKeepsLastHundred(rs);
  }

  class GyroDataModel {
    var readings: seq<GyroReading>

    ghost predicate Valid()
      reads this
    {
      |readings| <= MaxReadings
    }

    constructor ()
      ensures Valid() && readings == []
    {
      readings := [];
    }

    /** Prepends the reading, then removes what lies past the capacity. */
    method AddReading(reading: GyroReading)
      requires Valid()
      modifies this
      ensures Valid()
      ensures readings == Pushed(old(readings), reading)
      ensures LatestReading() == reading
      ensures RowCount() == if |old(readings)| < MaxReadings then |old(readings)| + 1 else MaxReadings
    {
      readings := [reading] + readings;
      if |readings| > MaxReadings {
        readings := readings[..MaxReadings];
      }
    }

    method ClearData()
      modifies this
      ensures Valid() && readings == [] && RowCount() == 0
    {
      readings := [];
    }

    function RowCount(): (n: nat)
      reads this
    {
      |readings|
    }

    /** An invalid cell for a row outside the buffer or an unknown role. */
    function Data(row: int, role: int): (cell: GyroCell)
      reads this
      ensures !(0 <= row < |readings|) ==> cell == Invalid
      ensures 0 <= row < |readings| ==>
        && (role == XRole ==> cell == Float(readings[row].x))
        && (role == YRole ==> cell == Float(readings[row].y))
        && (role == ZRole ==> cell == Float(readings[row].z))
        && (role == TimestampRole ==> cell == Timestamp(readings[row].timestamp))
        && (role == MagnitudeRole ==> cell == Magnitude(readings[row].x, readings[row].y, readings[row].z))
        && (role !in {XRole, YRole, ZRole, TimestampRole, MagnitudeRole} ==> cell == Invalid)
    {
      if row < 0 || row >= |readings| then Invalid
      else
        var r := readings[row];
        if role == XRole then Float(r.x)
        else if role == YRole then Float(r.y)
        else if role == ZRole then Float(r.z)
        else if role == TimestampRole then Timestamp(r.timestamp)
        else if role == MagnitudeRole then Magnitude(r.x, r.y, r.z)
        else Invalid
    }

    /** The most recent reading, or the all-zero reading when there is none. */
    function LatestReading(): (r: GyroReading)
      reads this
      ensures readings == [] ==> r == ZeroReading
      ensures readings != [] ==> r == readings[0]
    {
      if readings == [] then ZeroReading else readings[0]
    }

    function LatestX(): (x: real)
      reads this
      ensures x == LatestReading().x
    {
      if readings == [] then 0.0 else readings[0].x
    }

    function LatestY(): (y: real)
      reads this
      ensures y == LatestReading().y
    {
      if readings == [] then 0.0 else readings[0].y
    }

    function LatestZ(): (z: real)
      reads this
      ensures z == LatestReading().z
    {
      if readings == [] then 0.0 else readings[0].z
    }
  }
}
