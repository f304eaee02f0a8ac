/** Shared vocabulary of the air-gap pipeline: traversal direction, 8-bit
    channel values, planar positions and a few sequence helpers. */
module Common {

  datatype Option<T> = None | Some(value: T)

  /** The two traversal directions of a cross-section (`east_west`, `west_east`). */
  datatype Direction = EastToWest | WestToEast

  /** One channel of a `numpy.uint8` image. */
  newtype byte = x: int | 0 <= x < 256

  datatype Vec2 = Vec2(x: real, y: real)
  datatype Vec3 = Vec3(x: real, y: real, z: real)

  /** The western and eastern end of a cross-section. */
  datatype Ends = Ends(west: Vec2, east: Vec2)

  /** `list.reverse()` on a copy. */
  function Reverse<T>(s: seq<T>): (r: seq<T>)
    ensures |r| == |s|
    ensures forall i :: 0 <= i < |s| ==> r[i] == s[|s| - 1 - i]
  {
    seq(|s|, i requires 0 <= i < |s| => s[|s| - 1 - i])
  }

  lemma ReverseInvolution<T>(s: seq<T>)
    ensures Reverse(Reverse(s)) == s
  {
  }

  /** Python's `min(s)` / `numpy.min(s)`; `None` where those raise on an
      empty sequence. */
  function MinOf(s: seq<real>): (m: Option<real>)
    ensures m.None? <==> s == []
    ensures m.Some? ==> m.value in s
    ensures m.Some? ==> forall k :: 0 <= k < |s| ==> m.value <= s[k]
  {
    if s == [] then None
    else
      var last := s[|s| - 1];
      match MinOf(s[..|s| - 1])
      case None => Some(last)
      case Some(m) => Some(if last < m then last else m)
  }

  /** `numpy.max(s)`; `None` where it raises on an empty sequence. */
  function MaxOf(s: seq<real>): (m: Option<real>)
    ensures m.None? <==> s == []
    ensures m.Some? ==> m.value in s
    ensures m.Some? ==> forall k :: 0 <= k < |s| ==> s[k] <= m.value
  {
    if s == [] then None
    else
      var last := s[|s| - 1];
      match MaxOf(s[..|s| - 1])
      case None => Some(last)
      case Some(m) => Some(if last > m then last else m)
  }

  /** Python's `int(x)` on a float: truncation toward zero. */
  function TruncToInt(x: real): (n: int)
    ensures 0.0 <= x ==> n as real <= x < n as real + 1.0
    ensures x < 0.0 ==> n as real - 1.0 < x <= n as real
  {
    if 0.0 <= x then x.Floor else -((-x).Floor)
  }
}
