/** Value types the editor scripts receive from the host engine: optional
    references, colors, vectors, texture handles, and the C# float-to-int cast. */
module Host {

  /** A host reference that may be null. */
  datatype Option<+T> = None | Some(value: T)

  /** An RGBA color (UnityEngine.Color); channels are exact reals here. */
  datatype Color = Color(r: real, g: real, b: real, a: real)

  datatype Vec2 = Vec2(x: real, y: real)

  datatype Vec4 = Vec4(x: real, y: real, z: real, w: real)

  /** Identity of a host-owned texture object. */
  datatype TexRef = TexRef(handle: nat)

  /** The C# cast `(int)f`: truncation toward zero (overflow is not modelled). */
  function Truncate(x: real): (n: int)
    ensures 0.0 <= x ==> 0 <= n && n as real <= x < n as real + 1.0
    ensures x < 0.0 ==> n <= 0 && n as real - 1.0 < x <= n as real
  {
    if 0.0 <= x then x.Floor else -((-x).Floor)
  }
}
