/** Values shared by the relay and the TouchDesigner scripts: an optional
    value, a result with an error, and Python's numeric conversions on reals. */
module Common {

  datatype Option<+T> = None | Some(value: T)

  datatype Result<+T, +E> = Ok(value: T) | Err(error: E)

  /** Python's `int(x)` on a float: truncation toward zero. */
  function Trunc(x: real): (r: int)
    ensures 0.0 <= x ==> 0 <= r && r as real <= x < r as real + 1.0
    ensures x < 0.0 ==> r <= 0 && r as real - 1.0 < x <= r as real
  {
    if 0.0 <= x then x.Floor else -((-x).Floor)
  }

  /** Python's `max(lo, min(hi, x))`. */
  function Clamp(lo: real, hi: real, x: real): (r: real)
    requires lo <= hi
    ensures lo <= r <= hi
    ensures lo <= x <= hi ==> r == x
    ensures x < lo ==> r == lo
    ensures hi < x ==> r == hi
  {
    var upper := if x < hi then x else hi;
    if upper < lo then lo else upper
  }

  /** `int(max(0, min(255, x)))`: a colour channel as an 8-bit value. */
  function ByteOf(x: real): (r: int)
    ensures 0 <= r <= 255
    ensures 0.0 <= x <= 255.0 ==> r as real <= x < r as real + 1.0
    ensures x <= 0.0 ==> r == 0
    ensures 255.0 <= x ==> r == 255
  {
    Trunc(Clamp(0.0, 255.0, x))
  }

  /** `dict.get(key, 0)` on a map to reals: channel values, or last update
      times. */
  function GetOrZero<K>(m: map<K, real>, key: K): real
  {
    if key in m then m[key] else 0.0
  }
}
