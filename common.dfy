/** Shared vocabulary of the monitoring client model: optional values, the
    colours and brushes the views paint with, icon tags and time arithmetic. */
module Common {

  /** A value that may be absent (a C# null reference or an empty `int?`). */
  datatype Option<T> = None | Some(value: T)

  /** One 8-bit colour channel. */
  type Byte = x: int | 0 <= x < 256

  /** A colour as WPF's `Color.FromArgb` builds it. */
  datatype Color = Argb(a: Byte, r: Byte, g: Byte, b: Byte)

  /** A brush: every brush this client creates is a solid colour brush; any
      other fill a shape may carry (none, a gradient) is `NonSolid`. */
  datatype Brush = Solid(color: Color) | NonSolid

  // The named brushes of WPF's `Brushes` class that the client uses.
  const Gray: Brush := Solid(Argb(255, 128, 128, 128))
  const Black: Brush := Solid(Argb(255, 0, 0, 0))
  const Green: Brush := Solid(Argb(255, 0, 128, 0))
  const Orange: Brush := Solid(Argb(255, 255, 165, 0))
  const Red: Brush := Solid(Argb(255, 255, 0, 0))
  const DarkRed: Brush := Solid(Argb(255, 139, 0, 0))
  const DarkGreen: Brush := Solid(Argb(255, 0, 100, 0))
  const DarkOrange: Brush := Solid(Argb(255, 255, 140, 0))
  const DarkGray: Brush := Solid(Argb(255, 169, 169, 169))
  const LightYellow: Brush := Solid(Argb(255, 255, 255, 224))
  const Transparent: Brush := Solid(Argb(0, 255, 255, 255))
  const Blue: Brush := Solid(Argb(255, 0, 0, 255))
  const LightGray: Brush := Solid(Argb(255, 211, 211, 211))

  /** The status icons the view models show, as tags instead of emoji text:
      Check (a green tick), Warning, Siren (rotating light), Cross, Dot (black circle). */
  datatype Icon = Check | Warning | Siren | Cross | Dot

  /** DateTime values are tick counts (one tick is 100 nanoseconds). */
  const TicksPerMinute: int := 600_000_000
  const TicksPerHour: int := 60 * TicksPerMinute
  const TicksPerDay: int := 24 * TicksPerHour

  /** C#'s `(int)` cast of a quotient: division truncated toward zero
      (Dafny's own `/` rounds toward negative infinity for negative operands). */
  function TruncDiv(a: int, d: int): (q: int)
    requires d > 0
    ensures a >= 0 ==> q >= 0
    ensures a <= 0 ==> q <= 0
  {
    if a >= 0 then a / d else -((-a) / d)
  }

  /** Truncation is symmetric about zero, which flooring is not. */
  lemma TruncDivOdd(a: int, d: int)
    requires d > 0
    ensures TruncDiv(-a, d) == -TruncDiv(a, d)
  {
  }
}
