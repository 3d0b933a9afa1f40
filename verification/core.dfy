/**
 Small shared vocabulary: the optional value used wherever the program stores
 `null`, the integer `Math.max`/`Math.min` the program applies to times, and
 the alert kinds the timer page and the alert bridge pass between them.
 */
module Core {

  /** A value that may be absent (`null` in the program). */
  datatype Option<+T> = None | Some(value: T) {

    /** The value, or a default when absent (the program's `x ?? d`). */
    function GetOr(default: T): T {
      match this
      case Some(v) => v
      case None => default
    }
  }

  function Max(a: int, b: int): (r: int)
    ensures r >= a && r >= b
    ensures r == a || r == b
  {
    if a >= b then a else b
  }

  function Min(a: int, b: int): (r: int)
    ensures r <= a && r <= b
    ensures r == a || r == b
  {
    if a <= b then a else b
  }

  /** The alert kinds: `'headrest'`, `'stand'`, `'break'`, `'timeup'`, and any
      other string, which neither side acts on. */
  datatype Kind = Headrest | Stand | Break | Timeup | OtherKind
}
