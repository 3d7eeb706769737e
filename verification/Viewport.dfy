/** Scrolling (internal/tui/tui.go:1547-1591, 1729-1756). */
module Viewport {
  function Max(a: int, b: int): int {
    if a > b then a else b
  }

  function Min(a: int, b: int): int {
    if a < b then a else b
  }

  function Clamp(v: int, lo: int, hi: int): int {
    if v < lo then lo else if v > hi then hi else v
  }

  function EnsureOffset(offset: int, cursor: int, height: int, total: int): (o: int)
    ensures height > 0 && 0 <= cursor < total ==> Shows(o, cursor, height, total)
  {
    if total <= 0 then 0
    else
      var h := if height <= 0 then 1 else height;
      var last := Max(0, total - h);
      var at := Clamp(offset, 0, last);
      if cursor < at then Clamp(cursor, 0, last)
      else if cursor >= at + h then Clamp(cursor - h + 1, 0, last)
      else Clamp(at, 0, last)
  }

  /** The rows that are drawn for an offset: `start` up to, but not including, `end`. */
  function VisibleRange(offset: int, height: int, total: nat): (int, int) {
    var h := if height <= 0 then 20 else height;
    var start := Clamp(offset, 0, Max(0, total - h));
    (start, Min(total, start + h))
  }

  /** An offset at which a window of `height` rows lies in the list and shows the cursor. */
  predicate Shows(offset: int, cursor: int, height: int, total: int) {
    0 <= offset <= Max(0, total - height) && offset <= cursor < offset + height
  }

  function Distance(a: int, b: int): nat {
    if a < b then b - a else a - b
  }

  /** The new offset shows the cursor and is the closest to the old one that does; doing it again
      changes nothing; and it is the only closest one. */
  lemma ClosestOffset(offset: int, cursor: int, height: int, total: int, other: int)
    requires height > 0 && 0 <= cursor < total
    ensures var o := EnsureOffset(offset, cursor, height, total);
            Shows(o, cursor, height, total)
            && EnsureOffset(o, cursor, height, total) == o
            && (Shows(other, cursor, height, total) ==>
                  Distance(o, offset) <= Distance(other, offset)
                  && (Distance(o, offset) == Distance(other, offset) ==> other == o))
  {
  }

  /** The rows drawn at that offset are inside the list, contain the cursor, and are as many as fit. */
  lemma RangeShowsCursor(offset: int, cursor: int, height: int, total: nat)
    requires height > 0 && 0 <= cursor < total
    ensures var (start, end) := VisibleRange(EnsureOffset(offset, cursor, height, total), height, total);
            0 <= start <= cursor < end <= total && end - start == Min(height, total)
  {
  }

  /** Whatever the offset and the height, every drawn row exists. */
  lemma RangeInBounds(offset: int, height: int, total: nat)
    ensures var (start, end) := VisibleRange(offset, height, total);
            0 <= start <= end <= total
  {
  }
}
