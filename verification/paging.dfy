/** Page arithmetic shared by both dashboards. */
module Paging {

  function Min(a: int, b: int): int { if a <= b then a else b }

  function Max(a: int, b: int): int { if a >= b then a else b }

  /** `Math.ceil(n / size)`: the number of pages of `size` items needed to show `n` items. */
  function CeilDiv(n: nat, size: nat): (pages: nat)
    requires size > 0
    ensures n <= pages * size
    ensures n > 0 ==> (pages - 1) * size < n
    ensures pages == 0 <==> n == 0
  {
    var q := (n + size - 1) / size;
    assert (n + size - 1) == q * size + (n + size - 1) % size;
    q
  }
}
