/** An optional value: stands for TypeScript's `T | undefined` and for a parse that can fail. */
module Optional {

  datatype Option<+T> = None | Some(value: T)

  /**
   * JavaScript's `n || d` for a number that may be missing or NaN: `undefined`, NaN
   * and 0 are falsy, so each of them yields the default `d`.
   */
  function OrDefault(n: Option<int>, d: int): (r: int)
    ensures (n.Some? && n.value != 0) ==> r == n.value
    ensures (n.None? || n.value == 0) ==> r == d
    ensures r != 0 || d == 0
  {
    if n.Some? && n.value != 0 then n.value else d
  }
}
