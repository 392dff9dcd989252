/** What every part uses: an optional value, and the widths of the machine's counters. */
module Prelude {
  datatype Option<T> = None | Some(value: T)

  const U64_MAX: nat := 0xffff_ffff_ffff_ffff

  /** In `whole`, `part` fills the stretch between two cuts if it belongs there; otherwise
      the cuts meet. */
  ghost predicate Fills<T(!new)>(part: seq<T>, belongs: bool, whole: seq<T>, from: nat, to: nat) {
    if belongs then from + |part| == to <= |whole| && whole[from..to] == part else from == to
  }

  /** Adding a part behind the last cut. */
  lemma {:induction false} FillsStill<T(!new)>(part: seq<T>, belongs: bool, whole: seq<T>, from: nat, to: nat,
      more: seq<T>)
    requires Fills(part, belongs, whole, from, to)
    ensures Fills(part, belongs, whole + more, from, to)
  {
    if belongs {
      assert (whole + more)[from..to] == whole[from..to];
    }
  }

  function Max(a: nat, b: nat): nat { if a < b then b else a }

  /** The widest size on the 64-bit targets the program is built for. */
  const USIZE_MAX: nat := 0xffff_ffff_ffff_ffff
}
