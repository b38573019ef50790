/** Shared value types: optional values, results carrying an error text,
    and a few facts about strings used by every other module. */
module Base {

  datatype Option<+T> = None | Some(value: T)

  /** A value, or the text of the Python exception that replaced it. */
  datatype Result<+T> = Ok(value: T) | Err(msg: string)

  /** `s` occurs in `text` starting at index `k`. */
  predicate OccursAt(text: string, k: nat, s: string)
  {
    k + |s| <= |text| && text[k..k + |s|] == s
  }

  /** A slice of a slice is a slice of the original. */
  lemma SliceOfSlice(s: string, a: nat, b: nat, i: nat, j: nat)
    requires a <= b <= |s| && i <= j <= b - a
    ensures s[a..b][i..j] == s[a + i..a + j]
  {
    forall q | 0 <= q < j - i
      ensures s[a..b][i..j][q] == s[a + i..a + j][q]
    {
    }
  }

  function Min(a: nat, b: nat): nat
  {
    if a <= b then a else b
  }
}
