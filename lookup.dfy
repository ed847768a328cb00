/** First-match search over a reference table: the pandas idiom
    `table[mask].iloc[0]` / `.values[0]`, which raises when nothing matches. */
module Lookup {
  import opened Wrappers

  /** Index of the first row satisfying `matches`, or None when no row does. */
  function FirstIndex<T>(rows: seq<T>, matches: T -> bool): (r: Option<nat>)
    ensures r.Some? ==> r.value < |rows| && matches(rows[r.value])
    ensures r.Some? ==> forall j :: 0 <= j < r.value ==> !matches(rows[j])
    ensures r.None? <==> forall j :: 0 <= j < |rows| ==> !matches(rows[j])
  {
    if rows == [] then None
    else if matches(rows[0]) then Some(0)
    else
      match FirstIndex(rows[1..], matches)
      case None => None
      case Some(i) => Some(i + 1)
  }

  /** The first row satisfying `matches`, or None when no row does. */
  function First<T>(rows: seq<T>, matches: T -> bool): (r: Option<T>)
    ensures r.None? <==> forall j :: 0 <= j < |rows| ==> !matches(rows[j])
    ensures r.Some? ==> exists i :: 0 <= i < |rows| && rows[i] == r.value && matches(rows[i])
                                    && forall j :: 0 <= j < i ==> !matches(rows[j])
  {
    match FirstIndex(rows, matches)
    case None => None
    case Some(i) => Some(rows[i])
  }

  /** When the row at `i` matches and no earlier row does, that row is the one found. */
  lemma FirstIsAt<T>(rows: seq<T>, matches: T -> bool, i: nat)
    requires i < |rows| && matches(rows[i])
    requires forall j :: 0 <= j < i ==> !matches(rows[j])
    ensures FirstIndex(rows, matches) == Some(i)
    ensures First(rows, matches) == Some(rows[i])
  {
  }
}
