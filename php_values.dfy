/**
  The PHP values that flow through the OCS envelope builder.

  A PHP array is an ordered dictionary whose keys are integers or strings;
  it is modelled as the sequence of its entries in iteration order. A
  well-formed PHP array never repeats a key (DistinctKeys).
 */
module PhpValues {

  datatype Key = IntKey(n: int) | StrKey(s: string)

  datatype Value =
    | Null
    | Bool(b: bool)
    | Int(i: int)
    | Str(s: string)
    | Arr(entries: seq<(Key, Value)>)

  /** The empty PHP array `[]`. */
  const EmptyArray: Value := Arr([])

  /** The key of every entry of a PHP array is unique. */
  predicate DistinctKeys(es: seq<(Key, Value)>)
  {
    forall i, j :: 0 <= i < j < |es| ==> es[i].0 != es[j].0
  }

  /** The entries a PHP `foreach` visits: those of an array, and none for a
      scalar or null (PHP warns and skips the loop body). */
  function Entries(v: Value): seq<(Key, Value)>
  {
    if v.Arr? then v.entries else []
  }

}
