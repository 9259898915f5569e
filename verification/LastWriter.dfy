/** Reading a value off the history of its writes: each step writes it or leaves it alone, and the last write stands. */
module LastWriter {
  import opened Common

  function Else<T>(write: Option<T>, otherwise: T): T {
    if write.Some? then write.value else otherwise
  }

  function Or<T>(write: Option<T>, before: Option<T>): Option<T> {
    if write.Some? then write else before
  }

  /** The last value that was written. */
  function Latest<T>(writes: seq<Option<T>>): Option<T> {
    if writes == [] then None else Or(writes[|writes| - 1], Latest(writes[..|writes| - 1]))
  }

  lemma OneMore<T>(writes: seq<Option<T>>, before: seq<Option<T>>, last: Option<T>)
    requires writes == before + [last]
    ensures Latest(writes) == Or(last, Latest(before))
  {
    assert writes[..|writes| - 1] == before;
  }
}
