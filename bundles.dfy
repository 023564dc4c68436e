/**
 * The key-value bag (`android.os.Bundle`) that carries a fragment's
 * arguments, as far as the pager items use it.
 */
module Bundles {
  /** A stored value: an `int`, or a value of some other type. */
  datatype Value = IntValue(i: int) | OtherValue(kind: string)

  /** `getInt(key)` on a bag's entries: 0 when the key is absent or holds no `int`. */
  function IntIn(entries: map<string, Value>, key: string): int {
    if key in entries && entries[key].IntValue? then entries[key].i else 0
  }

  /** Reading back a stored `int` gives it, and leaves every other key's value alone. */
  lemma PutThenGet(entries: map<string, Value>, key: string, value: int)
    ensures key in entries[key := IntValue(value)]
    ensures IntIn(entries[key := IntValue(value)], key) == value
    ensures forall k :: k != key ==>
      (k in entries[key := IntValue(value)] <==> k in entries) &&
      (k in entries ==> entries[key := IntValue(value)][k] == entries[k])
  {
  }

  /** Storing twice under one key keeps only the last value. */
  lemma LastPutWins(entries: map<string, Value>, key: string, first: int, second: int)
    ensures entries[key := IntValue(first)][key := IntValue(second)] == entries[key := IntValue(second)]
  {
  }

  class Bundle {
    var entries: map<string, Value>

    /** `new Bundle()`: empty. */
    constructor ()
      ensures entries == map[]
    {
      entries := map[];
    }

    /** `containsKey` */
    function ContainsKey(key: string): bool
      reads this
    {
      key in entries
    }

    /** `getInt` */
    function GetInt(key: string): int
      reads this
    {
      IntIn(entries, key)
    }

    /** `putInt`: stores `value` under `key`, replacing what was there. */
    method PutInt(key: string, value: int)
      modifies this
      ensures entries == old(entries)[key := IntValue(value)]
    {
      entries := entries[key := IntValue(value)];
    }
  }
}
