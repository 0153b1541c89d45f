/** The browser's `localStorage`: one string-to-string map shared by every page component. */
module Storage {
  import opened Wrappers

  /** What `getItem(key)` returns on a snapshot of the store; `None` stands for `null`. */
  function Lookup(entries: map<string, string>, key: string): Option<string> {
    if key in entries then Some(entries[key]) else None
  }

  /** Writing one key makes that key read back the value written, and leaves every other key as it read before. */
  lemma LookupAfterWrite(entries: map<string, string>, key: string, value: string, other: string)
    ensures Lookup(entries[key := value], key) == Some(value)
    ensures other != key ==> Lookup(entries[key := value], other) == Lookup(entries, other)
  {
  }

  class LocalStorage {
    var entries: map<string, string>

    constructor (initial: map<string, string>)
      ensures entries == initial
    {
      entries := initial;
    }

    /** `localStorage.getItem(key)`: the stored text, `None` when the key was never set. */
    function GetItem(key: string): (r: Option<string>)
      reads this
      ensures r.Some? <==> key in entries
      ensures r.Some? ==> r.value == entries[key]
    {
      Lookup(entries, key)
    }

    /** `localStorage.setItem(key, value)`: read-after-write on `key`, every other key unchanged. */
    method SetItem(key: string, value: string)
      modifies this
      ensures entries == old(entries)[key := value]
      ensures GetItem(key) == Some(value)
      ensures forall k :: k != key ==> GetItem(k) == old(GetItem(k))
    {
      entries := entries[key := value];
    }
  }
}
