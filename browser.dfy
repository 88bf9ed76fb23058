/**
 * The browser's `localStorage`: a string-keyed store of strings. It is not
 * part of the modelled code; `Get` and the methods of `LocalStorage` are
 * stand-ins for the Web Storage calls the code makes, and their contracts
 * only describe their bodies.
 */
module Browser {
  import opened Wrappers

  /** What `getItem(key)` returns for a store holding `entries`: `None` is `null`. */
  function Get(entries: map<string, string>, key: string): Option<string>
  {
    if key in entries then Some(entries[key]) else None
  }

  class LocalStorage {
    var entries: map<string, string>

    constructor (entries: map<string, string>)
      ensures this.entries == entries
    {
      this.entries := entries;
    }

    method GetItem(key: string) returns (r: Option<string>)
      ensures r == Get(entries, key)
    {
      r := Get(entries, key);
    }

    method SetItem(key: string, value: string)
      modifies this
      ensures entries == old(entries)[key := value]
    {
      entries := entries[key := value];
    }

    method RemoveItem(key: string)
      modifies this
      ensures entries == old(entries) - {key}
    {
      entries := entries - {key};
    }
  }
}
