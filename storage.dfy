/**
 * The browser's `localStorage` as the settings page and the login notice use it: a map
 * from keys to strings that may be unavailable (no `window` during server rendering, or
 * storage disabled), in which case every access throws and nothing is stored.
 */
module BrowserStorage {
  import opened Wrappers

  class Storage {
    var items: map<string, string>
    var available: bool

    constructor(items: map<string, string>, available: bool)
      ensures this.items == items && this.available == available
    {
      this.items := items;
      this.available := available;
    }

    /** What a successful `getItem` returns; `None` also when the read throws. */
    function Lookup(key: string): (r: Option<string>)
      reads this
      ensures r.Some? <==> available && key in items
      ensures r.Some? ==> r.value == items[key]
    {
      if available && key in items then Some(items[key]) else None
    }

    /** `getItem`: throws when storage is unavailable, `null` for a missing key. */
    method GetItem(key: string) returns (value: Option<string>, threw: bool)
      ensures threw <==> !available
      ensures value == Lookup(key)
    {
      threw := !available;
      value := if !available then None else if key in items then Some(items[key]) else None;
    }

    /** `setItem`: stores the value, or throws and stores nothing. */
    method SetItem(key: string, value: string) returns (threw: bool)
      modifies this
      ensures threw <==> !available
      ensures available == old(available)
      ensures items == if available then old(items)[key := value] else old(items)
    {
      threw := !available;
      if available {
        items := items[key := value];
      }
    }
  }
}
