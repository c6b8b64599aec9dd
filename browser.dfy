/** The browser's `localStorage`, as far as the frontend uses it: a map from
    keys to strings with `getItem` and `setItem`. Persistence across sessions
    is not modelled. */
module Browser {
  import opened Wrappers

  class LocalStorage {
    var items: map<string, string>

    constructor (items: map<string, string>)
      ensures this.items == items
    {
      this.items := items;
    }

    /** `getItem(key)`: the stored string, or `null` when there is none. */
    method GetItem(key: string) returns (value: Option<string>)
      ensures value.Some? <==> key in items
      ensures value.Some? ==> value.value == items[key]
    {
      value := if key in items then Some(items[key]) else None;
    }

    /** `setItem(key, value)`: stores `value` under `key`, replacing what was
        there. The browser may refuse the write (it throws
        `QuotaExceededError` when the value does not fit); whether it accepts
        is the input `accepted`, and `threw` reports the exception, in which
        case nothing is stored. */
    method SetItem(key: string, value: string, accepted: bool) returns (threw: bool)
      modifies this
      ensures threw <==> !accepted
      ensures accepted ==> items == old(items)[key := value]
      ensures !accepted ==> items == old(items)
    {
      if accepted {
        items := items[key := value];
      }
      threw := !accepted;
    }
  }
}
