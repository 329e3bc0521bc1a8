/** The browser's `localStorage`: a map from keys to text. A page rendered
    without a window has no store at all, which callers model as `null`. */
module LocalStorage {
  import opened Common

  class KeyValueStore {
    var entries: map<string, string>

    constructor (initial: map<string, string>)
      ensures entries == initial
    {
      entries := initial;
    }

    /** `localStorage.getItem(key)`: null when the key is absent. */
    function GetItem(key: string): Option<string>
      reads this
    {
      if key in entries then Some(entries[key]) else None
    }

    /** `localStorage.setItem(key, value)` */
    method SetItem(key: string, value: string)
      modifies this
      ensures entries == old(entries)[key := value]
    {
      entries := entries[key := value];
    }

    /** `localStorage.removeItem(key)` */
    method RemoveItem(key: string)
      modifies this
      ensures entries == old(entries) - {key}
    {
      entries := entries - {key};
    }
  }

  /** The `caja_menor_categories` entry: the category list kept as JSON text,
      shown here already decoded (None when the key is absent or empty). */
  class CategoryStorage {
    var saved: Option<seq<string>>

    constructor (initial: Option<seq<string>>)
      ensures saved == initial
    {
      saved := initial;
    }

    method Save(categories: seq<string>)
      modifies this
      ensures saved == Some(categories)
    {
      saved := Some(categories);
    }
  }
}
