/** The browser's `localStorage`: a string-to-string map shared by the whole front-end. */
module Storage {
  import opened Wrappers

  /** The key under which the session token is kept. */
  const AuthTokenKey := "auth_token"
  /** The key under which the serialised user is kept. */
  const UserKey := "user"

  /** `getItem`: the stored string, or null. */
  function Lookup(items: map<string, string>, key: string): (r: Option<string>)
    ensures r.Some? <==> key in items
    ensures r.Some? ==> r.value == items[key]
  {
    if key in items then Some(items[key]) else None
  }

  class LocalStorage {
    var items: map<string, string>

    constructor (initial: map<string, string>)
      ensures items == initial
    {
      items := initial;
    }

    method SetItem(key: string, value: string)
      modifies this
      ensures items == old(items)[key := value]
    {
      items := items[key := value];
    }

    method RemoveItem(key: string)
      modifies this
      ensures items == old(items) - {key}
    {
      items := items - {key};
    }
  }
}
