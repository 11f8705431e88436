/** The browser's origin-scoped `localStorage`, as the session code uses it. */
module Storage {
  import opened Wrappers

  /** The contents of `localStorage`: string keys to string values. */
  type Store = map<string, string>

  const AccessTokenKey: string := "accessToken"
  const RefreshTokenKey: string := "refreshToken"
  const EmailKey: string := "email"
  const RoleKey: string := "role"

  /** The four keys a session is persisted under. */
  const SessionKeys: set<string> := {AccessTokenKey, RefreshTokenKey, EmailKey, RoleKey}

  /** `localStorage.getItem(key)`: the stored string, or `null` when the key is absent. */
  function Get(s: Store, key: string): Option<string>
  {
    if key in s then Some(s[key]) else None
  }

  /** JavaScript truthiness of a nullable string: it exists and is not empty. */
  predicate Truthy(v: Option<string>)
  {
    v.Some? && v.value != ""
  }

  /** `if (localStorage.getItem(key))`: the key is stored with a non-empty value. */
  predicate Present(s: Store, key: string)
  {
    Truthy(Get(s, key))
  }

  /** The body the backend returns from `/auth/login` and `/auth/refresh`. */
  datatype AuthData = AuthData(accessToken: string, refreshToken: string, email: string, role: string)

  /** The four `setItem` calls that persist a session: exactly the session keys are (over)written
      with the reply's values and every other key keeps its value. */
  function WriteSession(s: Store, d: AuthData): (r: Store)
    ensures r.Keys == s.Keys + SessionKeys
    ensures r[AccessTokenKey] == d.accessToken && r[RefreshTokenKey] == d.refreshToken
    ensures r[EmailKey] == d.email && r[RoleKey] == d.role
    ensures forall k :: k in s && k !in SessionKeys ==> r[k] == s[k]
  {
    s[AccessTokenKey := d.accessToken][RefreshTokenKey := d.refreshToken][EmailKey := d.email][RoleKey := d.role]
  }

  /** The one `localStorage` object, shared by the HTTP client and the session manager. */
  class LocalStorage {
    var items: Store

    constructor (initial: Store)
      ensures items == initial
    {
      items := initial;
    }

    method GetItem(key: string) returns (v: Option<string>)
      ensures v.Some? <==> key in items
      ensures v.Some? ==> v.value == items[key]
    {
      if key in items {
        v := Some(items[key]);
      } else {
        v := None;
      }
    }

    method SetItem(key: string, value: string)
      modifies this
      ensures items == old(items)[key := value]
    {
      items := items[key := value];
    }

    /** `localStorage.clear()`: every key goes, not only the session keys. */
    method Clear()
      modifies this
      ensures items == map[]
    {
      items := map[];
    }
  }
}
