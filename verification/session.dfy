/**
 * The account record and the browser's `localStorage`, which the sign-in form
 * and the page share under the keys `users` and `currentUser`.
 */
module Session {
  import opened Text
  import opened Optional

  /** A registered account; `createdAt` is a `Date.now()` reading. */
  datatype User = User(
    id: JsString,
    email: JsString,
    username: JsString,
    displayName: JsString,
    password: JsString,
    avatar: JsString,
    createdAt: int)

  /** The two storage keys the site uses. */
  datatype Key = UsersKey | CurrentUserKey

  /** What is stored under a key, already parsed from its JSON text. */
  datatype Entry = UserList(users: seq<User>) | OneUser(user: User)

  /** `localStorage`: one store shared by every component of the page. */
  class LocalStorage {
    var items: map<Key, Entry>

    constructor (saved: map<Key, Entry>)
      ensures items == saved
    {
      items := saved;
    }

    /** `localStorage.setItem(key, JSON.stringify(value))`. */
    method SetItem(key: Key, value: Entry)
      modifies this
      ensures items == old(items)[key := value]
    {
      items := items[key := value];
    }

    /** `localStorage.removeItem(key)`. */
    method RemoveItem(key: Key)
      modifies this
      ensures items == old(items) - {key}
    {
      items := items - {key};
    }
  }

  /** The `users` list as read at start-up: the saved list, or `[]` when there is none. */
  function SavedUsers(items: map<Key, Entry>): (users: seq<User>)
    ensures UsersKey in items && items[UsersKey].UserList? ==> users == items[UsersKey].users
    ensures UsersKey !in items ==> users == []
    ensures UsersKey in items && !items[UsersKey].UserList? ==> users == []
  {
    if UsersKey in items && items[UsersKey].UserList? then items[UsersKey].users else []
  }

  /** The signed-in user as read at start-up: the saved user, or `null` when there is none. */
  function SavedCurrentUser(items: map<Key, Entry>): (user: Option<User>)
    ensures user.Some? <==> CurrentUserKey in items && items[CurrentUserKey].OneUser?
    ensures user.Some? ==> items[CurrentUserKey] == OneUser(user.value)
  {
    if CurrentUserKey in items && items[CurrentUserKey].OneUser? then Some(items[CurrentUserKey].user)
    else None
  }

  /** No two accounts share an e-mail address. */
  predicate EmailsDistinct(users: seq<User>) {
    forall i, j | 0 <= i < j < |users| :: users[i].email != users[j].email
  }
}
