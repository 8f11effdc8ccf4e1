/** The browser key/value store holding the signed-in user and the token.
    The `USER` entry holds the parsed user object (its JSON text is not
    modelled), the `TOKEN` entry the raw token text. */
module LocalStorage {
  import opened Common

  const UserKey: string := "USER"
  const TokenKey: string := "TOKEN"

  /** The stored user object; "" stands for a property the object lacks. */
  datatype SessionUser = SessionUser(id: string, name: string, role: string, roleId: string, departmentId: string)

  /** What `JSON.parse("{}")` gives: an object with no properties. */
  const EmptyUser: SessionUser := SessionUser("", "", "", "", "")

  datatype Item = Text(text: string) | UserJson(user: SessionUser)

  /** `USER` holds a user object and `TOKEN` a string, as the setters write them. */
  predicate WellFormed(items: map<string, Item>) {
    (UserKey in items ==> items[UserKey].UserJson?)
    && (TokenKey in items ==> items[TokenKey].Text?)
  }

  /** `JSON.parse(getItem(USER) || "{}")`. */
  function StoredUser(items: map<string, Item>): SessionUser
    requires WellFormed(items)
  {
    if UserKey in items then items[UserKey].user else EmptyUser
  }

  /** `` `Bearer ${getItem(TOKEN)}` ``: a missing token is printed as "null". */
  function TokenHeader(items: map<string, Item>): (r: string)
    requires WellFormed(items)
    ensures |r| >= 7 && r[..7] == "Bearer "
  {
    "Bearer " + (if TokenKey in items then items[TokenKey].text else "null")
  }

  class Store {
    var items: map<string, Item>

    predicate Valid()
      reads this
    {
      WellFormed(items)
    }

    constructor (initial: map<string, Item>)
      requires WellFormed(initial)
      ensures Valid() && items == initial
    {
      items := initial;
    }

    method GetLocalUser() returns (u: SessionUser)
      requires Valid()
      ensures u == StoredUser(items)
    {
      if UserKey in items {
        u := items[UserKey].user;
      } else {
        u := EmptyUser;
      }
    }

    /** `setLocalUser(user = {})`: an omitted or null user stores `{}`. */
    method SetLocalUser(user: Option<SessionUser>)
      requires Valid()
      modifies this
      ensures Valid()
      ensures items == old(items)[UserKey := UserJson(Coalesce(user, EmptyUser))]
    {
      var u := if user.Some? then user.value else EmptyUser;
      items := items[UserKey := UserJson(u)];
    }

    method GetToken() returns (t: string)
      requires Valid()
      ensures t == TokenHeader(items)
    {
      var raw := if TokenKey in items then items[TokenKey].text else "null";
      t := "Bearer " + raw;
    }

    /** `setToken(token = '')`: an omitted token stores "". */
    method SetToken(token: Option<string>)
      requires Valid()
      modifies this
      ensures Valid()
      ensures items == old(items)[TokenKey := Text(Coalesce(token, ""))]
    {
      var t := if token.Some? then token.value else "";
      items := items[TokenKey := Text(t)];
    }

    method LogoutUser()
      requires Valid()
      modifies this
      ensures Valid()
      ensures items == old(items) - {TokenKey, UserKey}
    {
      items := items - {TokenKey};
      items := items - {UserKey};
    }
  }

  /** Storing a user and reading it back gives that user; storing nothing gives `{}`. */
  lemma UserRoundTrip(items: map<string, Item>, u: Option<SessionUser>)
    requires WellFormed(items)
    ensures WellFormed(items[UserKey := UserJson(Coalesce(u, EmptyUser))])
    ensures u.Some? ==> StoredUser(items[UserKey := UserJson(Coalesce(u, EmptyUser))]) == u.value
    ensures u.None? ==> StoredUser(items[UserKey := UserJson(Coalesce(u, EmptyUser))]) == EmptyUser
  {
  }

  /** Storing token `t` and reading it back gives "Bearer " + t. */
  lemma TokenRoundTrip(items: map<string, Item>, t: string)
    requires WellFormed(items)
    ensures WellFormed(items[TokenKey := Text(t)])
    ensures TokenHeader(items[TokenKey := Text(t)]) == "Bearer " + t
  {
  }

  /** With no token stored the header is "Bearer null"; it is never "". */
  lemma MissingTokenHeader(items: map<string, Item>)
    requires WellFormed(items) && TokenKey !in items
    ensures TokenHeader(items) == "Bearer null"
    ensures TokenHeader(items) != ""
  {
  }

  /** After sign-out the user reads as `{}` and the token as "Bearer null",
      and every other key keeps its value. */
  lemma LogoutEffect(items: map<string, Item>)
    requires WellFormed(items)
    ensures WellFormed(items - {TokenKey, UserKey})
    ensures StoredUser(items - {TokenKey, UserKey}) == EmptyUser
    ensures TokenHeader(items - {TokenKey, UserKey}) == "Bearer null"
    ensures forall k :: k != TokenKey && k != UserKey ==>
      (k in items - {TokenKey, UserKey} <==> k in items)
      && (k in items ==> (items - {TokenKey, UserKey})[k] == items[k])
  {
  }
}
