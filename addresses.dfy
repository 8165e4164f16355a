/** The default shipping address (core/views.py `make_address_default`):
    inside one transaction every default flag of the user is cleared and
    the chosen address of that user becomes the default. */
module Addresses {
  import opened Common
  import opened Models

  /** What `make_address_default` answers. */
  datatype DefaultResult =
    | DefaultSet(id: AddressId)  // {"boolean": true, "id": id}
    | MissingId                  // 400
    | AddressNotFound            // 404, the transaction rolled back
    | DefaultFailed              // 500: the id is not a number

  /** The address table once `id` is the user's default. */
  function WithDefault(addresses: map<AddressId, Address>, user: UserId, id: AddressId): (after: map<AddressId, Address>)
    ensures after.Keys == addresses.Keys
    ensures forall a | a in after :: after[a].user == addresses[a].user
    ensures forall a | a in after && addresses[a].user != Some(user) :: after[a] == addresses[a]
  {
    map a | a in addresses :: if addresses[a].user == Some(user) then addresses[a].(status := a == id) else addresses[a]
  }

  /** The outcome of `make_address_default` for the request's `id`:
      `posted` is the query-string `id` when it is present and not empty,
      and the form's `id` otherwise, so an empty query-string `id` falls
      back to the form's. Absent or empty is refused, text that is not a
      number fails, an id that is not one of the user's addresses is not
      found. */
  function DefaultSpec(addresses: map<AddressId, Address>, user: UserId, posted: Option<Field<int>>): (r: DefaultResult)
    ensures r.DefaultSet? ==> r.id in addresses && addresses[r.id].user == Some(user)
  {
    if posted.None? || posted.value.Blank? then MissingId
    else if posted.value.Garbage? then DefaultFailed
    else
      var id := posted.value.value;
      if id in addresses && addresses[id].user == Some(user) then DefaultSet(id) else AddressNotFound
  }

  /** `make_address_default`. */
  method MakeAddressDefault(db: Store, user: UserId, posted: Option<Field<int>>) returns (r: DefaultResult)
    modifies db`addresses
    ensures r == DefaultSpec(old(db.addresses), user, posted)
    ensures db.addresses == if r.DefaultSet? then WithDefault(old(db.addresses), user, r.id) else old(db.addresses)
  {
    if posted.None? || posted.value.Blank? {
      return MissingId;
    }
    if posted.value.Garbage? {
      return DefaultFailed;
    }
    var id := posted.value.value;
    var saved := db.addresses;
    db.addresses := map a | a in db.addresses ::
      if db.addresses[a].user == Some(user) && db.addresses[a].status then db.addresses[a].(status := false) else db.addresses[a];
    if id !in db.addresses || db.addresses[id].user != Some(user) {
      db.addresses := saved;
      return AddressNotFound;
    }
    db.addresses := db.addresses[id := db.addresses[id].(status := true)];
    r := DefaultSet(id);
    assert db.addresses == WithDefault(saved, user, id);
  }

  /** After a successful call the chosen address is the user's only
      default, every address keeps its owner, and other users' addresses
      are untouched. */
  lemma ExactlyOneDefault(addresses: map<AddressId, Address>, user: UserId, posted: Option<Field<int>>)
    requires DefaultSpec(addresses, user, posted).DefaultSet?
    ensures var id := DefaultSpec(addresses, user, posted).id;
      var after := WithDefault(addresses, user, id);
      after.Keys == addresses.Keys
      && posted == Some(Parsed(id))
      && (set a | a in after && after[a].user == Some(user) && after[a].status) == {id}
      && (forall a | a in after :: after[a].user == addresses[a].user)
      && (forall a | a in after && addresses[a].user != Some(user) :: after[a] == addresses[a])
  {
    var id := DefaultSpec(addresses, user, posted).id;
    var after := WithDefault(addresses, user, id);
    var defaults := set a | a in after && after[a].user == Some(user) && after[a].status;
    assert id in defaults;
    assert forall a | a in defaults :: a == id;
  }

  /** Choosing the same default again changes nothing. */
  lemma WithDefaultIdempotent(addresses: map<AddressId, Address>, user: UserId, id: AddressId)
    ensures WithDefault(WithDefault(addresses, user, id), user, id) == WithDefault(addresses, user, id)
  {
    var once := WithDefault(addresses, user, id);
    assert forall a | a in once :: once[a].user == addresses[a].user;
  }
}
