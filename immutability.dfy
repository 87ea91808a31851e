/** Appending a user in place (`addUserBad`) against building new arrays
    and records with spread (`addUser`, `updateUserAddress`). */
module Immutability {
  import opened Wrappers
  import opened JsValues

  /** A JavaScript array object: it has an identity, and `push` grows it in
      place. */
  class UserArray {
    var elements: seq<Record>

    constructor (elements: seq<Record>)
      ensures this.elements == elements
    {
      this.elements := elements;
    }
  }

  /** `users.push(user); return users;` mutates the caller's array and
      returns that same array. */
  method AddUserBad(users: UserArray, user: Record) returns (r: UserArray)
    modifies users
    ensures r == users
    ensures users.elements == old(users.elements) + [user]
  {
    users.elements := users.elements + [user];
    r := users;
  }

  /** `[...users, { ...user, id: now }]`, where `now` is the clock reading
      `Date.now()`. */
  function AddUser(users: seq<Record>, user: Record, now: int): (r: seq<Record>)
    ensures |r| == |users| + 1 && r[..|users|] == users
    ensures r[|users|].Keys == user.Keys + {"id"} && r[|users|]["id"] == Num(now)
    ensures forall k :: k in user && k != "id" ==> r[|users|][k] == user[k]
  {
    users + [Spread(user, map["id" := Num(now)])]
  }

  // Stands for the TypeError the engine throws; its wording is not modelled.
  const NULLISH_USER: string := "TypeError: cannot read 'address' of a null or undefined user"

  /** `{ ...user, address: { ...user.address, city: newCity } }`. Spreading
      an undefined or null user adds nothing, but reading `user.address` of
      it throws. */
  function UpdateUserAddress(user: Value, newCity: Value): (r: Result<Record, string>)
    ensures r.Err? <==> user.Undefined? || user.Null?
    ensures r.Err? ==> r.error == NULLISH_USER
    ensures r.Ok? ==> r.value.Keys == OwnFields(user).Keys + {"address"}
    ensures r.Ok? ==> forall k :: k in OwnFields(user) && k != "address" ==> r.value[k] == OwnFields(user)[k]
    ensures r.Ok? ==> r.value["address"].Obj?
    ensures r.Ok? ==> r.value["address"].fields.Keys == OwnFields(Get(OwnFields(user), "address")).Keys + {"city"}
    ensures r.Ok? ==> r.value["address"].fields["city"] == newCity
    ensures r.Ok? ==> forall k :: k in OwnFields(Get(OwnFields(user), "address")) && k != "city" ==>
      r.value["address"].fields[k] == OwnFields(Get(OwnFields(user), "address"))[k]
  {
    if user.Undefined? || user.Null? then Err(NULLISH_USER)
    else
      var fields := OwnFields(user);
      var address := OwnFields(Get(fields, "address"));
      Ok(Spread(fields, map["address" := Obj(Spread(address, map["city" := newCity]))]))
  }

  /** Without an address, the new address is just `{ city: newCity }`. */
  lemma NoPriorAddress(user: Record, newCity: Value)
    requires "address" !in user
    ensures UpdateUserAddress(Obj(user), newCity).Ok?
    ensures UpdateUserAddress(Obj(user), newCity).value["address"] == Obj(map["city" := newCity])
  {
  }

  /** `updateUserAddress(null, c)` and `updateUserAddress(undefined, c)`
      throw instead of building a record. */
  lemma NullishUserThrows(newCity: Value)
    ensures UpdateUserAddress(Null, newCity) == Err(NULLISH_USER)
    ensures UpdateUserAddress(Undefined, newCity) == Err(NULLISH_USER)
  {
  }

  /** On one array object: `addUser` reads the array's contents and returns
      a new list, while `addUserBad` then grows the array itself. The list
      `addUser` built still starts with the contents it read, and the array
      object the caller holds now has the user appended. */
  method MutableVersusImmutable(initial: seq<Record>, user: Record, now: int)
    returns (read: seq<Record>, built: seq<Record>, held: seq<Record>)
    ensures read == initial
    ensures held == initial + [user]
    ensures |built| == |initial| + 1 && built[..|initial|] == read
    ensures "id" in built[|initial|] && built[|initial|]["id"] == Num(now)
  {
    var users := new UserArray(initial);
    read := users.elements;
    built := AddUser(users.elements, user, now);
    var same := AddUserBad(users, user);
    held := users.elements;
  }
}
