/**
 * The demonstration user controller: an in-memory list of user records
 * with list, get, create, update and delete by numeric id. A record is a
 * JSON object; since creation spreads the request body into the new
 * record, it may carry any keys. Every handler returns the list it leaves
 * behind. `now` stands for `new Date()` and is stored as milliseconds.
 */
module Users {
  import opened Values
  import opened Strings
  import opened ResponseEnvelope

  type User = map<string, Json>

  const NotFoundMessage := "用户不存在"
  const DeletedMessage := "用户已删除"

  /** A handler's answer: an envelope, or an exception for a body that is not JSON. */
  datatype Answer = Sent(reply: Reply) | Thrown

  datatype UserStep = UserStep(answer: Answer, users: seq<User>)

  /**
   * `u.id === id`, where `id` is `Number` of the path parameter; `None`
   * stands for a parameter that is not an integer (`NaN` matches nothing).
   */
  predicate HasId(u: User, id: Option<int>)
  {
    id.Some? && "id" in u && u["id"] == JNum(id.value)
  }

  /** `users.findIndex(u => u.id === id)`: the first match, or -1. */
  function FindIndex(users: seq<User>, id: Option<int>): (i: int)
    ensures -1 <= i < |users|
    ensures i >= 0 ==> HasId(users[i], id)
    ensures forall j :: 0 <= j < |users| && (i < 0 || j < i) ==> !HasId(users[j], id)
  {
    if |users| == 0 then -1
    else if HasId(users[0], id) then 0
    else
      var i := FindIndex(users[1..], id);
      if i < 0 then -1 else i + 1
  }

  /** The fields of `items` under the keys "0", "1", ... as an object spread of an array writes them. */
  function IndexKeys(items: seq<Json>): (r: map<string, Json>)
    ensures forall i :: 0 <= i < |items| ==> NatToString(i) in r && r[NatToString(i)] == items[i]
  {
    if |items| == 0 then map[]
    else
      var n := |items| - 1;
      var r := IndexKeys(items[..n]);
      assert forall i :: 0 <= i < n ==> NatToString(i) != NatToString(n) by {
        forall i | 0 <= i < n
          ensures NatToString(i) != NatToString(n)
        {
          if NatToString(i) == NatToString(n) {
            NatToStringInjective(i, n);
          }
        }
      }
      r[NatToString(n) := items[n]]
  }

  /**
   * `{ ...body }`: an object contributes its fields, an array its elements
   * and a string its characters under their indices, anything else nothing.
   */
  function Spread(j: Json): (r: map<string, Json>)
    ensures j.JObj? ==> r == j.fields
    ensures j.JNull? || j.JBool? || j.JNum? ==> r == map[]
  {
    match j
    case JObj(fields) => fields
    case JArr(items) => IndexKeys(items)
    case JStr(s) => IndexKeys(seq(|s|, i requires 0 <= i < |s| => JStr([s[i]])))
    case _ => map[]
  }

  /** `a ?? b`: `a` unless it is `null` or `undefined`. */
  function Nullish(a: Option<Json>, b: Option<Json>): (r: Option<Json>)
    ensures a.Some? && !a.value.JNull? ==> r == a
    ensures a.None? || a.value.JNull? ==> r == b
  {
    if a.Some? && !a.value.JNull? then a else b
  }

  function UserList(users: seq<User>): (j: Json)
    ensures j.JArr? && |j.items| == |users|
    ensures forall i :: 0 <= i < |users| ==> j.items[i] == JObj(users[i])
  {
    JArr(seq(|users|, i requires 0 <= i < |users| => JObj(users[i])))
  }

  /** `getUsers`: the whole list in a success envelope; the list is unchanged. */
  function GetUsers(users: seq<User>, now: Millis): (out: UserStep)
    ensures out.users == users
    ensures out.answer.Sent? && out.answer.reply.httpStatus == 200
    ensures out.answer.reply.body.data == Some(UserList(users))
  {
    UserStep(Sent(Success(Some(UserList(users)), None, now)), users)
  }

  function NotFound(now: Millis): Reply
  {
    Error(NotFoundMessage, Some(404), None, "", now)
  }

  /** `getUser`: the first user with the id, or 404; the list is unchanged. */
  function GetUser(users: seq<User>, id: Option<int>, now: Millis): (out: UserStep)
    ensures out.users == users && out.answer.Sent?
    ensures (forall j :: 0 <= j < |users| ==> !HasId(users[j], id)) ==> out.answer.reply == NotFound(now)
    ensures forall j :: 0 <= j < |users| && HasId(users[j], id) ==>
      exists i :: 0 <= i <= j && HasId(users[i], id) && out.answer.reply.body.data == Some(JObj(users[i]))
    ensures out.answer.reply.httpStatus == 200 <==> exists j :: 0 <= j < |users| && HasId(users[j], id)
  {
    var i := FindIndex(users, id);
    if i < 0 then UserStep(Sent(NotFound(now)), users)
    else UserStep(Sent(Success(Some(JObj(users[i])), None, now)), users)
  }

  /**
   * The record `createUser` builds: id `length + 1`, then the body's keys
   * (so a body `id` overrides it), then both time stamps.
   */
  function NewUser(count: nat, body: Json, now: Millis): (u: User)
    ensures "createdAt" in u && "updatedAt" in u && u["createdAt"] == JNum(now) && u["updatedAt"] == JNum(now)
    ensures "id" in u
    ensures "id" !in Spread(body) ==> u["id"] == JNum(count + 1)
    ensures forall k :: k in Spread(body) && k != "createdAt" && k != "updatedAt" ==> k in u && u[k] == Spread(body)[k]
    ensures forall k :: k in u ==> k in Spread(body) || k in {"id", "createdAt", "updatedAt"}
  {
    (map["id" := JNum(count + 1)] + Spread(body)) + map["createdAt" := JNum(now), "updatedAt" := JNum(now)]
  }

  /**
   * `createUser`: appends exactly one record and answers with it; the
   * existing records are unchanged. A body that is not JSON throws.
   */
  function CreateUser(users: seq<User>, body: Option<Json>, now: Millis): (out: UserStep)
    ensures body.None? ==> out == UserStep(Thrown, users)
    ensures body.Some? ==>
      && |out.users| == |users| + 1
      && out.users[..|users|] == users
      && out.users[|users|] == NewUser(|users|, body.value, now)
      && out.answer == Sent(Success(Some(JObj(out.users[|users|])), None, now))
  {
    if body.None? then UserStep(Thrown, users)
    else
      var u := NewUser(|users|, body.value, now);
      UserStep(Sent(Success(Some(JObj(u)), None, now)), users + [u])
  }

  /** `r` has the key `k` exactly when `u` has it, with the same value. */
  predicate Carried(r: User, u: User, k: string)
  {
    (k in r <==> k in u) && (k in u ==> r[k] == u[k])
  }

  /** `body.k ?? u.k` was written to `r`: the body's value unless null or undefined, else `u`'s. */
  predicate TakenOrKept(r: User, u: User, body: Json, k: string)
  {
    if Field(body, k).Some? && !Field(body, k).value.JNull? then k in r && r[k] == Field(body, k).value
    else Carried(r, u, k)
  }

  const UpdatedKeys: set<string> := {"id", "name", "email", "createdAt", "updatedAt"}

  /** The value `updateUser` writes under `k`, if any. */
  function UpdatedValue(u: User, body: Json, now: Millis, k: string): Option<Json>
  {
    var before := if k in u then Some(u[k]) else None;
    if k == "updatedAt" then Some(JNum(now))
    else if k == "id" || k == "createdAt" then before
    else if k == "name" || k == "email" then Nullish(Field(body, k), before)
    else None
  }

  /**
   * The record `updateUser` builds from the found one: its `id` and
   * `createdAt`, `name` and `email` from the body unless null or
   * undefined there, and a new `updatedAt`; any other key is dropped.
   */
  function Updated(u: User, body: Json, now: Millis): (r: User)
    ensures r.Keys <= UpdatedKeys
    ensures "updatedAt" in r && r["updatedAt"] == JNum(now)
    ensures Carried(r, u, "id") && Carried(r, u, "createdAt")
    ensures TakenOrKept(r, u, body, "name") && TakenOrKept(r, u, body, "email")
  {
    map k | k in UpdatedKeys && UpdatedValue(u, body, now, k).Some? :: UpdatedValue(u, body, now, k).value
  }

  /**
   * `updateUser`: replaces the first user with the id and answers with the
   * new record; 404 with the list unchanged when there is none. The body
   * is parsed first; reading a property of a `null` body throws.
   */
  function UpdateUser(users: seq<User>, id: Option<int>, body: Option<Json>, now: Millis): (out: UserStep)
    ensures body.None? ==> out == UserStep(Thrown, users)
    ensures body.Some? && FindIndex(users, id) < 0 ==> out == UserStep(Sent(NotFound(now)), users)
    ensures body.Some? && FindIndex(users, id) >= 0 && body.value.JNull? ==> out == UserStep(Thrown, users)
    ensures body.Some? && FindIndex(users, id) >= 0 && !body.value.JNull? ==>
      var i := FindIndex(users, id);
      && |out.users| == |users|
      && (forall j :: 0 <= j < |users| && j != i ==> out.users[j] == users[j])
      && out.users[i] == Updated(users[i], body.value, now)
      && out.answer == Sent(Success(Some(JObj(out.users[i])), None, now))
  {
    if body.None? then UserStep(Thrown, users)
    else
      var i := FindIndex(users, id);
      if i < 0 then UserStep(Sent(NotFound(now)), users)
      else if body.value.JNull? then UserStep(Thrown, users)
      else
        var u := Updated(users[i], body.value, now);
        UserStep(Sent(Success(Some(JObj(u)), None, now)), users[i := u])
  }

  /**
   * `deleteUser`: removes the first user with the id, keeping the others
   * in order, and answers with a message; 404 with the list unchanged
   * when there is none.
   */
  function DeleteUser(users: seq<User>, id: Option<int>, now: Millis): (out: UserStep)
    ensures FindIndex(users, id) < 0 ==> out == UserStep(Sent(NotFound(now)), users)
    ensures FindIndex(users, id) >= 0 ==>
      var i := FindIndex(users, id);
      && |out.users| == |users| - 1
      && out.users == users[..i] + users[i + 1..]
      && multiset(out.users) + multiset{users[i]} == multiset(users)
      && out.answer.Sent? && out.answer.reply.httpStatus == 200
      && out.answer.reply.body.data == Some(JObj(map["message" := JStr(DeletedMessage)]))
  {
    var i := FindIndex(users, id);
    if i < 0 then UserStep(Sent(NotFound(now)), users)
    else
      assert users == users[..i] + [users[i]] + users[i + 1..];
      UserStep(Sent(Success(Some(JObj(map["message" := JStr(DeletedMessage)])), None, now)), users[..i] + users[i + 1..])
  }

  /** After an update, fetching the same id answers with the updated record. */
  lemma UpdateThenGet(users: seq<User>, id: Option<int>, body: Json, now: Millis, later: Millis)
    requires FindIndex(users, id) >= 0 && !body.JNull?
    ensures var out := UpdateUser(users, id, Some(body), now);
      var i := FindIndex(users, id);
      GetUser(out.users, id, later).answer.reply.body.data == Some(JObj(Updated(users[i], body, now)))
  {
    var i := FindIndex(users, id);
    var out := UpdateUser(users, id, Some(body), now);
    assert HasId(out.users[i], id);
    assert FindIndex(out.users, id) == i by {
      FindIndexUnique(out.users, id, i);
    }
  }

  /** The first match is the only index before which nothing matches. */
  lemma FindIndexUnique(users: seq<User>, id: Option<int>, i: int)
    requires 0 <= i < |users| && HasId(users[i], id)
    requires forall j :: 0 <= j < i ==> !HasId(users[j], id)
    ensures FindIndex(users, id) == i
  {
  }

  /**
   * Once deleted, a user is gone: fetching its id finds the next user with
   * that id, if any, and answers 404 otherwise.
   */
  lemma {:induction false} DeleteThenGet(users: seq<User>, id: Option<int>, now: Millis, later: Millis)
    requires FindIndex(users, id) >= 0
    ensures var i := FindIndex(users, id);
      var rest := DeleteUser(users, id, now).users;
      GetUser(rest, id, later).answer.reply.httpStatus == 200 <==>
        exists j :: i < j < |users| && HasId(users[j], id)
  {
    var i := FindIndex(users, id);
    var rest := DeleteUser(users, id, now).users;
    if exists j :: i < j < |users| && HasId(users[j], id) {
      var j :| i < j < |users| && HasId(users[j], id);
      assert rest[j - 1] == users[j];
    }
    if exists k :: 0 <= k < |rest| && HasId(rest[k], id) {
      var k :| 0 <= k < |rest| && HasId(rest[k], id);
      if k >= i {
        assert rest[k] == users[k + 1];
      }
    }
  }

  /**
   * Ids are not unique: when the last of n users carries id n, as it does
   * after n creations, deleting any earlier user and creating one more
   * gives the new user id n again, the id the last user already has.
   */
  lemma IdRepeatsAfterDelete(users: seq<User>, id: Option<int>, body: Json, now: Millis)
    requires |users| >= 2 && HasId(users[|users| - 1], Some(|users|))
    requires 0 <= FindIndex(users, id) < |users| - 1
    requires "id" !in Spread(body)
    ensures var after := CreateUser(DeleteUser(users, id, now).users, Some(body), now).users;
      && |after| == |users|
      && HasId(after[|users| - 2], Some(|users|))
      && HasId(after[|users| - 1], Some(|users|))
  {
    var n := |users|;
    var rest := DeleteUser(users, id, now).users;
    assert rest[n - 2] == users[n - 1];
  }
}
