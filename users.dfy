/**
 The user controller of the social-network server: looking a user up, listing
 a user's friends as projections, and toggling a friendship between two users.

 The user collection is a store from user id to user document. Each handler's
 HTTP answer is an `Outcome`: `Ok` (status 200), `NotFound` (404) or
 `ServerError` (500, what the handlers' `catch` blocks send).
 */
module Users {

  /** An opaque user id, as it travels in request parameters and `friends` lists. */
  type Id = string

  /** The part of a stored user document that the controller reads or writes. */
  datatype User = User(
    friends: seq<Id>,
    firstName: string,
    lastName: string,
    occupation: string,
    location: string,
    picturePath: string)

  /** The reduced view of a user that friend lists are made of. */
  datatype FriendView = FriendView(
    id: Id,
    firstName: string,
    lastName: string,
    occupation: string,
    location: string,
    picturePath: string)

  datatype Outcome<T> = Ok(value: T) | NotFound | ServerError

  /** A user document with its friend list emptied: the fields that no
      handler changes. */
  function Profile(u: User): User
  {
    u.(friends := [])
  }

  /** `GET /users/:id`: the stored document, or "user not found". */
  function GetUser(users: map<Id, User>, id: Id): (r: Outcome<User>)
    ensures r.NotFound? <==> id !in users
    ensures r.Ok? <==> id in users
    ensures r.Ok? ==> r.value == users[id]
  {
    if id in users then Ok(users[id]) else NotFound
  }

  /** The projection both friend-list handlers apply to each fetched document:
      its `_id` and the five profile fields, nothing of its friend list. */
  function Project(id: Id, u: User): FriendView
  {
    FriendView(id, u.firstName, u.lastName, u.occupation, u.location, u.picturePath)
  }

  /** Two projections agree exactly when their ids and their profile fields do:
      the projection keeps every profile field and nothing of the friend list. */
  lemma ProjectionExact(id: Id, u: User, id': Id, u': User)
    ensures Project(id, u) == Project(id', u') <==> id == id' && Profile(u) == Profile(u')
  {
  }

  /** Every id of `ids` names a stored user. */
  ghost predicate AllResolve(users: map<Id, User>, ids: seq<Id>)
  {
    forall i :: 0 <= i < |ids| ==> ids[i] in users
  }

  /** Fetching every id of `ids` (in order) and projecting each document.
      A fetch that finds nothing yields null, and destructuring null throws,
      so one dangling id fails the whole list. */
  function FriendList(users: map<Id, User>, ids: seq<Id>): (r: Outcome<seq<FriendView>>)
    ensures !r.NotFound?
    ensures r.Ok? <==> AllResolve(users, ids)
    ensures r.Ok? ==> |r.value| == |ids|
    ensures r.Ok? ==> forall i :: 0 <= i < |ids| ==> r.value[i] == Project(ids[i], users[ids[i]])
  {
    if ids == [] then Ok([])
    else if ids[0] !in users then ServerError
    else
      match FriendList(users, ids[1..])
      case Ok(rest) => Ok([Project(ids[0], users[ids[0]])] + rest)
      case _ => ServerError
  }

  /** `GET /users/:id/friends`. The source does not check the user lookup:
      a missing user is dereferenced, throws, and ends as a server error. */
  function GetUserFriends(users: map<Id, User>, id: Id): (r: Outcome<seq<FriendView>>)
    ensures !r.NotFound?
    ensures r.Ok? <==> id in users && AllResolve(users, users[id].friends)
    ensures r.Ok? ==> |r.value| == |users[id].friends|
    ensures r.Ok? ==> forall i :: 0 <= i < |r.value| ==>
      r.value[i] == Project(users[id].friends[i], users[users[id].friends[i]])
  {
    if id !in users then ServerError else FriendList(users, users[id].friends)
  }

  /** `s.filter((id) => id !== x)`: every occurrence of `x` dropped, the rest
      kept in order. */
  function RemoveAll(s: seq<Id>, x: Id): (r: seq<Id>)
    ensures x !in r
    ensures forall y :: y in r <==> y in s && y != x
    ensures multiset(r) == multiset(s)[x := 0]
    ensures x !in s ==> r == s
  {
    if s == [] then []
    else
      assert s == [s[0]] + s[1..];
      if s[0] == x then RemoveAll(s[1..], x) else [s[0]] + RemoveAll(s[1..], x)
  }

  /** The store after `addRemoveFriend(userId, friendId)` has saved both
      documents: the friendship is dropped on both sides when `friendId` is
      in the user's list, and appended on both sides otherwise. */
  function Toggle(users: map<Id, User>, userId: Id, friendId: Id): (r: map<Id, User>)
    requires userId in users && friendId in users && userId != friendId
    ensures r.Keys == users.Keys
    ensures forall k :: k in users && k != userId && k != friendId ==> r[k] == users[k]
    ensures Profile(r[userId]) == Profile(users[userId])
    ensures Profile(r[friendId]) == Profile(users[friendId])
  {
    var user, friend := users[userId], users[friendId];
    if friendId in user.friends then
      users[userId := user.(friends := RemoveAll(user.friends, friendId))]
           [friendId := friend.(friends := RemoveAll(friend.friends, userId))]
    else
      users[userId := user.(friends := user.friends + [friendId])]
           [friendId := friend.(friends := friend.friends + [userId])]
  }

  /** The user collection, whose documents the toggle handler changes and saves. */
  class UserStore {
    var users: map<Id, User>

    constructor (initial: map<Id, User>)
      ensures users == initial
    {
      users := initial;
    }

    /** `PATCH /users/:id/:friendId`. Both documents are fetched; a missing one
        is dereferenced and throws before anything is saved. Otherwise both
        friend lists change in memory, both documents are saved, and the
        user's new friend list is fetched and projected; a dangling id there
        fails the answer although both saves have happened. */
    method AddRemoveFriend(userId: Id, friendId: Id) returns (r: Outcome<seq<FriendView>>)
      requires userId != friendId
      modifies this
      ensures userId !in old(users) || friendId !in old(users) ==>
        r == ServerError && users == old(users)
      ensures userId in old(users) && friendId in old(users) ==>
        users == Toggle(old(users), userId, friendId) && r == GetUserFriends(users, userId)
    {
      if userId !in users || friendId !in users {
        return ServerError;
      }
      var user, friend := users[userId], users[friendId];
      if friendId in user.friends {
        user := user.(friends := RemoveAll(user.friends, friendId));
        friend := friend.(friends := RemoveAll(friend.friends, userId));
      } else {
        user := user.(friends := user.friends + [friendId]);
        friend := friend.(friends := friend.friends + [userId]);
      }
      users := users[userId := user];
      users := users[friendId := friend];
      r := FriendList(users, user.friends);
    }
  }
}
