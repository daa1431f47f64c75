/**
 What the friend toggle of the user controller does to the friendship graph:
 which lists it changes and how, that doing it twice undoes it, and that it
 keeps the graph symmetric and free of dangling ids.
 */
module Friendship {
  import opened Users

  /** `x` and `y` are stored users and `y` is in `x`'s friend list. */
  ghost predicate Edge(users: map<Id, User>, x: Id, y: Id)
  {
    x in users && y in users && y in users[x].friends
  }

  /** Friendship is mutual: every stored user lists exactly the stored users
      that list it. */
  ghost predicate Symmetric(users: map<Id, User>)
  {
    forall x, y :: Edge(users, x, y) ==> Edge(users, y, x)
  }

  /** No friend list holds an id that does not resolve to a stored user. */
  ghost predicate Closed(users: map<Id, User>)
  {
    forall x :: x in users ==> AllResolve(users, users[x].friends)
  }

  /** Filtering distributes over concatenation: the order of what is kept is
      the order of the input. */
  lemma {:induction false} RemoveAllConcat(s: seq<Id>, t: seq<Id>, x: Id)
    ensures RemoveAll(s + t, x) == RemoveAll(s, x) + RemoveAll(t, x)
  {
    if s == [] {
      assert s + t == t;
    } else {
      assert (s + t)[1..] == s[1..] + t;
      RemoveAllConcat(s[1..], t, x);
    }
  }

  /** Appending `x` and then filtering it out gives back a list without `x`. */
  lemma RemoveAllAppended(s: seq<Id>, x: Id)
    requires x !in s
    ensures RemoveAll(s + [x], x) == s
  {
    RemoveAllConcat(s, [x], x);
    assert RemoveAll([x], x) == [];
  }

  /** When `friendId` is in the user's list, the toggle filters each id out of
      the other's list, keeping the order of the rest. */
  lemma ToggleRemoves(users: map<Id, User>, userId: Id, friendId: Id)
    requires userId in users && friendId in users && userId != friendId
    requires friendId in users[userId].friends
    ensures var r := Toggle(users, userId, friendId);
      && r[userId].friends == RemoveAll(users[userId].friends, friendId)
      && r[friendId].friends == RemoveAll(users[friendId].friends, userId)
      && !Edge(r, userId, friendId) && !Edge(r, friendId, userId)
  {
  }

  /** When `friendId` is not in the user's list, the toggle appends each id to
      the other's list. */
  lemma ToggleAppends(users: map<Id, User>, userId: Id, friendId: Id)
    requires userId in users && friendId in users && userId != friendId
    requires friendId !in users[userId].friends
    ensures var r := Toggle(users, userId, friendId);
      && r[userId].friends == users[userId].friends + [friendId]
      && r[friendId].friends == users[friendId].friends + [userId]
      && Edge(r, userId, friendId) && Edge(r, friendId, userId)
  {
  }

  /** The toggle flips the edge from the user to the friend, and on a
      symmetric store the edge back as well. */
  lemma ToggleFlipsEdge(users: map<Id, User>, userId: Id, friendId: Id)
    requires userId in users && friendId in users && userId != friendId
    ensures Edge(Toggle(users, userId, friendId), userId, friendId) <==> !Edge(users, userId, friendId)
    ensures Symmetric(users) ==>
      (Edge(Toggle(users, userId, friendId), friendId, userId) <==> !Edge(users, friendId, userId))
  {
  }

  /** Befriending two users who do not list each other and then toggling the
      same pair again restores every friend list exactly. */
  lemma {:induction false} ToggleTwiceRestores(users: map<Id, User>, userId: Id, friendId: Id)
    requires userId in users && friendId in users && userId != friendId
    requires friendId !in users[userId].friends && userId !in users[friendId].friends
    ensures Toggle(Toggle(users, userId, friendId), userId, friendId) == users
  {
    var once := Toggle(users, userId, friendId);
    ToggleAppends(users, userId, friendId);
    ToggleRemoves(once, userId, friendId);
    var twice := Toggle(once, userId, friendId);
    RemoveAllAppended(users[userId].friends, friendId);
    RemoveAllAppended(users[friendId].friends, userId);
    assert twice[userId] == users[userId];
    assert twice[friendId] == users[friendId];
  }

  /** The toggle keeps friendship mutual. */
  lemma ToggleKeepsSymmetric(users: map<Id, User>, userId: Id, friendId: Id)
    requires userId in users && friendId in users && userId != friendId
    requires Symmetric(users)
    ensures Symmetric(Toggle(users, userId, friendId))
  {
    var r := Toggle(users, userId, friendId);
    if friendId in users[userId].friends {
      ToggleRemoves(users, userId, friendId);
    } else {
      ToggleAppends(users, userId, friendId);
    }
    forall x, y | Edge(r, x, y) ensures Edge(r, y, x) {
      if {x, y} != {userId, friendId} {
        assert Edge(users, x, y);
      }
    }
  }

  /** The toggle only ever adds ids of stored users, so a store without
      dangling ids keeps none. */
  lemma ToggleKeepsClosed(users: map<Id, User>, userId: Id, friendId: Id)
    requires userId in users && friendId in users && userId != friendId
    requires Closed(users)
    ensures Closed(Toggle(users, userId, friendId))
  {
    var r := Toggle(users, userId, friendId);
    if friendId in users[userId].friends {
      ToggleRemoves(users, userId, friendId);
    } else {
      ToggleAppends(users, userId, friendId);
    }
    forall x, i | x in r && 0 <= i < |r[x].friends| ensures r[x].friends[i] in r {
      assert r[x].friends[i] in r[x].friends;
    }
  }

  /** On a store without dangling ids, the friend list of a stored user never
      fails: it projects every friend, in order. */
  lemma ClosedFriendListSucceeds(users: map<Id, User>, id: Id)
    requires Closed(users) && id in users
    ensures GetUserFriends(users, id).Ok?
    ensures |GetUserFriends(users, id).value| == |users[id].friends|
  {
  }

  /** On a store without dangling ids, the toggle succeeds and
      answers with the projection of the user's updated friend list, which
      holds the friend exactly when the user's list did not. */
  lemma ToggleAnswer(users: map<Id, User>, userId: Id, friendId: Id)
    requires userId in users && friendId in users && userId != friendId
    requires Closed(users)
    ensures var r := Toggle(users, userId, friendId);
      && GetUserFriends(r, userId).Ok?
      && (Project(friendId, r[friendId]) in GetUserFriends(r, userId).value
          <==> friendId !in users[userId].friends)
  {
    var r := Toggle(users, userId, friendId);
    ToggleKeepsClosed(users, userId, friendId);
    var list := GetUserFriends(r, userId).value;
    if friendId in users[userId].friends {
      ToggleRemoves(users, userId, friendId);
    } else {
      ToggleAppends(users, userId, friendId);
      var n := |r[userId].friends| - 1;
      assert r[userId].friends[n] == friendId;
      assert list[n] == Project(friendId, r[friendId]);
    }
  }
}
