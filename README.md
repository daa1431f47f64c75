# Friend relationships of the social-network server

A Dafny model of the user controller of the social-network server
(`controllers/users.js`). The controller has three request handlers:

- `getUser` looks a user up.
- `getUserFriends` lists a user's friends. Each friend appears as a projection
  holding `_id`, `firstName`, `lastName`, `occupation`, `location` and
  `picturePath`.
- `addRemoveFriend` toggles the friendship of two users on both sides. It then
  saves both documents and answers with the user's new friend list.

The user collection is a map from user id to user document (`Users.User`).
The document holds the `friends` list and the five profile fields. Ids are
plain strings compared by string equality. This assumes `friends` stores the
id strings that the toggle pushes (controllers/users.js:47-48), so that
`includes` and `!==` (lines 43-45) compare strings; the conversion of an id to
a database ObjectId inside `findById` is not modelled. Each
handler's HTTP answer is an `Outcome`:

- `Ok` is status 200.
- `NotFound` is status 404.
- `ServerError` is status 500, the answer of the handlers' `catch` blocks.

`getUser` and the two friend-list projections are pure lookups and maps, so
they are functions over the map. `addRemoveFriend` changes two documents in
place and saves them. It is a method of the class `Users.UserStore`, whose
`users` field is the collection. Its new state is tied to the function
`Users.Toggle`. The module `Friendship` proves what the toggle does to the
friendship graph.

The model follows the code as written, including these behaviours of it:

- `getUserFriends` does not check that the user exists. It reads `friends` of
  a null document, which throws, so a missing user gives a 500 (`ServerError`).
  A missing user never gives a 404 or an empty list here.
- A friend id that no longer resolves makes `findById` yield null. Destructuring
  that null throws, so the whole friend list fails with a 500. The list never
  leaves such an entry out.
- `addRemoveFriend` with a missing user or friend also throws before anything is
  saved. The model answers `ServerError` and leaves the store unchanged.
- In `addRemoveFriend`, both saves happen before the new friend list is
  fetched. A dangling id in that list gives a 500 although the store has
  already changed; the model keeps this.
- The toggle decides on the user's list alone. On a non-mutual store it can
  filter nothing out of the friend's list, or append a second copy of the
  user's id to it. The model keeps this; `Friendship.ToggleKeepsSymmetric`
  shows that a mutual store stays mutual.

## Model

| member | source | states |
|---|---|---|
| Users.GetUser | controllers/users.js:7-13 | "not found" exactly when the id is absent; otherwise the stored document, unchanged |
| Users.ProjectionExact | controllers/users.js:27-31 | `Users.Project` is the one projection both friend-list handlers apply (the same one again at lines 56-60); two projections are equal exactly when their ids and profile fields are: the projection keeps `_id` and the five profile fields and nothing of the friend list |
| Users.FriendList | controllers/users.js:24-31 | fetching and projecting a list of ids never answers "not found"; it succeeds exactly when every id resolves; on success it has the same length and order as the ids and entry i is the projection of the document of id i |
| Users.GetUserFriends | controllers/users.js:19-36 | fails (500) when the user is missing or any friend id dangles, and never answers "not found"; otherwise one projection per friend id, in the stored order |
| Users.RemoveAll | controllers/users.js:44-45 | filtering out an id leaves no occurrence of it, keeps every other element with its multiplicity, and changes nothing when the id is absent |
| Users.Toggle | controllers/users.js:41-52 | the toggle keeps the set of users; every other document is unchanged; the two documents keep all their profile fields |
| Users.UserStore.AddRemoveFriend | controllers/users.js:38-67 | a missing user or friend gives a 500 and saves nothing; otherwise the store becomes the toggled store and the answer is the friend list of the user in the new store |
| Friendship.RemoveAllConcat | controllers/users.js:44-45 | filtering distributes over concatenation, so the kept elements stay in input order |
| Friendship.RemoveAllAppended | controllers/users.js:44-48 | appending an id absent from a list and then filtering it out gives the list back |
| Friendship.ToggleRemoves | controllers/users.js:43-45 | when the friend is in the user's list, each side's list becomes the old list with every occurrence of the other id filtered out, and neither lists the other |
| Friendship.ToggleAppends | controllers/users.js:46-48 | when the friend is not in the user's list, each side's list becomes the old list with the other id appended, and both list each other |
| Friendship.ToggleFlipsEdge | controllers/users.js:43-48 | the toggle flips whether the user lists the friend; on a mutual store it flips the reverse edge too |
| Friendship.ToggleTwiceRestores | controllers/users.js:43-52 | two toggles of a pair that do not list each other restore the whole store exactly |
| Friendship.ToggleKeepsSymmetric | controllers/users.js:43-52 | a store where friendship is mutual stays mutual after a toggle |
| Friendship.ToggleKeepsClosed | controllers/users.js:43-52 | a store without dangling friend ids keeps none after a toggle |
| Friendship.ClosedFriendListSucceeds | controllers/users.js:22-31 | on a store without dangling ids, a stored user's friend list succeeds with one entry per friend id |
| Friendship.ToggleAnswer | controllers/users.js:53-62 | on a store without dangling ids, the toggle's answer, built with the shared `Users.Project`, succeeds and contains the friend's projection exactly when the friendship was just added |

## Left out

- HTTP plumbing: request parameters, status codes and JSON bodies are reduced to
  the `Outcome` datatype. The error message in the 500 body is not modelled, and
  neither is the console log line the toggle handler writes when it fails.
- Concurrency: `Promise.all` is modelled as an in-order sequential fetch. The
  database-level races between concurrent toggles of the same pair are not
  modelled.
- Database failures: `findById` throwing (for an id that is not a valid
  ObjectId, or an unreachable database) and `save` failing are not modelled.
  A failure between the two saves, which would leave a one-sided friendship, is
  not modelled either.
- Document fields other than `friends` and the five profile fields (credentials
  and the like) are not part of `User`. `getUser` sends them with the rest of the
  document (controllers/users.js:13); the model's `GetUser` returns only the
  fields it keeps. `models/User.js` is not part of this model.
- `Users.UserStore.AddRemoveFriend` requires `userId != friendId`. The source does
  not check this; with equal ids both saves would write the same document.
- `index.js` (Express, middleware, upload storage, route mounting, database
  connection) and `environment.js` (configuration loading) are framework and
  environment I/O with no logic of this core.
