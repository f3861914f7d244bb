/** The home page (`components/Home.tsx`): album counts per user, the
    loading/error precedence, and the dedup of users by username through a
    JavaScript `Map`. */
module Home {
  import opened Js
  import UserSlice
  import AlbumSlice

  type User = UserSlice.User
  type ServerAlbum = AlbumSlice.ServerAlbum

  /** `albums.filter((album) => album.userId === userId).length`. */
  function AlbumCount(albums: seq<ServerAlbum>, userId: string): (n: nat)
    ensures n <= |albums|
    ensures n == 0 <==> forall i :: 0 <= i < |albums| ==> albums[i].userId != userId
    ensures n == |albums| <==> forall i :: 0 <= i < |albums| ==> albums[i].userId == userId
  {
    if albums == [] then 0
    else
      var rest := AlbumCount(albums[1..], userId);
      assert forall i :: 1 <= i < |albums| ==> albums[1..][i - 1] == albums[i];
      (if albums[0].userId == userId then 1 else 0) + rest
  }

  /** Counting over two lists of albums adds up. */
  lemma {:induction false} AlbumCountAppend(a: seq<ServerAlbum>, b: seq<ServerAlbum>, userId: string)
    ensures AlbumCount(a + b, userId) == AlbumCount(a, userId) + AlbumCount(b, userId)
  {
    if a != [] {
      assert (a + b)[1..] == a[1..] + b;
      assert (a + b)[0] == a[0];
      AlbumCountAppend(a[1..], b, userId);
    } else {
      assert a + b == b;
    }
  }

  // ---- A JavaScript `Map` with string keys --------------------------------

  datatype Entry<V> = Entry(key: string, value: V)

  /** A `Map` as its entries in insertion order. */
  type JsMap<V> = seq<Entry<V>>

  /** The position of key `k`, or -1 when it is absent. */
  function IndexOf<V>(m: JsMap<V>, k: string): (j: int)
    ensures -1 <= j < |m|
    ensures j == -1 <==> forall i :: 0 <= i < |m| ==> m[i].key != k
    ensures j >= 0 ==> m[j].key == k
  {
    if m == [] then -1
    else if m[|m| - 1].key == k then |m| - 1
    else IndexOf(m[..|m| - 1], k)
  }

  /** `map.set(k, v)`: a present key keeps its place and takes the new value;
      an absent key goes at the end. */
  function MapSet<V>(m: JsMap<V>, e: Entry<V>): (r: JsMap<V>)
    ensures |r| == |m| || |r| == |m| + 1
  {
    var j := IndexOf(m, e.key);
    if j < 0 then m + [e] else m[j := e]
  }

  /** `new Map(pairs)`: the pairs set one after another. */
  function FromPairs<V>(pairs: seq<Entry<V>>): (m: JsMap<V>)
    ensures |m| <= |pairs|
  {
    if pairs == [] then [] else MapSet(FromPairs(pairs[..|pairs| - 1]), pairs[|pairs| - 1])
  }

  ghost predicate DistinctKeys<V>(m: JsMap<V>) {
    forall i, j :: 0 <= i < j < |m| ==> m[i].key != m[j].key
  }

  ghost predicate HasKey<V>(s: seq<Entry<V>>, k: string) {
    exists i :: 0 <= i < |s| && s[i].key == k
  }

  /** Pair `i` is the last one with its key. */
  ghost predicate LastWithKey<V>(pairs: seq<Entry<V>>, i: int) {
    0 <= i < |pairs| && forall j :: i < j < |pairs| ==> pairs[j].key != pairs[i].key
  }

  /** The index of the first pair with key `k`. */
  ghost function FirstIndex<V>(pairs: seq<Entry<V>>, k: string): (i: nat)
    requires HasKey(pairs, k)
    ensures i < |pairs| && pairs[i].key == k
    ensures forall j :: 0 <= j < i ==> pairs[j].key != k
  {
    var init := pairs[..|pairs| - 1];
    if HasKey(init, k) then
      var i := FirstIndex(init, k);
      assert pairs[i] == init[i];
      assert forall j :: 0 <= j < i ==> pairs[j] == init[j];
      i
    else
      assert forall j :: 0 <= j < |init| ==> pairs[j] == init[j];
      |pairs| - 1
  }

  /** `map.set` keeps the keys distinct. */
  lemma MapSetDistinct<V>(m: JsMap<V>, e: Entry<V>)
    requires DistinctKeys(m)
    ensures DistinctKeys(MapSet(m, e))
  {
    var r := MapSet(m, e);
    var j := IndexOf(m, e.key);
    if j < 0 {
      assert forall i :: 0 <= i < |m| ==> r[i] == m[i];
      assert r[|m|] == e;
    } else {
      assert forall i :: 0 <= i < |r| ==> r[i].key == m[i].key;
    }
  }

  /** Setting keys never creates a duplicate. */
  lemma {:induction false} FromPairsDistinct<V>(pairs: seq<Entry<V>>)
    ensures DistinctKeys(FromPairs(pairs))
  {
    if pairs != [] {
      FromPairsDistinct(pairs[..|pairs| - 1]);
      MapSetDistinct(FromPairs(pairs[..|pairs| - 1]), pairs[|pairs| - 1]);
    }
  }

  /** `map.set` adds the key it sets and keeps every other key. */
  lemma MapSetKeys<V>(m: JsMap<V>, e: Entry<V>, k: string)
    ensures HasKey(MapSet(m, e), k) <==> HasKey(m, k) || k == e.key
  {
    var r := MapSet(m, e);
    var j := IndexOf(m, e.key);
    if j < 0 {
      assert r[|m|] == e;
      if HasKey(m, k) {
        var i :| 0 <= i < |m| && m[i].key == k;
        assert r[i] == m[i];
      }
      if HasKey(r, k) && k != e.key {
        var i :| 0 <= i < |r| && r[i].key == k;
        assert m[i] == r[i];
      }
    } else {
      assert r[j] == e;
      if HasKey(m, k) {
        var i :| 0 <= i < |m| && m[i].key == k;
        assert r[i].key == k;
      }
      if HasKey(r, k) {
        var i :| 0 <= i < |r| && r[i].key == k;
        assert m[i].key == k;
      }
    }
  }

  /** One more pair adds its key to those of the pairs. */
  lemma HasKeySnoc<V>(init: seq<Entry<V>>, e: Entry<V>, k: string)
    ensures HasKey(init + [e], k) <==> HasKey(init, k) || k == e.key
  {
    var s := init + [e];
    assert s[|init|] == e;
    if HasKey(init, k) {
      var i :| 0 <= i < |init| && init[i].key == k;
      assert s[i] == init[i];
    }
    if HasKey(s, k) && k != e.key {
      var i :| 0 <= i < |s| && s[i].key == k;
      assert init[i] == s[i];
    }
  }

  /** The map has a key exactly when some pair has it. */
  lemma {:induction false} FromPairsKeys<V>(pairs: seq<Entry<V>>, k: string)
    ensures HasKey(FromPairs(pairs), k) <==> HasKey(pairs, k)
  {
    if pairs != [] {
      var init, e := pairs[..|pairs| - 1], pairs[|pairs| - 1];
      FromPairsKeys(init, k);
      assert FromPairs(pairs) == MapSet(FromPairs(init), e);
      MapSetKeys(FromPairs(init), e, k);
      assert pairs == init + [e];
      HasKeySnoc(init, e, k);
    }
  }

  /** After `map.set(e)` the entry with `e`'s key is `e`, and every other entry is as it was. */
  lemma MapSetEntry<V>(m: JsMap<V>, e: Entry<V>, j: int)
    requires DistinctKeys(m) && 0 <= j < |MapSet(m, e)|
    ensures MapSet(m, e)[j].key == e.key ==> MapSet(m, e)[j] == e
    ensures MapSet(m, e)[j].key != e.key ==> j < |m| && MapSet(m, e)[j] == m[j]
  {
    var k := IndexOf(m, e.key);
    if k >= 0 && j != k {
      assert MapSet(m, e)[j] == m[j];
    }
  }

  /** A pair that was last among the earlier pairs is still last after a pair with another key. */
  lemma LastWithKeySnoc<V>(init: seq<Entry<V>>, e: Entry<V>, i: int)
    requires LastWithKey(init, i) && init[i].key != e.key
    ensures LastWithKey(init + [e], i) && (init + [e])[i] == init[i]
  {
    var s := init + [e];
    forall l | i < l < |s| ensures s[l].key != s[i].key {
      if l < |init| { assert s[l] == init[l]; } else { assert s[l] == e; }
    }
  }

  /** Every entry of the map is the last pair set with its key. */
  lemma {:induction false} FromPairsLastWins<V>(pairs: seq<Entry<V>>, j: int)
    requires 0 <= j < |FromPairs(pairs)|
    ensures exists i :: LastWithKey(pairs, i) && pairs[i] == FromPairs(pairs)[j]
  {
    var init, e := pairs[..|pairs| - 1], pairs[|pairs| - 1];
    var m0 := FromPairs(init);
    assert FromPairs(pairs) == MapSet(m0, e);
    assert pairs == init + [e];
    FromPairsDistinct(init);
    MapSetEntry(m0, e, j);
    if FromPairs(pairs)[j].key == e.key {
      assert LastWithKey(pairs, |pairs| - 1);
    } else {
      FromPairsLastWins(init, j);
      var i :| LastWithKey(init, i) && init[i] == m0[j];
      LastWithKeySnoc(init, e, i);
    }
  }

  /** Entries stand in the order in which their keys first appeared. */
  lemma {:induction false} FromPairsOrder<V>(pairs: seq<Entry<V>>, a: int, b: int)
    requires 0 <= a < b < |FromPairs(pairs)|
    ensures HasKey(pairs, FromPairs(pairs)[a].key) && HasKey(pairs, FromPairs(pairs)[b].key)
    ensures FirstIndex(pairs, FromPairs(pairs)[a].key) < FirstIndex(pairs, FromPairs(pairs)[b].key)
  {
    var init, e := pairs[..|pairs| - 1], pairs[|pairs| - 1];
    var m0 := FromPairs(init);
    var m := FromPairs(pairs);
    assert m == MapSet(m0, e);
    var ka, kb := m[a].key, m[b].key;
    assert a < |m0| && m0[a].key == ka;
    FromPairsKeys(init, ka);
    assert HasKey(m0, ka);
    FromPairsKeys(pairs, ka);
    FromPairsKeys(pairs, kb);
    assert HasKey(m, ka) && HasKey(m, kb);
    assert FirstIndex(pairs, ka) == FirstIndex(init, ka);
    if b < |m0| {
      assert m0[b].key == kb;
      FromPairsKeys(init, kb);
      assert HasKey(m0, kb);
      FromPairsOrder(init, a, b);
      assert FirstIndex(pairs, kb) == FirstIndex(init, kb);
    } else {
      assert m[b] == e && IndexOf(m0, e.key) == -1;
      FromPairsKeys(init, kb);
      assert !HasKey(m0, kb);
      assert FirstIndex(pairs, kb) == |pairs| - 1;
    }
  }

  // ---- The home page -------------------------------------------------------

  /** `users.map((user) => [user.username, user])`. */
  function ByUsername(users: seq<User>): (pairs: seq<Entry<User>>)
    ensures |pairs| == |users|
    ensures forall i :: 0 <= i < |users| ==> pairs[i] == Entry(users[i].username, users[i])
  {
    seq(|users|, i requires 0 <= i < |users| => Entry(users[i].username, users[i]))
  }

  function Values<V>(m: JsMap<V>): (vs: seq<V>)
    ensures |vs| == |m|
    ensures forall i :: 0 <= i < |m| ==> vs[i] == m[i].value
  {
    seq(|m|, i requires 0 <= i < |m| => m[i].value)
  }

  /** `Array.from(new Map(users.map(...)).values())`. */
  function UniqueUsers(users: seq<User>): (r: seq<User>)
    ensures |r| <= |users|
  {
    Values(FromPairs(ByUsername(users)))
  }

  /** The entries of the username map hold the users under their own usernames. */
  lemma KeysAreUsernames(users: seq<User>, j: int)
    requires 0 <= j < |FromPairs(ByUsername(users))|
    ensures FromPairs(ByUsername(users))[j].key == UniqueUsers(users)[j].username
  {
    FromPairsLastWins(ByUsername(users), j);
  }

  /** The last user with a given username. */
  ghost predicate LastWithUsername(users: seq<User>, i: int) {
    0 <= i < |users| && forall j :: i < j < |users| ==> users[j].username != users[i].username
  }

  /** No two unique users share a username. */
  lemma UniqueUsernamesDistinct(users: seq<User>, a: int, b: int)
    requires 0 <= a < b < |UniqueUsers(users)|
    ensures UniqueUsers(users)[a].username != UniqueUsers(users)[b].username
  {
    FromPairsDistinct(ByUsername(users));
    KeysAreUsernames(users, a);
    KeysAreUsernames(users, b);
  }

  /** Every username of `users` has a unique user. */
  lemma EveryUsernameKept(users: seq<User>, i: int)
    requires 0 <= i < |users|
    ensures exists j :: 0 <= j < |UniqueUsers(users)| && UniqueUsers(users)[j].username == users[i].username
  {
    var pairs := ByUsername(users);
    assert pairs[i].key == users[i].username;
    FromPairsKeys(pairs, users[i].username);
    var j :| 0 <= j < |FromPairs(pairs)| && FromPairs(pairs)[j].key == users[i].username;
    KeysAreUsernames(users, j);
  }

  /** Each unique user is the last user listed with its username. */
  lemma LastDuplicateWins(users: seq<User>, j: int)
    requires 0 <= j < |UniqueUsers(users)|
    ensures exists i :: LastWithUsername(users, i) && users[i] == UniqueUsers(users)[j]
  {
    var pairs := ByUsername(users);
    FromPairsLastWins(pairs, j);
    var i :| LastWithKey(pairs, i) && pairs[i] == FromPairs(pairs)[j];
    assert LastWithUsername(users, i) by {
      forall l | i < l < |users| ensures users[l].username != users[i].username {
        assert pairs[l].key == users[l].username;
      }
    }
  }

  /** The index of the first user with a given username. */
  ghost function FirstWithUsername(users: seq<User>, name: string): (i: int)
    ensures -1 <= i < |users|
    ensures i == -1 <==> forall j :: 0 <= j < |users| ==> users[j].username != name
    ensures i >= 0 ==> users[i].username == name && forall j :: 0 <= j < i ==> users[j].username != name
  {
    if users == [] then -1
    else if users[0].username == name then 0
    else
      var rest := FirstWithUsername(users[1..], name);
      assert forall j :: 1 <= j < |users| ==> users[1..][j - 1] == users[j];
      if rest == -1 then -1 else rest + 1
  }

  /** The first pair with a username is the first user with it. */
  lemma FirstIndexOfUsername(users: seq<User>, name: string)
    requires HasKey(ByUsername(users), name)
    ensures FirstWithUsername(users, name) == FirstIndex(ByUsername(users), name)
  {
    var pairs := ByUsername(users);
    var i := FirstIndex(pairs, name);
    assert users[i].username == name by { assert pairs[i] == Entry(users[i].username, users[i]); }
    forall j | 0 <= j < i ensures users[j].username != name {
      assert pairs[j] == Entry(users[j].username, users[j]);
    }
    var r := FirstWithUsername(users, name);
    assert r != -1;
    assert !(r < i) && !(i < r);
  }

  /** Unique users stand in the order of their usernames' first occurrences. */
  lemma FirstOccurrenceOrder(users: seq<User>, a: int, b: int)
    requires 0 <= a < b < |UniqueUsers(users)|
    ensures 0 <= FirstWithUsername(users, UniqueUsers(users)[a].username) < FirstWithUsername(users, UniqueUsers(users)[b].username)
  {
    var pairs := ByUsername(users);
    FromPairsOrder(pairs, a, b);
    KeysAreUsernames(users, a);
    KeysAreUsernames(users, b);
    FirstIndexOfUsername(users, UniqueUsers(users)[a].username);
    FirstIndexOfUsername(users, UniqueUsers(users)[b].username);
  }

  /** What the page shows. */
  datatype Card = Card(user: User, albumCount: nat)
  datatype View = Spinner | ErrorMessage(text: string) | Cards(cards: seq<Card>)

  /** Loading wins over errors, the users error over the albums error, and
      otherwise one card per unique user with that user's album count. */
  function HomeView(users: seq<User>, usersLoading: bool, usersError: Option<string>,
                    albums: seq<ServerAlbum>, albumsLoading: bool, albumsError: Option<string>): (v: View)
    ensures usersLoading || albumsLoading ==> v == Spinner
    ensures !usersLoading && !albumsLoading && Truthy(usersError) ==> v == ErrorMessage(usersError.value)
    ensures !usersLoading && !albumsLoading && !Truthy(usersError) && Truthy(albumsError) ==> v == ErrorMessage(albumsError.value)
    ensures v.Cards? <==> !usersLoading && !albumsLoading && !Truthy(usersError) && !Truthy(albumsError)
    ensures v.Cards? ==> |v.cards| == |UniqueUsers(users)| <= |users|
    ensures v.Cards? ==> forall i :: 0 <= i < |v.cards| ==>
              v.cards[i].user == UniqueUsers(users)[i] && v.cards[i].albumCount == AlbumCount(albums, UniqueUsers(users)[i].id)
  {
    if usersLoading || albumsLoading then Spinner
    else if Truthy(usersError) then ErrorMessage(usersError.value)
    else if Truthy(albumsError) then ErrorMessage(albumsError.value)
    else
      var unique := UniqueUsers(users);
      Cards(seq(|unique|, i requires 0 <= i < |unique| => Card(unique[i], AlbumCount(albums, unique[i].id))))
  }

  /** Two users with one username give a single card, for the later user. */
  method DuplicateUsername() returns (v: View)
    ensures v == Cards([Card(UserSlice.User("2", "jane", "b@x"), 1)])
  {
    var u1 := UserSlice.User("1", "jane", "a@x");
    var u2 := UserSlice.User("2", "jane", "b@x");
    var albums := [AlbumSlice.ServerAlbum("a1", "Trip", "2")];
    assert ByUsername([u1, u2]) == [Entry("jane", u1), Entry("jane", u2)];
    assert FromPairs([Entry("jane", u1)]) == [Entry("jane", u1)];
    assert FromPairs([Entry("jane", u1), Entry("jane", u2)]) == [Entry("jane", u2)];
    assert AlbumCount(albums, "2") == 1;
    v := HomeView([u1, u2], false, None, albums, false, None);
  }
}
