/** The persistence gateway: three tables (users, playlists, playlistItems)
    held in memory. The queries are filters over a table; the inserts append a
    row. The SQL queries carry no ORDER BY: this model assumes, as the bot's
    keyboards and the 1-based song index rely on, that rows come back in
    insertion order. Storage failures are not modelled: every operation here
    is total. */
module Gateway {
  import opened Domain

  /** findUserPlaylists: the playlists owned by `userId`, in insertion order. */
  function FindUserPlaylists(playlists: seq<Playlist>, userId: int): seq<Playlist> {
    if playlists == [] then []
    else
      (if playlists[0].userId == userId then [playlists[0]] else [])
        + FindUserPlaylists(playlists[1..], userId)
  }

  /** findPlaylistItems: the items of playlist `playlistId`, in insertion order. */
  function FindPlaylistItems(items: seq<PlaylistItem>, playlistId: nat): seq<PlaylistItem> {
    if items == [] then []
    else
      (if items[0].playlistId == playlistId then [items[0]] else [])
        + FindPlaylistItems(items[1..], playlistId)
  }

  /** The lookup half of findOrCreateUser: the first row with this id. */
  function FindUser(users: seq<User>, userId: int): (r: Option<User>)
    ensures r.Some? ==> r.value in users && r.value.id == userId
    ensures r.None? <==> forall u :: u in users ==> u.id != userId
  {
    if users == [] then None
    else if users[0].id == userId then Some(users[0])
    else FindUser(users[1..], userId)
  }

  /** No two user rows share an id. */
  ghost predicate UniqueUserIds(users: seq<User>) {
    forall i, j :: 0 <= i < j < |users| ==> users[i].id != users[j].id
  }

  /** findOrCreateUser as a function of the users table: the user found and
      the table afterwards. */
  function FindOrCreate(users: seq<User>, userId: int, username: string): (r: (User, seq<User>))
    ensures r.0.id == userId
    ensures r.1 == users <==> FindUser(users, userId).Some?
    ensures FindUser(users, userId).Some? ==> r.0 == FindUser(users, userId).value
    ensures FindUser(users, userId).None? ==>
              r.0.username == Some(username) && r.1 == users + [r.0]
    ensures UniqueUserIds(users) ==> UniqueUserIds(r.1)
  {
    match FindUser(users, userId)
    case Some(u) => (u, users)
    case None => (User(userId, Some(username)), users + [User(userId, Some(username))])
  }

  /** Rows come back in insertion order: appending a playlist extends the
      owner's listing at its end and leaves every other owner's unchanged. */
  lemma {:induction false} FindUserPlaylistsAppend(playlists: seq<Playlist>, p: Playlist, userId: int)
    ensures FindUserPlaylists(playlists + [p], userId)
         == FindUserPlaylists(playlists, userId) + (if p.userId == userId then [p] else [])
    decreases |playlists|
  {
    var last := if p.userId == userId then [p] else [];
    if playlists == [] {
      assert [p][1..] == [];
    } else {
      var extended := playlists + [p];
      assert extended[0] == playlists[0] && extended[1..] == playlists[1..] + [p];
      var head := if playlists[0].userId == userId then [playlists[0]] else [];
      var rest := FindUserPlaylists(playlists[1..], userId);
      FindUserPlaylistsAppend(playlists[1..], p, userId);
      calc {
        FindUserPlaylists(extended, userId);
        head + FindUserPlaylists(playlists[1..] + [p], userId);
        head + (rest + last);
        (head + rest) + last;
        FindUserPlaylists(playlists, userId) + last;
      }
    }
  }

  /** The owner's listing holds exactly the playlists of the table whose owner
      is the user. */
  lemma {:induction false} FindUserPlaylistsExactly(playlists: seq<Playlist>, userId: int)
    ensures forall p :: p in FindUserPlaylists(playlists, userId) <==> p in playlists && p.userId == userId
    decreases |playlists|
  {
    if playlists != [] {
      assert playlists == [playlists[0]] + playlists[1..];
      FindUserPlaylistsExactly(playlists[1..], userId);
    }
  }

  /** The owner's listing holds each of the owner's playlists exactly as often
      as the table does. */
  lemma {:induction false} FindUserPlaylistsCount(playlists: seq<Playlist>, userId: int, p: Playlist)
    requires p.userId == userId
    ensures multiset(FindUserPlaylists(playlists, userId))[p] == multiset(playlists)[p]
    decreases |playlists|
  {
    if playlists != [] {
      assert playlists == [playlists[0]] + playlists[1..];
      FindUserPlaylistsCount(playlists[1..], userId, p);
    }
  }

  /** A playlist's listing holds exactly the items of the table that belong to
      that playlist. */
  lemma {:induction false} FindPlaylistItemsExactly(items: seq<PlaylistItem>, playlistId: nat)
    ensures forall it :: it in FindPlaylistItems(items, playlistId) <==> it in items && it.playlistId == playlistId
    decreases |items|
  {
    if items != [] {
      assert items == [items[0]] + items[1..];
      FindPlaylistItemsExactly(items[1..], playlistId);
    }
  }

  /** Appending an item extends its playlist's listing at the end and leaves
      every other playlist's listing unchanged. */
  lemma {:induction false} FindPlaylistItemsAppend(items: seq<PlaylistItem>, it: PlaylistItem, playlistId: nat)
    ensures FindPlaylistItems(items + [it], playlistId)
         == FindPlaylistItems(items, playlistId) + (if it.playlistId == playlistId then [it] else [])
    decreases |items|
  {
    var last := if it.playlistId == playlistId then [it] else [];
    if items == [] {
      assert [it][1..] == [];
    } else {
      var extended := items + [it];
      assert extended[0] == items[0] && extended[1..] == items[1..] + [it];
      var head := if items[0].playlistId == playlistId then [items[0]] else [];
      var rest := FindPlaylistItems(items[1..], playlistId);
      FindPlaylistItemsAppend(items[1..], it, playlistId);
      calc {
        FindPlaylistItems(extended, playlistId);
        head + FindPlaylistItems(items[1..] + [it], playlistId);
        head + (rest + last);
        (head + rest) + last;
        FindPlaylistItems(items, playlistId) + last;
      }
    }
  }

  /** A lookup after an append finds the old row if there was one, else the new one. */
  lemma {:induction false} FindUserAppend(users: seq<User>, u: User, userId: int)
    ensures FindUser(users + [u], userId)
         == if FindUser(users, userId).Some? then FindUser(users, userId)
            else if u.id == userId then Some(u) else None
    decreases |users|
  {
    if users != [] {
      assert (users + [u])[1..] == users[1..] + [u];
      FindUserAppend(users[1..], u, userId);
    }
  }

  /** After findOrCreateUser the user is found, and it is the user returned. */
  lemma FindOrCreateThenFind(users: seq<User>, userId: int, username: string)
    ensures FindUser(FindOrCreate(users, userId, username).1, userId)
         == Some(FindOrCreate(users, userId, username).0)
  {
  }

  /** findOrCreateUser is idempotent: a second call with the same id and any
      username returns the same user and leaves the table as the first left it. */
  lemma FindOrCreateIdempotent(users: seq<User>, userId: int, first: string, second: string)
    ensures FindOrCreate(FindOrCreate(users, userId, first).1, userId, second)
         == FindOrCreate(users, userId, first)
  {
  }

  /** A users row as PostgreSQL hands it back to findOrCreateUser. The queries
      name the columns with the unquoted identifiers `userId` and `username`,
      which PostgreSQL folds to lower case, so the messenger id comes back under
      the key `userid`. The key `id` exists only when the table also has a
      column of that name; reading `.id` without one gives undefined (None). */
  datatype UserRow = UserRow(id: Option<int>, userid: int, username: Option<string>)

  /** The lookup of findOrCreateUser as written: the first row whose `userid`
      column holds this id. */
  function FindRow(rows: seq<UserRow>, userId: int): (r: Option<UserRow>)
    ensures r.Some? ==> r.value in rows && r.value.userid == userId
    ensures r.None? <==> forall row :: row in rows ==> row.userid != userId
  {
    if rows == [] then None
    else if rows[0].userid == userId then Some(rows[0])
    else FindRow(rows[1..], userId)
  }

  /** findOrCreateUser as written, over rows: an insert fills `userid` and
      `username`, and the table's own default fills `id` (`serial`, None when
      the table has no such column). The row returned is what the audio
      handler stores as the session user. */
  function FindOrCreateRow(rows: seq<UserRow>, userId: int, username: string, serial: Option<int>)
    : (r: (UserRow, seq<UserRow>))
    ensures r.0.userid == userId
    ensures r.1 == rows <==> FindRow(rows, userId).Some?
    ensures FindRow(rows, userId).Some? ==> r.0 == FindRow(rows, userId).value
    ensures FindRow(rows, userId).None? ==>
              r.0 == UserRow(serial, userId, Some(username)) && r.1 == rows + [r.0]
  {
    match FindRow(rows, userId)
    case Some(row) => (row, rows)
    case None => (UserRow(serial, userId, Some(username)), rows + [UserRow(serial, userId, Some(username))])
  }

  /** As written, the user an audio upload puts in the session does not carry
      the sender's id under `id`, the key the next add_to_playlist press reads
      as the item's owner. Sender 42 and an empty table: `id` is undefined when
      the table has no `id` column, and the serial value 1 when it has one.
      The model's FindOrCreate returns a user whose id is 42. */
  lemma SessionUserIdAsWritten()
    ensures FindOrCreateRow([], 42, "ann", None).0.id == None
    ensures FindOrCreateRow([], 42, "ann", Some(1)).0.id == Some(1)
    ensures FindOrCreate([], 42, "ann").0.id == 42
  {
  }

  /** The three tables and the generator of playlist ids (a serial column). */
  class Store {
    var users: seq<User>
    var playlists: seq<Playlist>
    var items: seq<PlaylistItem>
    var nextPlaylistId: nat

    /** User ids are unique; playlist ids are positive, increase with insertion
        order and stay below the next id the generator hands out. */
    ghost predicate Valid()
      reads this
    {
      && UniqueUserIds(users)
      && 1 <= nextPlaylistId
      && (forall i :: 0 <= i < |playlists| ==> 1 <= playlists[i].id < nextPlaylistId)
      && (forall i, j :: 0 <= i < j < |playlists| ==> playlists[i].id < playlists[j].id)
    }

    constructor ()
      ensures Valid()
      ensures users == [] && playlists == [] && items == []
    {
      users, playlists, items := [], [], [];
      nextPlaylistId := 1;
    }

    /** createPlaylist: appends a playlist with a fresh id. */
    method CreatePlaylist(userId: int, name: string) returns (p: Playlist)
      requires Valid()
      modifies this
      ensures Valid()
      ensures p.userId == userId && p.name == name
      ensures forall q :: q in old(playlists) ==> q.id != p.id
      ensures playlists == old(playlists) + [p]
      ensures users == old(users) && items == old(items)
    {
      p := Playlist(nextPlaylistId, userId, name);
      playlists := playlists + [p];
      nextPlaylistId := nextPlaylistId + 1;
    }

    /** findOrCreateUser: returns the user with this id, inserting it with the
        given username when there is none. */
    method FindOrCreateUser(userId: int, username: string) returns (user: User)
      requires Valid()
      modifies this
      ensures Valid()
      ensures (user, users) == FindOrCreate(old(users), userId, username)
      ensures playlists == old(playlists) && items == old(items)
      ensures nextPlaylistId == old(nextPlaylistId)
    {
      var found := FindUser(users, userId);
      if found.Some? {
        user := found.value;
      } else {
        user := User(userId, Some(username));
        users := users + [user];
      }
    }

    /** createPlaylistItem: appends an item. Nothing checks that the playlist
        exists or belongs to `userId`. */
    method CreatePlaylistItem(userId: int, playlistId: nat, fileId: string) returns (item: PlaylistItem)
      requires Valid()
      modifies this
      ensures Valid()
      ensures item == PlaylistItem(userId, playlistId, fileId)
      ensures items == old(items) + [item]
      ensures users == old(users) && playlists == old(playlists)
      ensures nextPlaylistId == old(nextPlaylistId)
    {
      item := PlaylistItem(userId, playlistId, fileId);
      items := items + [item];
    }
  }

  /** Every playlist of a valid store appears exactly once in its owner's listing. */
  lemma OwnListingHasEachPlaylistOnce(s: Store, p: Playlist)
    requires s.Valid() && p in s.playlists
    ensures multiset(FindUserPlaylists(s.playlists, p.userId))[p] == 1
  {
    FindUserPlaylistsCount(s.playlists, p.userId, p);
    DistinctIdsCountOnce(s.playlists, p);
  }

  lemma {:induction false} DistinctIdsCountOnce(ps: seq<Playlist>, p: Playlist)
    requires p in ps
    requires forall i, j :: 0 <= i < j < |ps| ==> ps[i].id < ps[j].id
    ensures multiset(ps)[p] == 1
    decreases |ps|
  {
    assert ps == [ps[0]] + ps[1..];
    if ps[0] == p {
      assert p !in ps[1..] by {
        forall k | 0 <= k < |ps[1..]| ensures ps[1..][k] != p {
          assert ps[0].id < ps[k + 1].id;
        }
      }
    } else {
      DistinctIdsCountOnce(ps[1..], p);
    }
  }
}
