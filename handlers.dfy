/** The bot's handlers, each one atomic transition over the sender's session
    and the store that returns the replies it sends, in order. */
module Handlers {
  import opened Domain
  import opened CallbackData
  import opened Gateway
  import opened Presentation

  /** The per-user session. It starts empty and lives as long as the process. */
  class Session {
    var user: Option<User>
    var fileId: Option<string>
    var selectPlaylistId: Option<nat>
    var pendingAction: Option<PendingAction>

    constructor ()
      ensures user == None && fileId == None
      ensures selectPlaylistId == None && pendingAction == None
    {
      user, fileId, selectPlaylistId, pendingAction := None, None, None, None;
    }
  }

  /** A file handle that JavaScript treats as present: set and non-empty. */
  predicate HasFile(fileId: Option<string>) {
    fileId.Some? && fileId.value != ""
  }

  /** The song that play_song:k plays from a playlist's items: the k-th item
      (1-based) when k is a number from 1 to the number of items, else none. */
  function SongAt(items: seq<PlaylistItem>, index: Option<nat>): (r: Option<string>)
    ensures r.Some? <==> index.Some? && 1 <= index.value <= |items|
    ensures r.Some? ==> r.value == items[index.value - 1].fileId
  {
    if index.Some? && 1 <= index.value <= |items| then Some(items[index.value - 1].fileId) else None
  }

  /** An item added to a playlist is played by the button at the playlist's
      new last position; every earlier position still plays the song it played
      before, and the listings of all other playlists are unchanged. */
  lemma AddedItemIsPlayable(items: seq<PlaylistItem>, item: PlaylistItem)
    ensures var before := FindPlaylistItems(items, item.playlistId);
            var after := FindPlaylistItems(items + [item], item.playlistId);
            && |after| == |before| + 1
            && SongAt(after, Some(|after|)) == Some(item.fileId)
            && forall k: nat :: 1 <= k <= |before| ==> SongAt(after, Some(k)) == SongAt(before, Some(k))
    ensures forall playlistId :: playlistId != item.playlistId ==>
              FindPlaylistItems(items + [item], playlistId) == FindPlaylistItems(items, playlistId)
  {
    forall playlistId | true
      ensures FindPlaylistItems(items + [item], playlistId)
           == FindPlaylistItems(items, playlistId) + (if item.playlistId == playlistId then [item] else [])
    {
      FindPlaylistItemsAppend(items, item, playlistId);
    }
  }

  /** Pressing song button i of a playlist's keyboard plays the playlist's
      item i, for every position the keyboard offers. */
  lemma SongButtonPlaysItsItem(items: seq<PlaylistItem>, i: nat)
    requires i < |items|
    ensures var cb := Decode(SongButtons(items)[i].data);
            && cb.Some? && cb.value.verb == PlaySong
            && SongAt(items, cb.value.arg) == Some(items[i].fileId)
  {
  }

  /** /start: records the sender as the session user and greets. */
  method Start(session: Session, from: Option<Sender>) returns (replies: seq<Reply>)
    modifies session
    ensures !HasId(from) ==> replies == [Text(NoId, [])] && unchanged(session)
    ensures HasId(from) ==>
              && replies == [Text(Greeting, [])]
              && session.user == Some(UserOf(from.value))
              && unchanged(session`fileId, session`selectPlaylistId, session`pendingAction)
  {
    if !HasId(from) {
      return [Text(NoId, [])];
    }
    session.user := Some(UserOf(from.value));
    replies := [Text(Greeting, [])];
  }

  /** /myplaylists: lists the sender's playlists as select_playlist buttons, or
      says there are none and suggests /createplaylist. */
  method MyPlaylists(session: Session, store: Store, from: Option<Sender>) returns (replies: seq<Reply>)
    modifies session
    ensures !HasId(from) ==> replies == [Text(NoId, [])] && unchanged(session)
    ensures HasId(from) ==>
              && session.user == Some(UserOf(from.value))
              && unchanged(session`fileId, session`selectPlaylistId, session`pendingAction)
    ensures HasId(from) ==>
              var owned := FindUserPlaylists(store.playlists, from.value.id);
              if owned == [] then replies == [Text(NoPlaylists, []), Text(CreatePlaylistHint, [])]
              else replies == [Text(YourPlaylists, PlaylistButtons(owned, SelectPlaylist))]
  {
    if !HasId(from) {
      return [Text(NoId, [])];
    }
    session.user := Some(UserOf(from.value));
    var owned := FindUserPlaylists(store.playlists, from.value.id);
    if owned == [] {
      return [Text(NoPlaylists, []), Text(CreatePlaylistHint, [])];
    }
    var keyboard := BuildPlaylistKeyboard(owned, SelectPlaylist);
    replies := [Text(YourPlaylists, keyboard)];
  }

  /** /createplaylist: asks for a name and records that one is awaited. The
      store is not touched. */
  method CreatePlaylistCommand(session: Session, from: Option<Sender>) returns (replies: seq<Reply>)
    modifies session
    ensures !HasId(from) ==> replies == [Text(NoId, [])] && unchanged(session)
    ensures HasId(from) ==>
              && replies == [Text(AskPlaylistName, [])]
              && session.user == Some(UserOf(from.value))
              && session.pendingAction == Some(CreatePlaylist)
              && unchanged(session`fileId, session`selectPlaylistId)
  {
    if !HasId(from) {
      return [Text(NoId, [])];
    }
    session.user := Some(UserOf(from.value));
    replies := [Text(AskPlaylistName, [])];
    session.pendingAction := Some(CreatePlaylist);
  }

  /** Free text: consumed as the new playlist's name when one is awaited. */
  method OnText(session: Session, store: Store, from: Option<Sender>, text: string) returns (replies: seq<Reply>)
    requires store.Valid()
    modifies session, store
    ensures store.Valid()
    ensures !HasId(from) ==> replies == [Text(NoId, [])] && unchanged(session) && unchanged(store)
    ensures HasId(from) ==>
              && session.user == Some(UserOf(from.value))
              && unchanged(session`fileId, session`selectPlaylistId)
    // no action pending: rejected, nothing else changes
    ensures HasId(from) && old(session.pendingAction).None? ==>
              && replies == [Text(InvalidAction, [])]
              && session.pendingAction == None
              && unchanged(store)
    // a name arrives: exactly one playlist is appended and the action is cleared
    ensures HasId(from) && old(session.pendingAction) == Some(CreatePlaylist) && text != "" ==>
              && replies == [Text(PlaylistCreated(text), [])]
              && session.pendingAction == None
              && |store.playlists| == |old(store.playlists)| + 1
              && var created := store.playlists[|old(store.playlists)|];
                 && store.playlists == old(store.playlists) + [created]
                 && created.userId == from.value.id && created.name == text
                 && (forall q :: q in old(store.playlists) ==> q.id != created.id)
                 && store.users == old(store.users) && store.items == old(store.items)
    // an empty name: asked again, still pending, nothing stored
    ensures HasId(from) && old(session.pendingAction) == Some(CreatePlaylist) && text == "" ==>
              && replies == [Text(AskPlaylistNameAgain, [])]
              && session.pendingAction == Some(CreatePlaylist)
              && unchanged(store)
  {
    if !HasId(from) {
      return [Text(NoId, [])];
    }
    session.user := Some(UserOf(from.value));
    if session.pendingAction.None? {
      return [Text(InvalidAction, [])];
    }
    var userId := from.value.id;
    match session.pendingAction.value
    case CreatePlaylist =>
      if text != "" {
        var created := store.CreatePlaylist(userId, text);
        replies := [Text(PlaylistCreated(text), [])];
        session.pendingAction := None;
      } else {
        replies := [Text(AskPlaylistNameAgain, [])];
      }
  }

  /** An audio message: makes sure the sender has a user row, remembers the
      file and offers the sender's playlists as add_to_playlist buttons. */
  method OnAudio(session: Session, store: Store, from: Option<Sender>, fileId: string) returns (replies: seq<Reply>)
    requires store.Valid()
    modifies session, store
    ensures store.Valid()
    ensures !HasId(from) ==> replies == [] && unchanged(session) && unchanged(store)
    ensures HasId(from) && fileId == "" ==>
              && replies == []
              && session.user == Some(UserOf(from.value))
              && unchanged(session`fileId, session`selectPlaylistId, session`pendingAction)
              && unchanged(store)
    ensures HasId(from) && fileId != "" ==>
              var found := FindOrCreate(old(store.users), from.value.id, from.value.username.GetOr(""));
              && store.users == found.1
              && store.playlists == old(store.playlists) && store.items == old(store.items)
              && store.nextPlaylistId == old(store.nextPlaylistId)
              && session.user == Some(found.0)
              && session.user.value.id == from.value.id
              && session.fileId == Some(fileId)
              && unchanged(session`selectPlaylistId, session`pendingAction)
              && replies == [Text(ChoosePlaylist,
                                  PlaylistButtons(FindUserPlaylists(store.playlists, from.value.id), AddToPlaylist))]
  {
    replies := [];
    if HasId(from) {
      var sender := from.value;
      session.user := Some(UserOf(sender));
      if fileId != "" {
        var user := store.FindOrCreateUser(sender.id, sender.username.GetOr(""));
        var playlists := FindUserPlaylists(store.playlists, sender.id);
        var keyboard := BuildPlaylistKeyboard(playlists, AddToPlaylist);
        replies := [Text(ChoosePlaylist, keyboard)];
        session.user := Some(user);
        session.fileId := Some(fileId);
      }
    }
  }

  /** A button press. The verb is recognised by its prefix (at most one
      matches); the argument is the number after the colon. A malformed
      argument to add_to_playlist or select_playlist makes the storage call
      fail: no reply, nothing changes. */
  method OnCallback(session: Session, store: Store, data: string) returns (replies: seq<Reply>)
    requires store.Valid()
    modifies session, store
    ensures store.Valid()
    // no session user, or no data
    ensures old(session.user).None? || data == "" ==>
              replies == [Text(StartHint, [])] && unchanged(session) && unchanged(store)
    // unknown verb: no branch runs
    ensures old(session.user).Some? && data != "" && Decode(data).None? ==>
              replies == [] && unchanged(session) && unchanged(store)
    // add_to_playlist:<id>
    ensures old(session.user).Some? && data != "" && Decode(data).Some?
            && Decode(data).value.verb == AddToPlaylist ==>
              var arg := Decode(data).value.arg;
              && unchanged(session)
              && (!HasFile(old(session.fileId)) ==> replies == [Text(SendAudio, [])] && unchanged(store))
              && (HasFile(old(session.fileId)) && arg.None? ==> replies == [] && unchanged(store))
              && (HasFile(old(session.fileId)) && arg.Some? ==>
                    && replies == [Text(AudioAdded, [])]
                    && store.items == old(store.items)
                         + [PlaylistItem(old(session.user).value.id, arg.value, old(session.fileId).value)]
                    && store.users == old(store.users) && store.playlists == old(store.playlists)
                    && store.nextPlaylistId == old(store.nextPlaylistId))
    // select_playlist:<id>
    ensures old(session.user).Some? && data != "" && Decode(data).Some?
            && Decode(data).value.verb == SelectPlaylist ==>
              var arg := Decode(data).value.arg;
              && unchanged(store)
              && unchanged(session`user, session`fileId, session`pendingAction)
              && (arg.None? ==> replies == [] && unchanged(session`selectPlaylistId))
              && (arg.Some? ==>
                    var items := FindPlaylistItems(store.items, arg.value);
                    && session.selectPlaylistId == arg
                    && replies == if items == [] then [Text(NoSongs, [])]
                                  else [Text(ChooseSong, SongButtons(items))])
    // play_song:<k>
    ensures old(session.user).Some? && data != "" && Decode(data).Some?
            && Decode(data).value.verb == PlaySong ==>
              && unchanged(store) && unchanged(session)
              && (session.selectPlaylistId.None? ==> replies == [])
              && (session.selectPlaylistId.Some? ==>
                    var song := SongAt(FindPlaylistItems(store.items, session.selectPlaylistId.value),
                                       Decode(data).value.arg);
                    replies == if song.Some? then [Text(HereIsYourSong, []), Audio(song.value)]
                               else [Text(InvalidSongChoice, [])])
  {
    if session.user.None? || data == "" {
      return [Text(StartHint, [])];
    }
    var user := session.user.value;
    var fileId := session.fileId;
    replies := [];

    if StartsWith(data, Prefix(AddToPlaylist)) {
      if !HasFile(fileId) {
        return [Text(SendAudio, [])];
      }
      var playlistId := ParseDecimal(SecondField(data));
      if playlistId.None? {
        return;
      }
      var item := store.CreatePlaylistItem(user.id, playlistId.value, fileId.value);
      replies := replies + [Text(AudioAdded, [])];
    }

    if StartsWith(data, Prefix(SelectPlaylist)) {
      var playlistId := ParseDecimal(SecondField(data));
      if playlistId.None? {
        return;
      }
      session.selectPlaylistId := playlistId;
      var items := FindPlaylistItems(store.items, playlistId.value);
      if items == [] {
        return replies + [Text(NoSongs, [])];
      }
      var keyboard := BuildSongKeyboard(items);
      replies := replies + [Text(ChooseSong, keyboard)];
    }

    if StartsWith(data, Prefix(PlaySong)) {
      var songIndex := ParseDecimal(SecondField(data));
      if session.selectPlaylistId.None? {
        return;
      }
      var items := FindPlaylistItems(store.items, session.selectPlaylistId.value);
      var song := SongAt(items, songIndex);
      if song.Some? {
        replies := replies + [Text(HereIsYourSong, []), Audio(song.value)];
      } else {
        replies := replies + [Text(InvalidSongChoice, [])];
      }
    }
  }
}
