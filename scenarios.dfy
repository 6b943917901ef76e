/** Five conversations, checked only against the handlers' contracts: what a
    caller of the handlers can conclude without looking at their bodies. */
module Scenarios {
  import opened Domain
  import opened CallbackData
  import opened Gateway
  import opened Presentation
  import opened Handlers

  /** /createplaylist, then "Road Trip", then an unrelated text. */
  method CreatePlaylistConversation() {
    var store := new Store();
    var session := new Session();
    var from := Some(Sender(42, Some("ann")));

    var asked := CreatePlaylistCommand(session, from);
    assert asked == [Text(AskPlaylistName, [])];
    assert store.playlists == [];

    var created := OnText(session, store, from, "Road Trip");
    assert created == [Text(PlaylistCreated("Road Trip"), [])];
    assert |store.playlists| == 1;
    assert store.playlists[0].userId == 42 && store.playlists[0].name == "Road Trip";
    assert session.pendingAction == None;

    var rejected := OnText(session, store, from, "hello");
    assert rejected == [Text(InvalidAction, [])];
    assert |store.playlists| == 1;
  }

  /** A playlist exists; an audio file is uploaded and added to it through
      its button. */
  method UploadAndAddConversation() {
    var store := new Store();
    var session := new Session();
    var from := Some(Sender(42, None));
    var playlist := store.CreatePlaylist(42, "Road Trip");

    var offered := OnAudio(session, store, from, "AUD123");
    assert FindUserPlaylists(store.playlists, 42) == [playlist];
    assert offered == [Text(ChoosePlaylist, PlaylistButtons([playlist], AddToPlaylist))];
    assert session.fileId == Some("AUD123");

    DecodeEncode(AddToPlaylist, playlist.id);
    var added := OnCallback(session, store, Encode(AddToPlaylist, playlist.id));
    assert added == [Text(AudioAdded, [])];
    assert store.items == [PlaylistItem(42, playlist.id, "AUD123")];
  }

  /** A playlist holding one song is selected: the reply is its song keyboard. */
  method SelectConversation() {
    var store := new Store();
    var session := new Session();
    var _ := Start(session, Some(Sender(42, None)));
    var item := store.CreatePlaylistItem(42, 7, "AUD123");

    DecodeEncode(SelectPlaylist, 7);
    var songs := OnCallback(session, store, Encode(SelectPlaylist, 7));
    assert FindPlaylistItems(store.items, 7) == [item];
    assert songs == [Text(ChooseSong, SongButtons([item]))];
    assert session.selectPlaylistId == Some(7);
  }

  /** With a one-song playlist selected, position 1 plays its song. */
  method PlayConversation() {
    var store := new Store();
    var session := new Session();
    var _ := Start(session, Some(Sender(42, None)));
    var item := store.CreatePlaylistItem(42, 7, "AUD123");
    DecodeEncode(SelectPlaylist, 7);
    var _ := OnCallback(session, store, Encode(SelectPlaylist, 7));
    assert FindPlaylistItems(store.items, 7) == [item];

    DecodeEncode(PlaySong, 1);
    var played := OnCallback(session, store, Encode(PlaySong, 1));
    assert played == [Text(HereIsYourSong, []), Audio("AUD123")];
  }

  /** With a one-song playlist selected, positions 0 and 2 are rejected. */
  method PlayOutOfRangeConversation() {
    var store := new Store();
    var session := new Session();
    var _ := Start(session, Some(Sender(42, None)));
    var item := store.CreatePlaylistItem(42, 7, "AUD123");
    DecodeEncode(SelectPlaylist, 7);
    var _ := OnCallback(session, store, Encode(SelectPlaylist, 7));
    assert FindPlaylistItems(store.items, 7) == [item];

    DecodeEncode(PlaySong, 0);
    var tooLow := OnCallback(session, store, Encode(PlaySong, 0));
    assert tooLow == [Text(InvalidSongChoice, [])];
    assert session.selectPlaylistId == Some(7);

    DecodeEncode(PlaySong, 2);
    var tooHigh := OnCallback(session, store, Encode(PlaySong, 2));
    assert tooHigh == [Text(InvalidSongChoice, [])];
  }
}
