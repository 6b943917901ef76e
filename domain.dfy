/** The records the playlist bot works with: users, playlists, playlist items,
    the sender of an inbound event, and the abstract replies a handler sends. */
module Domain {

  datatype Option<+T> = None | Some(value: T) {
    /** The value, or `default` when there is none (JavaScript's `x || default`). */
    function GetOr(default: T): T {
      match this
      case Some(v) => v
      case None => default
    }
  }

  /** A user row, and the `user` field of a session: the messenger's numeric id
      and an optional username. */
  datatype User = User(id: int, username: Option<string>)

  /** A playlist row: a generated id, its owner and its (not necessarily unique) name. */
  datatype Playlist = Playlist(id: nat, userId: int, name: string)

  /** A playlist item row: who added it, to which playlist, and the messenger's
      opaque handle of the audio file. */
  datatype PlaylistItem = PlaylistItem(userId: int, playlistId: nat, fileId: string)

  /** The only pending action the bot ever records. */
  datatype PendingAction = CreatePlaylist

  /** The sender attached to an inbound message. */
  datatype Sender = Sender(id: int, username: Option<string>)

  /** The guard every command and the text and audio handlers start with: an
      absent sender, or a sender whose id is falsy (0), counts as "no id". */
  predicate HasId(from: Option<Sender>) {
    from.Some? && from.value.id != 0
  }

  /** The session user a handler records for a sender. */
  function UserOf(s: Sender): User {
    User(s.id, s.username)
  }

  /** The texts the bot sends, as tags. */
  datatype Message =
    | NoId                      // the sender carries no id
    | Greeting                  // /start: invites the user to send an audio file
    | NoPlaylists               // /myplaylists for a user without playlists
    | CreatePlaylistHint        // the bare command "/createplaylist" sent after NoPlaylists
    | YourPlaylists             // heading of the playlist keyboard
    | AskPlaylistName           // /createplaylist: asks for the new playlist's name
    | InvalidAction             // free text while no action is pending
    | PlaylistCreated(name: string)
    | AskPlaylistNameAgain      // free text was empty while a name was awaited
    | ChoosePlaylist            // heading of the keyboard sent after an audio upload
    | StartHint                 // the bare command "/start" sent to an unknown session
    | SendAudio                 // add_to_playlist without an uploaded file
    | AudioAdded
    | NoSongs                   // the selected playlist has no items
    | ChooseSong                // heading of the song keyboard
    | HereIsYourSong            // sent just before the audio itself
    | InvalidSongChoice         // play_song index out of range

  /** An inline keyboard button: a caption and the callback data it sends back. */
  datatype Button = Button(caption: string, data: string)

  /** One outbound message: a text with an (possibly empty) inline keyboard, or
      an audio file re-sent by its handle. */
  datatype Reply =
    | Text(message: Message, keyboard: seq<Button>)
    | Audio(fileId: string)
}
