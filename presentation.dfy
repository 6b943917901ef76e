/** Inline keyboards: one button per playlist (after /myplaylists and after an
    audio upload) and one button per song of a playlist. */
module Presentation {
  import opened Domain
  import opened CallbackData

  /** The keyboard for a list of playlists: each button is captioned with the
      playlist's name and sends back `verb` with that playlist's id. */
  function PlaylistButtons(playlists: seq<Playlist>, verb: Verb): (kb: seq<Button>)
    ensures |kb| == |playlists|
    ensures forall i :: 0 <= i < |kb| ==>
              kb[i].caption == playlists[i].name
              && Decode(kb[i].data) == Some(Callback(verb, Some(playlists[i].id)))
  {
    DecodeEncodeAll(verb);
    seq(|playlists|, i requires 0 <= i < |playlists| => Button(playlists[i].name, Encode(verb, playlists[i].id)))
  }

  /** The caption of the song at 1-based position n. */
  function SongCaption(n: nat): string {
    "Song " + Decimal(n)
  }

  /** The keyboard for the items of a playlist: button i (from 0) is captioned
      "Song i+1" and sends back play_song with the 1-based position i+1. */
  function SongButtons(items: seq<PlaylistItem>): (kb: seq<Button>)
    ensures |kb| == |items|
    ensures forall i :: 0 <= i < |kb| ==>
              kb[i].caption == SongCaption(i + 1)
              && Decode(kb[i].data) == Some(Callback(PlaySong, Some(i + 1)))
  {
    DecodeEncodeAll(PlaySong);
    seq(|items|, i requires 0 <= i < |items| => Button(SongCaption(i + 1), Encode(PlaySong, i + 1)))
  }

  lemma DecodeEncodeAll(verb: Verb)
    ensures forall n: nat :: Decode(Encode(verb, n)) == Some(Callback(verb, Some(n)))
  {
    forall n: nat ensures Decode(Encode(verb, n)) == Some(Callback(verb, Some(n))) {
      DecodeEncode(verb, n);
    }
  }

  /** Builds a playlist keyboard the way the handlers do, one button pushed per
      playlist in listing order. */
  method BuildPlaylistKeyboard(playlists: seq<Playlist>, verb: Verb) returns (kb: seq<Button>)
    ensures kb == PlaylistButtons(playlists, verb)
  {
    kb := [];
    var i := 0;
    while i < |playlists|
      invariant 0 <= i <= |playlists|
      invariant kb == PlaylistButtons(playlists[..i], verb)
    {
      assert playlists[..i + 1] == playlists[..i] + [playlists[i]];
      kb := kb + [Button(playlists[i].name, Encode(verb, playlists[i].id))];
      i := i + 1;
    }
    assert playlists[..i] == playlists;
  }

  /** Builds the song keyboard, one button pushed per item with its 1-based
      position. */
  method BuildSongKeyboard(items: seq<PlaylistItem>) returns (kb: seq<Button>)
    ensures kb == SongButtons(items)
  {
    kb := [];
    var i := 0;
    while i < |items|
      invariant 0 <= i <= |items|
      invariant kb == SongButtons(items[..i])
    {
      assert items[..i + 1] == items[..i] + [items[i]];
      kb := kb + [Button(SongCaption(i + 1), Encode(PlaySong, i + 1))];
      i := i + 1;
    }
    assert items[..i] == items;
  }
}
