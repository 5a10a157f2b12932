/** The song-select screen (frontend-game/src/screens/SongSelectScreen.tsx):
    the song list with its cursor, the focus toggle, the store fields the
    keyboard handler reads and writes, and the upload file filter.  The game
    store itself is not part of this model: its `selectSong`,
    `selectCharacter`, `toggleReady` and `startMatch` actions are taken to
    do what their names say to the fields below. */
module SongSelect {
  import opened Wrappers
  import opened Roster

  /** A song of the list, as far as this screen distinguishes songs. */
  datatype Song = Song(id: string, title: string)

  datatype Focus = SongFocus | CharacterFocus

  /** The keys the handler acts on, and any other key. */
  datatype Key = ArrowUp | ArrowDown | Tab | Enter | Space | Escape | OtherKey

  /** A chosen upload: its name and MIME type. */
  datatype UploadFile = UploadFile(name: string, mimeType: string)

  /** The MIME types `handleFileUpload` accepts. */
  const AcceptedTypes: set<string> := {"audio/mp3", "audio/wav", "audio/mpeg", "audio/mp4"}

  /** `canStart`: a solo match needs a song and a character for player 1;
      any other match also needs player 2 connected, with a character, and
      both players ready. */
  function CanStart(mode: LobbyMode, song: Option<Song>, p1: Option<string>, p2: Option<string>,
                    connectedP2: bool, p1Ready: bool, p2Ready: bool): (ok: bool)
    ensures mode == Solo ==> (ok <==> song.Some? && Truthy(p1))
    ensures mode != Solo ==>
      (ok <==> song.Some? && Truthy(p1) && connectedP2 && Truthy(p2) && p1Ready && p2Ready)
  {
    if mode == Solo then song.Some? && Truthy(p1)
    else song.Some? && Truthy(p1) && connectedP2 && Truthy(p2) && p1Ready && p2Ready
  }

  /** Whatever lets a lobby match start would also let a solo one start. */
  lemma CanStartLobbyImpliesSolo(mode: LobbyMode, song: Option<Song>, p1: Option<string>, p2: Option<string>,
                                 connectedP2: bool, p1Ready: bool, p2Ready: bool)
    requires CanStart(mode, song, p1, p2, connectedP2, p1Ready, p2Ready)
    ensures CanStart(Solo, song, p1, p2, connectedP2, p1Ready, p2Ready)
  {
  }

  /** ArrowUp on the song list: `(selectedSongIndex - 1 + len) % len`. */
  function SongIndexUp(idx: nat, len: nat): (r: nat)
    requires len > 0
    ensures r < len
    ensures idx < len ==> r == if idx == 0 then len - 1 else idx - 1
  {
    (idx - 1 + len) % len
  }

  /** ArrowDown on the song list: `(selectedSongIndex + 1) % len`. */
  function SongIndexDown(idx: nat, len: nat): (r: nat)
    requires len > 0
    ensures r < len
    ensures idx < len ==> r == if idx + 1 == len then 0 else idx + 1
  {
    (idx + 1) % len
  }

  /** Up then down, or down then up, comes back to the same song. */
  lemma SongIndexUpDown(idx: nat, len: nat)
    requires idx < len
    ensures SongIndexDown(SongIndexUp(idx, len), len) == idx
    ensures SongIndexUp(SongIndexDown(idx, len), len) == idx
  {
  }

  class SongSelectScreen {
    /** The song list fetched for the screen. */
    var songs: seq<Song>
    var selectedSongIndex: nat
    var focus: Focus
    /** The store's selected song and characters. */
    var song: Option<Song>
    var p1Character: Option<string>
    var p2Character: Option<string>
    /** The store's lobby fields this screen reads. */
    var mode: LobbyMode
    var connectedP2: bool
    var p1Ready: bool
    var p2Ready: bool
    /** How many times `startMatch` was called. */
    var matchStarts: nat
    /** Set once Escape asked for the mode-select screen. */
    var leftForModeSelect: bool
    /** The songs `playPreview` was asked to play, in order. */
    var previews: seq<Song>
    var uploadFile: Option<UploadFile>
    /** How many times the upload alert was shown. */
    var alerts: nat

    /** A fresh screen over the store's current state; the list starts empty
        with the cursor on 0 and the focus on the songs. */
    constructor (mode: LobbyMode, song: Option<Song>, p1Character: Option<string>, p2Character: Option<string>,
                 connectedP2: bool, p1Ready: bool, p2Ready: bool)
      ensures this.songs == [] && this.selectedSongIndex == 0 && this.focus == SongFocus
      ensures this.mode == mode && this.song == song
      ensures this.p1Character == p1Character && this.p2Character == p2Character
      ensures this.connectedP2 == connectedP2 && this.p1Ready == p1Ready && this.p2Ready == p2Ready
      ensures this.matchStarts == 0 && !this.leftForModeSelect && this.previews == []
      ensures this.uploadFile == None && this.alerts == 0
    {
      this.songs := [];
      this.selectedSongIndex := 0;
      this.focus := SongFocus;
      this.mode := mode;
      this.song := song;
      this.p1Character := p1Character;
      this.p2Character := p2Character;
      this.connectedP2 := connectedP2;
      this.p1Ready := p1Ready;
      this.p2Ready := p2Ready;
      this.matchStarts := 0;
      this.leftForModeSelect := false;
      this.previews := [];
      this.uploadFile := None;
      this.alerts := 0;
    }

    function CanStartNow(): bool
      reads this
    {
      CanStart(mode, song, p1Character, p2Character, connectedP2, p1Ready, p2Ready)
    }

    /** The song list arrived (a failed fetch is the empty list).  With no
        song selected yet, a non-empty list puts the cursor on its first
        song, selects it and previews it. */
    method SetSongs(list: seq<Song>)
      modifies this
      ensures songs == list
      ensures |list| > 0 && old(song).None? ==>
        selectedSongIndex == 0 && song == Some(list[0]) && previews == old(previews) + [list[0]]
      ensures !(|list| > 0 && old(song).None?) ==>
        selectedSongIndex == old(selectedSongIndex) && song == old(song) && previews == old(previews)
      ensures focus == old(focus) && p1Character == old(p1Character) && p2Character == old(p2Character)
      ensures mode == old(mode) && connectedP2 == old(connectedP2)
      ensures p1Ready == old(p1Ready) && p2Ready == old(p2Ready)
      ensures matchStarts == old(matchStarts) && leftForModeSelect == old(leftForModeSelect)
      ensures uploadFile == old(uploadFile) && alerts == old(alerts)
    {
      songs := list;
      if |list| > 0 && song.None? {
        selectedSongIndex := 0;
        song := Some(list[0]);
        previews := previews + [list[0]];
      }
    }

    /** The defaults effect: the first song is selected and previewed when
        none is, and player 1 gets the first character when they have none.
        Afterwards a solo match with songs can start. */
    method ApplyDefaults()
      modifies this`song, this`previews, this`p1Character
      ensures |songs| > 0 && old(song).None? ==> song == Some(songs[0]) && previews == old(previews) + [songs[0]]
      ensures !(|songs| > 0 && old(song).None?) ==> song == old(song) && previews == old(previews)
      ensures p1Character == if Truthy(old(p1Character)) then old(p1Character) else Some(Characters[0])
      ensures Truthy(p1Character)
      ensures mode == Solo && |songs| > 0 ==> CanStartNow()
    {
      if |songs| > 0 && song.None? {
        song := Some(songs[0]);
        previews := previews + [songs[0]];
      }
      if !Truthy(p1Character) {
        p1Character := Some(Characters[0]);
      }
    }

    /** The `keydown` handler. */
    method KeyDown(key: Key)
      modifies this
      // The song list moves only on ArrowUp/ArrowDown with the song focus
      // and a non-empty list; the new song is selected and previewed.
      ensures (key == ArrowUp || key == ArrowDown) && old(focus) == SongFocus && |songs| > 0 ==>
        && selectedSongIndex == (if key == ArrowUp then SongIndexUp(old(selectedSongIndex), |songs|)
                                 else SongIndexDown(old(selectedSongIndex), |songs|))
        && song == Some(songs[selectedSongIndex])
        && previews == old(previews) + [songs[selectedSongIndex]]
        && p1Character == old(p1Character)
      // Otherwise the arrows cycle player 1's character.
      ensures (key == ArrowUp || key == ArrowDown) && !(old(focus) == SongFocus && |songs| > 0) ==>
        && p1Character == Some(SwapChar(old(p1Character), if key == ArrowUp then Previous else Following))
        && selectedSongIndex == old(selectedSongIndex) && song == old(song) && previews == old(previews)
      ensures key != ArrowUp && key != ArrowDown ==>
        selectedSongIndex == old(selectedSongIndex) && song == old(song)
        && previews == old(previews) && p1Character == old(p1Character)
      // Tab switches the focus; nothing else does.
      ensures focus == if key == Tab then (if old(focus) == SongFocus then CharacterFocus else SongFocus)
                       else old(focus)
      // Enter and Space toggle player 1's readiness outside solo play.
      ensures p1Ready == if (key == Enter || key == Space) && mode != Solo then !old(p1Ready) else old(p1Ready)
      // Only Enter in solo play starts the match, and only when it can start.
      ensures matchStarts == if key == Enter && mode == Solo && old(CanStartNow()) then old(matchStarts) + 1
                             else old(matchStarts)
      ensures leftForModeSelect == (old(leftForModeSelect) || key == Escape)
      ensures songs == old(songs) && p2Character == old(p2Character) && mode == old(mode)
      ensures connectedP2 == old(connectedP2) && p2Ready == old(p2Ready)
      ensures uploadFile == old(uploadFile) && alerts == old(alerts)
    {
      match key {
        case ArrowUp =>
          if focus == SongFocus && |songs| > 0 {
            var newIndex := SongIndexUp(selectedSongIndex, |songs|);
            selectedSongIndex := newIndex;
            song := Some(songs[newIndex]);
            previews := previews + [songs[newIndex]];
          } else {
            p1Character := Some(SwapChar(p1Character, Previous));
          }
        case ArrowDown =>
          if focus == SongFocus && |songs| > 0 {
            var newIndex := SongIndexDown(selectedSongIndex, |songs|);
            selectedSongIndex := newIndex;
            song := Some(songs[newIndex]);
            previews := previews + [songs[newIndex]];
          } else {
            p1Character := Some(SwapChar(p1Character, Following));
          }
        case Tab =>
          focus := if focus == SongFocus then CharacterFocus else SongFocus;
        case Enter =>
          if mode != Solo {
            p1Ready := !p1Ready;
          } else if CanStartNow() {
            matchStarts := matchStarts + 1;
          }
        case Space =>
          if mode != Solo {
            p1Ready := !p1Ready;
          }
        case Escape =>
          leftForModeSelect := true;
        case OtherKey =>
      }
    }

    /** `handleFileUpload`: keeps the chosen file when it is one of the four
        accepted audio types, otherwise alerts and keeps the previous one. */
    method HandleFileUpload(file: Option<UploadFile>)
      modifies this
      ensures file.Some? && file.value.mimeType in AcceptedTypes ==> uploadFile == file && alerts == old(alerts)
      ensures !(file.Some? && file.value.mimeType in AcceptedTypes) ==>
        uploadFile == old(uploadFile) && alerts == old(alerts) + 1
      ensures songs == old(songs) && selectedSongIndex == old(selectedSongIndex) && focus == old(focus)
      ensures song == old(song) && p1Character == old(p1Character) && p2Character == old(p2Character)
      ensures mode == old(mode) && connectedP2 == old(connectedP2)
      ensures p1Ready == old(p1Ready) && p2Ready == old(p2Ready)
      ensures matchStarts == old(matchStarts) && leftForModeSelect == old(leftForModeSelect)
      ensures previews == old(previews)
    {
      if file.Some? && file.value.mimeType in AcceptedTypes {
        uploadFile := file;
      } else {
        alerts := alerts + 1;
      }
    }
  }
}
