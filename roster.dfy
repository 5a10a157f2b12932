/** Players, characters and the lobby as the screens see them: the
    two-entry character table both selection screens cycle through, the
    player panels of the character screen, and the lobby fields the game
    screen reads to decide who the local player is. */
module Roster {
  import opened Wrappers

  datatype Player = P1 | P2

  /** The ids of the character table, in order (`CHARACTERS` and
      `CHARACTERS_FULL`). */
  const Characters: seq<string> := ["bear", "man"]

  /** JavaScript truthiness of an optional string: set and not empty. */
  predicate Truthy(s: Option<string>) {
    s.Some? && s.value != ""
  }

  /** `table.findIndex(c => c.id === id)`: the first index holding the id,
      or -1. */
  function FindId(table: seq<string>, id: Option<string>): (i: int)
    ensures -1 <= i < |table|
    ensures i >= 0 ==> id == Some(table[i])
    ensures forall k | 0 <= k < |table| && (i < 0 || k < i) :: id != Some(table[k])
  {
    if table == [] then -1
    else if id == Some(table[0]) then 0
    else
      var i := FindId(table[1..], id);
      if i < 0 then -1 else i + 1
  }

  /** `getCharIndex`: the table index of the character id, or 0 when the id
      is unset or not in the table. */
  function CharIndex(id: Option<string>): (i: nat)
    ensures i < |Characters|
    ensures id.Some? && id.value in Characters ==> Characters[i] == id.value
    ensures !(id.Some? && id.value in Characters) ==> i == 0
  {
    var found := FindId(Characters, id);
    if found >= 0 then found else 0
  }

  /** The two arrow buttons: `dir` is -1 or 1. */
  datatype Direction = Previous | Following

  function Step(dir: Direction): int {
    match dir
    case Previous => -1
    case Following => 1
  }

  /** `(idx + len + dir) % len` (written `(idx + dir + len) % len` on the
      character screen): one step around a cycle of `len` entries. */
  function CycleIndex(idx: nat, len: nat, dir: Direction): (r: nat)
    requires idx < len
    ensures r < len
    ensures dir == Following ==> r == if idx + 1 == len then 0 else idx + 1
    ensures dir == Previous ==> r == if idx == 0 then len - 1 else idx - 1
  {
    (idx + len + Step(dir)) % len
  }

  /** A step one way followed by a step the other way returns to the start. */
  lemma CycleIndexInverse(idx: nat, len: nat)
    requires idx < len
    ensures CycleIndex(CycleIndex(idx, len, Following), len, Previous) == idx
    ensures CycleIndex(CycleIndex(idx, len, Previous), len, Following) == idx
  {
  }

  /** `swapChar`: the id `selectCharacter` receives. */
  function SwapChar(id: Option<string>, dir: Direction): (r: string)
    ensures r in Characters
  {
    Characters[CycleIndex(CharIndex(id), |Characters|, dir)]
  }

  /** With two characters either arrow switches bear and man; an unset or
      unknown id counts as bear and becomes man. */
  lemma SwapCharToggles(id: Option<string>, dir: Direction)
    ensures id == Some("bear") ==> SwapChar(id, dir) == "man"
    ensures id == Some("man") ==> SwapChar(id, dir) == "bear"
    ensures !(id.Some? && id.value in Characters) ==> SwapChar(id, dir) == "man"
  {
  }

  /** Swapping one way and then back restores a character from the table. */
  lemma SwapCharRestores(c: string, dir: Direction, back: Direction)
    requires c in Characters && dir != back
    ensures SwapChar(Some(SwapChar(Some(c), dir)), back) == c
  {
  }

  /** `isP2Available`: a player's panel shows its arrows when the second
      player is connected, and always for player 1. */
  function PanelAvailable(connectedP2: bool, player: Player): (ok: bool)
    ensures player == P1 ==> ok
    ensures player == P2 ==> (ok <==> connectedP2)
  {
    connectedP2 || player == P1
  }

  /** The NEXT button is enabled exactly when player 1 has a character. */
  function NextEnabled(p1Character: Option<string>): (ok: bool)
    ensures ok <==> p1Character.Some? && p1Character.value != ""
  {
    Truthy(p1Character)
  }

  // ---------------------------------------------------------------------
  // The lobby fields the game screen reads

  datatype LobbyMode = Solo | Host | Join

  datatype Side = Red | Blue

  /** The lobby record of the game store (side unset in solo play, code
      unset until a lobby exists). */
  datatype Lobby = Lobby(mode: LobbyMode, connectedP2: bool, side: Option<Side>, code: Option<string>)

  /** `lobby.mode === 'host' || lobby.mode === 'join' || lobby.connectedP2`. */
  predicate IsMultiplayer(lobby: Lobby): (b: bool)
    ensures b <==> lobby.mode != Solo || lobby.connectedP2
  {
    lobby.mode == Host || lobby.mode == Join || lobby.connectedP2
  }

  /** The player local input and note results count for: none while a
      multiplayer match has no side yet, otherwise player 2 exactly when
      the side is blue. */
  function LocalPlayer(lobby: Lobby): (p: Option<Player>)
    ensures p.None? <==> IsMultiplayer(lobby) && lobby.side.None?
    ensures p == Some(P2) <==> IsMultiplayer(lobby) && lobby.side == Some(Blue)
    ensures !IsMultiplayer(lobby) ==> p == Some(P1)
  {
    if IsMultiplayer(lobby) && lobby.side.None? then None
    else if IsMultiplayer(lobby) && lobby.side == Some(Blue) then Some(P2)
    else Some(P1)
  }
}
