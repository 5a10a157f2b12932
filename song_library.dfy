/** The backend's song library bookkeeping (backend/server.js): the file
    and directory names derived from a song name, and the upsert of a song
    into the `index.json` list. */
module SongLibrary {
  import opened JsText

  /** `s.replace(/[^...]/g, '')`: the characters of `s` the class allows, in
      their order. */
  function Keep(s: string, allowed: char -> bool): (r: string)
    ensures |r| <= |s|
    ensures forall k | 0 <= k < |r| :: allowed(r[k])
  {
    if s == [] then []
    else (if allowed(s[0]) then [s[0]] else []) + Keep(s[1..], allowed)
  }

  lemma {:induction false} KeepConcat(a: string, b: string, allowed: char -> bool)
    ensures Keep(a + b, allowed) == Keep(a, allowed) + Keep(b, allowed)
  {
    if a != [] {
      assert (a + b)[1..] == a[1..] + b;
      KeepConcat(a[1..], b, allowed);
    } else {
      assert a + b == b;
    }
  }

  lemma {:induction false} KeepAllowed(s: string, allowed: char -> bool)
    requires forall k | 0 <= k < |s| :: allowed(s[k])
    ensures Keep(s, allowed) == s
  {
    if s != [] {
      KeepAllowed(s[1..], allowed);
    }
  }

  predicate IsAlnum(c: char) { IsAsciiLetter(c) || IsDigit(c) }

  /** `[a-zA-Z0-9\s\-_]`, the characters a song directory name keeps. */
  predicate SongNameChar(c: char) { IsAlnum(c) || IsSpace(c) || c == '-' || c == '_' }

  /** `[a-zA-Z0-9\s\-\.]`, the characters a chart file name keeps. */
  predicate FileNameChar(c: char) { IsAlnum(c) || IsSpace(c) || c == '-' || c == '.' }

  /** `s.replace(/\s+/g, '_')`: every run of white space becomes one `_`. */
  function CollapseSpaces(s: string): (r: string)
    ensures forall k | 0 <= k < |r| :: !IsSpace(r[k])
    ensures forall k | 0 <= k < |r| :: r[k] in s || r[k] == '_'
    decreases |s|
  {
    if s == [] then []
    else if IsSpace(s[0]) then
      var rest := TrimStart(s);
      assert |rest| < |s| by {
        assert rest == s[|s| - |rest|..];
      }
      assert forall c | c in rest :: c in s;
      "_" + CollapseSpaces(rest)
    else
      assert forall c | c in s[1..] :: c in s;
      [s[0]] + CollapseSpaces(s[1..])
  }

  lemma {:induction false} CollapseNoSpaces(s: string)
    requires forall k | 0 <= k < |s| :: !IsSpace(s[k])
    ensures CollapseSpaces(s) == s
  {
    if s != [] {
      CollapseNoSpaces(s[1..]);
    }
  }

  /** A directory name as the save-chart and upload handlers accept it:
      letters, digits, `-` and `_` only. */
  predicate IsCleanName(s: string) {
    forall k | 0 <= k < |s| :: IsAlnum(s[k]) || s[k] == '-' || s[k] == '_'
  }

  /** `cleanSongName` of the save-chart and upload handlers: unwanted
      characters removed, then white-space runs turned into `_`. */
  function CleanSongName(songName: string): (r: string)
    ensures IsCleanName(r)
  {
    var kept := Keep(songName, SongNameChar);
    var r := CollapseSpaces(kept);
    assert forall k | 0 <= k < |r| :: r[k] in kept || r[k] == '_';
    assert forall c | c in kept :: SongNameChar(c);
    r
  }

  /** A clean name is left alone, and only a clean name is: cleaning is
      idempotent and its fixed points are exactly the clean names. */
  lemma CleanSongNameFixedPoints(s: string)
    ensures CleanSongName(s) == s <==> IsCleanName(s)
    ensures CleanSongName(CleanSongName(s)) == CleanSongName(s)
  {
    forall t | IsCleanName(t) ensures CleanSongName(t) == t {
      KeepAllowed(t, SongNameChar);
      CollapseNoSpaces(t);
    }
  }

  /** The letters and digits of `s`, in order. */
  function Alnums(s: string): string {
    Keep(s, IsAlnum)
  }

  lemma {:induction false} KeepKeepsAlnums(s: string)
    ensures Alnums(Keep(s, SongNameChar)) == Alnums(s)
  {
    if s != [] {
      KeepKeepsAlnums(s[1..]);
      var head := if SongNameChar(s[0]) then [s[0]] else [];
      KeepConcat(head, Keep(s[1..], SongNameChar), IsAlnum);
    }
  }

  lemma {:induction false} CollapseKeepsAlnums(s: string)
    ensures Alnums(CollapseSpaces(s)) == Alnums(s)
    decreases |s|
  {
    if s != [] {
      if IsSpace(s[0]) {
        var rest := TrimStart(s);
        CollapseKeepsAlnums(rest);
        KeepConcat("_", CollapseSpaces(rest), IsAlnum);
        var dropped := s[..|s| - |rest|];
        assert s == dropped + rest;
        KeepConcat(dropped, rest, IsAlnum);
        NoAlnumInSpaces(dropped);
      } else {
        CollapseKeepsAlnums(s[1..]);
        KeepConcat([s[0]], CollapseSpaces(s[1..]), IsAlnum);
      }
    }
  }

  lemma {:induction false} NoAlnumInSpaces(s: string)
    requires forall k | 0 <= k < |s| :: IsSpace(s[k])
    ensures Alnums(s) == []
  {
    if s != [] {
      NoAlnumInSpaces(s[1..]);
    }
  }

  /** No letter or digit of the song name is lost or reordered. */
  lemma CleanSongNameKeepsAlnums(s: string)
    ensures Alnums(CleanSongName(s)) == Alnums(s)
  {
    KeepKeepsAlnums(s);
    CollapseKeepsAlnums(Keep(s, SongNameChar));
  }

  /** The file name the generate-chart handler writes to:
      `` `${songName}.chart` `` with the unwanted characters removed. */
  function ChartFileName(songName: string): (r: string)
    ensures forall k | 0 <= k < |r| :: FileNameChar(r[k])
  {
    Keep(songName + ".chart", FileNameChar)
  }

  /** The extension survives the filter. */
  lemma ChartExtensionKept()
    ensures Keep(".chart", FileNameChar) == ".chart"
  {
    var ext := ".chart";
    assert forall k | 0 <= k < |ext| :: ext[k] == '.' || IsAsciiLetter(ext[k]);
    KeepAllowed(ext, FileNameChar);
  }

  /** The name keeps its extension and loses no allowed character: it is
      the song name's allowed characters followed by `.chart`, so it holds
      no `/` and cannot leave the uploads directory. */
  lemma ChartFileNameShape(songName: string)
    ensures ChartFileName(songName) == Keep(songName, FileNameChar) + ".chart"
    ensures '/' !in ChartFileName(songName)
  {
    KeepConcat(songName, ".chart", FileNameChar);
    ChartExtensionKept();
    var r := ChartFileName(songName);
    assert !FileNameChar('/');
    assert forall k | 0 <= k < |r| :: r[k] != '/';
  }

  // ---------------------------------------------------------------------
  // index.json

  /** One entry of `index.json`. */
  datatype SongEntry = SongEntry(id: string, title: string, bpm: int, difficulty: string)

  function AsciiUpperChar(c: char): char {
    if 'a' <= c <= 'z' then (c as int - 'a' as int + 'A' as int) as char else c
  }

  /** `toUpperCase` on ASCII letters. */
  function AsciiUpper(s: string): (r: string)
    ensures |r| == |s| && forall k | 0 <= k < |r| :: r[k] == AsciiUpperChar(s[k])
  {
    if s == [] then [] else [AsciiUpperChar(s[0])] + AsciiUpper(s[1..])
  }

  /** The entry the upload handler writes for a song name (the file name
      without its extension). */
  function EntryFor(songName: string): (e: SongEntry)
    ensures IsCleanName(e.id) && e.bpm == 120 && e.difficulty == "Medium"
    // The id is the cleaned name, the title the name in upper case.
    ensures e.id == CleanSongName(songName) && e.title == AsciiUpper(songName)
  {
    SongEntry(CleanSongName(songName), AsciiUpper(songName), 120, "Medium")
  }

  /** `songs.findIndex(song => song.id === id)`: the first index with that
      id, or -1. */
  function FindIndex(songs: seq<SongEntry>, id: string): (i: int)
    ensures -1 <= i < |songs|
    ensures i >= 0 ==> songs[i].id == id
    ensures forall k | 0 <= k < |songs| && (i < 0 || k < i) :: songs[k].id != id
  {
    if songs == [] then -1
    else if songs[0].id == id then 0
    else
      var i := FindIndex(songs[1..], id);
      if i < 0 then -1 else i + 1
  }

  /** The list after the upsert, as a value. */
  function Upserted(songs: seq<SongEntry>, entry: SongEntry): (r: seq<SongEntry>)
    ensures entry in r
    // The list grows by one exactly when no entry has the id.
    ensures |songs| <= |r| <= |songs| + 1
    ensures |r| == |songs| <==> exists k | 0 <= k < |songs| :: songs[k].id == entry.id
    // Entries with other ids stay where they were.
    ensures forall k | 0 <= k < |songs| && songs[k].id != entry.id :: r[k] == songs[k]
  {
    var i := FindIndex(songs, entry.id);
    if i >= 0 then
      var r := songs[i := entry];
      assert r[i] == entry;
      r
    else
      var r := songs + [entry];
      assert r[|songs|] == entry;
      r
  }

  /** The upsert: the first entry with the new entry's id is replaced, or
      the new entry is appended when there is none; nothing else moves. */
  method Upsert(songs: seq<SongEntry>, entry: SongEntry) returns (result: seq<SongEntry>)
    ensures result == Upserted(songs, entry)
    ensures FindIndex(songs, entry.id) >= 0 ==>
      |result| == |songs| && result[FindIndex(songs, entry.id)] == entry
      && forall k | 0 <= k < |songs| && k != FindIndex(songs, entry.id) :: result[k] == songs[k]
    ensures FindIndex(songs, entry.id) < 0 ==> result == songs + [entry]
  {
    var existingSongIndex := FindIndex(songs, entry.id);
    if existingSongIndex >= 0 {
      result := songs[existingSongIndex := entry];
    } else {
      result := songs + [entry];
    }
  }

  /** After the upsert the id is found, at the new entry. */
  lemma UpsertedFinds(songs: seq<SongEntry>, entry: SongEntry)
    ensures var r := Upserted(songs, entry);
      FindIndex(r, entry.id) >= 0 && r[FindIndex(r, entry.id)] == entry
  {
    var r := Upserted(songs, entry);
    var i := FindIndex(songs, entry.id);
    var j := if i >= 0 then i else |songs|;
    assert r[j] == entry;
    FindIndexFirst(r, entry.id, j);
  }

  lemma FindIndexFirst(songs: seq<SongEntry>, id: string, j: nat)
    requires j < |songs| && songs[j].id == id
    requires forall k | 0 <= k < j :: songs[k].id != id
    ensures FindIndex(songs, id) == j
  {
    var i := FindIndex(songs, id);
    assert i >= 0 by {
      assert songs[j].id == id;
    }
  }

  /** Uploading the same song twice leaves the index as one upload did. */
  lemma UpsertedIdempotent(songs: seq<SongEntry>, entry: SongEntry)
    ensures Upserted(Upserted(songs, entry), entry) == Upserted(songs, entry)
  {
    var r := Upserted(songs, entry);
    UpsertedFinds(songs, entry);
    assert r[FindIndex(r, entry.id) := entry] == r;
  }

  /** Entries with other ids are neither lost nor changed. */
  lemma UpsertedKeepsOthers(songs: seq<SongEntry>, entry: SongEntry, k: nat)
    requires k < |songs| && songs[k].id != entry.id
    ensures k < |Upserted(songs, entry)| && Upserted(songs, entry)[k] == songs[k]
  {
  }
}
