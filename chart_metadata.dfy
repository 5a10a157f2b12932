/** `parseChartMetadata` (backend/server.js): the metadata record the
    backend reports for a generated chart.  The regular-expression searches
    over the chart text are inputs here (ChartCaptures); what the model
    keeps is how the captures become fields: the defaults, the trimming,
    the AI-generated flag, the difficulty buckets and the largest tick. */
module ChartMetadata {
  import opened Wrappers
  import opened JsText
  import opened ChartText

  const DefaultSongName := "Unknown Song"
  const DefaultArtist := "Unknown Artist"
  const DefaultGenre := "Unknown"
  const DefaultDifficulty := 3
  /** The default length, in seconds. */
  const DefaultLengthSeconds := 180

  /** The `length` field: the 180-second default, or an estimate computed
      from the largest tick (the floating-point arithmetic of that estimate
      is not modelled). */
  datatype Length = DefaultLength | EstimatedFrom(maxTick: nat)

  datatype Metadata = Metadata(
    songName: string,
    artist: string,
    difficulty: int,
    length: Length,
    genre: string,
    aiGenerated: bool)

  /** What the searches of parseChartMetadata find in the chart text: the
      `(.+)` groups after `Name`, `Artist`, `Genre` and `Charter`, the text
      `\[ExpertSingle\][\s\S]*?\n\}` matches, and the note entries the
      global search `N\s+(\d+)\s+\d+` runs through, in order. */
  datatype ChartCaptures = ChartCaptures(
    name: Option<string>,
    artist: Option<string>,
    genre: Option<string>,
    charter: Option<string>,
    expertSection: Option<string>,
    notes: seq<NoteEntry>)

  // ---------------------------------------------------------------------
  // Difficulty

  /** `<lead>\s*N\s+\d+`: a note marker preceded by the character `lead`. */
  function MarkPattern(lead: char): seq<Piece> {
    [Lit(lead), Run(SpaceClass, 0), Lit('N'), Run(SpaceClass, 1), Run(DigitClass, 1)]
  }

  /** Number of positions from `from` on at which `pat` matches.  For
      MarkPattern with a lead that is not white space, `N` or a digit, no
      match can start inside another, so this is the number of matches a
      global search returns. */
  function CountMatches(s: string, pat: seq<Piece>, from: nat): (n: nat)
    requires from <= |s|
    ensures n <= |s| - from
    decreases |s| - from
  {
    if from == |s| then 0
    else (if MatchAt(s, from, pat) then 1 else 0) + CountMatches(s, pat, from + 1)
  }

  /** The count is positive exactly when some position from `from` on
      matches. */
  lemma {:induction false} CountMatchesPositive(s: string, pat: seq<Piece>, from: nat)
    requires from <= |s|
    ensures CountMatches(s, pat, from) > 0 <==> exists k: nat | from <= k < |s| :: MatchAt(s, k, pat)
    decreases |s| - from
  {
    if from < |s| {
      CountMatchesPositive(s, pat, from + 1);
      SomeMatchFrom(s, pat, from);
    }
  }

  /** A match at or after `from` is one at `from` or one after it. */
  lemma SomeMatchFrom(s: string, pat: seq<Piece>, from: nat)
    requires from < |s|
    ensures (exists k: nat | from <= k < |s| :: MatchAt(s, k, pat)) <==>
            MatchAt(s, from, pat) || exists k: nat | from + 1 <= k < |s| :: MatchAt(s, k, pat)
  {
    if k: nat :| from <= k < |s| && MatchAt(s, k, pat) {
      if k != from {
        assert from + 1 <= k < |s| && MatchAt(s, k, pat);
      }
    }
  }

  /** The buckets: fewer than 50 notes is 1, fewer than 100 is 2, fewer
      than 200 is 3, fewer than 300 is 4, otherwise 5. */
  function DifficultyForCount(count: nat): (d: int)
    ensures 1 <= d <= 5
    ensures d == 1 <==> count < 50
    ensures d == 2 <==> 50 <= count < 100
    ensures d == 3 <==> 100 <= count < 200
    ensures d == 4 <==> 200 <= count < 300
    ensures d == 5 <==> count >= 300
  {
    if count < 50 then 1
    else if count < 100 then 2
    else if count < 200 then 3
    else if count < 300 then 4
    else 5
  }

  /** More notes never means an easier chart. */
  lemma DifficultyMonotone(m: nat, n: nat)
    requires m <= n
    ensures DifficultyForCount(m) <= DifficultyForCount(n)
  {
  }

  /** The difficulty computed from the ExpertSingle text, counting the note
      markers that follow the character `lead`; with no section or no
      marker the default 3 stays. */
  function EstimateDifficulty(section: Option<string>, lead: char): (d: int)
    ensures 1 <= d <= 5
    ensures section.None? ==> d == DefaultDifficulty
    // With a section, no marker keeps the default and any marker puts the
    // count in its bucket.
    ensures section.Some? ==>
      var count := CountMatches(section.value, MarkPattern(lead), 0);
      && (count == 0 ==> d == DefaultDifficulty)
      && (count > 0 ==> d == DifficultyForCount(count))
  {
    if section.None? then DefaultDifficulty
    else
      var count := CountMatches(section.value, MarkPattern(lead), 0);
      if count == 0 then DefaultDifficulty else DifficultyForCount(count)
  }

  /** The difficulty as the source computes it: the markers counted are
      `|\s*N\s+\d+`. */
  function DifficultyAsWritten(section: Option<string>): int {
    EstimateDifficulty(section, '|')
  }

  /** The corrected difficulty: the markers counted are `=\s*N\s+\d+`, the
      `tick = N fret length` lines of the section. */
  function Difficulty(section: Option<string>): int {
    EstimateDifficulty(section, '=')
  }

  lemma {:induction false} NoLeadNoMatches(s: string, lead: char, from: nat)
    requires from <= |s|
    requires forall k | from <= k < |s| :: s[k] != lead
    ensures CountMatches(s, MarkPattern(lead), from) == 0
    decreases |s| - from
  {
    if from < |s| {
      NoLeadNoMatches(s, lead, from + 1);
    }
  }

  /** As written, a section without a `|` (one made of `tick = N fret
      length` lines) is always rated 3, however many notes it has. */
  lemma DifficultyAsWrittenIgnoresNotes(section: string)
    requires '|' !in section
    ensures DifficultyAsWritten(Some(section)) == DefaultDifficulty
  {
    NoLeadNoMatches(section, '|', 0);
  }

  /** `=\s*N\s+\d+` matches the line `0 = N 0 0` at its `=`. */
  lemma OneNoteMarkMatch()
    ensures MatchAt("0 = N 0 0", 2, MarkPattern('='))
  {
    var s := "0 = N 0 0";
    var pat := MarkPattern('=');
    assert MatchAt(s, 7, [Run(DigitClass, 0)]);
    assert MatchAt(s, 6, [Run(DigitClass, 1)]);
    assert MatchAt(s, 6, [Run(SpaceClass, 0), Run(DigitClass, 1)]);
    assert MatchAt(s, 5, [Run(SpaceClass, 1), Run(DigitClass, 1)]);
    assert MatchAt(s, 4, pat[2..]);
    assert MatchAt(s, 4, [Run(SpaceClass, 0)] + pat[2..]);
    assert MatchAt(s, 3, pat[1..]);
  }

  /** The line `0 = N 0 0` holds exactly one `=` marker. */
  lemma OneNoteMarkCount()
    ensures CountMatches("0 = N 0 0", MarkPattern('='), 0) == 1
  {
    var s := "0 = N 0 0";
    var pat := MarkPattern('=');
    OneNoteMarkMatch();
    NoLeadNoMatches(s, '=', 3);
    assert !MatchAt(s, 0, pat) && !MatchAt(s, 1, pat);
    assert CountMatches(s, pat, 2) == 1;
    assert CountMatches(s, pat, 1) == 1;
  }

  /** A section with one note line: rated 3 as written, 1 when corrected. */
  lemma DifficultyCounterexample()
    ensures DifficultyAsWritten(Some("0 = N 0 0")) == 3
    ensures Difficulty(Some("0 = N 0 0")) == 1
  {
    DifficultyAsWrittenIgnoresNotes("0 = N 0 0");
    OneNoteMarkCount();
  }

  // ---------------------------------------------------------------------
  // Largest tick

  /** The largest of the values, 0 for none. */
  function MaxOf(xs: seq<nat>): (m: nat)
    ensures forall k | 0 <= k < |xs| :: xs[k] <= m
    ensures m == 0 || exists k | 0 <= k < |xs| :: xs[k] == m
  {
    if xs == [] then 0
    else
      var rest := MaxOf(xs[..|xs| - 1]);
      if xs[|xs| - 1] > rest then xs[|xs| - 1] else rest
  }

  function Ticks(notes: seq<NoteEntry>): (r: seq<nat>)
    ensures |r| == |notes| && forall k | 0 <= k < |r| :: r[k] == notes[k].tick
  {
    if notes == [] then [] else Ticks(notes[..|notes| - 1]) + [notes[|notes| - 1].tick]
  }

  function Frets(notes: seq<NoteEntry>): (r: seq<nat>)
    ensures |r| == |notes| && forall k | 0 <= k < |r| :: r[k] == notes[k].fret
  {
    if notes == [] then [] else Frets(notes[..|notes| - 1]) + [notes[|notes| - 1].fret]
  }

  /** The `forEach` over the captured numbers: `maxTick` starts at 0 and
      takes every larger value it meets. */
  method MaxCaptured(values: seq<nat>) returns (maxTick: nat)
    ensures maxTick == MaxOf(values)
  {
    maxTick := 0;
    var i := 0;
    while i < |values|
      invariant 0 <= i <= |values|
      invariant maxTick == MaxOf(values[..i])
    {
      assert values[..i + 1][..i] == values[..i];
      if values[i] > maxTick {
        maxTick := values[i];
      }
      i := i + 1;
    }
    assert values[..i] == values;
  }

  /** As written, the number read from each match by `N\s+(\d+)` is the
      fret, the one after `N`. */
  function MaxTickAsWritten(notes: seq<NoteEntry>): nat {
    MaxOf(Frets(notes))
  }

  /** Corrected: the largest tick, the number before `= N`. */
  function MaxTick(notes: seq<NoteEntry>): nat {
    MaxOf(Ticks(notes))
  }

  /** One note at tick 768 on fret 1: as written the largest "tick" is 1. */
  lemma MaxTickCounterexample()
    ensures MaxTickAsWritten([NoteEntry(768, 1, 0)]) == 1
    ensures MaxTick([NoteEntry(768, 1, 0)]) == 768
  {
    assert Frets([NoteEntry(768, 1, 0)]) == [1];
    assert Ticks([NoteEntry(768, 1, 0)]) == [768];
  }

  // ---------------------------------------------------------------------
  // The record

  /** The length is re-estimated exactly when some note has a positive
      tick, and then from the largest tick. */
  lemma MaxTickPositive(notes: seq<NoteEntry>)
    ensures MaxTick(notes) > 0 <==> exists k | 0 <= k < |notes| :: notes[k].tick > 0
    ensures forall k | 0 <= k < |notes| :: notes[k].tick <= MaxTick(notes)
    ensures MaxTick(notes) > 0 ==> exists k | 0 <= k < |notes| :: notes[k].tick == MaxTick(notes)
  {
    var ticks := Ticks(notes);
    assert forall k | 0 <= k < |notes| :: notes[k].tick == ticks[k];
  }

  /** parseChartMetadata, field by field, with the corrected difficulty and
      largest tick. */
  method ParseChartMetadata(c: ChartCaptures) returns (m: Metadata)
    ensures m.songName == if c.name.Some? then Trim(c.name.value) else DefaultSongName
    ensures m.artist == if c.artist.Some? then Trim(c.artist.value) else DefaultArtist
    ensures m.genre == if c.genre.Some? then Trim(c.genre.value) else DefaultGenre
    ensures m.aiGenerated <==> c.charter.None? || Trim(c.charter.value) == "Gemini"
    ensures m.difficulty == Difficulty(c.expertSection) && 1 <= m.difficulty <= 5
    ensures m.length == if MaxTick(c.notes) > 0 then EstimatedFrom(MaxTick(c.notes)) else DefaultLength
  {
    m := Metadata(DefaultSongName, DefaultArtist, DefaultDifficulty, DefaultLength, DefaultGenre, true);
    if c.name.Some? {
      m := m.(songName := Trim(c.name.value));
    }
    if c.artist.Some? {
      m := m.(artist := Trim(c.artist.value));
    }
    if c.genre.Some? {
      m := m.(genre := Trim(c.genre.value));
    }
    if c.charter.Some? {
      m := m.(aiGenerated := Trim(c.charter.value) == "Gemini");
    }
    m := m.(difficulty := Difficulty(c.expertSection));
    if |c.notes| > 0 {
      var maxTick := MaxCaptured(Ticks(c.notes));
      if maxTick > 0 {
        m := m.(length := EstimatedFrom(maxTick));
      }
    }
  }
}
