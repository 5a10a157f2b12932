/** The list-level steps of the backend's clean-up of a generated chart
    (backend/server.js, generateChartFromSongName): de-duplicating the
    `[Events]` section, moving note lines behind the other lines of a
    difficulty section and sorting them, giving some tap notes a sustain,
    and quoting the values of an unbraced `[Song]` block.  Sections are
    taken as their lines, already split out of the chart text. */
module ChartText {
  import opened Wrappers
  import opened JsText
  import JsSort

  // ---------------------------------------------------------------------
  // [Events] de-duplication

  /** A line of an `[Events]` section: one in which the pattern
      `(\d+)\s*=\s*E\s+"([^"]+)"` finds a tick and an event name, or any
      other line. */
  datatype EventLine = EventLine(tick: Digits, name: string) | OtherLine(text: string)

  /** One entry of the rebuilt section, written back as `tick = E "name"`. */
  datatype EventMark = EventMark(tick: Digits, name: string)

  function TickValue(e: EventMark): int {
    DigitsValue(e.tick)
  }

  /** The comparator `(a, b) => parseInt(a[0]) - parseInt(b[0])`. */
  function TickCmp(a: EventMark, b: EventMark): int {
    TickValue(a) - TickValue(b)
  }

  predicate HasTick(marks: seq<EventMark>, t: Digits) {
    exists k | 0 <= k < |marks| :: marks[k].tick == t
  }

  /** Reference definition: the name of the first event line with tick
      string `t`, reading the section from the top. */
  function FirstName(lines: seq<EventLine>, t: Digits): Option<string> {
    if lines == [] then None
    else match lines[0]
      case EventLine(u, n) => if u == t then Some(n) else FirstName(lines[1..], t)
      case OtherLine(_) => FirstName(lines[1..], t)
  }

  /** The entries of the source's `eventMap` in insertion order: an event
      line adds its tick only when that tick string is not there yet. */
  function FirstSeen(lines: seq<EventLine>): (r: seq<EventMark>)
    ensures forall i, j | 0 <= i < j < |r| :: r[i].tick != r[j].tick
  {
    if lines == [] then []
    else
      var prev := FirstSeen(lines[..|lines| - 1]);
      match lines[|lines| - 1]
      case EventLine(t, n) => if HasTick(prev, t) then prev else prev + [EventMark(t, n)]
      case OtherLine(_) => prev
  }

  lemma {:induction false} FirstNameSnoc(lines: seq<EventLine>, l: EventLine, t: Digits)
    ensures FirstName(lines + [l], t) ==
      if FirstName(lines, t).Some? then FirstName(lines, t)
      else if l.EventLine? && l.tick == t then Some(l.name) else None
  {
    if lines != [] {
      assert (lines + [l])[1..] == lines[1..] + [l];
      FirstNameSnoc(lines[1..], l, t);
    } else {
      assert ([] + [l])[1..] == [];
    }
  }

  /** The map holds a tick exactly when some event line has it, and under
      it the name of the first such line. */
  lemma {:induction false} FirstSeenIsFirstNames(lines: seq<EventLine>)
    ensures forall t: Digits :: HasTick(FirstSeen(lines), t) <==> FirstName(lines, t).Some?
    ensures forall e | e in FirstSeen(lines) :: FirstName(lines, e.tick) == Some(e.name)
  {
    if lines != [] {
      var init, l := lines[..|lines| - 1], lines[|lines| - 1];
      assert lines == init + [l];
      FirstSeenIsFirstNames(init);
      forall t: Digits ensures FirstName(lines, t) == FirstName(init + [l], t) {
      }
      forall t: Digits {
        FirstNameSnoc(init, l, t);
      }
      var prev := FirstSeen(init);
      forall e | e in FirstSeen(lines)
        ensures FirstName(lines, e.tick) == Some(e.name)
      {
        if e in prev {
          var k :| 0 <= k < |prev| && prev[k] == e;
          assert HasTick(prev, e.tick);
        }
      }
      forall t: Digits
        ensures HasTick(FirstSeen(lines), t) <==> FirstName(lines, t).Some?
      {
        if l.EventLine? && !HasTick(prev, l.tick) {
          var r := prev + [EventMark(l.tick, l.name)];
          if HasTick(r, t) && !HasTick(prev, t) {
            var k :| 0 <= k < |r| && r[k].tick == t;
            assert k == |prev|;
          }
          if HasTick(prev, t) {
            var k :| 0 <= k < |prev| && prev[k].tick == t;
            assert r[k].tick == t;
          }
          assert r[|prev|].tick == l.tick;
        }
      }
    }
  }

  /** No two entries share a tick string. */
  predicate DistinctTicks(marks: seq<EventMark>) {
    forall i, j | 0 <= i < j < |marks| :: marks[i].tick != marks[j].tick
  }

  lemma {:induction false} DistinctTicksOnce(a: seq<EventMark>, x: EventMark)
    requires DistinctTicks(a)
    ensures multiset(a)[x] <= 1
  {
    if a != [] {
      var init, last := a[..|a| - 1], a[|a| - 1];
      assert a == init + [last];
      assert DistinctTicks(init) by {
        forall i, j | 0 <= i < j < |init| ensures init[i].tick != init[j].tick {
          assert init[i] == a[i] && init[j] == a[j];
        }
      }
      DistinctTicksOnce(init, x);
      if x == last {
        forall k | 0 <= k < |init| ensures init[k] != x {
          assert a[k].tick != a[|a| - 1].tick;
        }
      }
    }
  }

  lemma RepeatCountsTwice(b: seq<EventMark>, i: nat, j: nat)
    requires i < j < |b|
    ensures b[i] == b[j] ==> multiset(b)[b[i]] >= 2
  {
    assert b == b[..j] + [b[j]] + b[j + 1..];
    assert b[i] in b[..j];
  }

  lemma DistinctTicksInjective(a: seq<EventMark>, x: EventMark, y: EventMark)
    requires DistinctTicks(a) && x in a && y in a
    ensures x.tick == y.tick ==> x == y
  {
    var p :| 0 <= p < |a| && a[p] == x;
    var q :| 0 <= q < |a| && a[q] == y;
    if p < q {
      assert a[p].tick != a[q].tick;
    } else if q < p {
      assert a[q].tick != a[p].tick;
    }
  }

  /** Reordering entries with distinct ticks keeps them distinct. */
  lemma PermutationKeepsDistinctTicks(a: seq<EventMark>, b: seq<EventMark>)
    requires DistinctTicks(a)
    requires multiset(a) == multiset(b)
    ensures DistinctTicks(b)
  {
    forall i, j | 0 <= i < j < |b|
      ensures b[i].tick != b[j].tick
    {
      DistinctTicksOnce(a, b[i]);
      RepeatCountsTwice(b, i, j);
      assert b[i] != b[j];
      assert b[i] in multiset(a) && b[j] in multiset(a);
      DistinctTicksInjective(a, b[i], b[j]);
    }
  }

  /** The rebuilt section: one entry per tick, the first line's name under
      it, ascending by tick value. */
  lemma SortedFirstSeen(lines: seq<EventLine>)
    ensures var events := JsSort.Sort(FirstSeen(lines), TickCmp);
      && JsSort.SortedBy(events, TickValue)
      && DistinctTicks(events)
      && forall e: EventMark :: e in events <==> FirstName(lines, e.tick) == Some(e.name)
  {
    var entries := FirstSeen(lines);
    var events := JsSort.Sort(entries, TickCmp);
    JsSort.SortSorts(entries, TickCmp, TickValue);
    PermutationKeepsDistinctTicks(entries, events);
    FirstSeenIsFirstNames(lines);
    forall e: EventMark
      ensures e in events <==> FirstName(lines, e.tick) == Some(e.name)
    {
      assert e in events <==> e in multiset(events);
      assert e in entries <==> e in multiset(entries);
      if FirstName(lines, e.tick) == Some(e.name) {
        var k :| 0 <= k < |entries| && entries[k].tick == e.tick;
        assert entries[k] in entries;
      }
    }
  }

  /** The section's event lines with duplicate ticks removed and sorted by
      tick (backend/server.js, the `[Events]` replacement): the `forEach`
      fills an insertion-ordered map, whose entries are then sorted. */
  method DedupEvents(lines: seq<EventLine>) returns (events: seq<EventMark>)
    ensures events == JsSort.Sort(FirstSeen(lines), TickCmp)
    ensures JsSort.SortedBy(events, TickValue)
    ensures DistinctTicks(events)
    ensures forall e: EventMark :: e in events <==> FirstName(lines, e.tick) == Some(e.name)
  {
    var eventMap: map<Digits, string> := map[];
    var keys: seq<Digits> := [];  // the map's insertion order
    var i := 0;
    while i < |lines|
      invariant 0 <= i <= |lines|
      invariant MapMirrors(FirstSeen(lines[..i]), eventMap, keys)
    {
      assert lines[..i + 1] == lines[..i] + [lines[i]];
      AddEventLine(lines[..i], lines[i], eventMap, keys);
      if lines[i].EventLine? && lines[i].tick !in eventMap {
        eventMap := eventMap[lines[i].tick := lines[i].name];
        keys := keys + [lines[i].tick];
      }
      i := i + 1;
    }
    assert lines[..i] == lines;
    assert |keys| == |FirstSeen(lines)|;
    var entries: seq<EventMark> := [];
    var k := 0;
    while k < |keys|
      invariant 0 <= k <= |keys|
      invariant entries == FirstSeen(lines)[..k]
    {
      entries := entries + [EventMark(keys[k], eventMap[keys[k]])];
      k := k + 1;
    }
    assert entries == FirstSeen(lines);
    events := JsSort.Sort(entries, TickCmp);
    SortedFirstSeen(lines);
  }

  /** A tick FirstName finds a name for is the tick of some event line. */
  lemma {:induction false} FirstNameFromLine(lines: seq<EventLine>, t: Digits)
    ensures FirstName(lines, t).Some? ==>
      exists k | 0 <= k < |lines| :: lines[k].EventLine? && lines[k].tick == t
  {
    if lines != [] {
      FirstNameFromLine(lines[1..], t);
      if FirstName(lines[1..], t).Some? {
        var k :| 0 <= k < |lines[1..]| && lines[1..][k].EventLine? && lines[1..][k].tick == t;
        assert lines[k + 1] == lines[1..][k];
      }
    }
  }

  /** When every tick is written without leading zeros, the rebuilt section
      is strictly ascending by tick. */
  lemma DedupStrictlyAscending(lines: seq<EventLine>)
    requires forall k | 0 <= k < |lines| :: lines[k].EventLine? ==> Canonical(lines[k].tick)
    ensures var events := JsSort.Sort(FirstSeen(lines), TickCmp);
      forall i, j | 0 <= i < j < |events| :: TickValue(events[i]) < TickValue(events[j])
  {
    var events := JsSort.Sort(FirstSeen(lines), TickCmp);
    SortedFirstSeen(lines);
    forall i, j | 0 <= i < j < |events|
      ensures TickValue(events[i]) < TickValue(events[j])
    {
      var a, b := events[i], events[j];
      assert a in events && b in events;
      FirstNameFromLine(lines, a.tick);
      FirstNameFromLine(lines, b.tick);
      DigitsValueInjective(a.tick, b.tick);
    }
  }

  /** One step of the `forEach`: a tick the map lacks is exactly a tick
      FirstSeen has not recorded yet. */
  /** The source's map with its insertion order `keys` holds exactly the
      entries `entries`, in that order. */
  predicate MapMirrors(entries: seq<EventMark>, eventMap: map<Digits, string>, keys: seq<Digits>) {
    && |keys| == |entries|
    && (forall k | 0 <= k < |keys| :: keys[k] in eventMap && entries[k] == EventMark(keys[k], eventMap[keys[k]]))
    && (forall t :: t in eventMap ==> t in keys)
  }

  lemma AddEventLine(prefix: seq<EventLine>, l: EventLine, eventMap: map<Digits, string>, keys: seq<Digits>)
    requires MapMirrors(FirstSeen(prefix), eventMap, keys)
    ensures FirstSeen(prefix + [l]) ==
      if l.EventLine? && l.tick !in eventMap then FirstSeen(prefix) + [EventMark(l.tick, l.name)]
      else FirstSeen(prefix)
    ensures l.EventLine? && l.tick !in eventMap ==>
      MapMirrors(FirstSeen(prefix + [l]), eventMap[l.tick := l.name], keys + [l.tick])
    ensures !(l.EventLine? && l.tick !in eventMap) ==> MapMirrors(FirstSeen(prefix + [l]), eventMap, keys)
  {
    assert (prefix + [l])[..|prefix|] == prefix;
    var prev := FirstSeen(prefix);
    if l.EventLine? {
      if l.tick in eventMap {
        var k :| 0 <= k < |keys| && keys[k] == l.tick;
        assert prev[k].tick == l.tick;
      } else {
        forall k | 0 <= k < |prev| ensures prev[k].tick != l.tick {
          assert keys[k] in eventMap;
        }
        var m', keys' := eventMap[l.tick := l.name], keys + [l.tick];
        forall k | 0 <= k < |keys'|
          ensures keys'[k] in m' && (prev + [EventMark(l.tick, l.name)])[k] == EventMark(keys'[k], m'[keys'[k]])
        {
          if k < |keys| {
            assert keys[k] != l.tick;
          }
        }
      }
    }
  }

  // ---------------------------------------------------------------------
  // Note lines of a difficulty section

  /** The character classes the note pattern uses. */
  datatype CharClass = DigitClass | SpaceClass

  predicate InClass(cls: CharClass, c: char) {
    match cls
    case DigitClass => IsDigit(c)
    case SpaceClass => IsSpace(c)
  }

  /** One element of a regular expression: a literal character, or a run of
      at least `min` characters of a class (`\d+` is `Run(DigitClass, 1)`,
      `\s*` is `Run(SpaceClass, 0)`). */
  datatype Piece = Lit(c: char) | Run(cls: CharClass, min: nat)

  /** `\d+\s*=\s*N\s+\d+\s+\d+`, the test that puts a line among the notes. */
  const NotePattern: seq<Piece> := [
    Run(DigitClass, 1), Run(SpaceClass, 0), Lit('='), Run(SpaceClass, 0), Lit('N'),
    Run(SpaceClass, 1), Run(DigitClass, 1), Run(SpaceClass, 1), Run(DigitClass, 1)]

  /** `pat` matches `s` from index `i` on, each run taking as many characters
      as it can.  In NotePattern every run is followed by a piece its class
      cannot match, so the greedy choice is the only one a backtracking
      matcher could succeed with. */
  predicate MatchAt(s: string, i: nat, pat: seq<Piece>)
    requires i <= |s|
    decreases |pat|, |s| - i
  {
    if pat == [] then true
    else match pat[0]
      case Lit(c) => i < |s| && s[i] == c && MatchAt(s, i + 1, pat[1..])
      case Run(cls, min) =>
        if i < |s| && InClass(cls, s[i]) then
          MatchAt(s, i + 1, [Run(cls, if min > 0 then min - 1 else 0)] + pat[1..])
        else min == 0 && MatchAt(s, i, pat[1..])
  }

  /** `line.match(/\d+\s*=\s*N\s+\d+\s+\d+/)` succeeds: the pattern matches
      from some position. */
  predicate IsNoteLine(line: string): (b: bool)
    // A note line holds a number, the tick the note sort reads.
    ensures b ==> FirstNumber(line).Some?
  {
    var b := exists i | 0 <= i < |line| :: MatchAt(line, i, NotePattern);
    assert b ==> FirstNumber(line).Some? by {
      if b {
        var i :| 0 <= i < |line| && MatchAt(line, i, NotePattern);
        NoteMatchStartsWithDigit(line, i);
      }
    }
    b
  }

  /** A match of the note pattern starts on a digit. */
  lemma NoteMatchStartsWithDigit(line: string, i: nat)
    requires i < |line| && MatchAt(line, i, NotePattern)
    ensures IsDigit(line[i])
  {
  }

  /** The lines on which `test` gives `want`, in their order. */
  function LinesWhere(lines: seq<string>, test: string -> bool, want: bool): (r: seq<string>)
    ensures forall k | 0 <= k < |r| :: test(r[k]) == want
  {
    if lines == [] then []
    else
      var last := lines[|lines| - 1];
      LinesWhere(lines[..|lines| - 1], test, want) + (if test(last) == want then [last] else [])
  }

  /** The lines a test accepts and the lines it rejects make up all lines. */
  lemma {:induction false} LinesWhereIsPermutation(lines: seq<string>, test: string -> bool)
    ensures multiset(LinesWhere(lines, test, false)) + multiset(LinesWhere(lines, test, true)) == multiset(lines)
  {
    if lines != [] {
      var init, last := lines[..|lines| - 1], lines[|lines| - 1];
      LinesWhereIsPermutation(init, test);
      assert lines == init + [last];
    }
  }

  /** The lines pushed onto `noteLines`, in their order. */
  /** One more line examined. */
  lemma LinesWhereStep(lines: seq<string>, test: string -> bool, want: bool, i: nat)
    requires i < |lines|
    ensures LinesWhere(lines[..i + 1], test, want) ==
            LinesWhere(lines[..i], test, want) + (if test(lines[i]) == want then [lines[i]] else [])
  {
    assert lines[..i + 1][..i] == lines[..i];
  }

  function NoteLines(lines: seq<string>): (r: seq<string>)
    ensures forall k | 0 <= k < |r| :: IsNoteLine(r[k])
  {
    LinesWhere(lines, IsNoteLine, true)
  }

  /** The lines pushed onto `otherLines`, in their order. */
  function OtherLines(lines: seq<string>): (r: seq<string>)
    ensures forall k | 0 <= k < |r| :: !IsNoteLine(r[k])
  {
    LinesWhere(lines, IsNoteLine, false)
  }

  lemma SplitIsPermutation(lines: seq<string>)
    ensures multiset(OtherLines(lines)) + multiset(NoteLines(lines)) == multiset(lines)
  {
    LinesWhereIsPermutation(lines, IsNoteLine);
  }

  /** The comparator as the source writes it: the numbers matched by
      `/^(\d+)/` at the very start of the two lines, and 0 unless both lines
      start with a digit. */
  function NoteCmpAsWritten(a: string, b: string): int {
    match (LeadingNumber(a), LeadingNumber(b))
    case (Some(x), Some(y)) => x as int - y as int
    case _ => 0
  }

  /** The comparator as its comment describes it ("extract first number
      from each line"): the first number anywhere in each line. */
  function NoteCmp(a: string, b: string): int {
    match (FirstNumber(a), FirstNumber(b))
    case (Some(x), Some(y)) => x as int - y as int
    case _ => 0
  }

  /** The number a note line is ordered by: its first number. */
  function NoteTick(line: string): int {
    match FirstNumber(line)
    case Some(x) => x
    case None => 0
  }

  /** The number a line starts with, 0 when it starts with something else. */
  function LeadingTick(line: string): int {
    match LeadingNumber(line)
    case Some(x) => x
    case None => 0
  }

  /** Every note line holds a number, so the corrected comparator is a
      difference of keys on note lines. */
  lemma NoteCmpConsistent(notes: seq<string>)
    requires forall k | 0 <= k < |notes| :: IsNoteLine(notes[k])
    ensures JsSort.ConsistentOn(notes, NoteCmp, NoteTick)
  {
    forall a, b | a in notes && b in notes
      ensures NoteCmp(a, b) == NoteTick(a) - NoteTick(b)
    {
    }
  }

  /** One difficulty section, given as the lines of its body, with blank
      lines dropped and the note lines moved behind the other lines and
      sorted by tick (backend/server.js, the difficulty-section
      replacement), using the corrected comparator. */
  method SortNoteSection(content: seq<string>) returns (r: seq<string>)
    ensures r == OtherLines(NonBlank(content)) + JsSort.Sort(NoteLines(NonBlank(content)), NoteCmp)
    ensures multiset(r) == multiset(NonBlank(content))
    ensures r[..|OtherLines(NonBlank(content))|] == OtherLines(NonBlank(content))
    ensures forall k | |OtherLines(NonBlank(content))| <= k < |r| :: IsNoteLine(r[k])
    ensures JsSort.SortedBy(r[|OtherLines(NonBlank(content))|..], NoteTick)
  {
    var lines := NonBlank(content);
    var noteLines: seq<string> := [];
    var otherLines: seq<string> := [];
    var i := 0;
    while i < |lines|
      invariant 0 <= i <= |lines|
      invariant noteLines == NoteLines(lines[..i])
      invariant otherLines == OtherLines(lines[..i])
    {
      LinesWhereStep(lines, IsNoteLine, true, i);
      LinesWhereStep(lines, IsNoteLine, false, i);
      if IsNoteLine(lines[i]) {
        noteLines := noteLines + [lines[i]];
      } else {
        otherLines := otherLines + [lines[i]];
      }
      i := i + 1;
    }
    assert lines[..i] == lines;
    r := otherLines + JsSort.Sort(noteLines, NoteCmp);
    NoteSectionFacts(lines);
  }

  /** The rebuilt section keeps every line, the non-note lines first and in
      their order, then the note lines ascending by tick. */
  lemma NoteSectionFacts(lines: seq<string>)
    ensures var others, notes := OtherLines(lines), NoteLines(lines);
      var r := others + JsSort.Sort(notes, NoteCmp);
      && multiset(r) == multiset(lines)
      && r[..|others|] == others
      && (forall k | |others| <= k < |r| :: IsNoteLine(r[k]))
      && JsSort.SortedBy(r[|others|..], NoteTick)
  {
    var others, notes := OtherLines(lines), NoteLines(lines);
    var sorted := JsSort.Sort(notes, NoteCmp);
    var r := others + sorted;
    NoteCmpConsistent(notes);
    JsSort.SortSorts(notes, NoteCmp, NoteTick);
    SplitIsPermutation(lines);
    assert r[|others|..] == sorted;
    forall k | |others| <= k < |r| ensures IsNoteLine(r[k]) {
      assert r[k] == sorted[k - |others|];
      assert r[k] in multiset(notes);
      var p :| 0 <= p < |notes| && notes[p] == r[k];
    }
  }

  /** As written, the lines are sorted by their leading number when every
      note line starts with a digit... */
  lemma AsWrittenSortsDigitLines(notes: seq<string>)
    requires forall k | 0 <= k < |notes| :: notes[k] != [] && IsDigit(notes[k][0])
    ensures JsSort.SortedBy(JsSort.Sort(notes, NoteCmpAsWritten), LeadingTick)
  {
    forall a, b | a in notes && b in notes
      ensures NoteCmpAsWritten(a, b) == LeadingTick(a) - LeadingTick(b)
    {
      var p :| 0 <= p < |notes| && notes[p] == a;
      var q :| 0 <= q < |notes| && notes[q] == b;
    }
    JsSort.SortSorts(notes, NoteCmpAsWritten, LeadingTick);
  }

  /** ...and left in their original order when none does, which is the case
      for indented lines such as `" 1152 = N 2 0"`. */
  lemma AsWrittenKeepsIndentedLines(notes: seq<string>)
    requires forall k | 0 <= k < |notes| :: notes[k] != [] && !IsDigit(notes[k][0])
    ensures JsSort.Sort(notes, NoteCmpAsWritten) == notes
  {
    JsSort.SortKeepsOrder(notes, NoteCmpAsWritten);
  }

  /** Two indented note lines out of order: the comparator as written
      leaves them so, the corrected one swaps them. */
  lemma NoteSortCounterexample()
    ensures var notes := [" 192 = N 0 0", " 0 = N 1 0"];
      && JsSort.Sort(notes, NoteCmpAsWritten) == notes
      && NoteTick(notes[0]) > NoteTick(notes[1])
      && JsSort.Sort(notes, NoteCmp) == [notes[1], notes[0]]
  {
    var notes := [" 192 = N 0 0", " 0 = N 1 0"];
    assert LeadingNumber(notes[0]) == None && LeadingNumber(notes[1]) == None;
    JsSort.SortPair(notes[0], notes[1], NoteCmpAsWritten);
    FirstNumberOf192();
    FirstNumberOf0();
    JsSort.SortPair(notes[0], notes[1], NoteCmp);
  }

  lemma FirstNumberOf192()
    ensures FirstNumber(" 192 = N 0 0") == Some(192)
  {
    assert LeadingDigits("192 = N 0 0") == "192" by {
      assert LeadingDigits(" = N 0 0") == [];
    }
    assert DigitsValue("192") == 192 by {
      assert "192"[..2] == "19" && "19"[..1] == "1" && "1"[..0] == [];
    }
    assert " 192 = N 0 0"[1..] == "192 = N 0 0";
  }

  lemma FirstNumberOf0()
    ensures FirstNumber(" 0 = N 1 0") == Some(0)
  {
    assert LeadingDigits("0 = N 1 0") == "0" by {
      assert LeadingDigits(" = N 1 0") == [];
    }
    assert DigitsValue("0") == 0 by {
      assert "0"[..0] == [];
    }
    assert " 0 = N 1 0"[1..] == "0 = N 1 0";
  }

  // ---------------------------------------------------------------------
  // Sustain injection

  /** A note entry `tick = N fret sustain`. */
  datatype NoteEntry = NoteEntry(tick: nat, fret: nat, sustain: nat)

  /** The sustain length given to the rewritten tap notes. */
  const InjectedSustain: nat := 192

  /** The `(\d+ = N \d+) 0` replacement callback: a tap note whose tick is a
      multiple of 10 gets a sustain of 192 ticks; every other entry is kept. */
  function InjectSustain(n: NoteEntry): (r: NoteEntry)
    ensures r.tick == n.tick && r.fret == n.fret
    ensures r != n <==> n.sustain == 0 && n.tick % 10 == 0
    ensures r != n ==> r.sustain == InjectedSustain
  {
    if n.sustain == 0 && n.tick % 10 == 0 then n.(sustain := InjectedSustain) else n
  }

  /** The global replacement over all note entries of the chart. */
  function InjectSustains(notes: seq<NoteEntry>): (r: seq<NoteEntry>)
    ensures |r| == |notes|
    ensures forall k | 0 <= k < |r| :: r[k] == InjectSustain(notes[k])
  {
    if notes == [] then [] else [InjectSustain(notes[0])] + InjectSustains(notes[1..])
  }

  /** Running the replacement a second time changes nothing: an injected
      note is no longer a tap note. */
  lemma InjectSustainsIdempotent(notes: seq<NoteEntry>)
    ensures InjectSustains(InjectSustains(notes)) == InjectSustains(notes)
  {
  }

  // ---------------------------------------------------------------------
  // [Song] block quoting

  /** The keys whose values the source wraps in double quotes. */
  const QuotedKeys: set<string> := {"Name", "Artist", "Charter", "Genre", "MediaType", "MusicStream"}

  /** `line.split('=').map(s => s.trim())`'s first element. */
  function SongLineKey(line: string): string
    requires '=' in line
  {
    Trim(Split(line, '=')[0])
  }

  /** `line.split('=').map(s => s.trim())`'s second element: the text
      between the first `=` and the next one (or the end). */
  function SongLineValue(line: string): string
    requires '=' in line
  {
    var parts := Split(line, '=');
    assert |parts| >= 2 by {
      var i := IndexOf(line, '=');
      assert parts == [line[..i]] + Split(line[i + 1..], '=');
    }
    Trim(parts[1])
  }

  /** The value as the source writes it back: quoted for the keys in
      QuotedKeys, bare otherwise. */
  function SongValueText(key: string, value: string): string {
    if key in QuotedKeys then "\"" + value + "\"" else value
  }

  /** The per-line map of the `[Song]` replacement. */
  function FormatSongLine(line: string): (r: string)
    ensures '=' !in line ==> r == line
  {
    if '=' in line then
      var key := SongLineKey(line);
      "  " + key + " = " + SongValueText(key, SongLineValue(line))
    else line
  }

  function FormatSongLines(lines: seq<string>): (r: seq<string>)
    ensures |r| == |lines|
    ensures forall k | 0 <= k < |r| :: r[k] == FormatSongLine(lines[k])
  {
    if lines == [] then []
    else
      var rest := FormatSongLines(lines[1..]);
      assert forall k | 1 <= k < |lines| :: lines[1..][k - 1] == lines[k];
      [FormatSongLine(lines[0])] + rest
  }

  /** `lines.filter(line => line.trim())`. */
  function NonBlank(lines: seq<string>): (r: seq<string>)
    ensures |r| <= |lines|
    ensures |lines| == 1 ==> r == if Trim(lines[0]) != [] then lines else []
  {
    if lines == [] then []
    else (if Trim(lines[0]) != [] then [lines[0]] else []) + NonBlank(lines[1..])
  }

  /** Exactly the lines whose trim is non-empty are kept. */
  lemma {:induction false} NonBlankKeeps(lines: seq<string>)
    ensures forall l :: l in NonBlank(lines) <==> l in lines && Trim(l) != []
  {
    if lines != [] {
      NonBlankKeeps(lines[1..]);
      assert forall l :: l in lines <==> l == lines[0] || l in lines[1..];
    }
  }

  /** The filter works line by line: the kept lines of a concatenation are
      the kept lines of each part, in order. */
  lemma {:induction false} NonBlankConcat(a: seq<string>, b: seq<string>)
    ensures NonBlank(a + b) == NonBlank(a) + NonBlank(b)
  {
    if a == [] {
      assert a + b == b;
    } else {
      var kept := if Trim(a[0]) != [] then [a[0]] else [];
      JsSort.ConcatTail(a, b);
      assert NonBlank(a + b) == kept + NonBlank(a[1..] + b);
      assert NonBlank(a) == kept + NonBlank(a[1..]);
      NonBlankConcat(a[1..], b);
      JsSort.ConcatAssoc(kept, NonBlank(a[1..]), NonBlank(b));
    }
  }

  /** The body following `[Song]`: returned unchanged when it already holds
      both braces, otherwise its non-blank lines formatted and wrapped in
      braces. */
  function FormatSongContent(content: string): (r: string)
    ensures ('{' in content && '}' in content) ==> r == content
    ensures '{' in r && '}' in r
  {
    if '{' in content && '}' in content then content
    else
      var body := Join(FormatSongLines(NonBlank(Split(Trim(content), '\n'))), '\n');
      var r := "{\n" + body + "\n}";
      assert r[0] == '{' && r[|r| - 1] == '}';
      r
  }

  /** Without both braces, the result's lines are an opening brace, the
      content's non-blank lines each formatted, in order, and a closing
      brace (an empty line between the braces when none is left). */
  lemma FormatSongContentLines(content: string)
    requires !('{' in content && '}' in content)
    ensures var lines := NonBlank(Split(Trim(content), '\n'));
      Split(FormatSongContent(content), '\n') ==
        ["{"] + (if |lines| == 0 then [""] else FormatSongLines(lines)) + ["}"]
  {
    var lines := NonBlank(Split(Trim(content), '\n'));
    if |lines| == 0 {
      FormatSongContentNoLines(content);
      SplitBracedLines([""]);
    } else {
      var pieces := Split(Trim(content), '\n');
      FormatSongContentBraces(content);
      NonBlankLinesOneLine(pieces);
      FormattedLinesOneLine(lines);
      SplitBracedLines(FormatSongLines(lines));
    }
  }

  /** The lines of a braced block are the braces and the lines inside. */
  lemma SplitBracedLines(inner: seq<string>)
    requires |inner| >= 1
    requires forall k | 0 <= k < |inner| :: '\n' !in inner[k]
    ensures Split("{\n" + Join(inner, '\n') + "\n}", '\n') == ["{"] + inner + ["}"]
  {
    SplitAround("{", inner, "}", '\n');
    BracedLines(Join(inner, '\n'));
  }

  /** With no line kept, an empty line stands between the braces. */
  lemma FormatSongContentNoLines(content: string)
    requires !('{' in content && '}' in content)
    requires |NonBlank(Split(Trim(content), '\n'))| == 0
    ensures FormatSongContent(content) == "{\n" + Join([""], '\n') + "\n}"
  {
    FormatSongContentBraces(content);
    assert Join([""], '\n') == [];
  }

  /** The braced form of a block without both braces. */
  lemma FormatSongContentBraces(content: string)
    requires !('{' in content && '}' in content)
    ensures FormatSongContent(content) ==
      "{\n" + Join(FormatSongLines(NonBlank(Split(Trim(content), '\n'))), '\n') + "\n}"
  {
  }

  /** Kept lines of pieces without line breaks have none. */
  lemma NonBlankLinesOneLine(pieces: seq<string>)
    requires forall k | 0 <= k < |pieces| :: '\n' !in pieces[k]
    ensures forall k | 0 <= k < |NonBlank(pieces)| :: '\n' !in NonBlank(pieces)[k]
  {
    var kept := NonBlank(pieces);
    NonBlankKeeps(pieces);
    forall k | 0 <= k < |kept| ensures '\n' !in kept[k] {
      assert kept[k] in kept;
    }
  }

  /** Formatting lines without line breaks adds none. */
  lemma FormattedLinesOneLine(lines: seq<string>)
    requires forall k | 0 <= k < |lines| :: '\n' !in lines[k]
    ensures forall k | 0 <= k < |lines| :: '\n' !in FormatSongLines(lines)[k]
  {
    forall k | 0 <= k < |lines| ensures '\n' !in FormatSongLines(lines)[k] {
      FormatSongLineOneLine(lines[k]);
    }
  }

  /** Formatting a line adds no line break. */
  lemma FormatSongLineOneLine(line: string)
    requires '\n' !in line
    ensures '\n' !in FormatSongLine(line)
  {
    if '=' in line {
      var key, value := SongLineKey(line), SongLineValue(line);
      SongLineKeyChars(line);
      SongLineValueChars(line);
      var text := SongValueText(key, value);
      assert '\n' !in text;
      LaidOutLineChars(key, text, '\n');
    }
  }

  /** The layout `  key = text` adds only spaces and `=`. */
  lemma LaidOutLineChars(key: string, text: string, c: char)
    requires c !in key && c !in text && c != ' ' && c != '='
    ensures c !in "  " + key + " = " + text
  {
  }

  /** Every character of a line's key comes from the line. */
  lemma SongLineKeyChars(line: string)
    requires '=' in line
    ensures forall c | c in SongLineKey(line) :: c in line
  {
    SplitKeepsChars(line, '=');
    TrimKeepsOnlyItsChars(Split(line, '=')[0]);
  }

  /** Every character of a line's value comes from the line. */
  lemma SongLineValueChars(line: string)
    requires '=' in line
    ensures forall c | c in SongLineValue(line) :: c in line
  {
    var parts := Split(line, '=');
    var i := IndexOf(line, '=');
    assert parts == [line[..i]] + Split(line[i + 1..], '=');
    SplitKeepsChars(line, '=');
    TrimKeepsOnlyItsChars(parts[1]);
  }

  /** A second pass over a formatted block leaves it alone. */
  lemma FormatSongContentIdempotent(content: string)
    ensures FormatSongContent(FormatSongContent(content)) == FormatSongContent(content)
  {
  }

  /** Reading a formatted line back gives the same key, and the value
      quoted exactly when the key is one of QuotedKeys. */
  lemma FormatSongLineReadsBack(line: string)
    requires '=' in line
    ensures var out := FormatSongLine(line);
      && '=' in out
      && SongLineKey(out) == SongLineKey(line)
      && SongLineValue(out) == SongValueText(SongLineKey(line), SongLineValue(line))
  {
    var key, value := SongLineKey(line), SongLineValue(line);
    var parts := Split(line, '=');
    var i := IndexOf(line, '=');
    assert parts == [line[..i]] + Split(line[i + 1..], '=');
    TrimKeepsOnlyItsChars(parts[0]);
    TrimKeepsOnlyItsChars(parts[1]);
    var text := SongValueText(key, value);
    assert text == [] || (!IsSpace(text[0]) && !IsSpace(text[|text| - 1])) by {
      if key in QuotedKeys {
        assert text[0] == '"' && text[|text| - 1] == '"';
      }
    }
    KeyValueReadsBack(key, text);
  }

  /** Every character of a trimmed string comes from the string. */
  lemma TrimKeepsOnlyItsChars(s: string)
    ensures forall c | c in Trim(s) :: c in s
  {
    var front := TrimStart(s);
    assert forall c | c in front :: c in s;
    assert forall c | c in TrimEnd(front) :: c in front;
  }

  /** A line `  key = text` is read back as that key and that text. */
  lemma KeyValueReadsBack(key: string, text: string)
    requires '=' !in key && '=' !in text
    requires key == [] || (!IsSpace(key[0]) && !IsSpace(key[|key| - 1]))
    requires text == [] || (!IsSpace(text[0]) && !IsSpace(text[|text| - 1]))
    ensures var out := "  " + key + " = " + text;
      '=' in out && SongLineKey(out) == key && SongLineValue(out) == text
  {
    var left, right := "  " + key + " ", " " + text;
    var out := "  " + key + " = " + text;
    assert out == Join([left, right], '=');
    assert out[|left|] == '=';
    SplitJoin([left, right], '=');
    TrimOfPadded("  ", key, " ");
    TrimOfPadded(" ", text, "");
    assert right == " " + text + "";
  }
}
