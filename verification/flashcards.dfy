/** `process_subs`: one card row, one audio command and one screenshot
    command per subtitle entry, in entry order. */
module Flashcards {
  import opened Timing
  import opened Text
  import opened Commands

  datatype Option<T> = None | Some(value: T)

  /** A parsed subtitle: its logical index, its time window and its text. */
  datatype Entry = Entry(index: int, start: Micros, end: Micros, content: string)

  /** What `process_subs` produces for one entry: its row and its media. */
  datatype Card = Card(row: string, media: EntryMedia)

  /** `j` is the position of the first entry whose index is `k`. */
  ghost predicate FirstWithIndex(subs: seq<Entry>, j: int, k: int)
  {
    0 <= j < |subs| && subs[j].index == k &&
    forall i :: 0 <= i < j ==> subs[i].index != k
  }

  /** `next((x for x in subs if x.index == k), None)`: the first entry whose
      index is `k`, found by its index and not by its position. */
  function FindByIndex(subs: seq<Entry>, k: int): (r: Option<Entry>)
    ensures r.None? <==> forall j :: 0 <= j < |subs| ==> subs[j].index != k
    ensures r.Some? ==> exists j :: FirstWithIndex(subs, j, k) && subs[j] == r.value
  {
    if subs == [] then None
    else if subs[0].index == k then
      assert FirstWithIndex(subs, 0, k);
      Some(subs[0])
    else
      var r := FindByIndex(subs[1..], k);
      assert r.Some? ==> exists j :: FirstWithIndex(subs, j, k) && subs[j] == r.value by {
        if r.Some? {
          var j :| FirstWithIndex(subs[1..], j, k) && subs[1..][j] == r.value;
          assert FirstWithIndex(subs, j + 1, k);
        }
      }
      r
  }

  /** The context text for logical index `k`: the first such entry's
      content with its newlines removed, or "" when there is none. */
  function Neighbour(subs: seq<Entry>, k: int): (t: string)
    ensures '\n' !in t
  {
    match FindByIndex(subs, k)
    case None => ""
    case Some(x) => StripNewlines(x.content)
  }

  /** The card row: current text, two empty fields, the line before, the
      line after, the screenshot as an HTML image, the clip as a sound
      reference, and a final empty field ended by the newline. */
  function FormatRow(current: string, before: string, after: string, screenshotName: string, audioName: string): string
  {
    current + "\t\t\t" + before + "\t" + after + "\t<img src=\"" + screenshotName + "\">\t[sound:" + audioName + "]\t\n"
  }

  /** The fields of a row, in the order the card importer reads them. */
  function RowFields(current: string, before: string, after: string, screenshotName: string, audioName: string): seq<string>
  {
    [current, "", "", before, after, "<img src=\"" + screenshotName + "\">", "[sound:" + audioName + "]", "\n"]
  }

  lemma JoinMedia(img: string, sound: string)
    ensures Join([img, sound, "\n"], '\t') == img + "\t" + sound + "\t\n"
  {
    assert Join([sound, "\n"], '\t') == sound + "\t\n" by { JoinCons(sound, ["\n"], '\t'); }
    JoinCons(img, [sound, "\n"], '\t');
    assert [img] + [sound, "\n"] == [img, sound, "\n"];
  }

  lemma JoinContext(before: string, after: string, img: string, sound: string)
    ensures Join([before, after, img, sound, "\n"], '\t')
         == before + "\t" + after + "\t" + img + "\t" + sound + "\t\n"
  {
    var m := [img, sound, "\n"];
    JoinMedia(img, sound);
    assert Join([after] + m, '\t') == after + "\t" + img + "\t" + sound + "\t\n" by { JoinCons(after, m, '\t'); }
    JoinCons(before, [after] + m, '\t');
    assert [before] + ([after] + m) == [before, after, img, sound, "\n"];
  }

  lemma JoinRow(current: string, before: string, after: string, img: string, sound: string)
    ensures Join([current, "", "", before, after, img, sound, "\n"], '\t')
         == current + "\t\t\t" + before + "\t" + after + "\t" + img + "\t" + sound + "\t\n"
  {
    var c := [before, after, img, sound, "\n"];
    JoinContext(before, after, img, sound);
    var j := Join(c, '\t');
    assert Join([""] + c, '\t') == "\t" + j by { JoinCons("", c, '\t'); }
    assert Join([""] + ([""] + c), '\t') == "\t\t" + j by { JoinCons("", [""] + c, '\t'); }
    JoinCons(current, [""] + ([""] + c), '\t');
    assert [current] + ([""] + ([""] + c)) == [current, "", "", before, after, img, sound, "\n"];
  }

  /** The row is its fields joined by tabs. */
  lemma RowIsJoin(current: string, before: string, after: string, screenshotName: string, audioName: string)
    ensures FormatRow(current, before, after, screenshotName, audioName)
         == Join(RowFields(current, before, after, screenshotName, audioName), '\t')
  {
    var img, sound := "<img src=\"" + screenshotName + "\">", "[sound:" + audioName + "]";
    JoinRow(current, before, after, img, sound);
    assert "\t" + img + "\t" + sound + "\t\n" == "\t<img src=\"" + screenshotName + "\">\t[sound:" + audioName + "]\t\n";
  }

  /** Splitting a row at its tabs gives back its fields, as long as no
      field holds a tab of its own. */
  lemma RowSplitsIntoFields(current: string, before: string, after: string, screenshotName: string, audioName: string)
    requires '\t' !in current && '\t' !in before && '\t' !in after
    requires '\t' !in screenshotName && '\t' !in audioName
    ensures Split(FormatRow(current, before, after, screenshotName, audioName), '\t')
         == RowFields(current, before, after, screenshotName, audioName)
  {
    var fs := RowFields(current, before, after, screenshotName, audioName);
    RowIsJoin(current, before, after, screenshotName, audioName);
    SplitJoin(fs, '\t');
  }

  /** A row whose parts hold no newline holds exactly one, as its last character. */
  lemma RowEndsItsLine(current: string, before: string, after: string, screenshotName: string, audioName: string)
    requires '\n' !in current && '\n' !in before && '\n' !in after
    requires '\n' !in screenshotName && '\n' !in audioName
    ensures var row := FormatRow(current, before, after, screenshotName, audioName);
      |row| > 0 && row[|row| - 1] == '\n' && '\n' !in row[..|row| - 1]
  {
    var head := current + "\t\t\t" + before + "\t" + after + "\t<img src=\"" + screenshotName + "\">\t[sound:" + audioName;
    assert '\n' !in head;
    DropLast(head, "]\t\n");
  }

  function AssembleCard(current: string, before: string, after: string, media: EntryMedia): Card
  {
    Card(FormatRow(current, before, after, media.screenshotName, media.audioName), media)
  }

  /** The body of the loop of `process_subs` for `entry`, as a value. */
  function EntryCard(subs: seq<Entry>, entry: Entry, video: string, tag: string, fmt: Micros -> string): Card
  {
    AssembleCard(StripNewlines(entry.content), Neighbour(subs, entry.index - 1), Neighbour(subs, entry.index + 1),
      EntryCommands(PaddedStart(entry.start), PaddedEnd(entry.end), video, tag, fmt))
  }

  /** The card's commands clip the padded window, fade out just before the
      clip ends, take the screenshot inside the window, and write into the
      directory `tag` under the names the row refers to. */
  lemma EntryCardTiming(subs: seq<Entry>, entry: Entry, video: string, tag: string, fmt: Micros -> string)
    ensures var m := EntryCard(subs, entry, video, tag, fmt).media;
      var a, s := m.audio, m.screenshot;
      a.seek == PaddedStart(entry.start) && a.seek + a.length == PaddedEnd(entry.end) && 0 <= a.seek &&
      a.fadeInStart == 0 && a.fadeOutStart + a.fadeLength == a.length && a.fadeLength == Fade &&
      s.seek == Midpoint(a.seek, a.seek + a.length) &&
      m.audioName == AudioName(tag, fmt, a.seek, a.seek + a.length) &&
      m.screenshotName == ScreenshotName(tag, fmt, s.seek) &&
      a.output == OutputPath(tag, m.audioName) && s.output == OutputPath(tag, m.screenshotName) &&
      (0 <= entry.start <= entry.end ==> a.seek <= s.seek <= a.seek + a.length && 0 < a.fadeOutStart)
  {
    var start, end := PaddedStart(entry.start), PaddedEnd(entry.end);
    assert EntryCard(subs, entry, video, tag, fmt).media == EntryCommands(start, end, video, tag, fmt);
    EntryCommandsAgree(start, end, video, tag, fmt);
    PaddedStartClamps(entry.start);
    if 0 <= entry.start <= entry.end {
      PaddedWindowOrdered(entry.start, entry.end);
    }
  }

  /** When neither the tag nor any rendered time holds a newline, each card
      row is one line of the output file: its only newline is its last character. */
  lemma EntryCardIsOneLine(subs: seq<Entry>, entry: Entry, video: string, tag: string, fmt: Micros -> string)
    requires '\n' !in tag
    requires forall t :: '\n' !in fmt(t)
    ensures var row := EntryCard(subs, entry, video, tag, fmt).row;
      |row| > 0 && row[|row| - 1] == '\n' && '\n' !in row[..|row| - 1]
  {
    var m := EntryCommands(PaddedStart(entry.start), PaddedEnd(entry.end), video, tag, fmt);
    EntryCommandsAgree(PaddedStart(entry.start), PaddedEnd(entry.end), video, tag, fmt);
    assert '\n' !in m.audioName;
    assert '\n' !in m.screenshotName;
    RowEndsItsLine(StripNewlines(entry.content), Neighbour(subs, entry.index - 1), Neighbour(subs, entry.index + 1),
      m.screenshotName, m.audioName);
  }

  /** When no subtitle text, tag or rendered time holds a tab, the card row
      splits at its tabs into exactly its eight fields. */
  lemma EntryCardFields(subs: seq<Entry>, entry: Entry, video: string, tag: string, fmt: Micros -> string)
    requires '\t' !in entry.content
    requires forall j :: 0 <= j < |subs| ==> '\t' !in subs[j].content
    requires '\t' !in tag
    requires forall t :: '\t' !in fmt(t)
    ensures var c := EntryCard(subs, entry, video, tag, fmt);
      Split(c.row, '\t') == RowFields(StripNewlines(entry.content),
        Neighbour(subs, entry.index - 1), Neighbour(subs, entry.index + 1),
        c.media.screenshotName, c.media.audioName)
  {
    var m := EntryCommands(PaddedStart(entry.start), PaddedEnd(entry.end), video, tag, fmt);
    EntryCommandsAgree(PaddedStart(entry.start), PaddedEnd(entry.end), video, tag, fmt);
    assert '\t' !in m.audioName;
    assert '\t' !in m.screenshotName;
    StripKeepsOthers(entry.content, '\t');
    NeighbourHasNo(subs, entry.index - 1, '\t');
    NeighbourHasNo(subs, entry.index + 1, '\t');
    RowSplitsIntoFields(StripNewlines(entry.content), Neighbour(subs, entry.index - 1), Neighbour(subs, entry.index + 1),
      m.screenshotName, m.audioName);
  }

  /** A character found in no subtitle text is not in any context either. */
  lemma NeighbourHasNo(subs: seq<Entry>, k: int, c: char)
    requires c != '\n'
    requires forall j :: 0 <= j < |subs| ==> c !in subs[j].content
    ensures c !in Neighbour(subs, k)
  {
    match FindByIndex(subs, k)
    case None =>
    case Some(x) =>
      var j :| FirstWithIndex(subs, j, k) && subs[j] == x;
      StripKeepsOthers(x.content, c);
  }

  /** Lines 69-72 of `process_subs`: widen the window by PAD on both sides
      and reset a negative start to zero. The start becomes the larger of
      zero and `start - PAD`. */
  method PadWindow(start: Micros, end: Micros) returns (paddedStart: Micros, paddedEnd: Micros)
    ensures paddedStart >= 0 && paddedStart >= start - Pad
    ensures paddedStart == 0 || paddedStart == start - Pad
    ensures paddedEnd - end == Pad
    ensures paddedStart == PaddedStart(start) && paddedEnd == PaddedEnd(end)
  {
    paddedStart := start - Pad;
    paddedEnd := end + Pad;
    if paddedStart < 0 {
      paddedStart := 0;
    }
  }

  /** The three lists `process_subs` returns. */
  datatype Output = Output(rows: seq<string>, audio: seq<AudioCommand>, screenshots: seq<ScreenshotCommand>)

  /** The lists after the first `m` entries have been handled, each entry's
      row and commands appended in turn; `cardOf` says what one entry gives. */
  function Collect(entries: seq<Entry>, m: nat, cardOf: Entry -> Card): Output
    requires m <= |entries|
  {
    if m == 0 then Output([], [], [])
    else
      var out, card := Collect(entries, m - 1, cardOf), cardOf(entries[m - 1]);
      Output(out.rows + [card.row], out.audio + [card.media.audio], out.screenshots + [card.media.screenshot])
  }

  /** After `m` entries each list holds exactly `m` elements. */
  lemma {:induction false} CollectLength(entries: seq<Entry>, m: nat, cardOf: Entry -> Card)
    requires m <= |entries|
    ensures var out := Collect(entries, m, cardOf);
      |out.rows| == m && |out.audio| == m && |out.screenshots| == m
  {
    if m > 0 {
      CollectLength(entries, m - 1, cardOf);
    }
  }

  /** Entry `i` is handled once and for all: whatever comes later, the i-th
      row and commands stay the ones built from the i-th entry. */
  lemma {:induction false} CollectAt(entries: seq<Entry>, m: nat, i: nat, cardOf: Entry -> Card)
    requires i < m <= |entries|
    ensures var out := Collect(entries, m, cardOf);
      i < |out.rows| && i < |out.audio| && i < |out.screenshots| &&
      out.rows[i] == cardOf(entries[i]).row &&
      out.audio[i] == cardOf(entries[i]).media.audio &&
      out.screenshots[i] == cardOf(entries[i]).media.screenshot
  {
    CollectLength(entries, m - 1, cardOf);
    if i < m - 1 {
      CollectAt(entries, m - 1, i, cardOf);
    }
  }

  /** What one entry of `subs` gives. */
  function CardOf(subs: seq<Entry>, video: string, tag: string, fmt: Micros -> string): Entry -> Card
  {
    entry => EntryCard(subs, entry, video, tag, fmt)
  }

  /** `process_subs`: for each entry in turn, look up its context lines,
      strip the newlines, pad and clamp its window, build its names and
      commands, and append one row, one audio command and one screenshot
      command. */
  method ProcessSubs(subs: seq<Entry>, video: string, tag: string, fmt: Micros -> string)
    returns (rows: seq<string>, audio: seq<AudioCommand>, screenshots: seq<ScreenshotCommand>)
    ensures Output(rows, audio, screenshots) == Collect(subs, |subs|, CardOf(subs, video, tag, fmt))
  {
    rows, audio, screenshots := [], [], [];
    for n := 0 to |subs|
      invariant Output(rows, audio, screenshots) == Collect(subs, n, CardOf(subs, video, tag, fmt))
    {
      var row, media := EntryToCard(subs, subs[n], video, tag, fmt);
      rows := rows + [row];
      audio := audio + [media.audio];
      screenshots := screenshots + [media.screenshot];
    }
  }

  /** The body of the loop in `process_subs` for one entry: its context,
      its padded window, its commands and its row. */
  method EntryToCard(subs: seq<Entry>, line: Entry, video: string, tag: string, fmt: Micros -> string)
    returns (row: string, media: EntryMedia)
    ensures Card(row, media) == EntryCard(subs, line, video, tag, fmt)
  {
    var lineBefore := Neighbour(subs, line.index - 1);
    var lineAfter := Neighbour(subs, line.index + 1);
    var lineCurrent := StripNewlines(line.content);

    var start, end := PadWindow(line.start, line.end);

    media := EntryCommands(start, end, video, tag, fmt);
    row := FormatRow(lineCurrent, lineBefore, lineAfter, media.screenshotName, media.audioName);
  }

  /** What `process_subs` returns: three lists with one element per entry,
      appended in entry order, the i-th row, audio command and screenshot
      command all built from the i-th entry. */
  lemma ProcessSubsInOrder(subs: seq<Entry>, video: string, tag: string, fmt: Micros -> string)
    ensures var out := Collect(subs, |subs|, CardOf(subs, video, tag, fmt));
      |out.rows| == |subs| && |out.audio| == |subs| && |out.screenshots| == |subs| &&
      forall i :: 0 <= i < |subs| ==>
        out.rows[i] == EntryCard(subs, subs[i], video, tag, fmt).row &&
        out.audio[i] == EntryCard(subs, subs[i], video, tag, fmt).media.audio &&
        out.screenshots[i] == EntryCard(subs, subs[i], video, tag, fmt).media.screenshot
  {
    var cardOf := CardOf(subs, video, tag, fmt);
    CollectLength(subs, |subs|, cardOf);
    forall i | 0 <= i < |subs|
      ensures Collect(subs, |subs|, cardOf).rows[i] == EntryCard(subs, subs[i], video, tag, fmt).row
      ensures Collect(subs, |subs|, cardOf).audio[i] == EntryCard(subs, subs[i], video, tag, fmt).media.audio
      ensures Collect(subs, |subs|, cardOf).screenshots[i] == EntryCard(subs, subs[i], video, tag, fmt).media.screenshot
    {
      CollectAt(subs, |subs|, i, cardOf);
    }
  }

  /** Context is looked up by logical index: for entries numbered 1, 2, 3, ...
      in order, the line before entry i is entry i-1 (none for the first),
      and the line after is entry i+1 (none for the last). */
  lemma {:induction false} ContextOfNumberedEntries(subs: seq<Entry>, i: int)
    requires forall j :: 0 <= j < |subs| ==> subs[j].index == j + 1
    requires 0 <= i < |subs|
    ensures Neighbour(subs, subs[i].index - 1) == if i == 0 then "" else StripNewlines(subs[i - 1].content)
    ensures Neighbour(subs, subs[i].index + 1) == if i == |subs| - 1 then "" else StripNewlines(subs[i + 1].content)
  {
    if i > 0 {
      NeighbourOfFirst(subs, i - 1, subs[i].index - 1);
    } else {
      NoNeighbour(subs, subs[i].index - 1);
    }
    if i < |subs| - 1 {
      NeighbourOfFirst(subs, i + 1, subs[i].index + 1);
    } else {
      NoNeighbour(subs, subs[i].index + 1);
    }
  }

  /** The context for `k` comes from the first entry whose index is `k`. */
  lemma NeighbourOfFirst(subs: seq<Entry>, j: int, k: int)
    requires 0 <= j < |subs| && subs[j].index == k
    requires forall i :: 0 <= i < j ==> subs[i].index != k
    ensures Neighbour(subs, k) == StripNewlines(subs[j].content)
  {
    FindsFirst(subs, k, j);
  }

  /** No entry has index `k`: the context is empty. */
  lemma NoNeighbour(subs: seq<Entry>, k: int)
    requires forall j :: 0 <= j < |subs| ==> subs[j].index != k
    ensures Neighbour(subs, k) == ""
  {
  }

  /** The lookup returns exactly the first entry whose index is `k`. */
  lemma FindsFirst(subs: seq<Entry>, k: int, j: int)
    requires FirstWithIndex(subs, j, k)
    ensures FindByIndex(subs, k) == Some(subs[j])
  {
    var r := FindByIndex(subs, k);
    var j' :| FirstWithIndex(subs, j', k) && subs[j'] == r.value;
    assert !(j' < j) && !(j < j');
  }

  /** No two entries share an index. */
  ghost predicate UniqueIndices(subs: seq<Entry>)
  {
    forall i, j :: 0 <= i < |subs| && 0 <= j < |subs| && subs[i].index == subs[j].index ==> i == j
  }

  /** Because context is found by index, it does not depend on the order of
      the entries: two lists holding the same entries give the same context. */
  lemma NeighbourIgnoresOrder(subs: seq<Entry>, others: seq<Entry>, k: int)
    requires UniqueIndices(subs) && UniqueIndices(others)
    requires forall x :: x in subs <==> x in others
    ensures Neighbour(subs, k) == Neighbour(others, k)
  {
    var r, q := FindByIndex(subs, k), FindByIndex(others, k);
    if r.Some? {
      var j :| FirstWithIndex(subs, j, k) && subs[j] == r.value;
      assert subs[j] in others;
    }
    if q.Some? {
      var j :| FirstWithIndex(others, j, k) && others[j] == q.value;
      assert others[j] in subs;
      if r.Some? {
        var i :| FirstWithIndex(subs, i, k) && subs[i] == r.value;
        var i' :| 0 <= i' < |others| && others[i'] == subs[i];
      }
    }
  }
}
