# Subs2Flashcards card builder, in Dafny

Subs2Flashcards turns a subtitle file and its video into flashcards for a
card-import tool. For every subtitle entry it writes one tab-separated row
of text, one audio clip and one screenshot. The row holds the line, the
lines just before and after it for context, an image reference and a sound
reference. The audio command clips the entry's time window, widened by
0.35 s on both sides. The screenshot command takes one frame at the middle
of that window.

This project models the core of that program, `process_subs` and
`get_entry_commands` with the two command builders, and proves what they
promise about each entry and about the lists they return.

- `text.dfy` (module `Text`) covers the character-level operations.
  - Newline removal (`.replace("\n", "")`).
  - Splitting and joining on a separator. Splitting is the inverse the row
    layout is checked against.
- `timing.dfy` (module `Timing`) covers time arithmetic. Times are integer
  microseconds, which is what a Python `timedelta` holds.
  - `PAD` is 350000 and the fade length is 200000.
  - The window is padded and its start clamped at zero.
  - The midpoint uses `timedelta / 2`, which rounds half to even.
- `commands.dfy` (module `Commands`) covers the file names and the two
  commands of one entry (`get_entry_commands`,
  `get_audio_extraction_command`, `get_screenshot_command`). A command is
  kept as the values it passes to the video tool, not as shell text. Times
  in file names are rendered by a parameter `fmt`.
- `flashcards.dfy` (module `Flashcards`) covers the rest.
  - The context lookup by logical index.
  - The row layout.
  - `EntryCard`, the value one entry contributes.
  - `Collect`, the three lists after the first `m` entries.
  - `ProcessSubs`, the loop that builds them, proved equal to
    `Collect(subs, |subs|, CardOf(...))`.
  - The lemmas that give these lists their meaning.

## Model

| member | source | states |
|---|---|---|
| Text.StripNewlines | Subs2Flashcards.py:66 | the stripped text contains no newline |
| Text.StripCount | Subs2Flashcards.py:66 | stripping removes every newline and keeps every other character exactly as often as it occurs |
| Text.StripConcat | Subs2Flashcards.py:66 | stripping a concatenation strips each part, so characters keep their order |
| Text.StripKeeps | Subs2Flashcards.py:66 | a text without newlines is left unchanged |
| Text.StripIdempotent | Subs2Flashcards.py:66 | stripping twice gives the same text as stripping once |
| Text.StripKeepsOthers | Subs2Flashcards.py:61-66 | a character other than a newline is in the stripped text exactly when it is in the original |
| Text.SplitCount | Subs2Flashcards.py:77 | splitting gives one more piece than there are separators |
| Text.SplitJoin | Subs2Flashcards.py:77 | splitting a tab-joined row gives back its fields when no field holds a tab |
| Timing.HalveRounding | Subs2Flashcards.py:30 | halving a duration is exact or half a microsecond off, and then picks the even neighbour (round half to even) |
| Timing.Halve | Subs2Flashcards.py:30 | `timedelta / 2` in microseconds; its meaning, round half to even, is stated by Timing.HalveRounding |
| Timing.PaddedStartClamps | Subs2Flashcards.py:69-72 | the padded start is the larger of 0 and start - PAD |
| Timing.PaddedStart | Subs2Flashcards.py:69-72 | `start - PAD`, reset to 0 when negative; stated by Timing.PaddedStartClamps |
| Timing.PaddedEnd | Subs2Flashcards.py:70 | `end + PAD`; with PaddedStart, stated by Timing.PaddedWindowOrdered |
| Timing.MidpointWithin | Subs2Flashcards.py:30 | the screenshot time lies within a window that does not end before it starts, at most half a microsecond from its centre |
| Timing.Midpoint | Subs2Flashcards.py:30 | `start + (end - start) / 2`; stated by Timing.MidpointWithin |
| Timing.PaddedWindowOrdered | Subs2Flashcards.py:69-74 | for 0 <= start <= end the padded window is ordered, holds its midpoint, is at least PAD long and leaves room for the fade-out |
| Commands.AudioExtractionCommand | Subs2Flashcards.py:13-22 | `get_audio_extraction_command` as the values it passes on; stated by Commands.AudioClipCoversWindow |
| Commands.AudioClipCoversWindow | Subs2Flashcards.py:13-22 | the clip seeks to the start and lasts end - start, fades in from 0 and fades out from length - 0.2 s until its end, reads the given video and writes the given file |
| Commands.ScreenshotCommandAt | Subs2Flashcards.py:24-27 | `get_screenshot_command`: one frame at the given time, 400 px wide, written to the given file; stated by Commands.ScreenshotAtTime |
| Commands.ScreenshotAtTime | Subs2Flashcards.py:24-27 | the screenshot seeks to the given time, is scaled to 400 px wide, reads the given video and writes the given file |
| Commands.OutputPath | Subs2Flashcards.py:35-36 | `f"{tag}/{name}"`; stated by Commands.OutputPathSplits |
| Commands.OutputPathSplits | Subs2Flashcards.py:35-36 | an output path is the tag, a slash and the file name, and splits back into them |
| Commands.AudioName | Subs2Flashcards.py:32 | `f"{tag}_{start}-{end}.mp3"` with times rendered by `fmt`; stated by Commands.NamesNeverClash |
| Commands.ScreenshotName | Subs2Flashcards.py:33 | `f"{tag}_{mid}.jpg"` with the time rendered by `fmt`; stated by Commands.NamesNeverClash |
| Commands.NamesNeverClash | Subs2Flashcards.py:32-33 | both names start with tag + "_"; the audio name ends in ".mp3" and the screenshot name in ".jpg", so they differ |
| Commands.EntryCommands | Subs2Flashcards.py:29-38 | `get_entry_commands`; stated by Commands.EntryCommandsAgree |
| Commands.EntryCommandsAgree | Subs2Flashcards.py:29-38 | the audio command is `get_audio_extraction_command` of the window, so it seeks to start, lasts end - start and fades in from 0; the screenshot command is `get_screenshot_command` at exactly Midpoint(start, end), the round-half-to-even midpoint, 400 px wide; the returned names are the audio name of the window and the screenshot name of that midpoint, they differ, and the commands write to tag/name under them |
| Flashcards.FindByIndex | Subs2Flashcards.py:54-55 | the result is none exactly when no entry has index k, and otherwise it is the first entry with index k |
| Flashcards.Neighbour | Subs2Flashcards.py:57-64 | context text never contains a newline |
| Flashcards.NeighbourOfFirst | Subs2Flashcards.py:54-61 | the context for k is the stripped text of the first entry whose index is k |
| Flashcards.NoNeighbour | Subs2Flashcards.py:57-58 | when no entry has index k the context is the empty string |
| Flashcards.FindsFirst | Subs2Flashcards.py:54 | the lookup returns exactly the first entry whose index matches |
| Flashcards.NeighbourHasNo | Subs2Flashcards.py:54-64 | a character found in no subtitle text (other than newline) is not in any context text |
| Flashcards.ContextOfNumberedEntries | Subs2Flashcards.py:54-64 | for entries numbered 1, 2, 3, ... in order, the context of entry i is entries i-1 and i+1, stripped, and "" at either end |
| Flashcards.NeighbourIgnoresOrder | Subs2Flashcards.py:54-55 | with unique indices, context depends on which entries are present, not on their order |
| Flashcards.FormatRow | Subs2Flashcards.py:77 | the row f-string; stated by Flashcards.RowIsJoin, Flashcards.RowSplitsIntoFields and Flashcards.RowEndsItsLine |
| Flashcards.RowIsJoin | Subs2Flashcards.py:77 | the row is its eight fields joined by tabs, the last field being the newline |
| Flashcards.RowSplitsIntoFields | Subs2Flashcards.py:77 | when no part holds a tab, splitting the row at tabs gives exactly its eight fields: current, "", "", before, after, image tag, sound tag, newline |
| Flashcards.RowEndsItsLine | Subs2Flashcards.py:77 | when no part holds a newline, the row's only newline is its last character |
| Flashcards.EntryCard | Subs2Flashcards.py:53-80 | the row and media one entry contributes; stated by Flashcards.EntryCardTiming, Flashcards.EntryCardIsOneLine and Flashcards.EntryCardFields |
| Flashcards.EntryCardTiming | Subs2Flashcards.py:69-79 | an entry's audio command seeks to max(0, start - PAD), ends at end + PAD, fades in from 0 and ends its fade-out at the clip's end; the screenshot is taken at the midpoint of the padded window; names and output paths match; for 0 <= start <= end the screenshot lies within the clip and the fade-out starts after 0 |
| Flashcards.EntryCardIsOneLine | Subs2Flashcards.py:61-77 | when neither the tag nor any rendered time holds a newline, an entry's row has exactly one newline, as its last character |
| Flashcards.EntryCardFields | Subs2Flashcards.py:54-77 | when no subtitle text, tag or rendered time holds a tab, an entry's row splits into its stripped text, two empty fields, the two context texts, the image and sound references and the newline |
| Flashcards.PadWindow | Subs2Flashcards.py:69-72 | the padded start is the larger of 0 and start - PAD, and the padded end is end + PAD |
| Flashcards.EntryToCard | Subs2Flashcards.py:53-80 | one pass of the loop body builds exactly the row and media of EntryCard for that entry |
| Flashcards.Collect | Subs2Flashcards.py:49-80 | the three lists after the first m entries; stated by Flashcards.CollectLength and Flashcards.CollectAt |
| Flashcards.CollectLength | Subs2Flashcards.py:49-51 | after m entries the three lists each hold m elements |
| Flashcards.CollectAt | Subs2Flashcards.py:77-80 | the i-th row, audio command and screenshot command come from the i-th entry, whatever is appended later |
| Flashcards.ProcessSubs | Subs2Flashcards.py:48-81 | the loop returns exactly the three lists Collect describes for all entries |
| Flashcards.ProcessSubsInOrder | Subs2Flashcards.py:48-81 | the three returned lists are parallel: one element per entry, in input order, the i-th of each built from the i-th entry |

## Left out

- `preprocess_subs` (lines 9-11) is left out. Parsing SubRip text and
  `sort_and_reindex` belong to the `srt` library, which is not part of this
  model. The model takes the parsed entries as its input.
- `export_audio`, `export_screenshots` and `export_text` (lines 40-46 and
  83-87) are left out. They run shell commands or write the output file,
  which is I/O.
- `main` (lines 89-107) is left out. It reads files, creates a directory
  and prints.
- Rendering numbers as text is left out. This covers the `09.3f` seconds
  in file names, `str(timedelta)` for the seek arguments, and the `.3`
  format of the clip length and fade-out start (lines 18 and 20).
  - File names take the rendering as a parameter `fmt` from microseconds
    to text.
  - Commands keep the numeric values, in microseconds.
- Commands.AudioClipCoversWindow: "lasts end - start" and "fades out from
  length - 0.2 s" hold of the values before rendering only. The `.3`
  format keeps three significant digits, not three decimals.
  - For clips of 1 to 10 s the rendered values lose the millisecond digit.
  - From 10 s they are rounded to a tenth of a second.
  - From 100 s they are printed in exponent form (`1.23e+02`).
- The rest of the command text is left out: the fixed ffmpeg flags, the
  first-audio-stream mapping and the fade curve.
- Times are integer microseconds rather than float seconds. The check
  `timestamp_start.total_seconds() < 0` becomes an integer comparison.
- Commands.NamesNeverClash: only the audio name and the screenshot name of
  one entry are shown to differ. Names of different entries may coincide,
  for example for two entries with the same window, so uniqueness across
  entries is not claimed.
- Flashcards.Neighbour: the Python code finds the context with a generator
  and two `if` statements. Here it is one function over `FindByIndex`,
  which has the same cases.
- The row has no tag field: the f-string at line 77 starts with the
  current line, and Flashcards.FormatRow does the same.
- Timing.PaddedWindowOrdered requires `0 <= start`. This is not a
  restriction of the source. Subtitle times are never negative, and the
  parser outside this model guarantees that. Without it the padded window
  can be reversed: for start = end = -1000000 the padded start is 0 and the
  padded end is -650000.
