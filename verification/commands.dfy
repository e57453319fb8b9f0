/** File names and the two media-extraction commands built for one
    subtitle entry (`get_entry_commands`, `get_audio_extraction_command`,
    `get_screenshot_command`). A command is kept as the values it carries,
    not as the shell text it is rendered to. */
module Commands {
  import opened Timing

  /** `SCREENSHOT_W`: the width, in pixels, screenshots are scaled to. */
  const ScreenshotWidth: int := 400

  /** An audio clip request: from `video`, seek to `seek`, keep `length`,
      fade in from `fadeInStart` and fade out from `fadeOutStart`, each fade
      `fadeLength` long, and write the clip to `output`. */
  datatype AudioCommand = AudioCommand(
    video: string,
    seek: Micros,
    length: Micros,
    fadeInStart: Micros,
    fadeOutStart: Micros,
    fadeLength: Micros,
    output: string)

  /** A screenshot request: from `video`, seek to `seek`, take one frame,
      scale it to `width` pixels wide and write it to `output`. */
  datatype ScreenshotCommand = ScreenshotCommand(
    video: string,
    seek: Micros,
    width: int,
    output: string)

  /** The names `get_entry_commands` returns and the two commands built from them. */
  datatype EntryMedia = EntryMedia(
    audioName: string,
    screenshotName: string,
    audio: AudioCommand,
    screenshot: ScreenshotCommand)

  /** `get_audio_extraction_command`. */
  function AudioExtractionCommand(start: Micros, end: Micros, video: string, output: string): AudioCommand
  {
    var length := end - start;
    AudioCommand(video, start, length, 0, length - Fade, Fade, output)
  }

  /** `get_screenshot_command`. */
  function ScreenshotCommandAt(timestamp: Micros, video: string, output: string): ScreenshotCommand
  {
    ScreenshotCommand(video, timestamp, ScreenshotWidth, output)
  }

  /** `f"{tag}_{start}-{end}.mp3"`, the two times rendered by `fmt`. */
  function AudioName(tag: string, fmt: Micros -> string, start: Micros, end: Micros): string
  {
    tag + "_" + fmt(start) + "-" + fmt(end) + ".mp3"
  }

  /** `f"{tag}_{mid}.jpg"`, the time rendered by `fmt`. */
  function ScreenshotName(tag: string, fmt: Micros -> string, mid: Micros): string
  {
    tag + "_" + fmt(mid) + ".jpg"
  }

  /** `f"{tag}/{name}"`: the file `name` inside the directory `tag`. */
  function OutputPath(tag: string, name: string): string
  {
    tag + "/" + name
  }

  /** `get_entry_commands`. */
  function EntryCommands(start: Micros, end: Micros, video: string, tag: string, fmt: Micros -> string): EntryMedia
  {
    var mid := Midpoint(start, end);
    var nameAudio := AudioName(tag, fmt, start, end);
    var nameScreenshot := ScreenshotName(tag, fmt, mid);
    var commandAudio := AudioExtractionCommand(start, end, video, OutputPath(tag, nameAudio));
    var commandScreenshot := ScreenshotCommandAt(mid, video, OutputPath(tag, nameScreenshot));
    EntryMedia(nameAudio, nameScreenshot, commandAudio, commandScreenshot)
  }

  /** The clip covers exactly the window from `start` to `end`, fades in
      from its first instant, and its fade-out ends exactly where it ends. */
  lemma AudioClipCoversWindow(start: Micros, end: Micros, video: string, output: string)
    ensures var c := AudioExtractionCommand(start, end, video, output);
      c.seek == start && c.seek + c.length == end &&
      c.fadeInStart == 0 && c.fadeLength == Fade &&
      c.fadeOutStart + c.fadeLength == c.length &&
      c.video == video && c.output == output
  {
  }

  /** The screenshot is one frame at exactly the given time, scaled to
      SCREENSHOT_W pixels wide, read from `video` and written to `output`. */
  lemma ScreenshotAtTime(timestamp: Micros, video: string, output: string)
    ensures var c := ScreenshotCommandAt(timestamp, video, output);
      c.seek == timestamp && c.width == 400 && c.video == video && c.output == output
  {
  }

  /** An output path splits back into the directory `tag` and the file name. */
  lemma OutputPathSplits(tag: string, name: string)
    ensures var p := OutputPath(tag, name);
      |p| == |tag| + 1 + |name| && p[..|tag| + 1] == tag + "/" && p[|tag| + 1..] == name
  {
  }

  /** Both names start with the tag and an underscore; an audio name ends in
      ".mp3" and a screenshot name in ".jpg", so an audio clip and a
      screenshot can never be written to the same file. */
  lemma NamesNeverClash(tag: string, fmt: Micros -> string, start: Micros, end: Micros, mid: Micros)
    ensures var a, s := AudioName(tag, fmt, start, end), ScreenshotName(tag, fmt, mid);
      a[..|tag| + 1] == tag + "_" && s[..|tag| + 1] == tag + "_" &&
      a[|a| - 4..] == ".mp3" && s[|s| - 4..] == ".jpg" &&
      a != s
  {
    var a, s := AudioName(tag, fmt, start, end), ScreenshotName(tag, fmt, mid);
    assert a[|a| - 4..] == ".mp3";
    assert s[|s| - 4..] == ".jpg";
  }

  /** `get_entry_commands`: the audio command clips exactly the given window
      and fades in from its first instant, the screenshot is taken at the
      window's midpoint (see MidpointWithin), both commands write
      into the directory `tag` under the two names returned beside them, and
      those names differ. */
  lemma EntryCommandsAgree(start: Micros, end: Micros, video: string, tag: string, fmt: Micros -> string)
    ensures var m := EntryCommands(start, end, video, tag, fmt);
      m.audioName == AudioName(tag, fmt, start, end) &&
      m.screenshotName == ScreenshotName(tag, fmt, m.screenshot.seek) &&
      m.audioName != m.screenshotName &&
      m.screenshot.seek == Midpoint(start, end) &&
      m.audio == AudioExtractionCommand(start, end, video, OutputPath(tag, m.audioName)) &&
      m.screenshot == ScreenshotCommandAt(Midpoint(start, end), video, OutputPath(tag, m.screenshotName)) &&
      m.audio.seek == start && m.audio.seek + m.audio.length == end && m.audio.fadeInStart == 0 &&
      m.audio.fadeOutStart + m.audio.fadeLength == m.audio.length && m.audio.fadeLength == Fade &&
      (start <= end ==> start <= m.screenshot.seek <= end) &&
      -1 <= 2 * m.screenshot.seek - (start + end) <= 1 &&
      m.screenshot.width == ScreenshotWidth &&
      m.audio.video == video && m.screenshot.video == video &&
      m.audio.output == OutputPath(tag, m.audioName) &&
      m.screenshot.output == OutputPath(tag, m.screenshotName)
  {
    var mid := Midpoint(start, end);
    MidpointWithin(start, end);
    NamesNeverClash(tag, fmt, start, end, mid);
  }
}
