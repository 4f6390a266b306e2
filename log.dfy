/** The coloured log formatter (log.py): a record's base-formatted line
    `"%(levelname)-8s%(message)s"` wrapped in the ANSI colour of its level and the
    reset sequence. */
module Log {
  import opened Common

  const Esc: char := 27 as char

  /** An ANSI "select graphic rendition" escape sequence. */
  function Sgr(code: string): string {
    [Esc] + "[" + code + "m"
  }

  /** The module-level palette of escape sequences. */
  const Palette: map<string, string> := map[
    "RESET" := Sgr("0"),
    "BOLD" := Sgr("1"),
    "UNDERLINE" := Sgr("4"),
    "BLACK" := Sgr("30"),
    "RED" := Sgr("31"),
    "GREEN" := Sgr("32"),
    "YELLOW" := Sgr("33"),
    "BLUE" := Sgr("34"),
    "MAGENTA" := Sgr("35"),
    "CYAN" := Sgr("36"),
    "WHITECYAN" := Sgr("37;46"),
    "WHITE" := Sgr("37")
  ]

  const Reset: string := Palette["RESET"]

  /** The formatter's own table from level name to colour. */
  const LevelColours: map<string, string> := map[
    "DEBUG" := Palette["BLUE"],
    "INFO" := Palette["WHITECYAN"],
    "WARNING" := Palette["YELLOW"],
    "ERROR" := Palette["RED"],
    "CRITICAL" := Palette["RED"]
  ]

  /** Width of the level-name column in the configured pattern. */
  const LevelWidth: nat := 8

  /** The colour a level name gets; the empty prefix for a name not in the table. */
  function ColourOf(levelName: string): string {
    if levelName in LevelColours then LevelColours[levelName] else ""
  }

  /** `s` left-justified in a field of `width` characters: padded with spaces, never cut. */
  function PadRight(s: string, width: nat): (r: string)
    ensures |r| == if |s| >= width then |s| else width
    ensures r[..|s|] == s
    ensures forall i :: |s| <= i < |r| ==> r[i] == ' '
  {
    if |s| >= width then s else s + seq(width - |s|, _ => ' ')
  }

  /** The base formatter with pattern `"%(levelname)-8s%(message)s"`. */
  function BaseFormat(levelName: string, message: string): string {
    PadRight(levelName, LevelWidth) + message
  }

  /** `ColoredFormatter.format`: level colour, base-formatted line, reset. */
  function Format(levelName: string, message: string): string {
    ColourOf(levelName) + BaseFormat(levelName, message) + Reset
  }

  /** Removes the colour of `levelName` in front and the reset sequence behind, if both are there. */
  function Unwrap(levelName: string, line: string): Option<string> {
    var c := ColourOf(levelName);
    if |line| >= |c| + |Reset| && line[..|c|] == c && line[|line| - |Reset|..] == Reset
    then Some(line[|c|..|line| - |Reset|])
    else None
  }

  /** The wrapping never alters the inner line: unwrapping a formatted record gives the base line back. */
  lemma UnwrapFormat(levelName: string, message: string)
    ensures Unwrap(levelName, Format(levelName, message)) == Some(BaseFormat(levelName, message))
  {
    var c, b := ColourOf(levelName), BaseFormat(levelName, message);
    var line := Format(levelName, message);
    assert line == c + b + Reset;
    assert line[..|c|] == c;
    assert line[|line| - |Reset|..] == Reset;
    assert line[|c|..|line| - |Reset|] == b;
  }

  /** The formatted line starts with the level's colour and ends with the reset sequence,
      and what lies between is exactly the base line. */
  lemma FormatWraps(levelName: string, message: string)
    ensures var line, c := Format(levelName, message), ColourOf(levelName);
      |line| == |c| + |BaseFormat(levelName, message)| + |Reset|
      && line[..|c|] == c
      && line[|c|..|line| - |Reset|] == BaseFormat(levelName, message)
      && line[|line| - |Reset|..] == Reset
  {
    UnwrapFormat(levelName, message);
  }

  /** A level name the table does not know gets no colour, but the reset is still appended. */
  lemma UnknownLevelUncoloured(levelName: string, message: string)
    requires levelName !in LevelColours
    ensures Format(levelName, message) == BaseFormat(levelName, message) + Reset
  {
    assert ColourOf(levelName) == "";
  }

  /** The level table: ERROR and CRITICAL share red, DEBUG is blue, INFO white on cyan,
      WARNING yellow, and these four colours differ from each other and from the reset. */
  lemma LevelTable()
    ensures ColourOf("ERROR") == ColourOf("CRITICAL") == [Esc] + "[31m"
    ensures ColourOf("DEBUG") == [Esc] + "[34m"
    ensures ColourOf("INFO") == [Esc] + "[37;46m"
    ensures ColourOf("WARNING") == [Esc] + "[33m"
    ensures Reset == [Esc] + "[0m"
    ensures |{ColourOf("DEBUG"), ColourOf("INFO"), ColourOf("WARNING"), ColourOf("ERROR"), Reset}| == 5
  {
    var d, i, w, e := ColourOf("DEBUG"), ColourOf("INFO"), ColourOf("WARNING"), ColourOf("ERROR");
    assert d[3] != w[3] && d[3] != e[3] && w[3] != e[3];
    assert d[3] != i[3] && |i| != |Reset| && |i| != |d|;
  }

  /** In the base line the level name sits left-justified in at least eight columns and the
      message follows it directly. */
  lemma BaseFormatLayout(levelName: string, message: string)
    ensures var line, w := BaseFormat(levelName, message), if |levelName| >= LevelWidth then |levelName| else LevelWidth;
      |line| == w + |message|
      && line[..|levelName|] == levelName
      && (forall i :: |levelName| <= i < w ==> line[i] == ' ')
      && line[w..] == message
  {
    var p := PadRight(levelName, LevelWidth);
    assert BaseFormat(levelName, message) == p + message;
    assert (p + message)[..|levelName|] == p[..|levelName|];
  }
}
