/** The visual effects (effects.py): the three-stage vintage chain, each stage run only
    when the one before it exited with status 0, and the one-stage grayscale filter.
    Neither raises on a non-zero exit; the processes' exit codes are an oracle. */
module Effects {
  import opened Common

  const FastFile := "tmp/td-fast.mp4"
  const VintageFastFile := "tmp/td-vintage-fast.mp4"
  const FilmTemplate := "templates/oldFilm1080.mp4"

  /** Stage 1: resample the input to `fps` frames per second. */
  function FrameRateCommand(input: string, fps: string): Command {
    ["ffmpeg", "-i", input, "-filter:v", "fps=fps=" + fps, FastFile]
  }

  /** Stage 2: the "vintage" colour curve. */
  function CurvesCommand(): Command {
    ["ffmpeg", "-i", FastFile, "-vf", "curves=vintage", VintageFastFile]
  }

  /** Stage 3: the old-film texture at a quarter opacity over the curved video, re-encoded. */
  function OverlayCommand(output: string): Command {
    ["ffmpeg",
     "-i", FilmTemplate,
     "-i", VintageFastFile,
     "-filter_complex", "[0]format=rgba,colorchannelmixer=aa=0.25[fg];[1][fg]overlay[out]",
     "-map", "[out]",
     "-pix_fmt", "yuv420p",
     "-c:v", "libx264",
     "-crf", "23",
     output]
  }

  /** The three vintage stages in order; each reads the file the stage before it wrote. */
  function VintageStages(input: string, output: string, fps: string): (stages: seq<Command>)
    ensures |stages| == 3 && forall k :: 0 <= k < 3 ==> |stages[k]| >= 6 && stages[k][0] == "ffmpeg"
    ensures stages[0][2] == input && stages[0][4] == "fps=fps=" + fps
    ensures stages[1][2] == stages[0][|stages[0]| - 1]
    ensures stages[2][4] == stages[1][|stages[1]| - 1] && stages[2][2] == FilmTemplate
    ensures stages[2][|stages[2]| - 1] == output
  {
    [FrameRateCommand(input, fps), CurvesCommand(), OverlayCommand(output)]
  }

  /** `vintage`: runs stage 1, then each further stage only if the previous one exited
      with 0. A failing stage stops the chain silently. */
  method Vintage(input: string, output: string, fps: string, exitCode: Command -> int)
    returns (issued: seq<Command>, reaction: Reaction)
    ensures 1 <= |issued| <= 3 && issued == VintageStages(input, output, fps)[..|issued|]
    ensures forall k :: 0 <= k < |issued| - 1 ==> exitCode(issued[k]) == 0
    ensures |issued| < 3 ==> exitCode(issued[|issued| - 1]) != 0
    ensures reaction.Succeeded? <==> |issued| == 3 && exitCode(issued[2]) == 0
    ensures !reaction.Raised? && !reaction.Logged?
  {
    var stages := VintageStages(input, output, fps);
    issued := [stages[0]];
    reaction := Ignored;
    if exitCode(stages[0]) == 0 {
      issued := issued + [stages[1]];
      if exitCode(stages[1]) == 0 {
        issued := issued + [stages[2]];
        reaction := Quiet(exitCode(stages[2]));
      }
    }
  }

  /** The grayscale filter: saturation set to zero. */
  function GrayscaleCommand(input: string, output: string): (cmd: Command)
    ensures |cmd| == 6 && cmd[0] == "ffmpeg" && cmd[2] == input && cmd[4] == "hue=s=0" && cmd[|cmd| - 1] == output
  {
    ["ffmpeg", "-i", input, "-vf", "hue=s=0", output]
  }

  /** `grayscale`: one process from input to output; a non-zero exit is not reported. */
  method Grayscale(input: string, output: string, exitCode: Command -> int)
    returns (issued: seq<Command>, reaction: Reaction)
    ensures issued == [GrayscaleCommand(input, output)]
    ensures reaction.Succeeded? <==> exitCode(issued[0]) == 0
    ensures !reaction.Succeeded? ==> reaction == Ignored
  {
    var cmd := GrayscaleCommand(input, output);
    issued := [cmd];
    reaction := Quiet(exitCode(cmd));
  }
}
