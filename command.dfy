/**
 * The argument vector converter.py passes to `ffmpeg` for one file: hardware
 * H.264 video at a bitrate in Mbit/s, AAC audio at a bitrate in kbit/s, the
 * index moved to the front of the MP4 ("fast start"), overwrite without asking.
 */
module Command {
  import opened Wrappers
  import opened Text
  import opened Seqs

  /** The parameters one invocation carries. */
  datatype Invocation = Invocation(inputFile: string, outputFile: string, videoBitrate: nat, audioBitrate: nat)

  /** The number of arguments in every vector, the program name included. */
  const Arity := 15

  /** The vector for one file; position 3 is the input, the last one the output. */
  function FfmpegCommand(inputFile: string, outputFile: string, videoBitrate: nat, audioBitrate: nat): (cmd: seq<string>)
    ensures |cmd| == Arity
    ensures cmd[0] == "ffmpeg" && cmd[3] == inputFile && cmd[Arity - 1] == outputFile
  {
    [ "ffmpeg",
      "-y",
      "-i", inputFile,
      "-c:v", "h264_videotoolbox",
      "-b:v", Decimal(videoBitrate) + "M",
      "-c:a", "aac",
      "-b:a", Decimal(audioBitrate) + "k",
      "-movflags", "+faststart",
      outputFile ]
  }

  /** A bitrate argument: a canonical decimal numeral followed by the unit letter. */
  predicate IsRate(arg: string, unit: char)
  {
    |arg| >= 2 && arg[|arg| - 1] == unit && IsCanonicalDecimal(arg[..|arg| - 1])
  }

  function RateValue(arg: string, unit: char): nat
    requires IsRate(arg, unit)
  {
    ParseDecimal(arg[..|arg| - 1])
  }

  /** Reads an argument vector back into the invocation it encodes, if it has
      exactly the shape FfmpegCommand produces. */
  function ParseCommand(cmd: seq<string>): Option<Invocation>
  {
    if && |cmd| == Arity
       && cmd[0] == "ffmpeg" && cmd[1] == "-y" && cmd[2] == "-i"
       && cmd[4] == "-c:v" && cmd[5] == "h264_videotoolbox"
       && cmd[6] == "-b:v" && IsRate(cmd[7], 'M')
       && cmd[8] == "-c:a" && cmd[9] == "aac"
       && cmd[10] == "-b:a" && IsRate(cmd[11], 'k')
       && cmd[12] == "-movflags" && cmd[13] == "+faststart"
    then Some(Invocation(cmd[3], cmd[14], RateValue(cmd[7], 'M'), RateValue(cmd[11], 'k')))
    else None
  }

  lemma RateRoundTrip(n: nat, unit: char)
    ensures IsRate(Decimal(n) + [unit], unit)
    ensures RateValue(Decimal(n) + [unit], unit) == n
  {
    var arg := Decimal(n) + [unit];
    assert arg[..|arg| - 1] == Decimal(n);
    ParseDecimalOfDecimal(n);
  }

  /** Every vector the converter builds can be read back into its parameters,
      so different invocations never produce the same vector. */
  lemma ParseFfmpegCommand(inputFile: string, outputFile: string, videoBitrate: nat, audioBitrate: nat)
    ensures ParseCommand(FfmpegCommand(inputFile, outputFile, videoBitrate, audioBitrate))
         == Some(Invocation(inputFile, outputFile, videoBitrate, audioBitrate))
  {
    RateRoundTrip(videoBitrate, 'M');
    RateRoundTrip(audioBitrate, 'k');
  }

  /** Conversely, a vector that reads back is exactly the one built from what it
      reads back to: ParseCommand accepts nothing but converter vectors. */
  lemma FfmpegCommandOfParse(cmd: seq<string>)
    requires ParseCommand(cmd).Some?
    ensures var inv := ParseCommand(cmd).value;
            FfmpegCommand(inv.inputFile, inv.outputFile, inv.videoBitrate, inv.audioBitrate) == cmd
  {
    var inv := ParseCommand(cmd).value;
    RateOfValue(cmd[7], 'M');
    RateOfValue(cmd[11], 'k');
    var built := FfmpegCommand(inv.inputFile, inv.outputFile, inv.videoBitrate, inv.audioBitrate);
    assert forall j :: 0 <= j < Arity ==> built[j] == cmd[j];
  }

  /** A bitrate argument is the rendering of the value it reads as. */
  lemma RateOfValue(arg: string, unit: char)
    requires IsRate(arg, unit)
    ensures Decimal(RateValue(arg, unit)) + [unit] == arg
  {
    var digits := arg[..|arg| - 1];
    DecimalOfParseDecimal(digits);
    SplitLast(arg);
  }

  /** The vector for a sample file at the default bitrates (8 Mbit/s, 192 kbit/s). */
  lemma SampleCommand()
    ensures FfmpegCommand("clip.mkv", "/out/clip.mp4", 8, 192)
         == ["ffmpeg", "-y", "-i", "clip.mkv", "-c:v", "h264_videotoolbox", "-b:v", "8M",
             "-c:a", "aac", "-b:a", "192k", "-movflags", "+faststart", "/out/clip.mp4"]
  {
    assert Decimal(8) + "M" == "8M" by {
      assert Decimal(8) == "8";
    }
    assert Decimal(192) + "k" == "192k" by {
      assert Decimal(1) == "1";
      assert Decimal(19) == "19";
      assert Decimal(192) == "192";
    }
  }

  /** A rendered bitrate argument holds no space. */
  lemma RateHasNoSpace(n: nat, unit: char)
    requires unit != ' '
    ensures ' ' !in Decimal(n) + [unit]
  {
    var arg := Decimal(n) + [unit];
    forall j | 0 <= j < |arg| ensures arg[j] != ' ' {
      if j < |Decimal(n)| {
        assert IsDigit(Decimal(n)[j]);
      }
    }
  }

  /** The command line converter.py logs (`" ".join(cmd)`) determines the
      invocation whenever neither path contains a space: splitting the line at
      its spaces and reading it back gives the parameters it was built from. */
  lemma LoggedLineReadsBack(inputFile: string, outputFile: string, videoBitrate: nat, audioBitrate: nat)
    requires ' ' !in inputFile && ' ' !in outputFile
    ensures ParseCommand(SplitWords(JoinWords(FfmpegCommand(inputFile, outputFile, videoBitrate, audioBitrate))))
         == Some(Invocation(inputFile, outputFile, videoBitrate, audioBitrate))
  {
    var cmd := FfmpegCommand(inputFile, outputFile, videoBitrate, audioBitrate);
    RateHasNoSpace(videoBitrate, 'M');
    RateHasNoSpace(audioBitrate, 'k');
    assert forall j :: 0 <= j < |cmd| ==> ' ' !in cmd[j];
    SplitJoinWords(cmd);
    ParseFfmpegCommand(inputFile, outputFile, videoBitrate, audioBitrate);
  }
}
