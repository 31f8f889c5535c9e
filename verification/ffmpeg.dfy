/** The ffmpeg invocation built by `renderVideo`: a fixed-shape argument
    vector with the image, audio and output paths in fixed slots and the
    escaped caption inside the drawtext `text='…'` field. */
module Ffmpeg {
  import opened Values
  import opened Caption

  const Program: string := "ffmpeg"

  /** Wall-clock limit handed to `execFile`, in milliseconds. */
  const TimeoutMs: nat := 120000

  const FontFile: string := "/usr/share/fonts/truetype/dejavu/DejaVuSans-Bold.ttf"

  /** The filter text up to and including the opening quote of `text='`. */
  const FilterHead: string := "scale=1080:1920,drawtext=fontfile=" + FontFile + ":text='"

  /** The drawtext options after the caption field. */
  const DrawOptions: string :=
    ":fontcolor=white:fontsize=60:x=(w-text_w)/2:y=h-text_h-80:box=1:boxcolor=0x000000AA:boxborderw=20"

  /** The filter text from the closing quote of the caption field on. */
  const FilterTail: string := "'" + DrawOptions

  /** Number of entries in the argument vector. */
  const ArgCount: nat := 23

  /** Slots that carry a request-dependent value; every other slot is a constant. */
  const ImageSlot: nat := 4
  const AudioSlot: nat := 6
  const FilterSlot: nat := 8
  const OutSlot: nat := 22

  datatype Invocation = Invocation(program: string, args: seq<string>, timeoutMs: nat)

  /** The `-vf` value for an already escaped caption. */
  function Filter(safeTitle: string): (f: string)
    ensures |f| == |FilterHead| + |safeTitle| + |FilterTail|
    ensures f[..|FilterHead|] == FilterHead
    ensures f[|FilterHead|..|FilterHead| + |safeTitle|] == safeTitle
    ensures f[|FilterHead| + |safeTitle|..] == FilterTail
  {
    FilterHead + safeTitle + FilterTail
  }

  /** The `args` array of `renderVideo`. */
  function Args(imagePath: string, audioPath: string, safeTitle: string, outPath: string): (args: seq<string>)
    ensures |args| == ArgCount
    ensures args[0] == "-y"
    ensures args[1] == "-loop" && args[2] == "1" && args[3] == "-i" && args[ImageSlot] == imagePath
    ensures args[AudioSlot - 1] == "-i" && args[AudioSlot] == audioPath
    ensures args[FilterSlot - 1] == "-vf" && args[FilterSlot] == Filter(safeTitle)
    ensures args[OutSlot - 1] == "-shortest" && args[OutSlot] == outPath
  {
    [ "-y",
      "-loop", "1", "-i", imagePath,
      "-i", audioPath,
      "-vf", Filter(safeTitle),
      "-c:v", "libx264", "-preset", "veryfast", "-crf", "23", "-r", "30",
      "-c:a", "aac", "-b:a", "128k",
      "-shortest", outPath ]
  }

  /** The whole `execFile` call for a caption source (`title` before `|| ""`). */
  function RenderCall(imagePath: string, audioPath: string, title: Field, outPath: string): (call: Invocation)
    ensures call.program == Program && call.timeoutMs == TimeoutMs
    ensures call.args == Args(imagePath, audioPath, SafeTitle(title), outPath)
  {
    Invocation(Program, Args(imagePath, audioPath, SafeTitle(title), outPath), TimeoutMs)
  }

  // ---------------------------------------------------------------------------
  // Decoding the invocation back into its inputs

  /** Reads a quoted field out of `f` the way a reader in which a backslash
      protects the next character would:
      after `head`, up to the first unprotected quote, and only if what follows
      is exactly `tail`. */
  function QuotedFieldBetween(f: string, head: string, tail: string): Option<string> {
    if |head| <= |f| && f[..|head|] == head then
      var rest := f[|head|..];
      var n := QuotedLength(rest);
      if rest[n..] == tail then Some(rest[..n]) else None
    else None
  }

  /** The caption field of a drawtext filter text. */
  function CaptionField(f: string): Option<string> {
    QuotedFieldBetween(f, FilterHead, FilterTail)
  }

  datatype Inputs = Inputs(imagePath: string, audioPath: string, caption: string, outPath: string)

  /** Recovers the paths and the displayed caption from an argument vector,
      if it has the shape `Args` builds. */
  function DecodeArgs(args: seq<string>): Option<Inputs> {
    if |args| != ArgCount then None
    else match CaptionField(args[FilterSlot])
      case None => None
      case Some(safe) =>
        if args == Args(args[ImageSlot], args[AudioSlot], safe, args[OutSlot])
        then Some(Inputs(args[ImageSlot], args[AudioSlot], Unescape(safe), args[OutSlot]))
        else None
  }

  lemma {:induction false} QuotedFieldBetweenRoundTrip(head: string, safe: string, options: string)
    requires WellEscaped(safe)
    ensures QuotedFieldBetween(head + safe + (['\''] + options), head, ['\''] + options) == Some(safe)
  {
    var f := head + safe + (['\''] + options);
    assert f[..|head|] == head;
    var rest := f[|head|..];
    assert rest == safe + ['\''] + options;
    QuotedFieldEndsAfterCaption(safe, options);
    assert rest[..|safe|] == safe;
    assert rest[|safe|..] == ['\''] + options;
  }

  /** The caption field of the built filter is exactly the escaped caption. */
  lemma CaptionFieldOfFilter(safe: string)
    requires WellEscaped(safe)
    ensures CaptionField(Filter(safe)) == Some(safe)
  {
    QuotedFieldBetweenRoundTrip(FilterHead, safe, DrawOptions);
  }

  /** Decoding the built vector gives back both paths, the output path and the
      title as displayed (newlines shown as spaces). For a reader in which a
      backslash protects the next character inside `'…'`, the caption does not
      spill into any other argument or filter option. */
  lemma DecodeArgsRoundTrip(imagePath: string, audioPath: string, title: string, outPath: string)
    ensures DecodeArgs(Args(imagePath, audioPath, Escape(title), outPath))
         == Some(Inputs(imagePath, audioPath, NewlinesToSpaces(title), outPath))
  {
    EscapeWellEscaped(title);
    CaptionFieldOfFilter(Escape(title));
    UnescapeEscape(title);
  }

  /** Two vectors agree on every slot except the four request-dependent ones. */
  lemma ArgsShapeFixed(i1: string, a1: string, t1: string, o1: string,
                       i2: string, a2: string, t2: string, o2: string)
    ensures forall k :: 0 <= k < ArgCount && k != ImageSlot && k != AudioSlot && k != FilterSlot && k != OutSlot ==>
      Args(i1, a1, t1, o1)[k] == Args(i2, a2, t2, o2)[k]
  {
  }

  /** Left unescaped, the title `a'b` would close the field after `a`: it
      does not decode as itself. */
  lemma UnescapedQuoteBreaksOut()
    ensures QuotedLength(Filter("a'b")[|FilterHead|..]) == 1
    ensures CaptionField(Filter("a'b")) != Some("a'b")
  {
    var rest := "a'b" + FilterTail;
    assert Filter("a'b")[..|FilterHead|] == FilterHead;
    assert Filter("a'b")[|FilterHead|..] == rest;
    assert rest[0] == 'a' && rest[1] == '\'';
    assert rest[1..][0] == '\'';
    assert QuotedLength(rest) == 1;
  }

  /** What the `execFile` call means: it runs `ffmpeg` with the 120000 ms
      timeout, and its arguments decode to the given paths and to the caption
      `title || ""` as displayed, newlines shown as spaces. */
  lemma RenderCallMeaning(imagePath: string, audioPath: string, title: Field, outPath: string)
    ensures var call := RenderCall(imagePath, audioPath, title, outPath);
      && call.program == "ffmpeg" && call.timeoutMs == 120000
      && DecodeArgs(call.args) == Some(Inputs(imagePath, audioPath, NewlinesToSpaces(OrElse(title, "")), outPath))
  {
    DecodeArgsRoundTrip(imagePath, audioPath, OrElse(title, ""), outPath);
  }
}
