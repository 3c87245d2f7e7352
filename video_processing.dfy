/**
 * The background transcode into HLS: the audio test on the probe's output,
 * the choice between the two ffmpeg argument lists, and the reconciliation
 * of the video record with the transcode's outcome. Running ffmpeg is a
 * parameter: the probe's stderr and the transcode's exit status.
 */
module VideoProcessing {
  import opened Wrappers
  import opened Schemas

  /** The needle occurs in the haystack starting at index `i`. */
  predicate OccursAt(haystack: string, needle: string, i: int)
  {
    0 <= i && i + |needle| <= |haystack| && haystack[i..i + |needle|] == needle
  }

  /** Occurrences in the haystack past its first character are the occurrences in its tail, shifted by one. */
  lemma OccursInTail(haystack: string, needle: string)
    requires |haystack| > 0
    ensures forall i :: OccursAt(haystack[1..], needle, i) ==> OccursAt(haystack, needle, i + 1)
    ensures forall i :: OccursAt(haystack, needle, i) && i > 0 ==> OccursAt(haystack[1..], needle, i - 1)
  {
    forall i | OccursAt(haystack[1..], needle, i)
      ensures OccursAt(haystack, needle, i + 1)
    {
      assert haystack[1..][i..i + |needle|] == haystack[i + 1..i + 1 + |needle|];
    }
    forall i | OccursAt(haystack, needle, i) && i > 0
      ensures OccursAt(haystack[1..], needle, i - 1)
    {
      assert haystack[1..][i - 1..i - 1 + |needle|] == haystack[i..i + |needle|];
    }
  }

  /** Python's `needle in haystack` on strings: the needle occurs somewhere in the haystack. */
  function Contains(haystack: string, needle: string): (r: bool)
    ensures r <==> exists i :: OccursAt(haystack, needle, i)
    decreases |haystack|
  {
    if |needle| > |haystack| then false
    else if haystack[..|needle|] == needle then
      assert OccursAt(haystack, needle, 0);
      true
    else
      OccursInTail(haystack, needle);
      assert !OccursAt(haystack, needle, 0);
      Contains(haystack[1..], needle)
  }

  /** The probe reports an audio stream when its stderr mentions "Audio". */
  function HasAudio(probeStderr: string): (r: bool)
    ensures r <==> exists i :: OccursAt(probeStderr, "Audio", i)
  {
    Contains(probeStderr, "Audio")
  }

  /** The probe run whose stderr is inspected: the transcode's own binary and input, with no options. */
  function ProbeCommand(inputFile: string): (r: seq<string>)
    ensures r == InputArgs(inputFile)[..3]
  {
    ["ffmpeg", "-i", inputFile]
  }

  /**
   * The transcode for an input without an audio stream: one argument list,
   * written here in groups of one output stream each.
   */
  function NoAudioCommand(inputFile: string, prefix: string): (r: seq<string>)
    ensures r == InputArgs(inputFile) + AllVideoArgs() + HlsOutputArgs(prefix, false)
  {
    StreamMapValues();
    FilterGraphValue();
    VideoArgsValues();
      ["ffmpeg",
       "-i",
       inputFile,
       "-filter_complex",
       "[0:v]split=3[v1][v2][v3]; "
       + "[v1]scale=w=1920:h=1080[v1out]; "
       + "[v2]scale=w=1280:h=720[v2out]; "
       + "[v3]scale=w=854:h=480[v3out]"]
    + ["-map", "[v1out]", "-c:v:0", "libx264", "-b:v:0", "5000k", "-maxrate:v:0", "5350k", "-bufsize:v:0", "7500k"]
    + ["-map", "[v2out]", "-c:v:1", "libx264", "-b:v:1", "2800k", "-maxrate:v:1", "2996k", "-bufsize:v:1", "4200k"]
    + ["-map", "[v3out]", "-c:v:2", "libx264", "-b:v:2", "1400k", "-maxrate:v:2", "1498k", "-bufsize:v:2", "2100k"]
    + ["-f", "hls",
       "-hls_time", "10",
       "-hls_playlist_type", "vod",
       "-hls_flags", "independent_segments",
       "-hls_segment_type", "mpegts",
       "-hls_segment_filename", prefix + "/stream_%v/data%03d.ts",
       "-master_pl_name", "master.m3u8",
       "-var_stream_map", "v:0 v:1 v:2",
       prefix + "/stream_%v/playlist.m3u8"]
  }

  /** The transcode for an input with an audio stream, in the same grouping. */
  function AudioCommand(inputFile: string, prefix: string): (r: seq<string>)
    ensures r == InputArgs(inputFile) + AllVideoArgs() + AllAudioArgs() + HlsOutputArgs(prefix, true)
  {
    StreamMapValues();
    FilterGraphValue();
    VideoArgsValues();
    AudioArgsValues();
      ["ffmpeg",
       "-i",
       inputFile,
       "-filter_complex",
       "[0:v]split=3[v1][v2][v3]; "
       + "[v1]scale=w=1920:h=1080[v1out]; "
       + "[v2]scale=w=1280:h=720[v2out]; "
       + "[v3]scale=w=854:h=480[v3out]"]
    + ["-map", "[v1out]", "-c:v:0", "libx264", "-b:v:0", "5000k", "-maxrate:v:0", "5350k", "-bufsize:v:0", "7500k"]
    + ["-map", "[v2out]", "-c:v:1", "libx264", "-b:v:1", "2800k", "-maxrate:v:1", "2996k", "-bufsize:v:1", "4200k"]
    + ["-map", "[v3out]", "-c:v:2", "libx264", "-b:v:2", "1400k", "-maxrate:v:2", "1498k", "-bufsize:v:2", "2100k"]
    + ["-map", "a:0", "-c:a", "aac", "-b:a:0", "192k", "-ac", "2"]
    + ["-map", "a:0", "-c:a", "aac", "-b:a:1", "128k", "-ac", "2"]
    + ["-map", "a:0", "-c:a", "aac", "-b:a:2", "96k", "-ac", "2"]
    + ["-f", "hls",
       "-hls_time", "10",
       "-hls_playlist_type", "vod",
       "-hls_flags", "independent_segments",
       "-hls_segment_type", "mpegts",
       "-hls_segment_filename", prefix + "/stream_%v/data%03d.ts",
       "-master_pl_name", "master.m3u8",
       "-var_stream_map", "v:0,a:0 v:1,a:1 v:2,a:2",
       prefix + "/stream_%v/playlist.m3u8"]
  }

  /**
   * The argument list the transcode runs with. Both lists are the input and
   * filter graph, the three video renditions, the three audio encodings only
   * when there is audio, and the same HLS options and output paths.
   */
  function HlsCommand(hasAudio: bool, inputFile: string, prefix: string): (r: seq<string>)
    ensures r == InputArgs(inputFile) + AllVideoArgs()
                 + (if hasAudio then AllAudioArgs() else [])
                 + HlsOutputArgs(prefix, hasAudio)
  {
    if hasAudio then
      AudioCommand(inputFile, prefix)
    else
      assert InputArgs(inputFile) + AllVideoArgs() + [] == InputArgs(inputFile) + AllVideoArgs();
      NoAudioCommand(inputFile, prefix)
  }

  // ----- the same commands, built from the rendition ladder -----

  /** One video rendition: the scaled size and the rate controls, as ffmpeg reads them. */
  datatype Rendition = Rendition(width: string, height: string, bitrate: string, maxrate: string, bufsize: string)

  const Renditions: seq<Rendition> := [
    Rendition("1920", "1080", "5000k", "5350k", "7500k"),
    Rendition("1280", "720", "2800k", "2996k", "4200k"),
    Rendition("854", "480", "1400k", "1498k", "2100k")
  ]

  const AudioBitrates: seq<string> := ["192k", "128k", "96k"]

  function Digit(n: nat): string
    requires n < 10
  {
    [('0' as int + n) as char]
  }

  /** The filter graph: split the video three ways and scale branch `i + 1` to rendition `i`. */
  function ScaleFilter(i: nat, r: Rendition): string
    requires i < 9
  {
    "[v" + Digit(i + 1) + "]scale=w=" + r.width + ":h=" + r.height + "[v" + Digit(i + 1) + "out]"
  }

  function FilterGraph(): string
  {
    "[0:v]split=3[v1][v2][v3]; "
      + (ScaleFilter(0, Renditions[0]) + "; ")
      + (ScaleFilter(1, Renditions[1]) + "; ")
      + ScaleFilter(2, Renditions[2])
  }

  /** Output video stream `i` encodes scaled branch `i + 1` with rendition `r`'s rate controls. */
  function VideoArgs(i: nat, r: Rendition): seq<string>
    requires i < 9
  {
    ["-map", "[v" + Digit(i + 1) + "out]",
     "-c:v:" + Digit(i), "libx264",
     "-b:v:" + Digit(i), r.bitrate,
     "-maxrate:v:" + Digit(i), r.maxrate,
     "-bufsize:v:" + Digit(i), r.bufsize]
  }

  /** Output audio stream `i` re-encodes the input's first audio stream as stereo AAC. */
  function AudioArgs(i: nat, bitrate: string): seq<string>
    requires i < 10
  {
    ["-map", "a:0", "-c:a", "aac", "-b:a:" + Digit(i), bitrate, "-ac", "2"]
  }

  /** Variant `i` of the master playlist: video stream `i`, with audio stream `i` when there is audio. */
  function StreamEntry(i: nat, hasAudio: bool): string
    requires i < 10
  {
    "v:" + Digit(i) + (if hasAudio then ",a:" + Digit(i) else "")
  }

  function StreamMap(hasAudio: bool): string
  {
    StreamEntry(0, hasAudio) + " " + StreamEntry(1, hasAudio) + " " + StreamEntry(2, hasAudio)
  }

  /** The HLS muxer options and the prefix-derived output paths. */
  function HlsOutputArgs(prefix: string, hasAudio: bool): seq<string>
  {
    ["-f", "hls",
     "-hls_time", "10",
     "-hls_playlist_type", "vod",
     "-hls_flags", "independent_segments",
     "-hls_segment_type", "mpegts",
     "-hls_segment_filename", prefix + "/stream_%v/data%03d.ts",
     "-master_pl_name", "master.m3u8",
     "-var_stream_map", StreamMap(hasAudio),
     prefix + "/stream_%v/playlist.m3u8"]
  }

  function InputArgs(inputFile: string): seq<string>
  {
    ["ffmpeg", "-i", inputFile, "-filter_complex", FilterGraph()]
  }

  function AllVideoArgs(): seq<string>
  {
    VideoArgs(0, Renditions[0]) + VideoArgs(1, Renditions[1]) + VideoArgs(2, Renditions[2])
  }

  function AllAudioArgs(): seq<string>
  {
    AudioArgs(0, AudioBitrates[0]) + AudioArgs(1, AudioBitrates[1]) + AudioArgs(2, AudioBitrates[2])
  }

  /** The stream-map values of the two branches. */
  lemma StreamMapValues()
    ensures StreamMap(false) == "v:0 v:1 v:2"
    ensures StreamMap(true) == "v:0,a:0 v:1,a:1 v:2,a:2"
  {
  }

  /** Each scaled branch of the filter graph at its rendition's size. */
  lemma ScaleFilterValue1()
    ensures ScaleFilter(0, Renditions[0]) == "[v1]scale=w=1920:h=1080[v1out]"
  {
    assert Digit(1) == "1";
  }

  lemma ScaleFilterValue2()
    ensures ScaleFilter(1, Renditions[1]) == "[v2]scale=w=1280:h=720[v2out]"
  {
    assert Digit(2) == "2";
  }

  lemma ScaleFilterValue3()
    ensures ScaleFilter(2, Renditions[2]) == "[v3]scale=w=854:h=480[v3out]"
  {
    assert Digit(3) == "3";
  }

  lemma FilterGraphValue()
    ensures FilterGraph() ==
      "[0:v]split=3[v1][v2][v3]; "
      + "[v1]scale=w=1920:h=1080[v1out]; "
      + "[v2]scale=w=1280:h=720[v2out]; "
      + "[v3]scale=w=854:h=480[v3out]"
  {
    ScaleFilterValue1();
    ScaleFilterValue2();
    ScaleFilterValue3();
  }

  /** The rendition ladder spelled out as the encoder options of the three video streams. */
  lemma VideoArgsValues()
    ensures AllVideoArgs() == [
      "-map", "[v1out]", "-c:v:0", "libx264", "-b:v:0", "5000k", "-maxrate:v:0", "5350k", "-bufsize:v:0", "7500k",
      "-map", "[v2out]", "-c:v:1", "libx264", "-b:v:1", "2800k", "-maxrate:v:1", "2996k", "-bufsize:v:1", "4200k",
      "-map", "[v3out]", "-c:v:2", "libx264", "-b:v:2", "1400k", "-maxrate:v:2", "1498k", "-bufsize:v:2", "2100k"]
  {
    var v0 := VideoArgs(0, Renditions[0]);
    assert v0[1] == "[v1out]" && v0[2] == "-c:v:0" && v0[4] == "-b:v:0";
    assert v0[6] == "-maxrate:v:0" && v0[8] == "-bufsize:v:0";
    assert v0 == ["-map", "[v1out]", "-c:v:0", "libx264", "-b:v:0", "5000k", "-maxrate:v:0", "5350k", "-bufsize:v:0", "7500k"];
    var v1 := VideoArgs(1, Renditions[1]);
    assert v1[1] == "[v2out]" && v1[2] == "-c:v:1" && v1[4] == "-b:v:1";
    assert v1[6] == "-maxrate:v:1" && v1[8] == "-bufsize:v:1";
    assert v1 == ["-map", "[v2out]", "-c:v:1", "libx264", "-b:v:1", "2800k", "-maxrate:v:1", "2996k", "-bufsize:v:1", "4200k"];
    var v2 := VideoArgs(2, Renditions[2]);
    assert v2[1] == "[v3out]" && v2[2] == "-c:v:2" && v2[4] == "-b:v:2";
    assert v2[6] == "-maxrate:v:2" && v2[8] == "-bufsize:v:2";
    assert v2 == ["-map", "[v3out]", "-c:v:2", "libx264", "-b:v:2", "1400k", "-maxrate:v:2", "1498k", "-bufsize:v:2", "2100k"];
  }

  /** The three audio encodings: the first audio stream, at 192k, 128k and 96k. */
  lemma AudioArgsValues()
    ensures AllAudioArgs() == [
      "-map", "a:0", "-c:a", "aac", "-b:a:0", "192k", "-ac", "2",
      "-map", "a:0", "-c:a", "aac", "-b:a:1", "128k", "-ac", "2",
      "-map", "a:0", "-c:a", "aac", "-b:a:2", "96k", "-ac", "2"]
  {
    var a0 := AudioArgs(0, AudioBitrates[0]);
    assert a0[4] == "-b:a:0" && a0[5] == "192k";
    assert a0 == ["-map", "a:0", "-c:a", "aac", "-b:a:0", "192k", "-ac", "2"];
    var a1 := AudioArgs(1, AudioBitrates[1]);
    assert a1[4] == "-b:a:1" && a1[5] == "128k";
    assert a1 == ["-map", "a:0", "-c:a", "aac", "-b:a:1", "128k", "-ac", "2"];
    var a2 := AudioArgs(2, AudioBitrates[2]);
    assert a2[4] == "-b:a:2" && a2[5] == "96k";
    assert a2 == ["-map", "a:0", "-c:a", "aac", "-b:a:2", "96k", "-ac", "2"];
  }

  // ----- the outcome on the video store -----

  type VideoMap = map<string, Video>

  /** `available := true` on the record under `id`; a missing id changes nothing. */
  function MarkAvailable(videos: VideoMap, id: string): (r: VideoMap)
    ensures r.Keys == videos.Keys
    ensures id in videos ==> r[id] == videos[id].(available := true)
    ensures forall k :: k in videos && k != id ==> r[k] == videos[k]
  {
    if id in videos then videos[id := videos[id].(available := true)] else videos
  }

  /**
   * The store after the transcode: a failed run deletes the record, a
   * completed one marks it available; every other record is untouched, and
   * the record never stays behind unavailable.
   */
  function Reconcile(videos: VideoMap, id: string, completed: bool): (r: VideoMap)
    ensures !completed ==> r == videos - {id}
    ensures completed ==> (id in r <==> id in videos)
    ensures completed && id in videos ==> r[id] == videos[id].(available := true)
    ensures forall k :: k != id ==> (k in r <==> k in videos) && (k in r ==> r[k] == videos[k])
    ensures id in r ==> r[id].available
  {
    if completed then MarkAvailable(videos, id) else videos - {id}
  }

  class VideoStore {
    /** The `videos` collection, by id. */
    var videos: VideoMap

    constructor (initial: VideoMap)
      ensures videos == initial
    {
      videos := initial;
    }

    /** Removes the record with this id. */
    method VideoDeleteRecord(id: string)
      modifies this
      ensures videos == old(videos) - {id}
    {
      videos := videos - {id};
    }

    /** Sets `available` on the record with this id. */
    method VideoMarkAvailable(id: string)
      modifies this
      ensures videos == MarkAvailable(old(videos), id)
    {
      videos := MarkAvailable(videos, id);
    }

    /**
     * `generate_hls`: probe the input, choose the argument list by whether
     * the probe saw audio, run it, then delete the record when the run exits
     * with a non-zero status and mark it available otherwise. `probe` gives
     * the stderr of a run, `run` the exit status of a checked run.
     */
    method GenerateHls(inputFile: string, prefix: string, videoId: string,
                       probe: seq<string> -> string, run: seq<string> -> int)
      returns (command: seq<string>)
      modifies this
      ensures command == HlsCommand(HasAudio(probe(ProbeCommand(inputFile))), inputFile, prefix)
      ensures videos == Reconcile(old(videos), videoId, run(command) == 0)
    {
      var stderr := probe(ProbeCommand(inputFile));
      var hasAudio := HasAudio(stderr);
      command := HlsCommand(hasAudio, inputFile, prefix);
      var status := run(command);
      if status != 0 {
        VideoDeleteRecord(videoId);
      } else {
        VideoMarkAvailable(videoId);
      }
    }
  }
}
