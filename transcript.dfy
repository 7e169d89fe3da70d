/**
 * Transcript text handling in options.js: turning a server event into the
 * displayed text (`socket.onmessage` and `updateTranscriptionUI`), and the
 * export on `stop_capture` (`downloadTranscription`).
 */
module Transcript {
  import opened Wrappers

  /** A parsed server message: its `type` and the `value` of each of its `elements`. */
  datatype ServerEvent = ServerEvent(kind: string, values: seq<string>)

  /** Total number of characters in `parts`. */
  function TotalLength(parts: seq<string>): nat
  {
    if parts == [] then 0 else |parts[0]| + TotalLength(parts[1..])
  }

  /** `Array.prototype.join(" ")`: the parts in order, one space between neighbours. */
  function JoinWithSpace(parts: seq<string>): (s: string)
    ensures parts == [] ==> s == ""
    ensures parts != [] ==> |s| == TotalLength(parts) + |parts| - 1
  {
    if parts == [] then ""
    else if |parts| == 1 then parts[0]
    else parts[0] + " " + JoinWithSpace(parts[1..])
  }

  /** Cuts a string at every space; the inverse of `JoinWithSpace` on space-free parts. */
  function SplitOnSpace(s: string): (parts: seq<string>)
    ensures |parts| >= 1
    decreases |s|
  {
    if s == [] then [""]
    else
      var rest := SplitOnSpace(s[1..]);
      if s[0] == ' ' then [""] + rest
      else [[s[0]] + rest[0]] + rest[1..]
  }

  predicate SpaceFree(w: string) {
    forall i :: 0 <= i < |w| ==> w[i] != ' '
  }

  lemma {:induction false} SplitAfterWord(w: string, t: string)
    requires SpaceFree(w)
    ensures SplitOnSpace(w + t) == [w + SplitOnSpace(t)[0]] + SplitOnSpace(t)[1..]
    decreases |w|
  {
    if w != [] {
      assert (w + t)[0] == w[0] && (w + t)[1..] == w[1..] + t;
      SplitAfterWord(w[1..], t);
      var rest := SplitOnSpace(w[1..] + t);
      assert SplitOnSpace(w + t) == [[w[0]] + rest[0]] + rest[1..];
      assert [w[0]] + (w[1..] + SplitOnSpace(t)[0]) == w + SplitOnSpace(t)[0];
    } else {
      var parts := SplitOnSpace(t);
      assert w + t == t && w + parts[0] == parts[0];
      assert parts == [parts[0]] + parts[1..];
    }
  }

  /** Splitting a joined transcript gives back its elements, when none holds a space. */
  lemma {:induction false} SplitJoinRoundTrip(parts: seq<string>)
    requires parts != []
    requires forall k :: 0 <= k < |parts| ==> SpaceFree(parts[k])
    ensures SplitOnSpace(JoinWithSpace(parts)) == parts
  {
    if |parts| == 1 {
      SplitAfterWord(parts[0], "");
      assert parts[0] + "" == parts[0];
    } else {
      var rest := JoinWithSpace(parts[1..]);
      assert parts[0] + " " + rest == parts[0] + (" " + rest);
      SplitAfterWord(parts[0], " " + rest);
      assert (" " + rest)[0] == ' ' && (" " + rest)[1..] == rest;
      assert SplitOnSpace(" " + rest) == [""] + SplitOnSpace(rest);
      SplitJoinRoundTrip(parts[1..]);
      assert parts[0] + "" == parts[0];
      assert [parts[0]] + parts[1..] == parts;
    }
  }

  /**
   * What a server event does to the displayed text: `partial` and `final`
   * events replace it with their joined elements, other types are ignored.
   */
  function TextUpdate(ev: ServerEvent): (r: Option<string>)
    ensures r.Some? <==> ev.kind == "partial" || ev.kind == "final"
    ensures r.Some? && ev.values != [] ==> |r.value| == TotalLength(ev.values) + |ev.values| - 1
  {
    if ev.kind == "partial" || ev.kind == "final" then Some(JoinWithSpace(ev.values)) else None
  }

  /** `toISOString().replace(/[:.]/g, '-')`. */
  function SanitizeTimestamp(ts: string): (r: string)
    ensures |r| == |ts|
    ensures forall i :: 0 <= i < |r| ==> r[i] != ':' && r[i] != '.'
    ensures forall i :: 0 <= i < |ts| ==>
      r[i] == (if ts[i] == ':' || ts[i] == '.' then '-' else ts[i])
  {
    if ts == [] then []
    else [if ts[0] == ':' || ts[0] == '.' then '-' else ts[0]] + SanitizeTimestamp(ts[1..])
  }

  const FilenamePrefix: string := "transcription-"
  const FilenameSuffix: string := ".txt"

  /** The name of the exported file for a given ISO timestamp. */
  function DownloadFilename(isoTimestamp: string): (name: string)
    ensures |name| == |FilenamePrefix| + |isoTimestamp| + |FilenameSuffix|
    ensures name[..|FilenamePrefix|] == FilenamePrefix
    ensures name[|name| - |FilenameSuffix|..] == FilenameSuffix
    ensures forall i :: |FilenamePrefix| <= i < |name| - |FilenameSuffix| ==> name[i] != ':' && name[i] != '.'
    ensures name[|FilenamePrefix|..|name| - |FilenameSuffix|] == SanitizeTimestamp(isoTimestamp)
  {
    FilenamePrefix + SanitizeTimestamp(isoTimestamp) + FilenameSuffix
  }

  /** A plain-text file handed to the browser's download helper. */
  datatype Download = Download(filename: string, content: string)

  /**
   * `stop_capture`: the stored transcript, when it is set and non-empty,
   * is exported under a timestamped name; otherwise nothing happens.
   */
  function OnStopCapture(stored: Option<string>, isoTimestamp: string): (r: Option<Download>)
    ensures r.Some? <==> stored.Some? && stored.value != ""
    ensures r.Some? ==> r.value.content == stored.value
    ensures r.Some? ==> r.value.filename == DownloadFilename(isoTimestamp)
  {
    if stored.Some? && stored.value != "" then
      Some(Download(DownloadFilename(isoTimestamp), stored.value))
    else None
  }
}
