/**
 * One recording session of options.js (`startRecord`): the readiness flag set
 * by `socket.onopen`, the gated `recorder.onaudioprocess` that caches each raw
 * block and sends one frame, and `socket.onmessage`, which replaces the
 * transcript text.
 *
 * The socket is only a log of the frames passed to `send`. The transcript
 * field is the `currentTranscription` storage key. A new session starts with
 * the value stored by an earlier one. `updateTranscriptionUI` writes the
 * on-page container and this key together, assuming the container element
 * exists (the only case modelled).
 */
module Capture {
  import opened Wrappers
  import opened Resampler
  import opened Pcm16
  import opened Transcript

  /** The bytes one processed block sends: resampled to 16 kHz, PCM16, little-endian. */
  function Frame(block: seq<real>, rate: real): (bytes: seq<byte>)
    requires rate > 0.0
    ensures |bytes| == 2 * TargetLength(|block|, rate)
    ensures DecodeFrame(bytes) == EncodeAll(Resampled(block, rate))
  {
    var values := EncodeAll(Resampled(block, rate));
    FrameRoundTrip(values);
    FrameBytes(values)
  }

  /** The callbacks the browser runs, one at a time, during a session. */
  datatype Callback =
    | Opened
    | AudioProcess(block: seq<real>)
    | MessageReceived(event: ServerEvent)

  /** The state the callbacks share. */
  datatype SessionState = SessionState(
    ready: bool,
    cache: seq<seq<real>>,
    sent: seq<seq<byte>>,
    transcription: Option<string>)

  /** A new session: not ready, nothing cached or sent, the transcript as stored. */
  function Initial(stored: Option<string>): SessionState
  {
    SessionState(false, [], [], stored)
  }

  /** The effect of one callback. */
  function Step(rate: real, s: SessionState, cb: Callback): SessionState
    requires rate > 0.0
  {
    match cb
    case Opened => s.(ready := true)
    case AudioProcess(block) =>
      if !s.ready then s
      else s.(cache := s.cache + [block], sent := s.sent + [Frame(block, rate)])
    case MessageReceived(ev) =>
      match TextUpdate(ev)
      case Some(text) => s.(transcription := Some(text))
      case None => s
  }

  /** The effect of a sequence of callbacks, in arrival order. */
  function Run(rate: real, s: SessionState, cbs: seq<Callback>): SessionState
    requires rate > 0.0
  {
    if cbs == [] then s
    else Step(rate, Run(rate, s, cbs[..|cbs| - 1]), cbs[|cbs| - 1])
  }

  /** The blocks that get through the gate: those processed once the socket is open. */
  function AdmittedBlocks(ready: bool, cbs: seq<Callback>): seq<seq<real>>
    decreases |cbs|
  {
    if cbs == [] then []
    else match cbs[0]
      case Opened => AdmittedBlocks(true, cbs[1..])
      case AudioProcess(b) => (if ready then [b] else []) + AdmittedBlocks(ready, cbs[1..])
      case MessageReceived(_) => AdmittedBlocks(ready, cbs[1..])
  }

  /** All processed blocks, in callback order. */
  function AllBlocks(cbs: seq<Callback>): seq<seq<real>>
  {
    if cbs == [] then []
    else (if cbs[0].AudioProcess? then [cbs[0].block] else []) + AllBlocks(cbs[1..])
  }

  /** The frame of each block, in order. */
  function Frames(blocks: seq<seq<real>>, rate: real): (frames: seq<seq<byte>>)
    requires rate > 0.0
    ensures |frames| == |blocks|
  {
    seq(|blocks|, i requires 0 <= i < |blocks| => Frame(blocks[i], rate))
  }

  /** The text of the last `partial` or `final` event, if there is one. */
  function LastText(cbs: seq<Callback>): Option<string>
  {
    if cbs == [] then None
    else
      var later := LastText(cbs[1..]);
      if later.Some? then later
      else if cbs[0].MessageReceived? then TextUpdate(cbs[0].event)
      else None
  }

  lemma {:induction false} AdmittedSnoc(ready: bool, cbs: seq<Callback>, c: Callback)
    ensures AdmittedBlocks(ready, cbs + [c]) ==
      AdmittedBlocks(ready, cbs) +
      (if c.AudioProcess? && (ready || Opened in cbs) then [c.block] else [])
    decreases |cbs|
  {
    if cbs == [] {
      assert [c][1..] == [];
    } else {
      assert (cbs + [c])[0] == cbs[0] && (cbs + [c])[1..] == cbs[1..] + [c];
      match cbs[0]
      case Opened =>
        AdmittedSnoc(true, cbs[1..], c);
      case AudioProcess(b) =>
        AdmittedSnoc(ready, cbs[1..], c);
        assert (Opened in cbs) == (Opened in cbs[1..]);
      case MessageReceived(_) =>
        AdmittedSnoc(ready, cbs[1..], c);
        assert (Opened in cbs) == (Opened in cbs[1..]);
    }
  }

  lemma {:induction false} LastTextSnoc(cbs: seq<Callback>, c: Callback)
    ensures LastText(cbs + [c]) ==
      if c.MessageReceived? && TextUpdate(c.event).Some? then TextUpdate(c.event) else LastText(cbs)
    decreases |cbs|
  {
    if cbs == [] {
      assert [c][1..] == [];
    } else {
      assert (cbs + [c])[0] == cbs[0] && (cbs + [c])[1..] == cbs[1..] + [c];
      LastTextSnoc(cbs[1..], c);
    }
  }

  lemma {:induction false} RunReady(rate: real, s: SessionState, cbs: seq<Callback>)
    requires rate > 0.0
    ensures Run(rate, s, cbs).ready == (s.ready || Opened in cbs)
    decreases |cbs|
  {
    if cbs != [] {
      var init, c := cbs[..|cbs| - 1], cbs[|cbs| - 1];
      assert cbs == init + [c];
      RunReady(rate, s, init);
      assert (Opened in cbs) == (Opened in init || c == Opened);
    }
  }

  lemma {:induction false} RunLog(rate: real, s: SessionState, cbs: seq<Callback>)
    requires rate > 0.0
    ensures Run(rate, s, cbs).cache == s.cache + AdmittedBlocks(s.ready, cbs)
    ensures Run(rate, s, cbs).sent == s.sent + Frames(AdmittedBlocks(s.ready, cbs), rate)
    decreases |cbs|
  {
    if cbs != [] {
      var init, c := cbs[..|cbs| - 1], cbs[|cbs| - 1];
      assert cbs == init + [c];
      RunLog(rate, s, init);
      RunReady(rate, s, init);
      AdmittedSnoc(s.ready, init, c);
      var prev := Run(rate, s, init);
      var before := AdmittedBlocks(s.ready, init);
      assert Run(rate, s, cbs) == Step(rate, prev, c);
      if c.AudioProcess? && prev.ready {
        var b := c.block;
        assert AdmittedBlocks(s.ready, cbs) == before + [b];
        assert Frames(before + [b], rate) == Frames(before, rate) + [Frame(b, rate)];
        assert s.cache + (before + [b]) == (s.cache + before) + [b];
        assert s.sent + (Frames(before, rate) + [Frame(b, rate)]) ==
          (s.sent + Frames(before, rate)) + [Frame(b, rate)];
      } else {
        assert AdmittedBlocks(s.ready, cbs) == before;
        assert Run(rate, s, cbs).cache == prev.cache && Run(rate, s, cbs).sent == prev.sent;
      }
    }
  }

  lemma {:induction false} RunTranscript(rate: real, s: SessionState, cbs: seq<Callback>)
    requires rate > 0.0
    ensures Run(rate, s, cbs).transcription ==
      (if LastText(cbs).Some? then LastText(cbs) else s.transcription)
    decreases |cbs|
  {
    if cbs != [] {
      var init, c := cbs[..|cbs| - 1], cbs[|cbs| - 1];
      assert cbs == init + [c];
      RunTranscript(rate, s, init);
      LastTextSnoc(init, c);
    }
  }

  /**
   * What a run of callbacks leaves behind: ready exactly when some callback
   * opened the socket; every admitted block cached and sent as one frame, in
   * order; the transcript from the last `partial`/`final` event, or as before.
   */
  lemma RunCharacterised(rate: real, s: SessionState, cbs: seq<Callback>)
    requires rate > 0.0
    ensures var r := Run(rate, s, cbs);
      r.ready == (s.ready || Opened in cbs) &&
      r.cache == s.cache + AdmittedBlocks(s.ready, cbs) &&
      r.sent == s.sent + Frames(AdmittedBlocks(s.ready, cbs), rate) &&
      r.transcription == (if LastText(cbs).Some? then LastText(cbs) else s.transcription)
  {
    RunReady(rate, s, cbs);
    RunLog(rate, s, cbs);
    RunTranscript(rate, s, cbs);
  }

  lemma {:induction false} NoOpenNoAdmission(cbs: seq<Callback>)
    requires Opened !in cbs
    ensures AdmittedBlocks(false, cbs) == []
    decreases |cbs|
  {
    if cbs != [] {
      assert cbs[0] in cbs;
      NoOpenNoAdmission(cbs[1..]);
    }
  }

  lemma {:induction false} OpenAdmitsAll(cbs: seq<Callback>)
    ensures AdmittedBlocks(true, cbs) == AllBlocks(cbs)
    decreases |cbs|
  {
    if cbs != [] {
      OpenAdmitsAll(cbs[1..]);
    }
  }

  /** Until the socket has opened, a session neither caches nor sends anything. */
  lemma {:induction false} NothingSentBeforeOpen(rate: real, stored: Option<string>, cbs: seq<Callback>)
    requires rate > 0.0
    requires Opened !in cbs
    ensures var r := Run(rate, Initial(stored), cbs);
      !r.ready && r.cache == [] && r.sent == []
  {
    RunCharacterised(rate, Initial(stored), cbs);
    NoOpenNoAdmission(cbs);
  }

  /** Once open, every block is cached and sent as exactly one frame, in callback order. */
  lemma {:induction false} OneFramePerBlockOnceOpen(rate: real, s: SessionState, cbs: seq<Callback>)
    requires rate > 0.0
    requires s.ready
    ensures var r := Run(rate, s, cbs);
      r.cache == s.cache + AllBlocks(cbs) &&
      r.sent == s.sent + Frames(AllBlocks(cbs), rate)
  {
    RunCharacterised(rate, s, cbs);
    OpenAdmitsAll(cbs);
  }

  /** The cache and the send log grow together: one cached block per frame sent. */
  lemma {:induction false} CacheMatchesSends(rate: real, stored: Option<string>, cbs: seq<Callback>)
    requires rate > 0.0
    ensures var r := Run(rate, Initial(stored), cbs);
      |r.cache| == |r.sent| &&
      forall i :: 0 <= i < |r.sent| ==> r.sent[i] == Frame(r.cache[i], rate)
  {
    RunCharacterised(rate, Initial(stored), cbs);
    var blocks := AdmittedBlocks(false, cbs);
    var r := Run(rate, Initial(stored), cbs);
    assert r.cache == blocks && r.sent == Frames(blocks, rate);
    forall i | 0 <= i < |r.sent|
      ensures r.sent[i] == Frame(r.cache[i], rate)
    {
      assert Frames(blocks, rate)[i] == Frame(blocks[i], rate);
    }
  }

  /** Last write wins: the transcript is that of the latest `partial` or `final` event. */
  lemma {:induction false} LastWriteWins(rate: real, s: SessionState, cbs: seq<Callback>, ev: ServerEvent, rest: seq<Callback>)
    requires rate > 0.0
    requires ev.kind == "partial" || ev.kind == "final"
    requires forall k :: 0 <= k < |rest| ==> !rest[k].MessageReceived?
    ensures Run(rate, s, cbs + [MessageReceived(ev)] + rest).transcription ==
      Some(JoinWithSpace(ev.values))
  {
    var all := cbs + [MessageReceived(ev)] + rest;
    RunCharacterised(rate, s, all);
    LastTextAfter(cbs, ev, rest);
  }

  lemma {:induction false} LastTextAfter(cbs: seq<Callback>, ev: ServerEvent, rest: seq<Callback>)
    requires ev.kind == "partial" || ev.kind == "final"
    requires forall k :: 0 <= k < |rest| ==> !rest[k].MessageReceived?
    ensures LastText(cbs + [MessageReceived(ev)] + rest) == Some(JoinWithSpace(ev.values))
    decreases |rest|
  {
    if rest == [] {
      assert cbs + [MessageReceived(ev)] + rest == cbs + [MessageReceived(ev)];
      LastTextSnoc(cbs, MessageReceived(ev));
    } else {
      var front := rest[..|rest| - 1];
      assert cbs + [MessageReceived(ev)] + rest == (cbs + [MessageReceived(ev)] + front) + [rest[|rest| - 1]];
      LastTextAfter(cbs, ev, front);
      LastTextSnoc(cbs + [MessageReceived(ev)] + front, rest[|rest| - 1]);
    }
  }

  /** Events of any other type leave the transcript as it was. */
  lemma OtherEventsIgnored(rate: real, s: SessionState, ev: ServerEvent)
    requires rate > 0.0
    requires ev.kind != "partial" && ev.kind != "final"
    ensures Step(rate, s, MessageReceived(ev)) == s
  {
  }

  /** The mutable session state held by the closures of `startRecord`. */
  class CaptureSession {
    /** `context.sampleRate`, fixed for the session. */
    const sampleRate: real
    var isServerReady: bool
    var audioDataCache: seq<seq<real>>
    /** The frames passed to `socket.send`, oldest first. */
    var sentFrames: seq<seq<byte>>
    var currentTranscription: Option<string>

    ghost predicate Valid()
      reads this
    {
      sampleRate > 0.0
    }

    function State(): SessionState
      reads this
    {
      SessionState(isServerReady, audioDataCache, sentFrames, currentTranscription)
    }

    constructor (sampleRate: real, stored: Option<string>)
      requires sampleRate > 0.0
      ensures Valid() && this.sampleRate == sampleRate
      ensures State() == Initial(stored)
    {
      this.sampleRate := sampleRate;
      isServerReady := false;
      audioDataCache := [];
      sentFrames := [];
      currentTranscription := stored;
    }

    /** `socket.onopen`: the only place the session becomes ready. */
    method OnOpen()
      requires Valid()
      modifies this
      ensures Valid()
      ensures isServerReady
      ensures audioDataCache == old(audioDataCache) && sentFrames == old(sentFrames)
      ensures currentTranscription == old(currentTranscription)
      ensures State() == Step(sampleRate, old(State()), Opened)
    {
      isServerReady := true;
    }

    /** `recorder.onaudioprocess`: dropped until ready, then cached and sent as one frame. */
    method OnAudioProcess(inputData: seq<real>)
      requires Valid()
      modifies this
      ensures Valid()
      ensures isServerReady == old(isServerReady)
      ensures currentTranscription == old(currentTranscription)
      ensures !old(isServerReady) ==>
        audioDataCache == old(audioDataCache) && sentFrames == old(sentFrames)
      ensures old(isServerReady) ==>
        audioDataCache == old(audioDataCache) + [inputData] &&
        sentFrames == old(sentFrames) + [Frame(inputData, sampleRate)]
      ensures State() == Step(sampleRate, old(State()), AudioProcess(inputData))
    {
      if !isServerReady {
        return;
      }
      var audioData16kHz := Resample(inputData, sampleRate);
      var audioDataInt16 := EncodeBlock(audioData16kHz);
      audioDataCache := audioDataCache + [inputData];
      sentFrames := sentFrames + [FrameBytes(audioDataInt16[..])];
    }

    /** `socket.onmessage` followed by `updateTranscriptionUI`. */
    method OnMessage(ev: ServerEvent)
      requires Valid()
      modifies this
      ensures Valid()
      ensures isServerReady == old(isServerReady)
      ensures audioDataCache == old(audioDataCache) && sentFrames == old(sentFrames)
      ensures ev.kind == "partial" || ev.kind == "final" ==>
        currentTranscription == Some(JoinWithSpace(ev.values))
      ensures ev.kind != "partial" && ev.kind != "final" ==>
        currentTranscription == old(currentTranscription)
      ensures State() == Step(sampleRate, old(State()), MessageReceived(ev))
    {
      if ev.kind == "partial" || ev.kind == "final" {
        var transcribedText := JoinWithSpace(ev.values);
        currentTranscription := Some(transcribedText);
      }
    }
  }

  /**
   * A whole session: a new `CaptureSession` receives the callbacks one at a
   * time, in order, as the browser's event loop delivers them.
   */
  method RunSession(rate: real, stored: Option<string>, cbs: seq<Callback>) returns (final: SessionState)
    requires rate > 0.0
    ensures final == Run(rate, Initial(stored), cbs)
  {
    var session := new CaptureSession(rate, stored);
    var i := 0;
    while i < |cbs|
      invariant 0 <= i <= |cbs|
      invariant session.Valid() && session.sampleRate == rate
      invariant session.State() == Run(rate, Initial(stored), cbs[..i])
    {
      assert cbs[..i + 1][..i] == cbs[..i];
      match cbs[i] {
        case Opened => session.OnOpen();
        case AudioProcess(block) => session.OnAudioProcess(block);
        case MessageReceived(ev) => session.OnMessage(ev);
      }
      i := i + 1;
    }
    assert cbs[..|cbs|] == cbs;
    final := session.State();
  }
}
