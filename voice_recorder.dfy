/**
 * The voice-message recorder (frontend/src/components/chat/voice-recorder.tsx): the
 * `M:SS` label of the recording time, and the recorder's flags, timer and chunk list as
 * the microphone, the timer and the media recorder drive them. The microphone, the
 * interval timer and the upload request are events and parameters here.
 */
module VoiceRecorder {
  import opened Wrappers
  import opened Text
  import opened FileUpload

  // ------------------------------------------------------------------
  // The time label
  // ------------------------------------------------------------------

  /** JavaScript's `a % 60`: the remainder truncated toward zero, so it has the sign of `a`. */
  function JsRem60(a: int): (r: int)
    ensures -60 < r < 60
    ensures a >= 0 ==> r >= 0
    ensures a < 0 ==> r <= 0
    ensures (a - r) % 60 == 0
  {
    if a >= 0 then a % 60 else -((-a) % 60)
  }

  /** `s.padStart(n, c)`: `s` with copies of `c` in front until it is `n` long. */
  function PadStart(s: string, n: nat, c: char): (r: string)
    ensures |r| == if |s| >= n then |s| else n
    ensures EndsWith(r, s)
    ensures forall i :: 0 <= i < |r| - |s| ==> r[i] == c
  {
    if |s| >= n then s else seq(n - |s|, _ => c) + s
  }

  /** `formatTime`: the floored minutes, a colon, and the seconds remainder padded to two characters. */
  function FormatTime(seconds: int): (text: string)
    ensures |text| >= 4 && ':' in text
    ensures seconds >= 0 ==> text[|text| - 3] == ':'
  {
    var m := IntToString(seconds / 60);
    var p := PadStart(IntToString(JsRem60(seconds)), 2, '0');
    SecondsPart(m, p);
    if seconds >= 0 then
      SecondsPartWidth(seconds);
      m + ":" + p
    else m + ":" + p
  }

  /** Minutes, a colon and a padded seconds part: the colon sits just before the seconds part. */
  lemma SecondsPart(m: string, p: string)
    requires |m| >= 1 && |p| >= 2
    ensures |m + ":" + p| >= 4 && (m + ":" + p)[|m + ":" + p| - |p| - 1] == ':' && ':' in m + ":" + p
  {
    assert (m + ":" + p)[|m|] == ':';
  }

  /** For a non-negative time the padded seconds part is exactly two characters. */
  lemma SecondsPartWidth(seconds: int)
    requires seconds >= 0
    ensures |PadStart(IntToString(JsRem60(seconds)), 2, '0')| == 2
  {
    assert JsRem60(seconds) == seconds % 60;
    TwoDigits(seconds % 60);
  }

  /** Reads a label back: digits, a colon, exactly two digits. */
  function ParseTime(t: string): (r: Option<nat>)
    ensures r.Some? ==> ':' in t
  {
    var m := BeforeFirst(t, ':');
    if |m| == |t| then None
    else
      var ss := t[|m| + 1..];
      if m != [] && AllDigits(m) && |ss| == 2 && AllDigits(ss) then Some(DigitsValue(m) * 60 + DigitsValue(ss))
      else None
  }

  /** The text before the first colon of `m + ":" + rest`, when `m` has no colon, is `m`. */
  lemma BeforeFirstColon(m: string, rest: string)
    requires ':' !in m
    ensures BeforeFirst(m + ":" + rest, ':') == m
  {
    var t := m + ":" + rest;
    assert t[|m|] == ':' && t[..|m|] == m;
  }

  /** A seconds value below 60, rendered and padded, is two digits that read back as the value. */
  lemma TwoDigits(q: nat)
    requires q < 60
    ensures var p := PadStart(IntToString(q), 2, '0');
      |p| == 2 && AllDigits(p) && DigitsValue(p) == q
  {
    var s := NatToString(q);
    DigitsValueOfNatToString(q);
    if q < 10 {
      var p := PadStart(s, 2, '0');
      assert p == ['0'] + s;
      assert p[..1] == ['0'];
    } else {
      assert NatToString(q / 10) == [DigitChar(q / 10)];
    }
  }

  /**
   * `t` is the minutes in digits, a colon and exactly two digits for the seconds, and the
   * minutes have no leading zero unless they are 0.
   */
  predicate LabelParts(t: string, mins: nat, secs: nat)
  {
    var m := BeforeFirst(t, ':');
    && |m| < |t|
    && var ss := t[|m| + 1..];
    && m != [] && AllDigits(m) && DigitsValue(m) == mins && (m[0] == '0' ==> mins == 0)
    && |ss| == 2 && AllDigits(ss) && DigitsValue(ss) == secs
  }

  /**
   * For a non-negative time, the label is the unpadded minutes, a colon, and exactly two
   * digits for the seconds, which are below 60.
   */
  lemma FormatTimeParts(s: nat)
    ensures LabelParts(FormatTime(s), s / 60, s % 60) && s % 60 < 60
  {
    var m := NatToString(s / 60);
    var p := PadStart(IntToString(JsRem60(s)), 2, '0');
    var t := FormatTime(s);
    assert t == m + ":" + p;
    BeforeFirstColon(m, p);
    assert t[|m| + 1..] == p;
    DigitsValueOfNatToString(s / 60);
    TwoDigits(s % 60);
  }

  /** A label made of a time's minute digits, a colon and two second digits reads back as that time. */
  lemma ParseParts(t: string, s: nat)
    requires LabelParts(t, s / 60, s % 60)
    ensures ParseTime(t) == Some(s)
  {
    assert s / 60 * 60 + s % 60 == s;
  }

  /** Reading a non-negative time's label back gives the time. */
  lemma FormatTimeRoundTrip(s: nat)
    ensures ParseTime(FormatTime(s)) == Some(s)
  {
    FormatTimeParts(s);
    ParseParts(FormatTime(s), s);
  }

  /** Distinct non-negative times get distinct labels. */
  lemma FormatTimeInjective(a: nat, b: nat)
    ensures FormatTime(a) == FormatTime(b) <==> a == b
  {
    FormatTimeRoundTrip(a);
    FormatTimeRoundTrip(b);
  }

  /**
   * The two padding edge cases of `padStart(2, '0')`: a one-digit remainder gets a leading
   * zero (65 s is "1:05"), and a zero remainder is written "00" after two-digit minutes (600 s is "10:00").
   */
  lemma FormatTimeExamples()
    ensures FormatTime(65) == "1:05"
    ensures FormatTime(600) == "10:00"
  {
    assert NatToString(1) == "1";
    assert NatToString(5) == "5";
    assert NatToString(10) == "10";
    assert NatToString(0) == "0";
  }

  /** A negative time keeps JavaScript's signs: minus five seconds reads "-1:-5". */
  lemma NegativeTimeLabel()
    ensures FormatTime(-5) == "-1:-5"
  {
    assert -5 / 60 == -1 && JsRem60(-5) == -5;
    assert NatToString(1) == "1" && NatToString(5) == "5";
    assert IntToString(-1) == "-1" && IntToString(-5) == "-5";
    assert PadStart("-5", 2, '0') == "-5";
  }

  // ------------------------------------------------------------------
  // The recorder
  // ------------------------------------------------------------------

  /**
   * How a press of the microphone button goes: access refused, access granted but the
   * recorder could not be created, or recording started.
   */
  datatype StartOutcome = Denied | RecorderUnsupported | Started

  /** What is handed to `onVoiceMessageSend`: the upload response spread, and a duration. */
  datatype VoiceMessage = VoiceMessage(file: FileData, duration: int)

  /** An upload request: the file name, the blob's type and its size in bytes. */
  datatype VoiceUpload = VoiceUpload(filename: string, mimeType: string, bytes: nat)

  const MicrophoneAlert: string := "Could not access microphone. Please grant permission."
  const UploadAlert: string := "Failed to send voice message"
  const VoiceMimeType: string := "audio/webm"

  /** The uploaded file's name, from the clock reading at upload time. */
  function VoiceFileName(now: int): (r: string)
    ensures StartsWith(r, "voice_") && EndsWith(r, ".webm")
  {
    "voice_" + IntToString(now) + ".webm"
  }

  /** Uploads at distinct clock readings get distinct names. */
  lemma VoiceFileNameInjective(a: int, b: int)
    ensures VoiceFileName(a) == VoiceFileName(b) <==> a == b
  {
    if VoiceFileName(a) == VoiceFileName(b) {
      var ta, tb := VoiceFileName(a), VoiceFileName(b);
      assert ta[6..|ta| - 5] == IntToString(a);
      assert tb[6..|tb| - 5] == IntToString(b);
      IntToStringInjective(a, b);
    }
  }

  /** The size of the blob made of the chunks. */
  function Total(chunks: seq<nat>): nat
  {
    if chunks == [] then 0 else Total(chunks[..|chunks| - 1]) + chunks[|chunks| - 1]
  }

  /** Collecting one more chunk grows the blob by exactly its size. */
  lemma TotalAppend(chunks: seq<nat>, size: nat)
    ensures Total(chunks + [size]) == Total(chunks) + size
  {
    assert (chunks + [size])[..|chunks|] == chunks;
  }

  /** A blob made only of non-empty chunks is empty exactly when there are no chunks. */
  lemma {:induction false} TotalZeroIff(chunks: seq<nat>)
    requires forall i :: 0 <= i < |chunks| ==> chunks[i] > 0
    ensures Total(chunks) == 0 <==> chunks == []
  {
    if chunks != [] {
      TotalZeroIff(chunks[..|chunks| - 1]);
    }
  }

  class Recorder {
    var isRecording: bool
    var recordingTime: int
    /** Whether `mediaRecorderRef` holds a recorder. */
    var hasRecorder: bool
    /** The sizes of the collected chunks, oldest first. */
    var chunks: seq<nat>
    /** The interval timers still running. */
    var intervals: nat
    /** Whether `timerRef` holds one of them. */
    var timerRef: bool
    /** Whether `streamRef` holds an open microphone stream. */
    var streamOpen: bool
    /**
     * The recording time the current recorder's stop handler will report: the handler
     * closes over the value shown when recording was started, not the value at stop time.
     */
    var capturedTime: int
    /** Stopped recorders whose stop handler has not run yet, with the duration each will report. */
    var pendingStops: seq<int>
    var uploads: seq<VoiceUpload>
    var sent: seq<VoiceMessage>
    var alerts: seq<string>

    /** Only chunks with data are collected, and `timerRef` names a running timer. */
    ghost predicate Valid()
      reads this
    {
      (forall i :: 0 <= i < |chunks| ==> chunks[i] > 0) && (timerRef ==> intervals > 0)
    }

    constructor ()
      ensures Valid()
      ensures !isRecording && recordingTime == 0 && !hasRecorder && chunks == []
      ensures intervals == 0 && !timerRef && !streamOpen && capturedTime == 0
      ensures pendingStops == [] && uploads == [] && sent == [] && alerts == []
    {
      isRecording, recordingTime, hasRecorder, chunks := false, 0, false, [];
      intervals, timerRef, streamOpen, capturedTime := 0, false, false, 0;
      pendingStops, uploads, sent, alerts := [], [], [], [];
    }

    /**
     * `startRecording`: a refusal only alerts; a stream without a recorder stays open and
     * alerts; a started recorder empties the chunk list, sets recording on with the time at
     * 0 and starts a new interval timer.
     */
    method StartRecording(outcome: StartOutcome)
      requires Valid()
      modifies this
      ensures Valid()
      ensures outcome == Denied ==>
        alerts == old(alerts) + [MicrophoneAlert] && streamOpen == old(streamOpen)
      ensures outcome == RecorderUnsupported ==> alerts == old(alerts) + [MicrophoneAlert] && streamOpen
      ensures outcome != Started ==>
        && isRecording == old(isRecording) && recordingTime == old(recordingTime)
        && hasRecorder == old(hasRecorder) && chunks == old(chunks)
        && intervals == old(intervals) && timerRef == old(timerRef) && capturedTime == old(capturedTime)
      ensures outcome == Started ==>
        && isRecording && recordingTime == 0 && hasRecorder && chunks == [] && streamOpen
        && intervals == old(intervals) + 1 && timerRef
        && capturedTime == old(recordingTime) && alerts == old(alerts)
      ensures pendingStops == old(pendingStops) && uploads == old(uploads) && sent == old(sent)
    {
      match outcome
      case Denied =>
        alerts := alerts + [MicrophoneAlert];
      case RecorderUnsupported =>
        streamOpen := true;
        alerts := alerts + [MicrophoneAlert];
      case Started =>
        streamOpen := true;
        hasRecorder := true;
        capturedTime := recordingTime;
        chunks := [];
        isRecording := true;
        recordingTime := 0;
        intervals := intervals + 1;
        timerRef := true;
    }

    /** `ondataavailable`: a chunk is collected only when it holds data. */
    method DataAvailable(size: int)
      requires Valid()
      modifies this`chunks
      ensures Valid()
      ensures chunks == old(chunks) + (if size > 0 then [size as nat] else [])
    {
      if size > 0 {
        chunks := chunks + [size as nat];
      }
    }

    /** A running interval timer fires: the time goes up by exactly one. */
    method Tick()
      requires intervals > 0
      modifies this`recordingTime
      ensures recordingTime == old(recordingTime) + 1
    {
      recordingTime := recordingTime + 1;
    }

    /** `stopAndSend`: only while recording, the recorder is stopped and recording goes off. */
    method StopAndSend()
      modifies this`isRecording, this`pendingStops
      ensures old(hasRecorder && isRecording) ==> !isRecording && pendingStops == old(pendingStops) + [capturedTime]
      ensures !old(hasRecorder && isRecording) ==> isRecording == old(isRecording) && pendingStops == old(pendingStops)
    {
      if hasRecorder && isRecording {
        pendingStops := pendingStops + [capturedTime];
        isRecording := false;
      }
    }

    /** `cleanup`: the interval in `timerRef` is cleared, the stream is released and the time goes back to 0. */
    method Cleanup()
      requires Valid()
      modifies this`intervals, this`timerRef, this`streamOpen, this`recordingTime
      ensures Valid()
      ensures !timerRef && !streamOpen && recordingTime == 0
      ensures intervals == if old(timerRef) then old(intervals) - 1 else old(intervals)
    {
      if timerRef {
        intervals := intervals - 1;
        timerRef := false;
      }
      streamOpen := false;
      recordingTime := 0;
    }

    /**
     * `cancelRecording`: while recording, the recorder is stopped and the chunks are
     * discarded; in every case the cleanup follows. The stopped recorder's handler still
     * runs later and uploads whatever has been collected by then.
     */
    method Cancel()
      requires Valid()
      modifies this
      ensures Valid()
      ensures old(hasRecorder && isRecording) ==>
        !isRecording && chunks == [] && pendingStops == old(pendingStops) + [capturedTime]
      ensures !old(hasRecorder && isRecording) ==>
        isRecording == old(isRecording) && chunks == old(chunks) && pendingStops == old(pendingStops)
      ensures !timerRef && !streamOpen && recordingTime == 0
      ensures intervals == if old(timerRef) then old(intervals) - 1 else old(intervals)
      ensures hasRecorder == old(hasRecorder) && capturedTime == old(capturedTime)
      ensures uploads == old(uploads) && sent == old(sent) && alerts == old(alerts)
    {
      if hasRecorder && isRecording {
        pendingStops := pendingStops + [capturedTime];
        isRecording := false;
        chunks := [];
      }
      Cleanup();
    }

    /**
     * The stopped recorder's `onstop` handler, with the clock reading and the upload's
     * response: the collected chunks are uploaded as one blob; a response becomes a voice
     * message carrying the duration captured at start, a failure an alert; then the cleanup.
     */
    method RecorderStopped(now: int, response: Option<FileData>)
      requires Valid() && pendingStops != []
      modifies this
      ensures Valid()
      ensures pendingStops == old(pendingStops)[1..]
      ensures uploads == old(uploads) + [VoiceUpload(VoiceFileName(now), VoiceMimeType, Total(old(chunks)))]
      ensures response.Some? ==>
        sent == old(sent) + [VoiceMessage(response.value, old(pendingStops)[0])] && alerts == old(alerts)
      ensures response.None? ==> sent == old(sent) && alerts == old(alerts) + [UploadAlert]
      ensures !timerRef && !streamOpen && recordingTime == 0
      ensures intervals == if old(timerRef) then old(intervals) - 1 else old(intervals)
      ensures isRecording == old(isRecording) && hasRecorder == old(hasRecorder) && chunks == old(chunks)
      ensures capturedTime == old(capturedTime)
    {
      var duration := pendingStops[0];
      pendingStops := pendingStops[1..];
      uploads := uploads + [VoiceUpload(VoiceFileName(now), VoiceMimeType, Total(chunks))];
      if response.Some? {
        sent := sent + [VoiceMessage(response.value, duration)];
      } else {
        alerts := alerts + [UploadAlert];
      }
      Cleanup();
    }
  }

  /**
   * A cancelled recording is uploaded and sent all the same: cancelling empties the chunk
   * list before the stopped recorder delivers its final chunk, and the stop handler then
   * uploads what was collected.
   */
  method CancelledRecordingIsSent(now: int, lastChunk: nat, response: FileData) returns (r: Recorder)
    requires lastChunk > 0
    ensures r.uploads == [VoiceUpload(VoiceFileName(now), VoiceMimeType, lastChunk)]
    ensures r.sent == [VoiceMessage(response, 0)] && r.alerts == []
  {
    r := new Recorder();
    r.StartRecording(Started);
    r.Cancel();
    r.DataAvailable(lastChunk);
    assert r.chunks == [lastChunk] && Total(r.chunks) == lastChunk by {
      assert r.chunks[..0] == [];
    }
    r.RecorderStopped(now, Some(response));
  }
}
