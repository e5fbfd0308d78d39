/** The capture controller of src/lib/audioRecorder.ts: the `AudioRecorder`
    class, its choice of container format, the extraction of the base64 payload
    from a data URL, and `generateSessionId`.

    Browser objects are reduced to what the class observes of them: the
    microphone stream to the constraints it was requested with, the platform
    recorder to its options and whether it is running. Whether the browser
    grants the device, accepts the recorder and starts it is an input, and so
    are the data URL the `FileReader` produces, the clock reading and the
    random draws of `Math.random`. */
module AudioCapture {
  import opened Wrappers
  import opened Strings

  // ----- container format -----------------------------------------------

  /** The container formats the recorder asks for, most preferred first. */
  const MimePreferences: seq<string> :=
    ["audio/webm;codecs=opus", "audio/webm", "audio/ogg;codecs=opus", "audio/mp4"]

  /** The position of the first entry of `prefs` in `supported`, or `|prefs|`
      when there is none. */
  function FirstSupportedIndex(prefs: seq<string>, supported: set<string>): (i: nat)
    ensures i <= |prefs|
    ensures i < |prefs| ==> prefs[i] in supported
    ensures forall j :: 0 <= j < i ==> prefs[j] !in supported
  {
    if |prefs| == 0 then 0
    else if prefs[0] in supported then 0
    else
      var i := FirstSupportedIndex(prefs[1..], supported);
      assert forall j :: 1 <= j < i + 1 ==> prefs[j] == prefs[1..][j - 1];
      i + 1
  }

  /** The first entry of `prefs` that the platform supports, or `""` (the
      platform default) when it supports none of them. */
  function FirstSupported(prefs: seq<string>, supported: set<string>): (mime: string)
    requires forall k :: 0 <= k < |prefs| ==> prefs[k] != ""
    ensures mime == "" <==> forall k :: 0 <= k < |prefs| ==> prefs[k] !in supported
    ensures mime != "" ==>
      exists k :: 0 <= k < |prefs| && prefs[k] == mime && mime in supported &&
        forall j :: 0 <= j < k ==> prefs[j] !in supported
  {
    var i := FirstSupportedIndex(prefs, supported);
    if i < |prefs| then prefs[i] else ""
  }

  /** `getSupportedMimeType`: probes the preferences in order and returns the
      first one `MediaRecorder.isTypeSupported` accepts (here: the ones in
      `supported`), or `""`. */
  method GetSupportedMimeType(supported: set<string>) returns (mime: string)
    ensures mime == FirstSupported(MimePreferences, supported)
  {
    for i := 0 to |MimePreferences|
      invariant FirstSupported(MimePreferences, supported) ==
                FirstSupported(MimePreferences[i..], supported)
    {
      assert MimePreferences[i..][1..] == MimePreferences[i + 1..];
      if MimePreferences[i] in supported {
        return MimePreferences[i];
      }
    }
    return "";
  }

  // ----- base64 payload ---------------------------------------------------

  /** The `blobToBase64` post-processing `dataUrl.split(',')[1]`: the text
      between the first comma and the next one (or the end). Without a comma
      JavaScript yields `undefined`, here `None`. */
  function DataUrlPayload(dataUrl: string): (payload: Option<string>)
    ensures payload.Some? <==> ',' in dataUrl
    ensures payload.Some? ==> ',' !in payload.value
  {
    var parts := Split(dataUrl, ',');
    if |parts| >= 2 then Some(parts[1]) else None
  }

  /** The first piece of a comma-free `body` followed by nothing or by a
      comma is `body` itself. */
  lemma FirstPieceIs(body: string, rest: string)
    requires ',' !in body
    requires rest == "" || rest[0] == ','
    ensures Split(body + rest, ',')[0] == body
  {
    if rest == "" {
      assert body + rest == body;
    } else {
      assert rest == [','] + rest[1..];
      assert body + rest == body + [','] + rest[1..];
      SplitAfterFirst(body, ',', rest[1..]);
    }
  }

  /** The payload is exactly the piece after the first comma, up to the next
      comma if any: for a FileReader data URL, whose header holds one comma and
      whose base64 alphabet has none, that is the whole encoded body. */
  lemma PayloadAfterFirstComma(header: string, body: string, rest: string)
    requires ',' !in header && ',' !in body
    requires rest == "" || rest[0] == ','
    ensures DataUrlPayload(header + "," + body + rest) == Some(body)
  {
    assert header + "," + body + rest == header + [','] + (body + rest);
    SplitAfterFirst(header, ',', body + rest);
    FirstPieceIs(body, rest);
  }

  lemma PayloadExample()
    ensures DataUrlPayload("data:audio/webm;base64,QUJD") == Some("QUJD")
  {
    var header, body := "data:audio/webm;base64", "QUJD";
    assert ',' !in header && ',' !in body;
    assert header + "," + body + "" == "data:audio/webm;base64,QUJD";
    PayloadAfterFirstComma(header, body, "");
  }

  // ----- session identifiers ----------------------------------------------

  /** One draw `(Math.random() * 16) | 0`. */
  type Nibble = n: nat | n < 16

  const UuidTemplate := "xxxxxxxx-xxxx-4xxx-yxxx-xxxxxxxxxxxx"

  /** A lower-case hexadecimal digit. */
  predicate IsHexDigit(c: char)
  {
    '0' <= c <= '9' || 'a' <= c <= 'f'
  }

  /** A digit `(r & 0x3) | 0x8` can produce: 8, 9, a or b. */
  predicate IsVariantDigit(c: char)
  {
    '8' <= c <= '9' || 'a' <= c <= 'b'
  }

  /** `v.toString(16)` for a value below 16. */
  function HexDigit(v: Nibble): (c: char)
    ensures IsHexDigit(c)
    ensures 8 <= v < 12 ==> IsVariantDigit(c)
  {
    if v < 10 then ('0' as int + v) as char else ('a' as int + (v - 10)) as char
  }

  /** The value a lower-case hexadecimal digit stands for. */
  function HexValue(c: char): (v: Nibble)
    requires IsHexDigit(c)
    ensures HexDigit(v) == c
    ensures IsVariantDigit(c) <==> 8 <= v < 12
  {
    if c <= '9' then c as int - '0' as int else c as int - 'a' as int + 10
  }

  /** The template characters `replace(/[xy]/g, ...)` substitutes. */
  predicate IsPlaceholder(t: char)
  {
    t == 'x' || t == 'y'
  }

  /** Whether character `c` may stand where the template holds `t`. */
  predicate Fits(t: char, c: char)
  {
    if t == 'x' then IsHexDigit(c)
    else if t == 'y' then IsVariantDigit(c)
    else c == t
  }

  /** `template.replace(/[xy]/g, ...)`: each `x` becomes the next random draw
      in hex, each `y` becomes `(r & 0x3) | 0x8` of the next draw in hex, and
      anything else is kept. `draws(k)` is the value of the k-th draw, `next`
      the number of draws made so far. */
  function FillTemplate(template: string, draws: nat -> Nibble, next: nat): (id: string)
    ensures |id| == |template|
    ensures forall k :: 0 <= k < |id| ==> Fits(template[k], id[k])
  {
    if |template| == 0 then ""
    else
      var head :=
        if template[0] == 'x' then HexDigit(draws(next))
        else if template[0] == 'y' then HexDigit(8 + draws(next) % 4)
        else template[0];
      var rest := FillTemplate(template[1..], draws, if IsPlaceholder(template[0]) then next + 1 else next);
      var id := [head] + rest;
      assert forall k :: 1 <= k < |id| ==> id[k] == rest[k - 1];
      id
  }

  /** The textual shape of a version-4 UUID with the RFC 4122 variant, in
      lower case: 36 characters, dashes at 8, 13, 18 and 23, version digit `4`
      at 14, variant digit among 8, 9, a, b at 19, hex digits elsewhere. */
  predicate IsUuidV4(s: string)
  {
    && |s| == 36
    && forall k :: 0 <= k < 36 ==>
         if k == 8 || k == 13 || k == 18 || k == 23 then s[k] == '-'
         else if k == 14 then s[k] == '4'
         else if k == 19 then IsVariantDigit(s[k])
         else IsHexDigit(s[k])
  }

  /** The template's placeholders are exactly the UUID's random positions. */
  lemma TemplateShape(s: string)
    requires |s| == 36
    ensures IsUuidV4(s) <==> forall k :: 0 <= k < 36 ==> Fits(UuidTemplate[k], s[k])
  {
    TemplateFront();
    TemplateBack();
  }

  /** The template character at position `k`, spelled out position by position. */
  function TemplateAt(k: nat): char
  {
    if k == 8 || k == 13 || k == 18 || k == 23 then '-'
    else if k == 14 then '4'
    else if k == 19 then 'y'
    else 'x'
  }

  lemma TemplateFront()
    ensures |UuidTemplate| == 36
    ensures forall k :: 0 <= k < 18 ==> UuidTemplate[k] == TemplateAt(k)
  {
    var front := "xxxxxxxx-xxxx-4xxx";
    assert UuidTemplate == front + "-yxxx-xxxxxxxxxxxx";
    assert forall k :: 0 <= k < 18 ==> UuidTemplate[k] == front[k];
  }

  lemma TemplateBack()
    ensures |UuidTemplate| == 36
    ensures forall k :: 18 <= k < 36 ==> UuidTemplate[k] == TemplateAt(k)
  {
    var back := "-yxxx-xxxxxxxxxxxx";
    assert UuidTemplate == "xxxxxxxx-xxxx-4xxx" + back;
    assert forall k :: 18 <= k < 36 ==> UuidTemplate[k] == back[k - 18];
  }

  /** `generateSessionId`, the k-th `Math.random` draw being `draws(k)`. */
  function GenerateSessionId(draws: nat -> Nibble): (id: string)
    ensures IsUuidV4(id)
  {
    var id := FillTemplate(UuidTemplate, draws, 0);
    TemplateShape(id);
    id
  }

  /** The draw that yields character `c` where the template holds `t`. */
  function DrawFor(t: char, c: char): (d: Nibble)
    requires IsPlaceholder(t) && Fits(t, c)
    ensures HexDigit(if t == 'x' then d else 8 + d % 4) == c
  {
    if t == 'x' then HexValue(c) else HexValue(c) - 8
  }

  /** The draws, in order, that make the template produce `s`. */
  function DrawsFor(template: string, s: string): (draws: seq<Nibble>)
    requires |s| == |template|
    requires forall k :: 0 <= k < |s| ==> Fits(template[k], s[k])
  {
    if |template| == 0 then []
    else
      var rest := DrawsFor(template[1..], s[1..]);
      if IsPlaceholder(template[0]) then [DrawFor(template[0], s[0])] + rest else rest
  }

  /** The draws that make the template produce `s`, read from `next` on. */
  predicate DrawsMatch(template: string, s: string, draws: nat -> Nibble, next: nat)
    requires |s| == |template|
    requires forall k :: 0 <= k < |s| ==> Fits(template[k], s[k])
  {
    forall j :: 0 <= j < |DrawsFor(template, s)| ==> draws(next + j) == DrawsFor(template, s)[j]
  }

  lemma {:induction false} FillDrawsFor(template: string, s: string, draws: nat -> Nibble, next: nat)
    requires |s| == |template|
    requires forall k :: 0 <= k < |s| ==> Fits(template[k], s[k])
    requires DrawsMatch(template, s, draws, next)
    ensures FillTemplate(template, draws, next) == s
  {
    if |template| > 0 {
      var after := if IsPlaceholder(template[0]) then next + 1 else next;
      FirstDraw(template, s, draws, next);
      FillDrawsFor(template[1..], s[1..], draws, after);
      FillTemplateStep(template, draws, next);
      assert FillTemplate(template, draws, next) == [s[0]] + s[1..] == s;
    }
  }

  /** The first character comes out right, and the remaining draws match
      the rest of `s`. */
  lemma FirstDraw(template: string, s: string, draws: nat -> Nibble, next: nat)
    requires |s| == |template| > 0
    requires forall k :: 0 <= k < |s| ==> Fits(template[k], s[k])
    requires DrawsMatch(template, s, draws, next)
    ensures FillTemplate(template, draws, next)[0] == s[0]
    ensures DrawsMatch(template[1..], s[1..], draws, if IsPlaceholder(template[0]) then next + 1 else next)
  {
    var ds := DrawsFor(template, s);
    var rest := DrawsFor(template[1..], s[1..]);
    if IsPlaceholder(template[0]) {
      assert draws(next) == ds[0] == DrawFor(template[0], s[0]);
      assert forall j :: 0 <= j < |rest| ==> ds[j + 1] == rest[j];
    }
  }

  /** The first character of the filled template, then the rest filled with
      the remaining draws. */
  lemma FillTemplateStep(template: string, draws: nat -> Nibble, next: nat)
    requires |template| > 0
    ensures FillTemplate(template, draws, next) ==
      [FillTemplate(template, draws, next)[0]] +
      FillTemplate(template[1..], draws, if IsPlaceholder(template[0]) then next + 1 else next)
  {
  }

  /** Every lower-case version-4 UUID can come out of `generateSessionId`:
      the generator reaches the whole identifier space, not a part of it. */
  lemma EveryUuidV4IsGenerated(s: string) returns (draws: nat -> Nibble)
    requires IsUuidV4(s)
    ensures GenerateSessionId(draws) == s
  {
    assert forall k :: 0 <= k < |s| ==> Fits(UuidTemplate[k], s[k]) by {
      TemplateShape(s);
    }
    var ds := DrawsFor(UuidTemplate, s);
    draws := (k: nat) => if k < |ds| then ds[k] else 0;
    assert DrawsMatch(UuidTemplate, s, draws, 0) by {
      assert forall j :: 0 <= j < |ds| ==> draws(0 + j) == ds[j];
    }
    FillDrawsFor(UuidTemplate, s, draws, 0);
  }

  // ----- the recorder -----------------------------------------------------

  const SampleRate: nat := 44100
  const AudioBitsPerSecond: nat := 128000
  /** Length in milliseconds of each slice `MediaRecorder.start` is asked for. */
  const TimesliceMs: nat := 5000

  /** The microphone stream, described by the constraints it was requested with. */
  datatype MediaStream = MediaStream(
    echoCancellation: bool,
    noiseSuppression: bool,
    autoGainControl: bool,
    sampleRate: nat)

  const MicrophoneRequest := MediaStream(true, true, true, SampleRate)

  datatype RecorderState = Inactive | Slicing(timesliceMs: nat)

  /** The platform `MediaRecorder`, described by its options and state. */
  datatype MediaRecorder = MediaRecorder(
    mimeType: string,
    audioBitsPerSecond: nat,
    state: RecorderState)

  /** The three places where `start` can throw: `getUserMedia` is refused,
      the `MediaRecorder` constructor rejects its options, or the recorder
      refuses to start. */
  datatype StartFault = DeviceAccessDenied | RecorderRejected | RecorderStartRejected

  /** What the chunk callback receives. `base64` is `None` where JavaScript
      would pass `undefined` (a data URL without a comma). */
  datatype AudioChunk = AudioChunk(
    blobSize: nat,
    base64: Option<string>,
    index: nat,
    timestamp: int)

  /** `AudioRecorder`. Instead of calling the registered callback,
      `OnDataAvailable` returns the chunk it would have been called with. */
  class AudioRecorder {
    var mediaRecorder: Option<MediaRecorder>
    var stream: Option<MediaStream>
    var chunkIndex: nat
    var isRecording: bool
    /** The indices handed to the callback since the last successful start. */
    ghost var emitted: seq<nat>

    /** Chunks are numbered 1, 2, 3, ... without gaps or repeats, and
        `chunkIndex` is the last number handed out. */
    ghost predicate Valid()
      reads this
    {
      && |emitted| == chunkIndex
      && forall k :: 0 <= k < |emitted| ==> emitted[k] == k + 1
    }

    constructor ()
      ensures Valid()
      ensures mediaRecorder.None? && stream.None? && chunkIndex == 0 && !isRecording
    {
      mediaRecorder := None;
      stream := None;
      chunkIndex := 0;
      isRecording := false;
      emitted := [];
    }

    /** `start()`. `fault` says where, if anywhere, the browser throws;
        `supported` is the set of types `MediaRecorder.isTypeSupported`
        accepts. The returned fault is the one rethrown to the caller. */
    method Start(fault: Option<StartFault>, supported: set<string>) returns (thrown: Option<StartFault>)
      requires Valid()
      modifies this
      ensures Valid()
      ensures thrown == fault
      // refused device: nothing changes
      ensures fault == Some(DeviceAccessDenied) ==>
        && stream == old(stream) && mediaRecorder == old(mediaRecorder)
        && chunkIndex == old(chunkIndex) && isRecording == old(isRecording) && emitted == old(emitted)
      // the stream is acquired as soon as the device is granted
      ensures fault != Some(DeviceAccessDenied) ==> stream == Some(MicrophoneRequest)
      // rejected recorder: the counter and flag are untouched
      ensures fault == Some(RecorderRejected) ==>
        && mediaRecorder == old(mediaRecorder)
        && chunkIndex == old(chunkIndex) && isRecording == old(isRecording) && emitted == old(emitted)
      // recorder created: the counter restarts and the flag is raised
      ensures fault.None? || fault == Some(RecorderStartRejected) ==>
        && chunkIndex == 0 && emitted == [] && isRecording
        && mediaRecorder == Some(MediaRecorder(
             FirstSupported(MimePreferences, supported), AudioBitsPerSecond,
             if fault.None? then Slicing(TimesliceMs) else Inactive))
    {
      thrown := fault;
      if fault == Some(DeviceAccessDenied) {
        return;
      }
      stream := Some(MicrophoneRequest);
      var mimeType := GetSupportedMimeType(supported);
      if fault == Some(RecorderRejected) {
        return;
      }
      mediaRecorder := Some(MediaRecorder(mimeType, AudioBitsPerSecond, Inactive));
      chunkIndex := 0;
      emitted := [];
      isRecording := true;
      if fault == Some(RecorderStartRejected) {
        return;
      }
      mediaRecorder := Some(mediaRecorder.value.(state := Slicing(TimesliceMs)));
    }

    /** The `ondataavailable` handler: a slice of `size` bytes, read at clock
        time `now`. `dataUrl` is what the `FileReader` produced for it, or
        `None` when the reader failed: then the awaited promise rejects, the
        handler stops before the counter moves, and no chunk is handed on.
        Returns the chunk handed to the callback, if any. */
    method OnDataAvailable(size: nat, dataUrl: Option<string>, now: int) returns (chunk: Option<AudioChunk>)
      requires Valid()
      modifies this
      ensures Valid()
      ensures chunk.Some? <==> size > 0 && old(isRecording) && dataUrl.Some?
      ensures chunk.Some? ==>
        && chunkIndex == old(chunkIndex) + 1
        && chunk.value == AudioChunk(size, DataUrlPayload(dataUrl.value), chunkIndex, now)
        && emitted == old(emitted) + [chunkIndex]
      ensures chunk.None? ==> chunkIndex == old(chunkIndex) && emitted == old(emitted)
      ensures isRecording == old(isRecording) && stream == old(stream) && mediaRecorder == old(mediaRecorder)
    {
      chunk := None;
      if size > 0 && isRecording {
        if dataUrl.None? {
          return;
        }
        var base64 := DataUrlPayload(dataUrl.value);
        chunkIndex := chunkIndex + 1;
        emitted := emitted + [chunkIndex];
        chunk := Some(AudioChunk(size, base64, chunkIndex, now));
      }
    }

    /** `stop()`. Reports whether it stopped a running platform recorder and
        whether it released microphone tracks; a second call does neither. */
    method Stop() returns (stoppedRecorder: bool, releasedTracks: bool)
      requires Valid()
      modifies this
      ensures Valid()
      ensures !isRecording && stream.None? && mediaRecorder.None?
      ensures chunkIndex == old(chunkIndex) && emitted == old(emitted)
      ensures stoppedRecorder <==> old(mediaRecorder).Some? && old(mediaRecorder).value.state != Inactive
      ensures releasedTracks <==> old(stream).Some?
    {
      isRecording := false;
      stoppedRecorder := mediaRecorder.Some? && mediaRecorder.value.state != Inactive;
      releasedTracks := stream.Some?;
      if releasedTracks {
        stream := None;
      }
      mediaRecorder := None;
    }

    method GetIsRecording() returns (recording: bool)
      ensures recording == isRecording
    {
      return isRecording;
    }

    method GetCurrentChunkIndex() returns (index: nat)
      requires Valid()
      ensures index == chunkIndex
      ensures index == |emitted|
    {
      return chunkIndex;
    }
  }

  /** A second `stop()` right after the first stops nothing, releases
      nothing and leaves the recorder as the first one left it. */
  method StopTwice(r: AudioRecorder) returns (stoppedAgain: bool, releasedAgain: bool)
    requires r.Valid()
    modifies r
    ensures !stoppedAgain && !releasedAgain
    ensures r.Valid() && !r.isRecording && r.stream.None? && r.mediaRecorder.None?
    ensures r.chunkIndex == old(r.chunkIndex)
  {
    var _, _ := r.Stop();
    stoppedAgain, releasedAgain := r.Stop();
  }

  /** `stop()` lowers the flag before the platform recorder delivers its
      last slice, so that slice, whatever its size and content, reaches no
      callback and the counter stays where it was. */
  method StopDropsLastSlice(r: AudioRecorder, size: nat, dataUrl: Option<string>, now: int)
    returns (chunk: Option<AudioChunk>)
    requires r.Valid()
    modifies r
    ensures chunk.None?
    ensures r.Valid() && r.chunkIndex == old(r.chunkIndex) && r.emitted == old(r.emitted)
  {
    var _, _ := r.Stop();
    chunk := r.OnDataAvailable(size, dataUrl, now);
  }
}
