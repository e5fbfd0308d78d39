/** The session orchestrator of src/components/ConsultationRecorder.tsx: the
    consultation's lifecycle and the cumulative transcript and note data it
    builds from the analysis service's responses.

    Each handler is one atomic step; the response a `sendAudioChunk` or
    `sendFinalSignal` call resolves to is an input. */
module Consultation {
  import opened Wrappers
  import opened Webhook
  import opened AudioCapture

  datatype Phase = Idle | Recording | Processing | Completed

  /** The lifecycle edges: idle, recording, processing, completed, and back
      to idle for a new consultation. */
  predicate Advances(from: Phase, to: Phase)
  {
    match from
    case Idle => to == Recording
    case Recording => to == Processing
    case Processing => to == Completed
    case Completed => to == Idle
  }

  const MicrophoneError :=
    "Não foi possível acessar o microfone. Verifique as permissões do navegador."

  // ----- transcript -------------------------------------------------------

  /** `response?.transcricao`, with absence and failure read as "". */
  function Fragment(response: Option<Response>): string
  {
    if response.Some? && response.value.transcricao.Some? then response.value.transcricao.value else ""
  }

  /** `if (response?.transcricao) prev + " " + response.transcricao`: a
      non-empty fragment is appended after a space, anything else is ignored. */
  function AppendTranscript(prev: string, response: Option<Response>): (next: string)
    ensures Fragment(response) == "" ==> next == prev
    ensures Fragment(response) != "" ==> |next| == |prev| + 1 + |Fragment(response)|
    ensures next[..|prev|] == prev
    ensures next[|prev|..] == if Fragment(response) == "" then "" else " " + Fragment(response)
  {
    if Fragment(response) != "" then prev + " " + Fragment(response) else prev
  }

  /** The transcript after applying the responses in the order they arrive. */
  function Accumulate(prev: string, responses: seq<Option<Response>>): (transcript: string)
    ensures |prev| <= |transcript| && transcript[..|prev|] == prev
    decreases |responses|
  {
    if |responses| == 0 then prev
    else Accumulate(AppendTranscript(prev, responses[0]), responses[1..])
  }

  /** The non-empty fragments among `responses`, in order. */
  function Fragments(responses: seq<Option<Response>>): (fs: seq<string>)
    ensures forall k :: 0 <= k < |fs| ==> fs[k] != ""
  {
    if |responses| == 0 then []
    else if Fragment(responses[0]) != "" then [Fragment(responses[0])] + Fragments(responses[1..])
    else Fragments(responses[1..])
  }

  /** Each fragment preceded by one space, concatenated. */
  function SpaceLed(fs: seq<string>): string
  {
    if |fs| == 0 then "" else " " + fs[0] + SpaceLed(fs[1..])
  }

  /** The cumulative transcript is what it was, followed by every non-empty
      fragment in arrival order, each after one space: nothing is lost,
      reordered or duplicated, and failed deliveries leave no trace. */
  lemma {:induction false} TranscriptIsSpaceJoined(prev: string, responses: seq<Option<Response>>)
    ensures Accumulate(prev, responses) == prev + SpaceLed(Fragments(responses))
    decreases |responses|
  {
    if |responses| > 0 {
      TranscriptIsSpaceJoined(AppendTranscript(prev, responses[0]), responses[1..]);
      FirstFragmentLeads(prev, responses);
    }
  }

  /** Appending the first response's fragment and then the rest's is
      appending all of them. */
  lemma FirstFragmentLeads(prev: string, responses: seq<Option<Response>>)
    requires |responses| > 0
    ensures AppendTranscript(prev, responses[0]) + SpaceLed(Fragments(responses[1..]))
         == prev + SpaceLed(Fragments(responses))
  {
    var later := Fragments(responses[1..]);
    if Fragment(responses[0]) != "" {
      var f := Fragment(responses[0]);
      assert Fragments(responses) == [f] + later;
      assert ([f] + later)[1..] == later;
      assert SpaceLed(Fragments(responses)) == (" " + f) + SpaceLed(later);
      Associative(prev, " ", f);
      Associative(prev, " " + f, SpaceLed(later));
    } else {
      assert Fragments(responses) == later;
    }
  }

  /** Regrouping a concatenation: a step `FirstFragmentLeads` names so that
      the solver does not have to search for it. */
  lemma Associative(a: string, b: string, c: string)
    ensures (a + b) + c == a + (b + c)
  {
  }

  function TextResponse(fragment: string): Option<Response>
  {
    Some(Response(Some(fragment), None, None, None))
  }

  /** Two chunk responses carrying "A" then "B" build " A B". */
  lemma TwoFragmentsExample()
    ensures Accumulate("", [TextResponse("A"), TextResponse("B")]) == " A B"
  {
    TranscriptIsSpaceJoined("", [TextResponse("A"), TextResponse("B")]);
    assert Fragments([TextResponse("A"), TextResponse("B")]) == ["A", "B"] by {
      assert [TextResponse("A"), TextResponse("B")][1..] == [TextResponse("B")];
    }
  }

  // ----- note data --------------------------------------------------------

  /** `{...prev, ...response}`: every key the response carries replaces the
      previous value of that key as a whole; every key it lacks keeps the
      previous value (a `null` previous value spreads as no keys at all). */
  function ShallowMerge(prev: Option<Response>, response: Response): (merged: Response)
    ensures response.transcricao.Some? ==> merged.transcricao == response.transcricao
    ensures response.anamnese.Some? ==> merged.anamnese == response.anamnese
    ensures response.raciocinioClinico.Some? ==> merged.raciocinioClinico == response.raciocinioClinico
    ensures response.error.Some? ==> merged.error == response.error
    ensures prev.None? ==> merged == response
    ensures prev.Some? && response == EmptyResponse ==> merged == prev.value
  {
    var base := if prev.Some? then prev.value else EmptyResponse;
    Response(
      if response.transcricao.Some? then response.transcricao else base.transcricao,
      if response.anamnese.Some? then response.anamnese else base.anamnese,
      if response.raciocinioClinico.Some? then response.raciocinioClinico else base.raciocinioClinico,
      if response.error.Some? then response.error else base.error)
  }

  /** Every top-level key absent from a later response keeps the value an
      earlier one set, whatever else the later response carries. */
  lemma AbsentKeyKeepsEarlierValue(prev: Response, response: Response)
    ensures response.transcricao.None? ==>
      ShallowMerge(Some(prev), response).transcricao == prev.transcricao
    ensures response.anamnese.None? ==>
      ShallowMerge(Some(prev), response).anamnese == prev.anamnese
    ensures response.raciocinioClinico.None? ==>
      ShallowMerge(Some(prev), response).raciocinioClinico == prev.raciocinioClinico
    ensures response.error.None? ==>
      ShallowMerge(Some(prev), response).error == prev.error
  {
  }

  /** Merging `a` then `b` is merging once with `b` spread over `a`: after any
      run of merges each key holds its most recent present value. */
  lemma ShallowMergeComposes(prev: Option<Response>, a: Response, b: Response)
    ensures ShallowMerge(Some(ShallowMerge(prev, a)), b) == ShallowMerge(prev, ShallowMerge(Some(a), b))
  {
  }

  /** The merge is by top-level key only: a later `anamnese` that lacks
      `queixa_principal` wipes out the chief complaint an earlier one set. */
  lemma LaterAnamneseReplacesWholesale()
    ensures
      var first := Response(None, Some(Anamnese(None, Some("dor"), None, None, None, None, None)), None, None);
      var second := Response(None, Some(Anamnese(None, None, Some("x"), None, None, None, None)), None, None);
      ShallowMerge(Some(ShallowMerge(None, first)), second).anamnese.value.queixaPrincipal.None?
  {
  }

  /** A chunk response touches the note data only when it carries
      `anamnese` or `raciocinio_clinico`. */
  predicate UpdatesNote(response: Option<Response>)
  {
    response.Some? && (response.value.anamnese.Some? || response.value.raciocinioClinico.Some?)
  }

  /** The note data after a chunk response. */
  function MergeChunkResponse(prev: Option<Response>, response: Option<Response>): (next: Option<Response>)
    ensures !UpdatesNote(response) ==> next == prev
    ensures UpdatesNote(response) ==> next.Some? && next.value == ShallowMerge(prev, response.value)
  {
    if UpdatesNote(response) then Some(ShallowMerge(prev, response.value)) else prev
  }

  /** The note data after the final response: merged whenever it arrived,
      even when it carries neither block. */
  function MergeFinalResponse(prev: Option<Response>, response: Option<Response>): (next: Option<Response>)
    ensures response.None? ==> next == prev
    ensures response.Some? ==> next.Some? && next.value == ShallowMerge(prev, response.value)
  {
    if response.Some? then Some(ShallowMerge(prev, response.value)) else prev
  }

  /** An empty final response `{}` turns missing note data into an empty
      object, where a chunk response `{}` would have left it missing. */
  lemma EmptyFinalResponseCreatesNote()
    ensures MergeFinalResponse(None, Some(EmptyResponse)) == Some(EmptyResponse)
    ensures MergeChunkResponse(None, Some(EmptyResponse)) == None
  {
  }

  // ----- the component ----------------------------------------------------

  /** `ConsultationRecorder`: its React state and its two refs. */
  class ConsultationRecorder {
    var state: Phase
    var transcription: string
    var anamneseData: Option<Response>
    var chunksSent: nat
    var error: Option<string>
    /** `recorderRef.current` */
    var recorder: AudioRecorder?
    /** `sessionIdRef.current` */
    var sessionId: string

    ghost predicate Valid()
      reads this, recorder
    {
      recorder != null ==> recorder.Valid()
    }

    constructor ()
      ensures Valid()
      ensures state == Idle && transcription == "" && anamneseData.None?
      ensures chunksSent == 0 && error.None? && recorder == null && sessionId == ""
    {
      state := Idle;
      transcription := "";
      anamneseData := None;
      chunksSent := 0;
      error := None;
      recorder := null;
      sessionId := "";
    }

    /** `handleChunkReady`: records the chunk's index, sends it, and folds the
        response (`None` if delivery failed) into the transcript and note data.
        Returns the request body sent, if the handler got that far. It has no
        guard on the phase or the session: a late response is merged whenever
        it arrives. */
    method HandleChunkReady(chunk: AudioChunk, response: Option<Response>) returns (request: Option<Payload>)
      modifies this
      ensures state == old(state) && error == old(error)
      ensures sessionId == old(sessionId) && recorder == old(recorder)
      // `chunk.base64.length` throws on an undefined payload before anything happens
      ensures chunk.base64.None? ==>
        && request.None? && chunksSent == old(chunksSent)
        && transcription == old(transcription) && anamneseData == old(anamneseData)
      ensures chunk.base64.Some? ==>
        && request == Some(Payload(sessionId, chunk.base64.value, chunk.index, false))
        && chunksSent == chunk.index
        && transcription == AppendTranscript(old(transcription), response)
        && anamneseData == MergeChunkResponse(old(anamneseData), response)
    {
      if chunk.base64.None? {
        return None;
      }
      chunksSent := chunk.index;
      request := Some(Payload(sessionId, chunk.base64.value, chunk.index, false));
      transcription := AppendTranscript(transcription, response);
      anamneseData := MergeChunkResponse(anamneseData, response);
    }

    /** `startRecording`, offered only when idle. `draws` are the random draws
        of the new session id, `fault` and `supported` are passed on to the
        new recorder's `start`. */
    method StartRecording(draws: nat -> Nibble, fault: Option<StartFault>, supported: set<string>)
      requires Valid() && state == Idle
      modifies this
      ensures Valid()
      ensures sessionId == GenerateSessionId(draws)
      ensures recorder != null && fresh(recorder)
      ensures fault.None? ==>
        && Advances(old(state), state)
        && state == Recording && error.None? && transcription == ""
        && anamneseData.None? && chunksSent == 0
        && recorder.isRecording && recorder.chunkIndex == 0
      ensures fault.Some? ==>
        && state == old(state) && error == Some(MicrophoneError)
        && transcription == old(transcription) && anamneseData == old(anamneseData)
        && chunksSent == old(chunksSent)
    {
      OpenSession(GenerateSessionId(draws), fault, supported);
    }

    /** The rest of `startRecording` once the new id is drawn: the previous
        error is cleared, the id is stored, and a new recorder is created and
        started; a throwing start leaves the phase and the session's data
        alone and reports the microphone error. */
    method OpenSession(id: string, fault: Option<StartFault>, supported: set<string>)
      requires Valid() && state == Idle
      modifies this
      ensures Valid()
      ensures sessionId == id
      ensures recorder != null && fresh(recorder)
      ensures fault.None? ==>
        && Advances(old(state), state)
        && state == Recording && error.None? && transcription == ""
        && anamneseData.None? && chunksSent == 0
        && recorder.isRecording && recorder.chunkIndex == 0
      ensures fault.Some? ==>
        && state == old(state) && error == Some(MicrophoneError)
        && transcription == old(transcription) && anamneseData == old(anamneseData)
        && chunksSent == old(chunksSent)
    {
      error := None;
      sessionId := id;
      recorder := new AudioRecorder();
      var thrown := recorder.Start(fault, supported);
      if thrown.Some? {
        error := Some(MicrophoneError);
        return;
      }
      state := Recording;
      transcription := "";
      anamneseData := None;
      chunksSent := 0;
    }

    /** The first half of `stopRecording`, offered only while recording: stops
        and drops the recorder, enters `processing`, and returns the final
        signal it sends for the session. */
    method StopRecording() returns (finalRequest: Payload)
      requires Valid() && state == Recording
      modifies this, recorder
      ensures Valid()
      ensures Advances(old(state), state) && state == Processing
      ensures recorder == null
      ensures old(recorder) != null ==>
        && !old(recorder).isRecording
        && old(recorder).stream.None? && old(recorder).mediaRecorder.None?
      ensures finalRequest == FinalSignal(sessionId)
      ensures sessionId == old(sessionId) && transcription == old(transcription)
      ensures anamneseData == old(anamneseData) && chunksSent == old(chunksSent) && error == old(error)
    {
      if recorder != null {
        var _, _ := recorder.Stop();
        recorder := null;
      }
      state := Processing;
      finalRequest := FinalSignal(sessionId);
    }

    /** The second half of `stopRecording`, once `sendFinalSignal` resolves:
        a response is folded in, and the consultation completes either way. */
    method ReceiveFinalResponse(finalResponse: Option<Response>)
      requires state == Processing
      modifies this
      ensures Advances(old(state), state) && state == Completed
      ensures transcription == AppendTranscript(old(transcription), finalResponse)
      ensures anamneseData == MergeFinalResponse(old(anamneseData), finalResponse)
      ensures sessionId == old(sessionId) && recorder == old(recorder)
      ensures chunksSent == old(chunksSent) && error == old(error)
    {
      transcription := AppendTranscript(transcription, finalResponse);
      anamneseData := MergeFinalResponse(anamneseData, finalResponse);
      state := Completed;
    }

    /** `startNewConsultation`, offered only once completed. */
    method StartNewConsultation()
      requires state == Completed
      modifies this
      ensures Advances(old(state), state) && state == Idle
      ensures transcription == "" && anamneseData.None? && chunksSent == 0 && error.None?
      ensures sessionId == old(sessionId) && recorder == old(recorder)
    {
      state := Idle;
      transcription := "";
      anamneseData := None;
      chunksSent := 0;
      error := None;
    }
  }
}
