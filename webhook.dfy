/** The data exchanged with the remote analysis endpoint (src/lib/webhookService.ts).
    The HTTP exchange itself is not modelled: each call's outcome reaches the
    rest of the model as an `Option<Response>`, `None` standing for a transport
    failure, a non-success status or an unreadable body. */
module Webhook {
  import opened Wrappers

  /** `anamnese.antecedentes_pessoais` */
  datatype PersonalHistory = PersonalHistory(
    patologicos: Option<string>,
    cirurgicos: Option<string>,
    medicamentos: Option<string>)

  /** `anamnese` */
  datatype Anamnese = Anamnese(
    identificacao: Option<string>,
    queixaPrincipal: Option<string>,
    historiaDoencaAtual: Option<string>,
    interrogatorioSistematico: Option<string>,
    antecedentesPessoais: Option<PersonalHistory>,
    antecedentesFamiliares: Option<string>,
    habitosVida: Option<string>)

  /** `raciocinio_clinico` */
  datatype ClinicalReasoning = ClinicalReasoning(
    hipotesesDiagnosticas: Option<seq<string>>,
    condutaSugerida: Option<string>)

  /** `AnamneseResponse`: every key may be absent. */
  datatype Response = Response(
    transcricao: Option<string>,
    anamnese: Option<Anamnese>,
    raciocinioClinico: Option<ClinicalReasoning>,
    error: Option<string>)

  /** `WebhookPayload`, the JSON body of every request. */
  datatype Payload = Payload(
    sessionId: string,
    audioDataBase64: string,
    chunkIndex: int,
    isFinal: bool)

  /** The reserved chunk index of the finalization request. */
  const FinalChunkIndex: int := -1

  /** The body `sendFinalSignal` posts for a session. */
  function FinalSignal(sessionId: string): (p: Payload)
    ensures p.isFinal && p.audioDataBase64 == "" && p.chunkIndex == FinalChunkIndex == -1
    ensures p.sessionId == sessionId
  {
    Payload(sessionId, "", FinalChunkIndex, true)
  }

  /** A response with no keys at all, as `{}`. */
  const EmptyResponse := Response(None, None, None, None)
}
