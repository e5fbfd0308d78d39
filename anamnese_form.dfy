/** The editable clinical note of src/components/AnamneseForm.tsx: how the
    note data from the orchestrator is merged field by field into the form,
    the user's edits, and the plain-text record copied to the clipboard. */
module AnamneseFormModel {
  import opened Wrappers
  import opened Strings
  import opened Webhook

  /** `formData`. Holes that JavaScript leaves in `hipoteses` when a slot past
      its end is edited are represented by "", which renders the same. */
  datatype FormData = FormData(
    identificacao: string,
    queixaPrincipal: string,
    historiaDoencaAtual: string,
    interrogatorioSistematico: string,
    antecedentesPatologicos: string,
    antecedentesCirurgicos: string,
    medicamentosEmUso: string,
    antecedentesFamiliares: string,
    habitosVida: string,
    hipoteses: seq<string>,
    condutaSugerida: string)

  const InitialForm := FormData("", "", "", "", "", "", "", "", "", ["", "", ""], "")

  /** The text-valued keys of `formData`. */
  datatype TextField =
    | Identificacao | QueixaPrincipal | HistoriaDoencaAtual | InterrogatorioSistematico
    | AntecedentesPatologicos | AntecedentesCirurgicos | MedicamentosEmUso
    | AntecedentesFamiliares | HabitosVida | CondutaSugerida

  function Text(f: FormData, field: TextField): string
  {
    match field
    case Identificacao => f.identificacao
    case QueixaPrincipal => f.queixaPrincipal
    case HistoriaDoencaAtual => f.historiaDoencaAtual
    case InterrogatorioSistematico => f.interrogatorioSistematico
    case AntecedentesPatologicos => f.antecedentesPatologicos
    case AntecedentesCirurgicos => f.antecedentesCirurgicos
    case MedicamentosEmUso => f.medicamentosEmUso
    case AntecedentesFamiliares => f.antecedentesFamiliares
    case HabitosVida => f.habitosVida
    case CondutaSugerida => f.condutaSugerida
  }

  /** The fields filled from `anamnese`; the others come from `raciocinio_clinico`. */
  predicate FromAnamnese(field: TextField)
  {
    field != CondutaSugerida
  }

  // ----- merging incoming data ----------------------------------------------

  /** `incoming || previous` for an optional string: a present non-empty
      value wins, anything else keeps the previous one. */
  function OrElse(incoming: Option<string>, previous: string): (r: string)
    ensures incoming.Some? && incoming.value != "" ==> r == incoming.value
    ensures incoming.None? || incoming.value == "" ==> r == previous
  {
    if incoming.Some? && incoming.value != "" then incoming.value else previous
  }

  /** What `anamnese` says for a field, read as the form reads it. */
  function Incoming(a: Anamnese, field: TextField): Option<string>
    requires FromAnamnese(field)
  {
    var history := a.antecedentesPessoais;
    match field
    case Identificacao => a.identificacao
    case QueixaPrincipal => a.queixaPrincipal
    case HistoriaDoencaAtual => a.historiaDoencaAtual
    case InterrogatorioSistematico => a.interrogatorioSistematico
    case AntecedentesPatologicos => if history.Some? then history.value.patologicos else None
    case AntecedentesCirurgicos => if history.Some? then history.value.cirurgicos else None
    case MedicamentosEmUso => if history.Some? then history.value.medicamentos else None
    case AntecedentesFamiliares => a.antecedentesFamiliares
    case HabitosVida => a.habitosVida
  }

  /** The first `setFormData` of the effect, for a present `anamnese`. */
  function MergeAnamnese(prev: FormData, a: Anamnese): (next: FormData)
    ensures forall field :: FromAnamnese(field) ==>
      Text(next, field) == OrElse(Incoming(a, field), Text(prev, field))
    ensures next.hipoteses == prev.hipoteses && next.condutaSugerida == prev.condutaSugerida
  {
    var history := a.antecedentesPessoais;
    prev.(
      identificacao := OrElse(a.identificacao, prev.identificacao),
      queixaPrincipal := OrElse(a.queixaPrincipal, prev.queixaPrincipal),
      historiaDoencaAtual := OrElse(a.historiaDoencaAtual, prev.historiaDoencaAtual),
      interrogatorioSistematico := OrElse(a.interrogatorioSistematico, prev.interrogatorioSistematico),
      antecedentesPatologicos :=
        OrElse(if history.Some? then history.value.patologicos else None, prev.antecedentesPatologicos),
      antecedentesCirurgicos :=
        OrElse(if history.Some? then history.value.cirurgicos else None, prev.antecedentesCirurgicos),
      medicamentosEmUso :=
        OrElse(if history.Some? then history.value.medicamentos else None, prev.medicamentosEmUso),
      antecedentesFamiliares := OrElse(a.antecedentesFamiliares, prev.antecedentesFamiliares),
      habitosVida := OrElse(a.habitosVida, prev.habitosVida))
  }

  /** The second `setFormData` of the effect, for a present
      `raciocinio_clinico`. A present hypothesis list, even an empty one,
      replaces the old list (an array is truthy in JavaScript). */
  function MergeReasoning(prev: FormData, r: ClinicalReasoning): (next: FormData)
    ensures next.hipoteses ==
      if r.hipotesesDiagnosticas.Some? then r.hipotesesDiagnosticas.value else prev.hipoteses
    ensures next.condutaSugerida == OrElse(r.condutaSugerida, prev.condutaSugerida)
    ensures forall field :: FromAnamnese(field) ==> Text(next, field) == Text(prev, field)
  {
    prev.(
      hipoteses := if r.hipotesesDiagnosticas.Some? then r.hipotesesDiagnosticas.value else prev.hipoteses,
      condutaSugerida := OrElse(r.condutaSugerida, prev.condutaSugerida))
  }

  /** The whole `useEffect` on `data`: the anamnese block, then the
      reasoning block; missing data or missing blocks change nothing. */
  function ApplyData(prev: FormData, data: Option<Response>): (next: FormData)
    ensures data.None? || (data.value.anamnese.None? && data.value.raciocinioClinico.None?) ==> next == prev
  {
    if data.None? then prev
    else
      var afterAnamnese :=
        if data.value.anamnese.Some? then MergeAnamnese(prev, data.value.anamnese.value) else prev;
      if data.value.raciocinioClinico.Some? then MergeReasoning(afterAnamnese, data.value.raciocinioClinico.value)
      else afterAnamnese
  }

  /** Each text field after the effect: the incoming non-empty value if its
      block is present and carries one, otherwise the previous value. */
  lemma ApplyDataPerField(prev: FormData, data: Response, field: TextField)
    ensures FromAnamnese(field) ==>
      Text(ApplyData(prev, Some(data)), field) ==
        if data.anamnese.Some? then OrElse(Incoming(data.anamnese.value, field), Text(prev, field))
        else Text(prev, field)
    ensures !FromAnamnese(field) ==>
      Text(ApplyData(prev, Some(data)), field) ==
        if data.raciocinioClinico.Some? then OrElse(data.raciocinioClinico.value.condutaSugerida, Text(prev, field))
        else Text(prev, field)
  {
  }

  /** The hypothesis list after the effect: a present incoming list,
      empty or not, replaces it; otherwise it is kept. */
  lemma ApplyDataHypotheses(prev: FormData, data: Response)
    ensures ApplyData(prev, Some(data)).hipoteses ==
      if data.raciocinioClinico.Some? && data.raciocinioClinico.value.hipotesesDiagnosticas.Some?
      then data.raciocinioClinico.value.hipotesesDiagnosticas.value
      else prev.hipoteses
  {
  }

  /** An empty or absent incoming value never erases a filled-in text field. */
  lemma ApplyDataNeverErasesText(prev: FormData, data: Option<Response>, field: TextField)
    requires Text(prev, field) != ""
    ensures Text(ApplyData(prev, data), field) != ""
  {
    if data.Some? {
      ApplyDataPerField(prev, data.value, field);
    }
  }

  /** Hypotheses, unlike text fields, can be erased: an empty list wipes them. */
  lemma EmptyHypothesisListErases()
    ensures
      var data := Response(None, None, Some(ClinicalReasoning(Some([]), None)), None);
      ApplyData(InitialForm.(hipoteses := ["dor torácica"]), Some(data)).hipoteses == []
  {
  }

  /** Re-running the effect on the same data changes nothing more. */
  lemma {:induction false} ApplyDataIdempotent(prev: FormData, data: Option<Response>)
    ensures ApplyData(ApplyData(prev, data), data) == ApplyData(prev, data)
  {
    if data.Some? {
      var once := ApplyData(prev, data);
      var twice := ApplyData(once, data);
      forall field: TextField ensures Text(twice, field) == Text(once, field) {
        ApplyDataPerField(prev, data.value, field);
        ApplyDataPerField(once, data.value, field);
      }
      assert Text(twice, Identificacao) == Text(once, Identificacao);
      assert Text(twice, QueixaPrincipal) == Text(once, QueixaPrincipal);
      assert Text(twice, HistoriaDoencaAtual) == Text(once, HistoriaDoencaAtual);
      assert Text(twice, InterrogatorioSistematico) == Text(once, InterrogatorioSistematico);
      assert Text(twice, AntecedentesPatologicos) == Text(once, AntecedentesPatologicos);
      assert Text(twice, AntecedentesCirurgicos) == Text(once, AntecedentesCirurgicos);
      assert Text(twice, MedicamentosEmUso) == Text(once, MedicamentosEmUso);
      assert Text(twice, AntecedentesFamiliares) == Text(once, AntecedentesFamiliares);
      assert Text(twice, HabitosVida) == Text(once, HabitosVida);
      assert Text(twice, CondutaSugerida) == Text(once, CondutaSugerida);
    }
  }

  // ----- edits --------------------------------------------------------------

  /** `{...prev, [field]: value}` for a text field. */
  function WithText(f: FormData, field: TextField, value: string): (g: FormData)
    ensures Text(g, field) == value
    ensures forall other :: other != field ==> Text(g, other) == Text(f, other)
    ensures g.hipoteses == f.hipoteses
  {
    match field
    case Identificacao => f.(identificacao := value)
    case QueixaPrincipal => f.(queixaPrincipal := value)
    case HistoriaDoencaAtual => f.(historiaDoencaAtual := value)
    case InterrogatorioSistematico => f.(interrogatorioSistematico := value)
    case AntecedentesPatologicos => f.(antecedentesPatologicos := value)
    case AntecedentesCirurgicos => f.(antecedentesCirurgicos := value)
    case MedicamentosEmUso => f.(medicamentosEmUso := value)
    case AntecedentesFamiliares => f.(antecedentesFamiliares := value)
    case HabitosVida => f.(habitosVida := value)
    case CondutaSugerida => f.(condutaSugerida := value)
  }

  /** The hypothesis list after `newHipoteses[index] = value` on a copy: the
      slot holds the value, the list grows to reach it (holes read as ""),
      and every other slot is as before. */
  function SetSlot(h: seq<string>, index: nat, value: string): (r: seq<string>)
    ensures |r| == if index < |h| then |h| else index + 1
    ensures r[index] == value
    ensures forall k :: 0 <= k < |r| && k != index ==> r[k] == if k < |h| then h[k] else ""
  {
    if index < |h| then h[index := value]
    else h + seq(index - |h|, _ => "") + [value]
  }

  /** The component's state. */
  class AnamneseForm {
    var formData: FormData

    constructor ()
      ensures formData == InitialForm
    {
      formData := InitialForm;
    }

    /** The `useEffect` run when `data` changes. */
    method OnDataChange(data: Option<Response>)
      modifies this
      ensures formData == ApplyData(old(formData), data)
    {
      if data.Some? && data.value.anamnese.Some? {
        formData := MergeAnamnese(formData, data.value.anamnese.value);
      }
      if data.Some? && data.value.raciocinioClinico.Some? {
        formData := MergeReasoning(formData, data.value.raciocinioClinico.value);
      }
    }

    /** `handleInputChange` on a text field. */
    method HandleInputChange(field: TextField, value: string)
      modifies this
      ensures formData == WithText(old(formData), field, value)
    {
      formData := WithText(formData, field, value);
    }

    /** `handleHipoteseChange`: copies the list, writes the slot, and stores
        the copy with `handleInputChange("hipoteses", ...)`. */
    method HandleHipoteseChange(index: nat, value: string)
      modifies this
      ensures formData == old(formData).(hipoteses := SetSlot(old(formData.hipoteses), index, value))
    {
      var prev := formData.hipoteses;
      var length := if index < |prev| then |prev| else index + 1;
      var newHipoteses := new string[length](k requires 0 <= k < length => if k < |prev| then prev[k] else "");
      newHipoteses[index] := value;
      formData := formData.(hipoteses := newHipoteses[..]);
    }
  }

  // ----- export -------------------------------------------------------------

  const Rule := "═══════════════════════════════════════════"
  const NotInformed := "(não informado)"
  const NotDefined := "(não definida)"
  const RecordTitle := "           PRONTUÁRIO MÉDICO"
  const IdentificacaoHeading := "▶ IDENTIFICAÇÃO:"
  const QueixaHeading := "▶ QUEIXA PRINCIPAL (QP):"
  const HistoriaHeading := "▶ HISTÓRIA DA DOENÇA ATUAL (HDA):"
  const InterrogatorioHeading := "▶ INTERROGATÓRIO SISTEMÁTICO (IS):"
  const PessoaisHeading := "▶ ANTECEDENTES PESSOAIS:"
  const PatologicosLabel := "   • Patológicos: "
  const CirurgicosLabel := "   • Cirúrgicos: "
  const MedicamentosLabel := "   • Medicamentos em uso: "
  const FamiliaresHeading := "▶ ANTECEDENTES FAMILIARES:"
  const HabitosHeading := "▶ HÁBITOS DE VIDA E HISTÓRICO SOCIAL:"
  const ReasoningTitle := "           RACIOCÍNIO CLÍNICO"
  const HipotesesHeading := "▶ HIPÓTESES DIAGNÓSTICAS:"
  const Hd1Label := "   HD1: "
  const Hd2Label := "   HD2: "
  const Hd3Label := "   HD3: "
  const CondutaHeading := "▶ CONDUTA SUGERIDA:"
  const FooterLabel := "Gerado em: "

  /** `value || placeholder` */
  function OrPlaceholder(value: string, placeholder: string): string
  {
    if value != "" then value else placeholder
  }

  /** `hipoteses[i]`: a slot past the end reads as `undefined`, i.e. "". */
  function Slot(h: seq<string>, i: nat): string
  {
    if i < |h| then h[i] else ""
  }

  /** The lines of `generateProntuarioText`, `generatedAt` standing for
      `new Date().toLocaleString("pt-BR")`. */
  function ProntuarioLines(f: FormData, generatedAt: string): (lines: seq<string>)
    ensures |lines| == 42
  {
    [ Rule,
      RecordTitle,
      Rule,
      "",
      IdentificacaoHeading,
      OrPlaceholder(f.identificacao, NotInformed),
      "",
      QueixaHeading,
      OrPlaceholder(f.queixaPrincipal, NotInformed),
      "",
      HistoriaHeading,
      OrPlaceholder(f.historiaDoencaAtual, NotInformed),
      "",
      InterrogatorioHeading,
      OrPlaceholder(f.interrogatorioSistematico, NotInformed),
      "",
      PessoaisHeading,
      PatologicosLabel + OrPlaceholder(f.antecedentesPatologicos, NotInformed),
      CirurgicosLabel + OrPlaceholder(f.antecedentesCirurgicos, NotInformed),
      MedicamentosLabel + OrPlaceholder(f.medicamentosEmUso, NotInformed),
      "",
      FamiliaresHeading,
      OrPlaceholder(f.antecedentesFamiliares, NotInformed),
      "",
      HabitosHeading,
      OrPlaceholder(f.habitosVida, NotInformed),
      "",
      Rule,
      ReasoningTitle,
      Rule,
      "",
      HipotesesHeading,
      Hd1Label + OrPlaceholder(Slot(f.hipoteses, 0), NotDefined),
      Hd2Label + OrPlaceholder(Slot(f.hipoteses, 1), NotDefined),
      Hd3Label + OrPlaceholder(Slot(f.hipoteses, 2), NotDefined),
      "",
      CondutaHeading,
      OrPlaceholder(f.condutaSugerida, NotDefined),
      "",
      Rule,
      FooterLabel + generatedAt,
      Rule ]
  }

  /** `generateProntuarioText`: the lines joined with newlines. */
  function GenerateProntuarioText(f: FormData, generatedAt: string): (text: string)
    ensures |Rule| < |text| && text[..|Rule|] == Rule && text[|Rule|] == '\n'
  {
    Join(ProntuarioLines(f, generatedAt), '\n')
  }

  /** Where each text field appears in the record, and what precedes it. */
  function LineOf(field: TextField): nat
  {
    match field
    case Identificacao => 5
    case QueixaPrincipal => 8
    case HistoriaDoencaAtual => 11
    case InterrogatorioSistematico => 14
    case AntecedentesPatologicos => 17
    case AntecedentesCirurgicos => 18
    case MedicamentosEmUso => 19
    case AntecedentesFamiliares => 22
    case HabitosVida => 25
    case CondutaSugerida => 37
  }

  function LabelOf(field: TextField): string
  {
    match field
    case AntecedentesPatologicos => PatologicosLabel
    case AntecedentesCirurgicos => CirurgicosLabel
    case MedicamentosEmUso => MedicamentosLabel
    case _ => ""
  }

  lemma PresentingLines(f: FormData, generatedAt: string)
    ensures ProntuarioLines(f, generatedAt)[5] == OrPlaceholder(f.identificacao, NotInformed)
    ensures ProntuarioLines(f, generatedAt)[8] == OrPlaceholder(f.queixaPrincipal, NotInformed)
    ensures ProntuarioLines(f, generatedAt)[11] == OrPlaceholder(f.historiaDoencaAtual, NotInformed)
    ensures ProntuarioLines(f, generatedAt)[14] == OrPlaceholder(f.interrogatorioSistematico, NotInformed)
  {
  }

  lemma PersonalHistoryLines(f: FormData, generatedAt: string)
    ensures ProntuarioLines(f, generatedAt)[17] == PatologicosLabel + OrPlaceholder(f.antecedentesPatologicos, NotInformed)
    ensures ProntuarioLines(f, generatedAt)[18] == CirurgicosLabel + OrPlaceholder(f.antecedentesCirurgicos, NotInformed)
    ensures ProntuarioLines(f, generatedAt)[19] == MedicamentosLabel + OrPlaceholder(f.medicamentosEmUso, NotInformed)
  {
  }

  lemma BackgroundAndPlanLines(f: FormData, generatedAt: string)
    ensures ProntuarioLines(f, generatedAt)[22] == OrPlaceholder(f.antecedentesFamiliares, NotInformed)
    ensures ProntuarioLines(f, generatedAt)[25] == OrPlaceholder(f.habitosVida, NotInformed)
    ensures ProntuarioLines(f, generatedAt)[37] == OrPlaceholder(f.condutaSugerida, NotDefined)
  {
  }

  /** Lines 32 to 34 hold the first three hypothesis slots, an empty or
      missing slot as "(não definida)". */
  lemma HypothesisLines(f: FormData, generatedAt: string)
    ensures ProntuarioLines(f, generatedAt)[32] == Hd1Label + OrPlaceholder(Slot(f.hipoteses, 0), NotDefined)
    ensures ProntuarioLines(f, generatedAt)[33] == Hd2Label + OrPlaceholder(Slot(f.hipoteses, 1), NotDefined)
    ensures ProntuarioLines(f, generatedAt)[34] == Hd3Label + OrPlaceholder(Slot(f.hipoteses, 2), NotDefined)
  {
  }

  /** Every text field has its own line, showing its value or, when empty,
      the placeholder ("(não definida)" for the management text, "(não
      informado)" for the rest). */
  lemma EveryFieldIsExported(f: FormData, generatedAt: string, field: TextField)
    ensures LineOf(field) < 42
    ensures ProntuarioLines(f, generatedAt)[LineOf(field)] ==
      LabelOf(field) + OrPlaceholder(Text(f, field), if field == CondutaSugerida then NotDefined else NotInformed)
  {
    PresentingLines(f, generatedAt);
    PersonalHistoryLines(f, generatedAt);
    BackgroundAndPlanLines(f, generatedAt);
    match field
    case Identificacao =>
    case QueixaPrincipal =>
    case HistoriaDoencaAtual =>
    case InterrogatorioSistematico =>
    case AntecedentesPatologicos =>
    case AntecedentesCirurgicos =>
    case MedicamentosEmUso =>
    case AntecedentesFamiliares =>
    case HabitosVida =>
    case CondutaSugerida =>
  }

  /** The first three hypothesis slots are exported, empty or missing ones
      as "(não definida)"; whatever lies past the third never appears. */
  lemma OnlyThreeHypothesesExported(f: FormData, h: seq<string>, generatedAt: string)
    requires forall i :: 0 <= i < 3 ==> Slot(h, i) == Slot(f.hipoteses, i)
    ensures GenerateProntuarioText(f.(hipoteses := h), generatedAt) == GenerateProntuarioText(f, generatedAt)
  {
    assert Slot(h, 0) == Slot(f.hipoteses, 0);
    assert Slot(h, 1) == Slot(f.hipoteses, 1);
    assert Slot(h, 2) == Slot(f.hipoteses, 2);
    assert ProntuarioLines(f.(hipoteses := h), generatedAt) == ProntuarioLines(f, generatedAt);
  }

  predicate SingleLine(s: string) { '\n' !in s }

  lemma ConcatSingleLine(a: string, b: string)
    requires SingleLine(a) && SingleLine(b)
    ensures SingleLine(a + b)
  {
    assert forall k :: 0 <= k < |a + b| ==> (a + b)[k] == if k < |a| then a[k] else b[k - |a|];
  }

  lemma BannerIsSingleLine()
    ensures SingleLine(Rule)
    ensures SingleLine(RecordTitle)
    ensures SingleLine(ReasoningTitle)
    ensures SingleLine(FooterLabel)
  {
  }

  lemma PlaceholdersAreSingleLine()
    ensures SingleLine(NotInformed)
    ensures SingleLine(NotDefined)
    ensures SingleLine(CondutaHeading)
    ensures SingleLine(HipotesesHeading)
  {
  }

  lemma HistoryHeadingsAreSingleLine()
    ensures SingleLine(IdentificacaoHeading)
    ensures SingleLine(QueixaHeading)
    ensures SingleLine(HistoriaHeading)
  {
  }

  lemma ReviewHeadingsAreSingleLine()
    ensures SingleLine(InterrogatorioHeading)
    ensures SingleLine(PessoaisHeading)
  {
  }

  lemma BackgroundHeadingsAreSingleLine()
    ensures SingleLine(FamiliaresHeading)
    ensures SingleLine(HabitosHeading)
  {
  }

  lemma LabelsAreSingleLine()
    ensures SingleLine(PatologicosLabel)
    ensures SingleLine(CirurgicosLabel)
    ensures SingleLine(MedicamentosLabel)
    ensures SingleLine(Hd1Label)
    ensures SingleLine(Hd2Label)
    ensures SingleLine(Hd3Label)
  {
  }

  /** When no entry holds a line break, the record splits back into exactly
      its 42 lines. */
  lemma ProntuarioSplitsIntoLines(f: FormData, generatedAt: string)
    requires forall field :: SingleLine(Text(f, field))
    requires forall i :: 0 <= i < 3 ==> SingleLine(Slot(f.hipoteses, i))
    requires SingleLine(generatedAt)
    ensures Split(GenerateProntuarioText(f, generatedAt), '\n') == ProntuarioLines(f, generatedAt)
    ensures |Split(GenerateProntuarioText(f, generatedAt), '\n')| == 42
  {
    var lines := ProntuarioLines(f, generatedAt);
    BannerIsSingleLine();
    PlaceholdersAreSingleLine();
    HistoryHeadingsAreSingleLine();
    ReviewHeadingsAreSingleLine();
    BackgroundHeadingsAreSingleLine();
    LabelsAreSingleLine();
    assert SingleLine("");
    assert SingleLine(Text(f, Identificacao)) && SingleLine(Text(f, QueixaPrincipal));
    assert SingleLine(Text(f, HistoriaDoencaAtual)) && SingleLine(Text(f, InterrogatorioSistematico));
    assert SingleLine(Text(f, AntecedentesPatologicos)) && SingleLine(Text(f, AntecedentesCirurgicos));
    assert SingleLine(Text(f, MedicamentosEmUso)) && SingleLine(Text(f, AntecedentesFamiliares));
    assert SingleLine(Text(f, HabitosVida)) && SingleLine(Text(f, CondutaSugerida));
    assert SingleLine(Slot(f.hipoteses, 0)) && SingleLine(Slot(f.hipoteses, 1)) && SingleLine(Slot(f.hipoteses, 2));
    ConcatSingleLine(PatologicosLabel, OrPlaceholder(f.antecedentesPatologicos, NotInformed));
    ConcatSingleLine(CirurgicosLabel, OrPlaceholder(f.antecedentesCirurgicos, NotInformed));
    ConcatSingleLine(MedicamentosLabel, OrPlaceholder(f.medicamentosEmUso, NotInformed));
    ConcatSingleLine(Hd1Label, OrPlaceholder(Slot(f.hipoteses, 0), NotDefined));
    ConcatSingleLine(Hd2Label, OrPlaceholder(Slot(f.hipoteses, 1), NotDefined));
    ConcatSingleLine(Hd3Label, OrPlaceholder(Slot(f.hipoteses, 2), NotDefined));
    ConcatSingleLine(FooterLabel, generatedAt);
    assert forall k :: 0 <= k < 42 ==> SingleLine(lines[k]);
    SplitJoin(lines, '\n');
  }
}
