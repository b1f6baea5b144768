/**
 * The "Editar ou Concluir Viagens" screen: the list of active trips, the edit
 * draft with its save confirmation, and the finalization modal with its live
 * profit preview. Each handler of the page is a method of `Screen`; requests
 * are not sent but returned, and their replies are parameters.
 */
module EditarViagem {
  import opened Wrappers
  import opened Js

  const InProgress := "Em andamento"

  const NoActiveTrips := "Nenhuma viagem ativa encontrada."
  const LoadTripsFailed := "Erro ao carregar viagens ativas. Tente novamente mais tarde."
  const DriversFailed := "Erro ao carregar motoristas."
  const ClientsFailed := "Erro ao carregar clientes."
  const Saved := "Viagem atualizada com sucesso!"
  const SaveFailed := "Erro ao salvar alterações. Tente novamente."
  const Finalized := "Viagem finalizada com sucesso!"
  const FinalizeFailed := "Erro ao finalizar viagem. Tente novamente."

  /** The fields `handleEditar` rewrites; every other field of the trip is copied into the draft. */
  const EditedFields: set<string> := {"inicio", "fim", "motorista_id", "cliente_id", "custos", "lucro_total"}

  /** The six fields `handleEditar` rewrites, as it writes them. */
  function Edited(t: Record, formatDate: Value -> string): (e: map<string, Value>)
    ensures e.Keys == EditedFields
  {
    map[
      "inicio" := if Truthy(Get(t, "inicio")) then Str(formatDate(Get(t, "inicio"))) else Str(""),
      "fim" := if Truthy(Get(t, "fim")) then Str(formatDate(Get(t, "fim"))) else Str(""),
      "motorista_id" := Or(Get(t, "motorista_id"), Str("")),
      "cliente_id" := Or(Get(t, "cliente_id"), Str("")),
      "custos" := Or(Get(t, "custos"), Num(0.0)),
      "lucro_total" := Or(Get(t, "lucro_total"), Num(0.0))
    ]
  }

  /**
   * The edit draft opened for trip `t`: `{...t, inicio, fim, motorista_id,
   * cliente_id, custos, lucro_total}`. `formatDate` stands for
   * `dayjs(v).format('YYYY-MM-DD')`.
   */
  function EditDraft(t: Record, formatDate: Value -> string): (d: Record)
    ensures d.Keys == t.Keys + EditedFields
    ensures forall k :: k !in EditedFields ==> Get(d, k) == Get(t, k)
  {
    t + Edited(t, formatDate)
  }

  /** Field `k` of `d` is field `k` of `t` when that is truthy, and `dflt` otherwise. */
  predicate DefaultsTo(d: Record, t: Record, k: string, dflt: Value) {
    Get(d, k) == if Truthy(Get(t, k)) then Get(t, k) else dflt
  }

  /**
   * A missing (falsy) driver, client or date becomes `""` and a missing cost or
   * profit becomes 0; a present one is kept, dates reformatted. So no edited
   * field of the draft is null or undefined.
   */
  lemma DraftDefaults(t: Record, formatDate: Value -> string)
    ensures var d := EditDraft(t, formatDate);
      && DefaultsTo(d, t, "motorista_id", Str(""))
      && DefaultsTo(d, t, "cliente_id", Str(""))
      && DefaultsTo(d, t, "custos", Num(0.0))
      && DefaultsTo(d, t, "lucro_total", Num(0.0))
      && Get(d, "inicio") == (if Truthy(Get(t, "inicio")) then Str(formatDate(Get(t, "inicio"))) else Str(""))
      && Get(d, "fim") == (if Truthy(Get(t, "fim")) then Str(formatDate(Get(t, "fim"))) else Str(""))
    ensures var d := EditDraft(t, formatDate);
      && !IsNullish(Get(d, "inicio")) && !IsNullish(Get(d, "fim"))
      && !IsNullish(Get(d, "motorista_id")) && !IsNullish(Get(d, "cliente_id"))
      && !IsNullish(Get(d, "custos")) && !IsNullish(Get(d, "lucro_total"))
  {
    var e := Edited(t, formatDate);
    var d := t + e;
    assert Get(d, "inicio") == e["inicio"];
    assert Get(d, "fim") == e["fim"];
    assert Get(d, "motorista_id") == e["motorista_id"];
    assert Get(d, "cliente_id") == e["cliente_id"];
    assert Get(d, "custos") == e["custos"];
    assert Get(d, "lucro_total") == e["lucro_total"];
  }

  /**
   * Opening the edit of a draft that was itself opened by `handleEditar`
   * changes nothing, provided reformatting a formatted date gives it back.
   */
  lemma EditDraftIdempotent(t: Record, formatDate: Value -> string)
    requires forall v :: formatDate(Str(formatDate(v))) == formatDate(v)
    ensures EditDraft(EditDraft(t, formatDate), formatDate) == EditDraft(t, formatDate)
  {
    var e := Edited(t, formatDate);
    var d := t + e;
    // the rewritten fields of the draft are already in their rewritten form
    DraftDefaults(t, formatDate);
    assert Edited(d, formatDate) == e;
    assert d + e == d;
  }

  /** The number an operand of the preview stands for: 0 when it is falsy, what `parseFloat` reads otherwise. */
  function Operand(v: Value): Option<real> {
    if Truthy(v) then ParseFloat(v) else Some(0.0)
  }

  /**
   * The live profit shown in the edit form and in the finalization modal:
   * `parseFloat(frete || 0) - parseFloat(custos || 0)`; `None` is NaN. Its
   * contract reads the body through `Operand`; what the preview promises is
   * proved in the lemmas that follow.
   */
  function ProfitPreview(frete: Value, custos: Value): (p: Option<real>)
    ensures p.Some? <==> Operand(frete).Some? && Operand(custos).Some?
    ensures p.Some? ==> p.value == Operand(frete).value - Operand(custos).value
  {
    var f := ParseFloat(Or(frete, Num(0.0)));
    var c := ParseFloat(Or(custos, Num(0.0)));
    if f.Some? && c.Some? then Some(f.value - c.value) else None
  }

  /** With numbers on both sides the preview is freight minus costs. */
  lemma PreviewIsFreightMinusCosts(f: real, c: real)
    ensures ProfitPreview(Num(f), Num(c)) == Some(f - c)
  {
  }

  /** A falsy operand reads as 0, as the number 0 itself does. */
  lemma FalsyOperand(v: Value)
    requires !Truthy(v)
    ensures Operand(v) == Operand(Num(0.0)) == Some(0.0)
  {
  }

  /** A missing, null, zero or empty freight or cost counts as 0; missing costs leave the freight unchanged. */
  lemma PreviewTreatsMissingAsZero(frete: Value, custos: Value)
    ensures !Truthy(custos) ==> ProfitPreview(frete, custos) == ProfitPreview(frete, Num(0.0))
    ensures !Truthy(frete) ==> ProfitPreview(frete, custos) == ProfitPreview(Num(0.0), custos)
    ensures !Truthy(custos) && frete.Num? ==> ProfitPreview(frete, custos) == Some(frete.x)
  {
    if !Truthy(custos) {
      FalsyOperand(custos);
    }
    if !Truthy(frete) {
      FalsyOperand(frete);
    }
  }

  /** Costs typed into the modal arrive as text; a whole number typed there is subtracted as that number. */
  lemma PreviewOfTypedCosts(f: real, n: nat)
    ensures ProfitPreview(Num(f), Str(Numeral(n))) == Some(f - n as real)
  {
    NumeralRoundTrip(n);
    NumeralDigits(n);
  }

  /** Freight 10000 and costs typed as "3500" preview a profit of 6500. */
  lemma PreviewExample()
    ensures ProfitPreview(Num(10000.0), Str(Numeral(3500))) == Some(6500.0)
  {
    PreviewOfTypedCosts(10000.0, 3500);
  }

  /** The actions a row of the list offers. */
  datatype Action = EditAction | FinalizeAction

  function RowActions(row: Value): (acts: set<Action>)
    ensures EditAction in acts
    ensures FinalizeAction in acts <==> Prop(row, "status") == Str(InProgress)
  {
    if Prop(row, "status") == Str(InProgress) then {EditAction, FinalizeAction} else {EditAction}
  }

  /** A driver or client load failure adds its message to the error already shown, after a space, or shows it alone. */
  function AppendLoadError(prev: string, msg: string): (r: string)
    ensures prev <= r
    ensures |msg| <= |r| && r[|r| - |msg|..] == msg
    ensures prev == "" ==> r == msg
    ensures prev != "" ==> |r| == |prev| + 1 + |msg| && r[|prev|] == ' '
  {
    if prev != "" then prev + " " + msg else msg
  }

  /** Both failures leave both messages, in the order they arrived. */
  lemma BothLoadErrorsKept()
    ensures AppendLoadError(AppendLoadError("", DriversFailed), ClientsFailed) == DriversFailed + " " + ClientsFailed
    ensures AppendLoadError(AppendLoadError("", ClientsFailed), DriversFailed) == ClientsFailed + " " + DriversFailed
  {
  }

  /** The finalization modal `{aberto, id, frete, custos}`. */
  datatype FinalizeModal = FinalizeModal(aberto: bool, id: Value, frete: Value, custos: Value)

  const ClosedModal := FinalizeModal(false, Null, Null, Null)

  /** `PUT /viagens/{id}` with the draft as body. */
  datatype Put = Put(id: Value, body: Record)

  /** Opening the finalization of a trip and opening its edit preview the same profit. */
  lemma PreviewsAgree(t: Record, formatDate: Value -> string)
    ensures var d := EditDraft(t, formatDate);
      ProfitPreview(Get(d, "frete"), Get(d, "custos"))
      == ProfitPreview(Get(t, "frete"), Or(Get(t, "custos"), Num(0.0)))
  {
  }

  class Screen {
    var viagens: Value
    var motoristas: Value
    var clientes: Value
    var edicao: Option<Record>
    var modalSalvar: bool
    var modalFinalizar: FinalizeModal
    var mensagem: string
    var erro: string
    var loading: bool

    constructor ()
      ensures viagens == Arr([]) && motoristas == Arr([]) && clientes == Arr([])
      ensures edicao == None && !modalSalvar && modalFinalizar == ClosedModal
      ensures mensagem == "" && erro == "" && loading
    {
      viagens, motoristas, clientes := Arr([]), Arr([]), Arr([]);
      edicao, modalSalvar, modalFinalizar := None, false, ClosedModal;
      mensagem, erro, loading := "", "", true;
    }

    /** The part of `carregarViagens` that runs before the request is answered. */
    method StartLoadTrips()
      modifies this`loading, this`mensagem, this`erro
      ensures loading && mensagem == "" && erro == ""
    {
      loading := true;
      mensagem := "";
      erro := "";
    }

    /** The answer to `GET /viagens-ativas-lista`: `then`, `catch` and `finally` of `carregarViagens`. */
    method FinishLoadTrips(r: Reply)
      modifies this`viagens, this`mensagem, this`erro, this`loading
      ensures !loading
      ensures r.Ok? && !IsNullish(r.data) ==>
        && viagens == r.data && erro == old(erro)
        && mensagem == (if Length(r.data) == Some(0) then NoActiveTrips else old(mensagem))
      ensures !(r.Ok? && !IsNullish(r.data)) ==>
        viagens == Arr([]) && erro == LoadTripsFailed && mensagem == old(mensagem)
    {
      if r.Ok? && !IsNullish(r.data) {
        viagens := r.data;
        if Length(r.data) == Some(0) {
          mensagem := NoActiveTrips;
        }
      } else {
        // a failed request, or `res.data.length` throwing on a null body inside `then`
        erro := LoadTripsFailed;
        viagens := Arr([]);
      }
      loading := false;
    }

    /** The answer to `GET /motoristas`. */
    method FinishLoadDrivers(r: Reply)
      modifies this`motoristas, this`erro
      ensures r.Ok? ==> motoristas == r.data && erro == old(erro)
      ensures !r.Ok? ==> motoristas == Arr([]) && erro == AppendLoadError(old(erro), DriversFailed)
    {
      if r.Ok? {
        motoristas := r.data;
      } else {
        erro := AppendLoadError(erro, DriversFailed);
        motoristas := Arr([]);
      }
    }

    /** The answer to `GET /clientes`. */
    method FinishLoadClients(r: Reply)
      modifies this`clientes, this`erro
      ensures r.Ok? ==> clientes == r.data && erro == old(erro)
      ensures !r.Ok? ==> clientes == Arr([]) && erro == AppendLoadError(old(erro), ClientsFailed)
    {
      if r.Ok? {
        clientes := r.data;
      } else {
        erro := AppendLoadError(erro, ClientsFailed);
        clientes := Arr([]);
      }
    }

    /** `handleEditar`: open the draft of a listed trip. */
    method OpenEdit(t: Record, formatDate: Value -> string)
      modifies this`edicao
      ensures edicao == Some(EditDraft(t, formatDate))
    {
      edicao := Some(EditDraft(t, formatDate));
    }

    /** Typing in one of the edit form's inputs: `{...edicao, [k]: v}`; the form shows only while a draft is open. */
    method EditField(k: string, v: Value)
      requires edicao.Some?
      modifies this`edicao
      ensures edicao == Some(old(edicao).value[k := v])
      ensures Get(edicao.value, k) == v
      ensures forall j :: j != k ==> Get(edicao.value, j) == Get(old(edicao).value, j)
    {
      edicao := Some(edicao.value[k := v]);
    }

    /** "Cancelar Edição" */
    method CancelEdit()
      modifies this`edicao
      ensures edicao == None
    {
      edicao := None;
    }

    /** `handleSalvar`: ask for confirmation. */
    method RequestSave()
      modifies this`modalSalvar
      ensures modalSalvar
    {
      modalSalvar := true;
    }

    /** "Cancelar" in the save confirmation. */
    method CancelSave()
      modifies this`modalSalvar
      ensures !modalSalvar
    {
      modalSalvar := false;
    }

    /**
     * `confirmarSalvar` as written: on success the success message is set and
     * then `carregarViagens()` clears it at once, so it is never shown.
     */
    method ConfirmSaveAsWritten(r: Reply) returns (put: Option<Put>)
      modifies this`modalSalvar, this`mensagem, this`erro, this`edicao, this`loading
      ensures !modalSalvar
      ensures put == if old(edicao).Some? then Some(Put(Get(old(edicao).value, "id"), old(edicao).value)) else None
      ensures put.Some? && r.Ok? ==> edicao == None && loading && mensagem == "" && erro == ""
      ensures put.Some? && !r.Ok? ==>
        edicao == old(edicao) && erro == ErrorText(r, SaveFailed) && mensagem == "" && loading == old(loading)
      ensures put.None? ==> edicao == None && erro == SaveFailed && mensagem == "" && loading == old(loading)
    {
      modalSalvar := false;
      mensagem := "";
      erro := "";
      if edicao.None? {
        // `edicao.id` throws; the TypeError carries no response
        erro := SaveFailed;
        return None;
      }
      put := Some(Put(Get(edicao.value, "id"), edicao.value));
      if r.Ok? {
        mensagem := Saved;
        edicao := None;
        StartLoadTrips();
      } else {
        erro := ErrorText(r, SaveFailed);
      }
    }

    /**
     * `confirmarSalvar` with the success message kept: the reload starts
     * first and the message is set after it.
     */
    method ConfirmSave(r: Reply) returns (put: Option<Put>)
      modifies this`modalSalvar, this`mensagem, this`erro, this`edicao, this`loading
      ensures !modalSalvar
      ensures put == if old(edicao).Some? then Some(Put(Get(old(edicao).value, "id"), old(edicao).value)) else None
      ensures put.Some? && r.Ok? ==> edicao == None && loading && mensagem == Saved && erro == ""
      ensures put.Some? && !r.Ok? ==>
        edicao == old(edicao) && erro == ErrorText(r, SaveFailed) && erro != "" && mensagem == "" && loading == old(loading)
      ensures put.None? ==> edicao == None && erro == SaveFailed && mensagem == "" && loading == old(loading)
    {
      modalSalvar := false;
      mensagem := "";
      erro := "";
      if edicao.None? {
        erro := SaveFailed;
        return None;
      }
      put := Some(Put(Get(edicao.value, "id"), edicao.value));
      if r.Ok? {
        edicao := None;
        StartLoadTrips();
        mensagem := Saved;
      } else {
        erro := ErrorText(r, SaveFailed);
      }
    }

    /** `handleFinalizar`: open the modal with the trip's id and freight; costs start at the stored costs or 0. */
    method OpenFinalize(t: Record)
      modifies this`modalFinalizar
      ensures modalFinalizar.aberto
      ensures modalFinalizar.id == Get(t, "id") && modalFinalizar.frete == Get(t, "frete")
      ensures modalFinalizar.custos == (if Truthy(Get(t, "custos")) then Get(t, "custos") else Num(0.0))
    {
      modalFinalizar := FinalizeModal(true, Get(t, "id"), Get(t, "frete"), Or(Get(t, "custos"), Num(0.0)));
    }

    /** Typing in the modal's costs input. */
    method EnterCosts(c: Value)
      modifies this`modalFinalizar
      ensures modalFinalizar == old(modalFinalizar).(custos := c)
    {
      modalFinalizar := modalFinalizar.(custos := c);
    }

    /** "Cancelar" in the finalization modal. */
    method CancelFinalize()
      modifies this`modalFinalizar
      ensures modalFinalizar == ClosedModal && !modalFinalizar.aberto
    {
      modalFinalizar := ClosedModal;
    }

    /**
     * `confirmarFinalizar` as written: the PATCH carries the id and costs the
     * modal held before it was reset; on success the message is cleared at once
     * by `carregarViagens()`.
     */
    method ConfirmFinalizeAsWritten(r: Reply) returns (patch: FinalizeRequest)
      modifies this`modalFinalizar, this`mensagem, this`erro, this`loading
      ensures patch == FinalizeRequest(old(modalFinalizar).id, old(modalFinalizar).custos)
      ensures modalFinalizar == ClosedModal
      ensures r.Ok? ==> loading && mensagem == "" && erro == ""
      ensures !r.Ok? ==> erro == ErrorText(r, FinalizeFailed) && mensagem == "" && loading == old(loading)
    {
      patch := FinalizeRequest(modalFinalizar.id, modalFinalizar.custos);
      modalFinalizar := ClosedModal;
      mensagem := "";
      erro := "";
      if r.Ok? {
        mensagem := Finalized;
        StartLoadTrips();
      } else {
        erro := ErrorText(r, FinalizeFailed);
      }
    }

    /** `confirmarFinalizar` with the success message kept after the reload starts. */
    method ConfirmFinalize(r: Reply) returns (patch: FinalizeRequest)
      modifies this`modalFinalizar, this`mensagem, this`erro, this`loading
      ensures patch == FinalizeRequest(old(modalFinalizar).id, old(modalFinalizar).custos)
      ensures modalFinalizar == ClosedModal
      ensures r.Ok? ==> loading && mensagem == Finalized && erro == ""
      ensures !r.Ok? ==> erro == ErrorText(r, FinalizeFailed) && erro != "" && mensagem == "" && loading == old(loading)
    {
      patch := FinalizeRequest(modalFinalizar.id, modalFinalizar.custos);
      modalFinalizar := ClosedModal;
      mensagem := "";
      erro := "";
      if r.Ok? {
        StartLoadTrips();
        mensagem := Finalized;
      } else {
        erro := ErrorText(r, FinalizeFailed);
      }
    }

    /** The profit shown in the edit form, when a draft is open. */
    function FormProfit(): (p: Option<real>)
      reads this
      requires edicao.Some?
      ensures !Truthy(Get(edicao.value, "custos")) && Get(edicao.value, "frete").Num? ==> p == Some(Get(edicao.value, "frete").x)
    {
      ProfitPreview(Get(edicao.value, "frete"), Get(edicao.value, "custos"))
    }

    /** The profit shown in the finalization modal. */
    function ModalProfit(): (p: Option<real>)
      reads this
      ensures !Truthy(modalFinalizar.custos) && modalFinalizar.frete.Num? ==> p == Some(modalFinalizar.frete.x)
    {
      ProfitPreview(modalFinalizar.frete, modalFinalizar.custos)
    }
  }
}
