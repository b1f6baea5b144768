/**
 * The "Situação Atual dos Caminhões" screen: the trips on the road, filtered
 * against malformed records, and the finalization of a truck's current trip,
 * which looks the trip up by plate before sending the PATCH.
 */
module SituacaoAtual {
  import opened Wrappers
  import opened Js
  import Seqs

  const InProgress := "Em andamento"

  const NoneOnTheRoad := "Nenhum caminhão está em viagem no momento."
  const LoadFailed := "Erro ao carregar a situação atual. Tente novamente mais tarde."

  function NotFoundFor(placa: string): string {
    "Não foi encontrada uma viagem \"Em andamento\" para a placa " + placa + "."
  }

  function FinalizedFor(placa: string): string {
    "Viagem do caminhão " + placa + " finalizada com sucesso!"
  }

  function FinalizeFailedFor(placa: string): string {
    "Erro ao finalizar a viagem do caminhão " + placa + ". Tente novamente."
  }

  /** `v && v.placa && v.inicio && v.status` */
  predicate WellFormed(v: Value) {
    Truthy(v) && Truthy(Prop(v, "placa")) && Truthy(Prop(v, "inicio")) && Truthy(Prop(v, "status"))
  }

  /** `Array.isArray(data) ? data : []` */
  function RawList(data: Value): seq<Value> {
    if data.Arr? then data.items else []
  }

  /**
   * The trips kept from a reply body: exactly its well-formed records, each as
   * often as it occurs, in the order of the reply; nothing when the body is
   * not an array.
   */
  function ActiveTrips(data: Value): (r: seq<Value>)
    ensures !data.Arr? ==> r == []
    ensures forall v :: v in r <==> v in RawList(data) && WellFormed(v)
    ensures forall v :: multiset(r)[v] == if WellFormed(v) then multiset(RawList(data))[v] else 0
    ensures Seqs.IsSubsequence(r, RawList(data))
    ensures r == [] <==> forall i :: 0 <= i < |RawList(data)| ==> !WellFormed(RawList(data)[i])
  {
    var raw := RawList(data);
    Seqs.FilterMembers(WellFormed, raw);
    Seqs.FilterCounts(WellFormed, raw);
    Seqs.FilterInOrder(WellFormed, raw);
    Seqs.FilterEmpty(WellFormed, raw);
    Seqs.Filter(WellFormed, raw)
  }

  predicate IsInProgress(v: Value) {
    Prop(v, "status") == Str(InProgress)
  }

  /** The outcome of `trips.find(v => v.status === "Em andamento")`. */
  datatype Found = Hit(index: nat) | Miss | Throws(at: nat)

  /**
   * `find` from index `i` on: the first element in progress, or no element in
   * progress, or the first null or undefined element met before either, whose
   * `status` cannot be read.
   */
  function FindFrom(trips: seq<Value>, i: nat): (f: Found)
    requires i <= |trips|
    ensures f.Hit? ==> i <= f.index < |trips| && IsInProgress(trips[f.index])
    ensures f.Throws? ==> i <= f.at < |trips| && IsNullish(trips[f.at])
    ensures var stop := match f case Hit(k) => k case Throws(k) => k case Miss => |trips|;
      forall j :: i <= j < stop ==> !IsNullish(trips[j]) && !IsInProgress(trips[j])
    decreases |trips| - i
  {
    if i == |trips| then Miss
    else if IsNullish(trips[i]) then Throws(i)
    else if IsInProgress(trips[i]) then Hit(i)
    else FindFrom(trips, i + 1)
  }

  /** What `res.data.viagens.find(…)` gives for a reply body. */
  datatype Pick = Picked(trip: Value) | NothingInProgress | Threw

  /** Some trip is in progress, and no null or undefined trip comes before it. */
  predicate ReachesInProgress(trips: seq<Value>) {
    exists k :: 0 <= k < |trips| && IsInProgress(trips[k]) && forall j :: 0 <= j < k ==> !IsNullish(trips[j])
  }

  /** Some trip is null or undefined, and no trip before it is in progress. */
  predicate ReachesNullish(trips: seq<Value>) {
    exists k :: 0 <= k < |trips| && IsNullish(trips[k]) && forall j :: 0 <= j < k ==> !IsInProgress(trips[j])
  }

  /** `find` from the start hits exactly when it reaches a trip in progress, and throws exactly when it reaches a nullish one. */
  lemma FindOutcome(trips: seq<Value>)
    ensures FindFrom(trips, 0).Hit? <==> ReachesInProgress(trips)
    ensures FindFrom(trips, 0).Throws? <==> ReachesNullish(trips)
  {
    match FindFrom(trips, 0)
    case Hit(h) =>
      assert IsInProgress(trips[h]) && !IsNullish(trips[h]);
      if ReachesNullish(trips) {
        var k :| 0 <= k < |trips| && IsNullish(trips[k]) && forall j :: 0 <= j < k ==> !IsInProgress(trips[j]);
        assert false;
      }
    case Throws(t) =>
      assert IsNullish(trips[t]) && !IsInProgress(trips[t]);
      if ReachesInProgress(trips) {
        var k :| 0 <= k < |trips| && IsInProgress(trips[k]) && forall j :: 0 <= j < k ==> !IsNullish(trips[j]);
        assert false;
      }
    case Miss =>
  }

  /**
   * `res.data.viagens.find(…)`: a trip is picked exactly when the list is an
   * array in which a trip in progress comes before any nullish one, and the
   * lookup throws exactly when the body or its list cannot be read or a
   * nullish trip comes first.
   */
  function PickTrip(data: Value): (p: Pick)
    ensures p.Picked? ==> Prop(data, "viagens").Arr? && p.trip in Prop(data, "viagens").items && IsInProgress(p.trip)
    ensures p.NothingInProgress? ==>
      Prop(data, "viagens").Arr? && forall v :: v in Prop(data, "viagens").items ==> !IsInProgress(v)
    ensures var vs := Prop(data, "viagens");
      p.Picked? <==> vs.Arr? && ReachesInProgress(vs.items)
    ensures var vs := Prop(data, "viagens");
      p.Threw? <==> IsNullish(data) || !vs.Arr? || ReachesNullish(vs.items)
  {
    if IsNullish(data) || !Prop(data, "viagens").Arr? then Threw
    else
      var trips := Prop(data, "viagens").items;
      FindOutcome(trips);
      match FindFrom(trips, 0)
      case Hit(k) => Picked(trips[k])
      case Miss => NothingInProgress
      case Throws(_) => Threw
  }

  /** The picked trip is the first one in progress: every trip before it is a record that is not. */
  lemma PickedIsFirstInProgress(data: Value)
    requires PickTrip(data).Picked?
    ensures var trips := Prop(data, "viagens").items;
      exists k :: 0 <= k < |trips| && trips[k] == PickTrip(data).trip &&
        forall j :: 0 <= j < k ==> !IsNullish(trips[j]) && !IsInProgress(trips[j])
  {
    var trips := Prop(data, "viagens").items;
    var f := FindFrom(trips, 0);
    assert f.Hit?;
    assert trips[f.index] == PickTrip(data).trip;
  }

  /** `null` in a template literal reads "null". */
  function PlateText(p: Option<string>): string {
    match p
    case Some(s) => s
    case None => "null"
  }

  /** The confirmation modal `{aberto, placa}`. */
  datatype ConfirmModal = ConfirmModal(aberto: bool, placa: Option<string>)

  const ClosedModal := ConfirmModal(false, None)

  /** What rendering the screen gives: the page, with or without the confirmation modal, or a thrown error. */
  datatype Page = Shown(modalShown: bool) | Crashed

  /** The "Confirmar Finalização" button is on the page. */
  predicate OffersConfirm(p: Page) {
    p.Shown? && p.modalShown
  }

  /**
   * The screen as written: the open modal's costs input and profit line read
   * `modalFinalizar`, which this component never declares, so rendering an
   * open modal throws a ReferenceError and, with no error boundary above it,
   * the page is taken down.
   */
  function RenderAsWritten(m: ConfirmModal): (p: Page)
    ensures p.Crashed? <==> m.aberto
    ensures !OffersConfirm(p)
  {
    if m.aberto then Crashed else Shown(false)
  }

  /** As written, "Finalizar Viagem" on any card crashes the page, and the confirmation is never offered. */
  lemma FinalizeUnreachableAsWritten(placa: string)
    ensures RenderAsWritten(ConfirmModal(true, Some(placa))) == Crashed
    ensures forall m :: !OffersConfirm(RenderAsWritten(m))
  {
  }

  /** The screen with the modal drawn from state it declares: it never throws, and the modal shows exactly when it is open. */
  function Render(m: ConfirmModal): (p: Page)
    ensures p.Shown?
    ensures OffersConfirm(p) <==> m.aberto
  {
    Shown(m.aberto)
  }

  /** Corrected, opening the modal on a plate offers the confirmation, and cancelling withdraws it. */
  lemma FinalizeReachable(placa: string)
    ensures OffersConfirm(Render(ConfirmModal(true, Some(placa))))
    ensures !OffersConfirm(Render(ClosedModal))
  {
  }

  class Screen {
    var viagens: seq<Value>
    var mensagem: string
    var erro: string
    var modalConfirmacao: ConfirmModal
    var loading: bool

    constructor ()
      ensures viagens == [] && mensagem == "" && erro == "" && modalConfirmacao == ClosedModal && loading
    {
      viagens, mensagem, erro := [], "", "";
      modalConfirmacao, loading := ClosedModal, true;
    }

    /** The part of `carregarViagens` that runs before the request is answered. */
    method StartLoad()
      modifies this`loading, this`mensagem, this`erro
      ensures loading && mensagem == "" && erro == ""
    {
      loading := true;
      mensagem := "";
      erro := "";
    }

    /** The answer to `GET /situacao-atual-caminhoes`. */
    method FinishLoad(r: Reply)
      modifies this`viagens, this`mensagem, this`erro, this`loading
      ensures !loading
      ensures r.Ok? ==> viagens == ActiveTrips(r.data) && erro == old(erro)
      ensures r.Ok? ==> mensagem == if viagens == [] then NoneOnTheRoad else old(mensagem)
      ensures !r.Ok? ==> viagens == [] && erro == LoadFailed && mensagem == old(mensagem)
    {
      if r.Ok? {
        viagens := ActiveTrips(r.data);
        if |viagens| == 0 {
          mensagem := NoneOnTheRoad;
        }
      } else {
        erro := LoadFailed;
        viagens := [];
      }
      loading := false;
    }

    /** "Finalizar Viagem" on a truck's card. */
    method OpenConfirm(placa: string)
      modifies this`modalConfirmacao
      ensures modalConfirmacao == ConfirmModal(true, Some(placa))
    {
      modalConfirmacao := ConfirmModal(true, Some(placa));
    }

    /** "Cancelar" in the modal. */
    method CancelConfirm()
      modifies this`modalConfirmacao
      ensures modalConfirmacao == ClosedModal
    {
      modalConfirmacao := ClosedModal;
    }

    /**
     * `confirmarFinalizarViagem` as written. `lookup` answers
     * `GET /viagens-por-placa/{placa}`, `patch` the PATCH when one is sent.
     * The not-found error and the success message are both cleared at once
     * by the `carregarViagens()` that follows them. Its button is drawn only
     * by a modal that `RenderAsWritten` cannot draw.
     */
    method ConfirmFinalizeAsWritten(lookup: Reply, patch: Reply) returns (sent: Option<FinalizeRequest>)
      modifies this`modalConfirmacao, this`mensagem, this`erro, this`loading
      ensures modalConfirmacao == ClosedModal
      ensures var pick := if lookup.Ok? then PickTrip(lookup.data) else Threw;
        sent == if pick.Picked? && Truthy(Prop(pick.trip, "id"))
                then Some(FinalizeRequest(Prop(pick.trip, "id"), Prop(pick.trip, "custos")))
                else None
      ensures var placa := PlateText(old(modalConfirmacao.placa));
        && (sent.None? && lookup.Ok? && !PickTrip(lookup.data).Threw? ==> loading && erro == "" && mensagem == "")
        && (sent.Some? && patch.Ok? ==> loading && mensagem == "" && erro == "")
        && (sent.Some? && !patch.Ok? ==>
              erro == ErrorText(patch, FinalizeFailedFor(placa)) && mensagem == "" && loading == old(loading))
        && (!lookup.Ok? ==>
              erro == ErrorText(lookup, FinalizeFailedFor(placa)) && mensagem == "" && loading == old(loading))
        && (lookup.Ok? && PickTrip(lookup.data).Threw? ==>
              erro == FinalizeFailedFor(placa) && mensagem == "" && loading == old(loading))
    {
      var placa := PlateText(modalConfirmacao.placa);
      modalConfirmacao := ClosedModal;
      mensagem := "";
      erro := "";
      sent := None;
      if !lookup.Ok? {
        erro := ErrorText(lookup, FinalizeFailedFor(placa));
        return;
      }
      var pick := PickTrip(lookup.data);
      if pick.Threw? {
        // a TypeError, which carries no response
        erro := FinalizeFailedFor(placa);
        return;
      }
      if pick.NothingInProgress? || !Truthy(Prop(pick.trip, "id")) {
        erro := NotFoundFor(placa);
        StartLoad();
        return;
      }
      sent := Some(FinalizeRequest(Prop(pick.trip, "id"), Prop(pick.trip, "custos")));
      if patch.Ok? {
        mensagem := FinalizedFor(placa);
        StartLoad();
      } else {
        erro := ErrorText(patch, FinalizeFailedFor(placa));
      }
    }

    /**
     * `confirmarFinalizarViagem` with its messages kept: the reload starts
     * before the not-found error or the success message is set.
     */
    method ConfirmFinalize(lookup: Reply, patch: Reply) returns (sent: Option<FinalizeRequest>)
      modifies this`modalConfirmacao, this`mensagem, this`erro, this`loading
      ensures modalConfirmacao == ClosedModal
      ensures var pick := if lookup.Ok? then PickTrip(lookup.data) else Threw;
        sent == if pick.Picked? && Truthy(Prop(pick.trip, "id"))
                then Some(FinalizeRequest(Prop(pick.trip, "id"), Prop(pick.trip, "custos")))
                else None
      ensures var placa := PlateText(old(modalConfirmacao.placa));
        && (sent.None? && lookup.Ok? && !PickTrip(lookup.data).Threw? ==>
              loading && erro == NotFoundFor(placa) && mensagem == "")
        && (sent.Some? && patch.Ok? ==> loading && mensagem == FinalizedFor(placa) && erro == "")
        && (sent.Some? && !patch.Ok? ==>
              erro == ErrorText(patch, FinalizeFailedFor(placa)) && mensagem == "" && loading == old(loading))
        && (!lookup.Ok? ==>
              erro == ErrorText(lookup, FinalizeFailedFor(placa)) && mensagem == "" && loading == old(loading))
        && (lookup.Ok? && PickTrip(lookup.data).Threw? ==>
              erro == FinalizeFailedFor(placa) && mensagem == "" && loading == old(loading))
    {
      var placa := PlateText(modalConfirmacao.placa);
      modalConfirmacao := ClosedModal;
      mensagem := "";
      erro := "";
      sent := None;
      if !lookup.Ok? {
        erro := ErrorText(lookup, FinalizeFailedFor(placa));
        return;
      }
      var pick := PickTrip(lookup.data);
      if pick.Threw? {
        erro := FinalizeFailedFor(placa);
        return;
      }
      if pick.NothingInProgress? || !Truthy(Prop(pick.trip, "id")) {
        StartLoad();
        erro := NotFoundFor(placa);
        return;
      }
      sent := Some(FinalizeRequest(Prop(pick.trip, "id"), Prop(pick.trip, "custos")));
      if patch.Ok? {
        StartLoad();
        mensagem := FinalizedFor(placa);
      } else {
        erro := ErrorText(patch, FinalizeFailedFor(placa));
      }
    }
  }
}
