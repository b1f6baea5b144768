/**
 * The "Consulta por Placa" screen: a search of a truck's trips by plate, with
 * a validation step and one message for each way the search can end.
 */
module ConsultaPelaPlaca {
  import opened Wrappers
  import opened Js

  const EnterPlate := "Por favor, digite uma placa para buscar."
  const NoTrips := "Caminhão não encontrado ou não possui viagens cadastradas."
  const NotFound := "Caminhão não encontrado. Verifique a placa digitada."
  const ConnectionError := "Erro de conexão com o servidor. Verifique se o backend está rodando."
  const SearchFailed := "Erro ao buscar viagens. Tente novamente mais tarde."

  function FoundFor(placa: string): string {
    "Viagens encontradas para a placa: " + placa
  }

  /** `res.data && res.data.viagens && res.data.viagens.length > 0` */
  predicate HasTrips(data: Value) {
    var vs := Prop(data, "viagens");
    Truthy(data) && Truthy(vs) && Length(vs).Some? && Length(vs).value > 0
  }

  /**
   * The error for a failed request as the `catch` block writes it. axios sets
   * `error.request` whenever the request went out, also when the server
   * answered with an error status, so every status but 404 is reported as a
   * connection failure.
   */
  function FailureMessageAsWritten(r: Reply): (msg: string)
    requires !r.Ok?
    ensures msg == NotFound <==> r.HttpError? && r.status == 404
    ensures msg == ConnectionError <==> r.NoResponse? || (r.HttpError? && r.status != 404)
    ensures msg == SearchFailed <==> r.SetupError?
  {
    if r.HttpError? && r.status == 404 then NotFound
    else if r.HttpError? || r.NoResponse? then ConnectionError
    else SearchFailed
  }

  /** A server answering 500 is reported as a server that cannot be reached. */
  lemma ServerErrorReadAsConnectionError()
    ensures FailureMessageAsWritten(HttpError(500, Null)) == ConnectionError
    ensures FailureMessageAsWritten(HttpError(500, Null)) == FailureMessageAsWritten(NoResponse)
  {
  }

  /**
   * The error for a failed request with the three failures told apart:
   * 404 means the truck was not found, no response means the server could
   * not be reached, and anything else is a generic failure.
   */
  function FailureMessage(r: Reply): (msg: string)
    requires !r.Ok?
    ensures msg == NotFound <==> r.HttpError? && r.status == 404
    ensures msg == ConnectionError <==> r.NoResponse?
    ensures msg == SearchFailed <==> r.SetupError? || (r.HttpError? && r.status != 404)
  {
    if r.HttpError? && r.status == 404 then NotFound
    else if r.NoResponse? then ConnectionError
    else SearchFailed
  }

  class Search {
    var placa: string
    var viagens: Value
    var mensagem: string
    var erro: string
    var loading: bool

    constructor ()
      ensures placa == "" && viagens == Arr([]) && mensagem == "" && erro == "" && !loading
    {
      placa, viagens := "", Arr([]);
      mensagem, erro, loading := "", "", false;
    }

    /** Typing in the plate input. */
    method SetPlate(p: string)
      modifies this`placa
      ensures placa == p
    {
      placa := p;
    }

    /**
     * `buscarViagens` as written: `r` answers `GET /viagens/{placa}` when the
     * request is sent, which is exactly when the plate is not empty. A failed
     * request is reported by `FailureMessageAsWritten`, so an error status
     * other than 404 shows the connection error.
     */
    method RunAsWritten(r: Reply) returns (requested: bool)
      modifies this`viagens, this`mensagem, this`erro, this`loading
      ensures requested <==> placa != ""
      ensures !loading
      ensures (mensagem != "") != (erro != "")
      ensures !requested ==> viagens == Arr([]) && erro == EnterPlate
      ensures requested && r.Ok? && HasTrips(r.data) ==>
        viagens == Prop(r.data, "viagens") && mensagem == FoundFor(placa) && erro == ""
      ensures requested && r.Ok? && !HasTrips(r.data) ==> viagens == Arr([]) && erro == NoTrips
      ensures requested && !r.Ok? ==> viagens == Arr([]) && erro == FailureMessageAsWritten(r)
      ensures viagens != Arr([]) ==> requested && r.Ok? && HasTrips(r.data)
    {
      viagens := Arr([]);
      mensagem := "";
      erro := "";
      loading := true;
      if placa == "" {
        erro := EnterPlate;
        loading := false;
        return false;
      }
      requested := true;
      if r.Ok? {
        if HasTrips(r.data) {
          viagens := Prop(r.data, "viagens");
          mensagem := FoundFor(placa);
        } else {
          viagens := Arr([]);
          erro := NoTrips;
        }
      } else {
        erro := FailureMessageAsWritten(r);
        viagens := Arr([]);
      }
      loading := false;
    }

    /**
     * `buscarViagens`: `r` answers `GET /viagens/{placa}` when the request is
     * sent, which is exactly when the plate is not empty. Every search ends
     * with exactly one of `mensagem` and `erro` set and `loading` false.
     * A failed request is reported by `FailureMessage`, which keeps server
     * errors apart from an unreachable server.
     */
    method Run(r: Reply) returns (requested: bool)
      modifies this`viagens, this`mensagem, this`erro, this`loading
      ensures requested <==> placa != ""
      ensures !loading
      ensures (mensagem != "") != (erro != "")
      ensures !requested ==> viagens == Arr([]) && erro == EnterPlate
      ensures requested && r.Ok? && HasTrips(r.data) ==>
        viagens == Prop(r.data, "viagens") && mensagem == FoundFor(placa) && erro == ""
      ensures requested && r.Ok? && !HasTrips(r.data) ==> viagens == Arr([]) && erro == NoTrips
      ensures requested && !r.Ok? ==> viagens == Arr([]) && erro == FailureMessage(r)
      ensures viagens != Arr([]) ==> requested && r.Ok? && HasTrips(r.data)
    {
      viagens := Arr([]);
      mensagem := "";
      erro := "";
      loading := true;
      if placa == "" {
        erro := EnterPlate;
        loading := false;
        return false;
      }
      requested := true;
      if r.Ok? {
        if HasTrips(r.data) {
          viagens := Prop(r.data, "viagens");
          mensagem := FoundFor(placa);
        } else {
          viagens := Arr([]);
          erro := NoTrips;
        }
      } else {
        erro := FailureMessage(r);
        viagens := Arr([]);
      }
      loading := false;
    }
  }
}
