/**
 * The "Exportar Viagens Finalizadas" screen: the finished trips turned into
 * the rows of an Excel sheet and of a PDF table.
 */
module ExportarDados {
  import opened Wrappers
  import opened Js
  import Seqs

  const NoTrips := "Nenhuma viagem finalizada encontrada para exportação."
  const LoadFailed := "Erro ao carregar dados. Tente novamente mais tarde."
  const NothingForExcel := "Não há dados de viagens para exportar para Excel."
  const NothingForPdf := "Não há dados de viagens para exportar para PDF."
  const ExcelFailed := "Erro ao exportar para Excel. Verifique o console."
  const PdfFailed := "Erro ao exportar para PDF. Verifique o console."
  const ExcelExported := "Arquivo Excel exportado com sucesso!"
  const PdfExported := "Arquivo PDF exportado com sucesso!"

  /** A cell: a trip value shown as it is, or an amount before it is formatted (`None` is NaN). */
  datatype Cell = Text(v: Value) | Amount(x: Option<real>)

  /** The sheet's columns, in the key order of each row object. */
  const ExcelColumns: seq<string> := ["Placa", "Nome Caminhão", "Motorista", "Cliente", "Origem", "Destino",
    "Data Início", "Data Fim", "Frete", "Custos", "Lucro Total (R$)", "Status"]

  /** The PDF table's header row. */
  const PdfHeader: seq<string> := ["Placa", "Caminhão", "Motorista", "Cliente", "Origem", "Destino",
    "Início", "Fim", "Frete", "Custos", "Lucro", "Status"]

  /** `v || "N/A"` */
  function OrNA(v: Value): Value {
    Or(v, Str("N/A"))
  }

  /** `v || 0` */
  function OrZero(v: Value): Value {
    Or(v, Num(0.0))
  }

  /** The cells both formats copy or fall back on, columns 0 to 7 and 11. */
  function Described(t: Record, amount: Value -> Option<real>): seq<Cell> {
    [Text(Get(t, "placa")), Text(OrNA(Get(t, "caminhao_nome"))), Text(OrNA(Get(t, "motorista_nome"))),
     Text(OrNA(Get(t, "cliente_nome"))), Text(OrNA(Get(t, "origem"))), Text(OrNA(Get(t, "destino"))),
     Text(Get(t, "inicio")), Text(Get(t, "fim")),
     Amount(amount(Get(t, "frete"))), Amount(amount(OrZero(Get(t, "custos")))),
     Amount(amount(OrZero(Get(t, "lucro_total")))),
     Text(Get(t, "status"))]
  }

  /** A sheet row: amounts read with `parseFloat`. */
  function ExcelRow(t: Record): (row: seq<Cell>)
    ensures |row| == |ExcelColumns|
  {
    Described(t, ParseFloat)
  }

  /** A PDF body row: amounts read with `Number`. */
  function PdfRow(t: Record): (row: seq<Cell>)
    ensures |row| == |PdfHeader|
  {
    Described(t, ToNumber)
  }

  /** What a row of either format holds for trip `t`. */
  predicate ShowsTrip(row: seq<Cell>, t: Record) {
    |row| == 12 &&
    row[0] == Text(Get(t, "placa")) && row[6] == Text(Get(t, "inicio")) &&
    row[7] == Text(Get(t, "fim")) && row[11] == Text(Get(t, "status")) &&
    (row[1] == Text(Str("N/A")) <==> !Truthy(Get(t, "caminhao_nome")) || Get(t, "caminhao_nome") == Str("N/A")) &&
    (row[2] == Text(Str("N/A")) <==> !Truthy(Get(t, "motorista_nome")) || Get(t, "motorista_nome") == Str("N/A")) &&
    (row[3] == Text(Str("N/A")) <==> !Truthy(Get(t, "cliente_nome")) || Get(t, "cliente_nome") == Str("N/A")) &&
    (row[4] == Text(Str("N/A")) <==> !Truthy(Get(t, "origem")) || Get(t, "origem") == Str("N/A")) &&
    (row[5] == Text(Str("N/A")) <==> !Truthy(Get(t, "destino")) || Get(t, "destino") == Str("N/A")) &&
    (Truthy(Get(t, "caminhao_nome")) ==> row[1] == Text(Get(t, "caminhao_nome"))) &&
    (Truthy(Get(t, "motorista_nome")) ==> row[2] == Text(Get(t, "motorista_nome"))) &&
    (Truthy(Get(t, "cliente_nome")) ==> row[3] == Text(Get(t, "cliente_nome"))) &&
    (Truthy(Get(t, "origem")) ==> row[4] == Text(Get(t, "origem"))) &&
    (Truthy(Get(t, "destino")) ==> row[5] == Text(Get(t, "destino"))) &&
    (!Truthy(Get(t, "custos")) ==> row[9] == Amount(Some(0.0))) &&
    (!Truthy(Get(t, "lucro_total")) ==> row[10] == Amount(Some(0.0)))
  }

  lemma DescribedShowsTrip(t: Record, amount: Value -> Option<real>)
    requires amount(Num(0.0)) == Some(0.0)
    ensures ShowsTrip(Described(t, amount), t)
  {
    var row := Described(t, amount);
    assert row[9] == Amount(amount(OrZero(Get(t, "custos"))));
    assert row[10] == Amount(amount(OrZero(Get(t, "lucro_total"))));
  }

  /**
   * Both formats copy plate, dates and status unchanged, write "N/A" for
   * exactly the missing descriptive fields, and export missing costs and
   * profit as 0.
   */
  lemma RowsShowTrip(t: Record)
    ensures ShowsTrip(ExcelRow(t), t)
    ensures ShowsTrip(PdfRow(t), t)
  {
    DescribedShowsTrip(t, ParseFloat);
    DescribedShowsTrip(t, ToNumber);
  }

  /**
   * The sheet and the PDF table agree cell by cell, except the freight,
   * which has no fallback and which `parseFloat` and `Number` read
   * differently when it is missing; they agree on it too when it is a number.
   */
  lemma FormatsAgree(t: Record)
    ensures forall i :: 0 <= i < 12 && i != 8 ==> ExcelRow(t)[i] == PdfRow(t)[i]
    ensures Get(t, "frete").Num? ==> ExcelRow(t) == PdfRow(t)
    ensures Get(t, "frete") == Null ==> ExcelRow(t)[8] == Amount(None) && PdfRow(t)[8] == Amount(Some(0.0))
  {
    var c, l := OrZero(Get(t, "custos")), OrZero(Get(t, "lucro_total"));
    assert ParseFloat(c) == ToNumber(c);
    assert ParseFloat(l) == ToNumber(l);
  }

  class Screen {
    var viagens: seq<Record>
    var loading: bool
    var error: string

    /** Mounting starts the load of `GET /viagens-finalizadas-lista`. */
    constructor ()
      ensures viagens == [] && loading && error == ""
    {
      viagens, loading, error := [], true, "";
    }

    /**
     * The load's answer. A reply that is not a list of trip objects counts
     * as a failed load.
     */
    method FinishLoad(r: Reply)
      modifies this`viagens, this`loading, this`error
      ensures !loading
      ensures r.Ok? && Records(r.data).Some? ==>
        viagens == Records(r.data).value && error == (if viagens == [] then NoTrips else old(error))
      ensures !(r.Ok? && Records(r.data).Some?) ==> viagens == [] && error == LoadFailed
    {
      if r.Ok? && Records(r.data).Some? {
        viagens := Records(r.data).value;
        if |viagens| == 0 {
          error := NoTrips;
        }
      } else {
        error := LoadFailed;
        viagens := [];
      }
      loading := false;
    }

    /**
     * `exportarExcel`: nothing to export sets an error and builds nothing;
     * otherwise the error is cleared and the sheet gets one row per trip, in
     * list order, and the success alert is raised. `fails` stands for the
     * spreadsheet library throwing, which sets the error and raises no alert.
     */
    method ExportExcel(fails: bool) returns (sheet: Option<seq<seq<Cell>>>, alert: Option<string>)
      modifies this`error
      ensures viagens == [] ==> sheet == None && alert == None && error == NothingForExcel
      ensures viagens != [] && !fails ==>
        sheet == Some(Seqs.Map(ExcelRow, viagens)) && alert == Some(ExcelExported) && error == ""
      ensures viagens != [] && fails ==> sheet == None && alert == None && error == ExcelFailed
      ensures alert.Some? <==> sheet.Some?
    {
      alert := None;
      if |viagens| == 0 {
        error := NothingForExcel;
        return None, None;
      }
      error := "";
      var rows := Seqs.Map(ExcelRow, viagens);
      if fails {
        error := ExcelFailed;
        sheet := None;
      } else {
        sheet := Some(rows);
        alert := Some(ExcelExported);
      }
    }

    /** `exportarPDF`: the same guard, with one 12-cell body row per trip and its own alert. */
    method ExportPdf(fails: bool) returns (body: Option<seq<seq<Cell>>>, alert: Option<string>)
      modifies this`error
      ensures viagens == [] ==> body == None && alert == None && error == NothingForPdf
      ensures viagens != [] && !fails ==>
        body == Some(Seqs.Map(PdfRow, viagens)) && alert == Some(PdfExported) && error == ""
      ensures viagens != [] && fails ==> body == None && alert == None && error == PdfFailed
      ensures alert.Some? <==> body.Some?
      ensures body.Some? ==> forall row :: row in body.value ==> |row| == |PdfHeader|
    {
      alert := None;
      if |viagens| == 0 {
        error := NothingForPdf;
        return None, None;
      }
      error := "";
      var rows := Seqs.Map(PdfRow, viagens);
      if fails {
        error := PdfFailed;
        body := None;
      } else {
        body := Some(rows);
        alert := Some(PdfExported);
      }
    }
  }
}
