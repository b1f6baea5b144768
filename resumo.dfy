/**
 * The "Resumo Financeiro" screen: a bar chart of the profit of every finished
 * trip that has one, coloured by whether it reaches the profit target.
 */
module ResumoFinanceiro {
  import opened Wrappers
  import opened Js
  import Seqs

  /** The profit target: bars at or above it are green, the others red. */
  const Goal: real := 30000.0

  const Green := "#22c55e"
  const Red := "#ef4444"
  const GreenBorder := "#16a34a"
  const RedBorder := "#dc2626"

  const NoProfit := "Nenhuma viagem com lucro/prejuízo registrado encontrada."
  const LoadFailed := "Erro ao carregar dados do resumo financeiro. Tente novamente mais tarde."

  /** A trip has a profit when `lucro_total` is neither null nor undefined; 0 counts. */
  predicate HasProfit(t: Record) {
    !IsNullish(Get(t, "lucro_total"))
  }

  /** `res.data.filter(...)`: the trips with a profit, in list order. */
  function Kept(ts: seq<Record>): (r: seq<Record>)
    ensures forall t :: t in r <==> t in ts && HasProfit(t)
    ensures forall t :: multiset(r)[t] == if HasProfit(t) then multiset(ts)[t] else 0
    ensures Seqs.IsSubsequence(r, ts)
    ensures r == [] <==> forall i :: 0 <= i < |ts| ==> !HasProfit(ts[i])
  {
    Seqs.FilterMembers(HasProfit, ts);
    Seqs.FilterCounts(HasProfit, ts);
    Seqs.FilterInOrder(HasProfit, ts);
    Seqs.FilterEmpty(HasProfit, ts);
    Seqs.Filter(HasProfit, ts)
  }

  /** A zero profit is a profit: such a trip gets a bar. */
  lemma ZeroProfitKept(t: Record)
    requires Get(t, "lucro_total") == Num(0.0) || Get(t, "lucro_total") == Str("0")
    ensures Kept([t]) == [t]
  {
  }

  /** The screen's state. */
  datatype State = State(viagens: seq<Record>, loading: bool, error: string)

  const Initial: State := State([], true, "")

  /**
   * The state once `GET /viagens-finalizadas-lista` has answered with `r`.
   * A reply that is not a list of trip objects counts as a failed load.
   */
  function Loaded(r: Reply): (s: State)
    ensures !s.loading
    ensures r.Ok? && Records(r.data).Some? ==>
      s.viagens == Kept(Records(r.data).value) && (s.error == NoProfit <==> s.viagens == [])
    ensures s.error == "" <==> r.Ok? && Records(r.data).Some? && s.viagens != []
    ensures !(r.Ok? && Records(r.data).Some?) ==> s == State([], false, LoadFailed)
  {
    if r.Ok? && Records(r.data).Some? then
      var kept := Kept(Records(r.data).value);
      State(kept, false, if |kept| == 0 then NoProfit else "")
    else
      State([], false, LoadFailed)
  }

  /** An axis label or tooltip title: plate, client and end date. */
  datatype Label = Label(placa: Value, cliente: Value, fim: Value)

  /** The x-axis label: the plate as it is, client and end date falling back to "N/A". */
  function AxisLabel(t: Record): Label {
    Label(Get(t, "placa"), Or(Get(t, "cliente_nome"), Str("N/A")), Or(Get(t, "fim"), Str("N/A")))
  }

  /** The tooltip title: every part falls back to "N/A". */
  function TooltipTitle(t: Record): Label {
    Label(Or(Get(t, "placa"), Str("N/A")), Or(Get(t, "cliente_nome"), Str("N/A")), Or(Get(t, "fim"), Str("N/A")))
  }

  function Profit(t: Record): Option<real> {
    ToNumber(Get(t, "lucro_total"))
  }

  /** `Number(lucro_total) >= 30000`; a profit that is not a number compares false. */
  predicate MeetsGoal(t: Record) {
    Profit(t).Some? && Profit(t).value >= Goal
  }

  function Background(t: Record): string {
    if MeetsGoal(t) then Green else Red
  }

  function Border(t: Record): string {
    if MeetsGoal(t) then GreenBorder else RedBorder
  }

  /** The chart's data: four series built from the same list. */
  datatype Bars = Bars(labels: seq<Label>, data: seq<Option<real>>, background: seq<string>, border: seq<string>)

  function BarsOf(ts: seq<Record>): (b: Bars)
    ensures |b.labels| == |b.data| == |b.background| == |b.border| == |ts|
    ensures forall i :: 0 <= i < |ts| ==>
      b.labels[i] == AxisLabel(ts[i]) && b.data[i] == Profit(ts[i]) &&
      b.background[i] == Background(ts[i]) && b.border[i] == Border(ts[i])
  {
    Bars(Seqs.Map(AxisLabel, ts), Seqs.Map(Profit, ts), Seqs.Map(Background, ts), Seqs.Map(Border, ts))
  }

  /**
   * A bar and its border are green exactly when the trip's profit is at
   * least the target, and red otherwise, including when it is not a number.
   */
  lemma ColoursFollowGoal(ts: seq<Record>, i: nat)
    requires i < |ts|
    ensures BarsOf(ts).background[i] == Green <==> BarsOf(ts).data[i].Some? && BarsOf(ts).data[i].value >= Goal
    ensures BarsOf(ts).background[i] == Red <==> !(BarsOf(ts).data[i].Some? && BarsOf(ts).data[i].value >= Goal)
    ensures BarsOf(ts).border[i] == GreenBorder <==> BarsOf(ts).background[i] == Green
    ensures BarsOf(ts).border[i] == RedBorder <==> BarsOf(ts).background[i] == Red
  {
  }

  /** Concrete bars: a profit of exactly 30000 is green; 29999.99 and a text that is no number are red. */
  lemma GoalBoundary()
    ensures Background(map["lucro_total" := Num(30000.0)]) == Green
    ensures Background(map["lucro_total" := Num(29999.99)]) == Red
    ensures Background(map["lucro_total" := Str("abc")]) == Red
  {
    assert DotIndex("abc") == 3;
  }

  /** Missing client and end date read "N/A"; a missing plate reads "N/A" only in the tooltip. */
  lemma LabelFallbacks(t: Record)
    requires !Truthy(Get(t, "cliente_nome")) && !Truthy(Get(t, "fim"))
    ensures AxisLabel(t) == Label(Get(t, "placa"), Str("N/A"), Str("N/A"))
    ensures !Truthy(Get(t, "placa")) ==> TooltipTitle(t) == Label(Str("N/A"), Str("N/A"), Str("N/A"))
  {
  }

  /** What the screen renders. */
  datatype View = LoadingView | ErrorView(msg: string) | Chart(bars: Bars) | NoChart

  function ViewOf(s: State): View {
    if s.loading then LoadingView
    else if s.error != "" then ErrorView(s.error)
    else if |s.viagens| > 0 then Chart(BarsOf(s.viagens))
    else NoChart
  }

  /**
   * After the load the screen shows a chart with one bar per trip that has a
   * profit, or an error; never the "nothing to show" text.
   */
  lemma LoadedView(r: Reply)
    ensures ViewOf(Initial) == LoadingView
    ensures ViewOf(Loaded(r)) != NoChart
    ensures ViewOf(Loaded(r)).Chart? <==> r.Ok? && Records(r.data).Some? && Kept(Records(r.data).value) != []
    ensures ViewOf(Loaded(r)).Chart? ==>
      |ViewOf(Loaded(r)).bars.data| == |Kept(Records(r.data).value)|
  {
  }
}
