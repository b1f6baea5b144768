/**
 * The "Desempenho por Caminhão" screen: finished trips grouped by plate, one
 * profit line chart per truck.
 */
module GraficosDesempenho {
  import opened Wrappers
  import opened Js
  import Seqs

  const NoData := "Nenhum dado de viagem finalizada encontrado para exibir gráficos."
  const LoadFailed := "Erro ao carregar dados dos gráficos. Tente novamente mais tarde."

  /** One point of a chart: the trip's end date and its profit, `Number(lucro_total)`. */
  datatype Point = Point(data: Value, lucro: Option<real>)

  /** The points of one truck, keyed by its plate. */
  datatype Group = Group(placa: Value, points: seq<Point>)

  function PlateOf(t: Record): Value {
    Get(t, "placa")
  }

  function PointOf(t: Record): Point {
    Point(Get(t, "fim"), ToNumber(Get(t, "lucro_total")))
  }

  function GroupKey(g: Group): Value {
    g.placa
  }

  function Keys(gs: seq<Group>): seq<Value> {
    Seqs.Map(GroupKey, gs)
  }

  function Plates(ts: seq<Record>): seq<Value> {
    Seqs.Map(PlateOf, ts)
  }

  function SamePlate(key: Value): Record -> bool {
    t => PlateOf(t) == key
  }

  /** The trips of one truck, in list order. */
  function WithPlate(ts: seq<Record>, key: Value): seq<Record> {
    Seqs.Filter(SamePlate(key), ts)
  }

  /**
   * The plates of `s` without repetitions, each where it first occurs: the
   * order in which the reduce creates the object's keys.
   */
  function FirstOccurrences(s: seq<Value>): (r: seq<Value>)
    ensures forall x :: x in r <==> x in s
    ensures forall i, j :: 0 <= i < j < |r| ==> r[i] != r[j]
    ensures |s| > 0 ==> |r| > 0
  {
    if |s| == 0 then []
    else
      var r0 := FirstOccurrences(s[..|s| - 1]);
      assert s == s[..|s| - 1] + [s[|s| - 1]];
      if s[|s| - 1] in r0 then r0 else r0 + [s[|s| - 1]]
  }

  /** `acc[key]`: the position of the group for `key`, or `|gs|` when there is none. */
  function IndexOf(gs: seq<Group>, key: Value, from: nat): (i: nat)
    requires from <= |gs|
    ensures from <= i <= |gs|
    ensures i < |gs| ==> gs[i].placa == key
    ensures forall j :: from <= j < i ==> gs[j].placa != key
    decreases |gs| - from
  {
    if from == |gs| then from
    else if gs[from].placa == key then from
    else IndexOf(gs, key, from + 1)
  }

  /** One step of the reduce: append the trip's point to its plate's group, creating the group if needed. */
  function Push(gs: seq<Group>, t: Record): (r: seq<Group>)
    ensures |gs| <= |r| <= |gs| + 1
    ensures forall i :: 0 <= i < |gs| ==> r[i].placa == gs[i].placa && gs[i].points <= r[i].points
    ensures exists i ::
      0 <= i < |r| && r[i].placa == PlateOf(t) && r[i].points != [] && r[i].points[|r[i].points| - 1] == PointOf(t)
  {
    var k := IndexOf(gs, PlateOf(t), 0);
    if k < |gs| then
      var g := Group(gs[k].placa, gs[k].points + [PointOf(t)]);
      assert gs[k := g][k] == g;
      gs[k := g]
    else
      var g := Group(PlateOf(t), [PointOf(t)]);
      assert (gs + [g])[|gs|] == g;
      gs + [g]
  }

  /** `viagensPorPlaca`: the reduce over the whole list. */
  function ByPlate(ts: seq<Record>): (gs: seq<Group>)
    ensures |gs| <= |ts|
    ensures forall i :: 0 <= i < |gs| ==> gs[i].points != []
  {
    if |ts| == 0 then [] else Push(ByPlate(ts[..|ts| - 1]), ts[|ts| - 1])
  }

  function TotalPoints(gs: seq<Group>): nat {
    if |gs| == 0 then 0 else TotalPoints(gs[..|gs| - 1]) + |gs[|gs| - 1].points|
  }

  lemma {:induction false} TotalAppend(gs: seq<Group>, g: Group)
    ensures TotalPoints(gs + [g]) == TotalPoints(gs) + |g.points|
  {
    assert (gs + [g])[..|gs|] == gs;
  }

  lemma {:induction false} TotalUpdate(gs: seq<Group>, k: nat, g: Group)
    requires k < |gs|
    ensures TotalPoints(gs[k := g]) + |gs[k].points| == TotalPoints(gs) + |g.points|
    decreases |gs|
  {
    var n := |gs| - 1;
    if k < n {
      assert gs[k := g][..n] == gs[..n][k := g];
      TotalUpdate(gs[..n], k, g);
    } else {
      assert gs[k := g][..n] == gs[..n];
    }
  }

  /** Every trip becomes exactly one point. */
  lemma {:induction false} ByPlateKeepsEveryTrip(ts: seq<Record>)
    ensures TotalPoints(ByPlate(ts)) == |ts|
  {
    if |ts| > 0 {
      var gs := ByPlate(ts[..|ts| - 1]);
      var t := ts[|ts| - 1];
      ByPlateKeepsEveryTrip(ts[..|ts| - 1]);
      var k := IndexOf(gs, PlateOf(t), 0);
      if k < |gs| {
        TotalUpdate(gs, k, Group(gs[k].placa, gs[k].points + [PointOf(t)]));
      } else {
        TotalAppend(gs, Group(PlateOf(t), [PointOf(t)]));
      }
    }
  }

  /** Every group holds the points of exactly the trips with its plate, in list order. */
  predicate GroupsHold(gs: seq<Group>, ts: seq<Record>) {
    forall i :: 0 <= i < |gs| ==> gs[i].points == Seqs.Map(PointOf, WithPlate(ts, gs[i].placa))
  }

  lemma WithPlateSnoc(pre: seq<Record>, t: Record, key: Value)
    ensures WithPlate(pre + [t], key) == WithPlate(pre, key) + (if PlateOf(t) == key then [t] else [])
  {
    Seqs.FilterAppend(SamePlate(key), pre, [t]);
    assert [t][1..] == [];
  }

  lemma WithPlateAbsent(ts: seq<Record>, key: Value)
    requires key !in Plates(ts)
    ensures WithPlate(ts, key) == []
  {
    Seqs.FilterEmpty(SamePlate(key), ts);
    assert forall j :: 0 <= j < |ts| ==> Plates(ts)[j] == PlateOf(ts[j]);
  }

  lemma MapSnoc(a: seq<Record>, t: Record)
    ensures Seqs.Map(PointOf, a + [t]) == Seqs.Map(PointOf, a) + [PointOf(t)]
  {
  }

  lemma PlatesSnoc(pre: seq<Record>, t: Record)
    ensures Plates(pre + [t]) == Plates(pre) + [PlateOf(t)]
  {
  }

  lemma FirstOccurrencesSnoc(s: seq<Value>, x: Value)
    ensures FirstOccurrences(s + [x]) ==
      if x in FirstOccurrences(s) then FirstOccurrences(s) else FirstOccurrences(s) + [x]
  {
    assert (s + [x])[..|s|] == s;
  }

  lemma KeysFound(gs: seq<Group>, key: Value)
    ensures IndexOf(gs, key, 0) < |gs| <==> key in Keys(gs)
  {
    var k := IndexOf(gs, key, 0);
    if k < |gs| {
      assert Keys(gs)[k] == key;
    } else {
      assert forall i :: 0 <= i < |gs| ==> Keys(gs)[i] == gs[i].placa;
    }
  }

  lemma KeysUpdate(gs: seq<Group>, k: nat, g: Group)
    requires k < |gs| && g.placa == gs[k].placa
    ensures Keys(gs[k := g]) == Keys(gs)
  {
    assert forall i :: 0 <= i < |gs| ==> Keys(gs[k := g])[i] == Keys(gs)[i];
  }

  lemma KeysAppend(gs: seq<Group>, g: Group)
    ensures Keys(gs + [g]) == Keys(gs) + [g.placa]
  {
  }

  lemma KeysPush(gs: seq<Group>, t: Record)
    ensures Keys(Push(gs, t)) ==
      if PlateOf(t) in Keys(gs) then Keys(gs) else Keys(gs) + [PlateOf(t)]
  {
    var p := PlateOf(t);
    var k := IndexOf(gs, p, 0);
    KeysFound(gs, p);
    if k < |gs| {
      KeysUpdate(gs, k, Group(gs[k].placa, gs[k].points + [PointOf(t)]));
    } else {
      KeysAppend(gs, Group(p, [PointOf(t)]));
    }
  }

  /** One step of the reduce adds the plate's group exactly when the plate is new. */
  lemma PushKeys(gs: seq<Group>, pre: seq<Record>, t: Record)
    requires Keys(gs) == FirstOccurrences(Plates(pre))
    ensures Keys(Push(gs, t)) == FirstOccurrences(Plates(pre + [t]))
  {
    PlatesSnoc(pre, t);
    FirstOccurrencesSnoc(Plates(pre), PlateOf(t));
    KeysPush(gs, t);
  }

  /** One step of the reduce keeps every group equal to its plate's trips. */
  lemma PushGroups(gs: seq<Group>, pre: seq<Record>, t: Record)
    requires Keys(gs) == FirstOccurrences(Plates(pre))
    requires GroupsHold(gs, pre)
    ensures GroupsHold(Push(gs, t), pre + [t])
  {
    var ts := pre + [t];
    var gs' := Push(gs, t);
    var p := PlateOf(t);
    var k := IndexOf(gs, p, 0);
    var fo := FirstOccurrences(Plates(pre));
    forall i | 0 <= i < |gs'|
      ensures gs'[i].points == Seqs.Map(PointOf, WithPlate(ts, gs'[i].placa))
    {
      var key := gs'[i].placa;
      WithPlateSnoc(pre, t, key);
      if i < |gs| && i != k {
        // another truck: keys are distinct, so the new trip is not one of its trips
        assert key == fo[i];
        assert gs'[i] == gs[i];
      } else if i == k && k < |gs| {
        MapSnoc(WithPlate(pre, key), t);
      } else {
        // a new truck: no earlier trip has this plate
        WithPlateAbsent(pre, key);
        assert gs'[i] == Group(p, [PointOf(t)]);
      }
    }
  }

  /**
   * The grouping is correct: there is one group per distinct plate, in order
   * of first occurrence, and each group holds the points of exactly the trips
   * with its plate, in list order.
   */
  lemma {:induction false} ByPlateGroups(ts: seq<Record>)
    ensures Keys(ByPlate(ts)) == FirstOccurrences(Plates(ts))
    ensures forall i :: 0 <= i < |ByPlate(ts)| ==>
      ByPlate(ts)[i].points == Seqs.Map(PointOf, WithPlate(ts, ByPlate(ts)[i].placa))
  {
    if |ts| > 0 {
      var pre, t := ts[..|ts| - 1], ts[|ts| - 1];
      assert ts == pre + [t];
      ByPlateGroups(pre);
      PushKeys(ByPlate(pre), pre, t);
      PushGroups(ByPlate(pre), pre, t);
    }
  }

  /** The screen's state. */
  datatype State = State(viagens: seq<Record>, loading: bool, error: string)

  const Initial: State := State([], true, "")

  /**
   * The state once `GET /viagens-finalizadas-lista` has answered with `r`.
   * A reply that is not a list of trip objects counts as a failed load.
   */
  function Loaded(r: Reply): (s: State)
    ensures !s.loading
    ensures s.error == "" <==> r.Ok? && Records(r.data).Some? && |Records(r.data).value| > 0
    ensures s.error == NoData <==> r.Ok? && Records(r.data) == Some([])
    ensures r.Ok? && Records(r.data).Some? ==> s.viagens == Records(r.data).value
    ensures !(r.Ok? && Records(r.data).Some?) ==> s == State([], false, LoadFailed)
  {
    if r.Ok? && Records(r.data).Some? then
      var ts := Records(r.data).value;
      State(ts, false, if |ts| == 0 then NoData else "")
    else
      State([], false, LoadFailed)
  }

  /** What the screen renders. */
  datatype View = LoadingView | ErrorView(msg: string) | Charts(groups: seq<Group>) | NoCharts

  function ViewOf(s: State): View {
    if s.loading then LoadingView
    else if s.error != "" then ErrorView(s.error)
    else
      var gs := ByPlate(s.viagens);
      if |gs| > 0 then Charts(gs) else NoCharts
  }

  /**
   * After the load the screen shows the load error, the "no data" error, or
   * one chart per truck holding every trip; the "no charts" text can never
   * appear.
   */
  lemma LoadedView(r: Reply)
    ensures ViewOf(Initial) == LoadingView
    ensures ViewOf(Loaded(r)) != NoCharts
    ensures !(r.Ok? && Records(r.data).Some?) ==> ViewOf(Loaded(r)) == ErrorView(LoadFailed)
    ensures r.Ok? && Records(r.data) == Some([]) ==> ViewOf(Loaded(r)) == ErrorView(NoData)
    ensures ViewOf(Loaded(r)).Charts? ==>
      var ts := Records(r.data).value;
      ViewOf(Loaded(r)).groups == ByPlate(ts) && TotalPoints(ByPlate(ts)) == |ts|
  {
    var s := Loaded(r);
    if !s.loading && s.error == "" {
      ByPlateGroups(s.viagens);
      ByPlateKeepsEveryTrip(s.viagens);
    }
  }
}
