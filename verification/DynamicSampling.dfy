/** Dynamic sampling: each generation batch is filtered group by group, the survivors are
    accumulated until there are enough prompts, and the batch is cut to size. */
module DynamicSampling {
  import opened Wrappers
  import opened Slices
  import Arith

  type Uid = string

  /** One response: the prompt it answers, the metric it is filtered by, and the rest. */
  datatype Row = Row(uid: Uid, metric: real, payload: int)

  datatype Config = Config(n: nat, trainBatchSize: nat, filter: bool, maxGenBatches: int)

  // ---- The filter --------------------------------------------------------------------------

  /** The metrics of the responses to `u`, in order. */
  function Metrics(rows: seq<Row>, u: Uid): seq<real> {
    if rows == [] then []
    else
      var last := rows[|rows| - 1];
      Metrics(rows[..|rows| - 1], u) + (if last.uid == u then [last.metric] else [])
  }

  predicate AllEqual(xs: seq<real>) {
    forall i, j :: 0 <= i < |xs| && 0 <= j < |xs| ==> xs[i] == xs[j]
  }

  /** The standard deviation is positive, or there is a single response. */
  predicate Keeps(rows: seq<Row>, u: Uid) {
    !AllEqual(Metrics(rows, u)) || |Metrics(rows, u)| == 1
  }

  /** The uids in order of first appearance. */
  function Uids(rows: seq<Row>): seq<Uid> {
    if rows == [] then []
    else
      var front := Uids(rows[..|rows| - 1]);
      var u := rows[|rows| - 1].uid;
      if u in front then front else front + [u]
  }

  function KeptUids(rows: seq<Row>, uids: seq<Uid>): seq<Uid> {
    if uids == [] then []
    else
      var u := uids[|uids| - 1];
      KeptUids(rows, uids[..|uids| - 1]) + (if Keeps(rows, u) then [u] else [])
  }

  function KeptRows(rows: seq<Row>, from: seq<Row>): seq<Row> {
    if from == [] then []
    else
      var last := from[|from| - 1];
      KeptRows(rows, from[..|from| - 1]) + (if Keeps(rows, last.uid) then [last] else [])
  }

  /** The metrics of every prompt of `rows`. */
  ghost predicate Collected(metrics: map<Uid, seq<real>>, order: seq<Uid>, rows: seq<Row>) {
    && order == Uids(rows)
    && (forall u :: u in metrics <==> u in order)
    && (forall u :: u in metrics ==> metrics[u] == Metrics(rows, u))
    && (forall u :: u !in metrics ==> Metrics(rows, u) == [])
  }

  lemma AppendRow(rows: seq<Row>, row: Row)
    ensures Uids(rows + [row]) == if row.uid in Uids(rows) then Uids(rows) else Uids(rows) + [row.uid]
    ensures forall u :: Metrics(rows + [row], u) == Metrics(rows, u) + (if row.uid == u then [row.metric] else [])
  {
  }

  lemma CollectOne(metrics: map<Uid, seq<real>>, order: seq<Uid>, rows: seq<Row>, row: Row)
    requires Collected(metrics, order, rows)
    ensures Collected(metrics[row.uid := (if row.uid in metrics then metrics[row.uid] else []) + [row.metric]],
                      if row.uid in metrics then order else order + [row.uid], rows + [row])
  {
    AppendRow(rows, row);
    hide Uids, Metrics;
  }

  lemma CollectedNone()
    ensures Collected(map[], [], [])
  {
  }

  method CollectMetrics(rows: seq<Row>) returns (metrics: map<Uid, seq<real>>, order: seq<Uid>)
    ensures Collected(metrics, order, rows)
  {
    hide *;
    metrics, order := map[], [];
    CollectedNone();
    assert rows[..0] == [];
    for i := 0 to |rows|
      invariant Collected(metrics, order, rows[..i])
    {
      CollectOne(metrics, order, rows[..i], rows[i]);
      assert rows[..i + 1] == rows[..i] + [rows[i]];
      var u := rows[i].uid;
      if u in metrics {
        metrics := metrics[u := metrics[u] + [rows[i].metric]];
      } else {
        metrics := metrics[u := [] + [rows[i].metric]];
        order := order + [u];
      }
    }
    assert rows[..|rows|] == rows;
  }

  method KeepUids(metrics: map<Uid, seq<real>>, order: seq<Uid>, ghost rows: seq<Row>) returns (kept: seq<Uid>)
    requires Collected(metrics, order, rows)
    ensures kept == KeptUids(rows, order)
  {
    hide Uids, Metrics, AllEqual;
    kept := [];
    for i := 0 to |order|
      invariant kept == KeptUids(rows, order[..i])
    {
      assert order[..i + 1][..i] == order[..i];
      var u := order[i];
      if !AllEqual(metrics[u]) || |metrics[u]| == 1 {
        kept := kept + [u];
      }
    }
    assert order[..|order|] == order;
  }

  lemma {:induction false} KeptUidsAre(rows: seq<Row>, order: seq<Uid>)
    ensures forall u :: u in KeptUids(rows, order) <==> u in order && Keeps(rows, u)
  {
    hide Keeps;
    if order != [] {
      KeptUidsAre(rows, order[..|order| - 1]);
      assert order == order[..|order| - 1] + [order[|order| - 1]];
    }
  }

  method FilterGroups(rows: seq<Row>) returns (kept: seq<Row>, prompts: nat)
    ensures kept == KeptRows(rows, rows)
    ensures prompts == |KeptUids(rows, Uids(rows))|
  {
    hide Keeps;
    var metrics, order := CollectMetrics(rows);
    var keptUids := KeepUids(metrics, order, rows);
    KeptUidsAre(rows, order);
    kept := [];
    for i := 0 to |rows|
      invariant kept == KeptRows(rows, rows[..i])
    {
      assert rows[..i + 1][..i] == rows[..i];
      Appears(rows, i);
      if rows[i].uid in keptUids {
        kept := kept + [rows[i]];
      }
    }
    assert rows[..|rows|] == rows;
    prompts := |keptUids|;
  }

  lemma {:induction false} Appears(rows: seq<Row>, i: nat)
    requires i < |rows|
    ensures rows[i].uid in Uids(rows)
  {
    if i < |rows| - 1 {
      Appears(rows[..|rows| - 1], i);
    }
  }

  // ---- One generation batch in the training loop -----------------------------------------------

  datatype Progress = Progress(batch: Option<seq<Row>>, prompts: nat, generations: nat)

  datatype Outcome =
    | Generating
    | Training(batch: seq<Row>)
    | TooMany

  const FRESH := Progress(None, 0, 0)

  function Accumulated(s: Progress, rows: seq<Row>): Progress {
    var kept := KeptRows(rows, rows);
    Progress(Some(if s.batch.None? then kept else s.batch.value + kept),
             s.prompts + |KeptUids(rows, Uids(rows))|, s.generations + 1)
  }

  /** Responses in a training batch. */
  function TrainRows(cfg: Config): nat {
    cfg.trainBatchSize * cfg.n
  }

  function Step(cfg: Config, s: Progress, rows: seq<Row>): (Progress, Outcome) {
    if !cfg.filter then (FRESH, Training(rows))
    else
      var t := Accumulated(s, rows);
      if t.prompts >= cfg.trainBatchSize then (FRESH, Training(Take(t.batch.value, TrainRows(cfg))))
      else if cfg.maxGenBatches <= 0 || t.generations < cfg.maxGenBatches then (t, Generating)
      else (t, TooMany)
  }

  /** A run of the loop over generated batches: the batches trained on, where each training step
      began and ended in the stream, and where the current one began. */
  datatype Run = Run(progress: Progress, steps: seq<seq<Row>>, spans: seq<(nat, nat)>, since: nat, failed: bool)

  function Advance(cfg: Config, r: Run, at: nat, rows: seq<Row>): Run {
    if r.failed then r
    else
      match Step(cfg, r.progress, rows)
      case (t, Generating) => r.(progress := t)
      case (t, Training(batch)) => Run(t, r.steps + [batch], r.spans + [(r.since, at + 1)], at + 1, false)
      case (t, TooMany) => r.(progress := t, failed := true)
  }

  function Fit(cfg: Config, stream: seq<seq<Row>>): Run {
    if stream == [] then Run(FRESH, [], [], 0, false)
    else
      var n := |stream| - 1;
      Advance(cfg, Fit(cfg, stream[..n]), n, stream[n])
  }

  /** The loop variables that survive from one generation batch to the next. */
  class Trainer {
    const cfg: Config
    var batch: Option<seq<Row>>
    var numPromptInBatch: nat
    var numGenBatches: nat

    function View(): Progress
      reads this
    {
      Progress(batch, numPromptInBatch, numGenBatches)
    }

    constructor (cfg: Config)
      ensures this.cfg == cfg && View() == FRESH
    {
      this.cfg := cfg;
      batch, numPromptInBatch, numGenBatches := None, 0, 0;
    }

    /** The body of the loop for one generated batch: a training batch, if it comes to that. */
    method Consume(rows: seq<Row>) returns (outcome: Outcome)
      modifies this
      ensures (View(), outcome) == Step(cfg, old(View()), rows)
    {
      hide KeptRows, KeptUids, Uids, Take, TrainRows;
      numGenBatches := numGenBatches + 1;
      if !cfg.filter {
        batch := Some(rows);
      } else {
        var kept, prompts := FilterGroups(rows);
        numPromptInBatch := numPromptInBatch + prompts;
        batch := if batch.None? then Some(kept) else Some(batch.value + kept);
        if numPromptInBatch < cfg.trainBatchSize {
          if cfg.maxGenBatches <= 0 || numGenBatches < cfg.maxGenBatches {
            return Generating;
          }
          return TooMany;
        }
        batch := Some(Take(batch.value, TrainRows(cfg)));
      }
      outcome := Training(batch.value);
      batch, numPromptInBatch, numGenBatches := None, 0, 0;
    }

    /** The whole loop, up to the end of the data or the error. */
    method FitLoop(stream: seq<seq<Row>>) returns (steps: seq<seq<Row>>, failed: bool)
      requires View() == FRESH
      modifies this
      ensures var r := Fit(cfg, stream); steps == r.steps && failed == r.failed && View() == r.progress
    {
      hide Step;
      steps, failed := [], false;
      for i := 0 to |stream|
        invariant !failed
        invariant var r := Fit(cfg, stream[..i]); steps == r.steps && !r.failed && View() == r.progress
      {
        assert stream[..i + 1][..i] == stream[..i];
        var outcome := Consume(stream[i]);
        match outcome
        case Generating =>
        case Training(batch) => steps := steps + [batch];
        case TooMany =>
          FailureStays(cfg, stream, i + 1);
          return steps, true;
      }
      assert stream[..|stream|] == stream;
    }
  }

  lemma {:induction false} FailureStays(cfg: Config, stream: seq<seq<Row>>, i: nat)
    requires i <= |stream| && Fit(cfg, stream[..i]).failed
    ensures Fit(cfg, stream) == Fit(cfg, stream[..i])
    decreases |stream|
  {
    if i < |stream| {
      var front := stream[..|stream| - 1];
      assert front[..i] == stream[..i];
      FailureStays(cfg, front, i);
    } else {
      assert stream[..i] == stream;
    }
  }

  // ---- Groups ------------------------------------------------------------------------------------

  type Group = seq<Row>

  /** All `n` responses to one prompt. */
  predicate Whole(g: Group, n: nat) {
    n > 0 && |g| == n && forall i :: 0 <= i < n ==> g[i].uid == g[0].uid
  }

  /** A generated batch, as whole groups with uids of their own. */
  ghost predicate Generated(gs: seq<Group>, n: nat) {
    && (forall k :: 0 <= k < |gs| ==> Whole(gs[k], n))
    && (forall j, k :: 0 <= j < k < |gs| ==> gs[j][0].uid != gs[k][0].uid)
  }

  function MetricsOf(g: Group): (r: seq<real>)
    ensures |r| == |g|
  {
    seq(|g|, i requires 0 <= i < |g| => g[i].metric)
  }

  /** A group that survives: its metric varies, or it is a single response. */
  predicate Informative(g: Group) {
    !AllEqual(MetricsOf(g)) || |g| == 1
  }

  function KeptGroups(gs: seq<Group>): seq<Group> {
    if gs == [] then []
    else
      var g := gs[|gs| - 1];
      KeptGroups(gs[..|gs| - 1]) + (if Informative(g) then [g] else [])
  }

  /** Repeating each prompt `n` times in place gives whole groups. */
  lemma InterleavedIsWhole(uids: seq<Uid>, n: nat, rows: seq<Row>)
    requires n > 0 && |rows| == |uids| * n
    requires forall i :: 0 <= i < |rows| ==> i / n < |uids| && rows[i].uid == uids[i / n]
    requires forall j, k :: 0 <= j < k < |uids| ==> uids[j] != uids[k]
    ensures Generated(Pieces(rows, n), n) && Flatten(Pieces(rows, n)) == rows
  {
    Arith.MulDiv(|uids|, n);
    PieceCount(rows, n);
    FlattenPieces(rows, n);
    var gs: seq<Group> := Pieces(rows, n);
    hide Pieces;
    forall k | 0 <= k < |gs| ensures Whole(gs[k], n) && gs[k][0].uid == uids[k] {
      GroupAt(uids, n, rows, k);
    }
  }

  lemma GroupAt(uids: seq<Uid>, n: nat, rows: seq<Row>, k: nat)
    requires n > 0 && |rows| == |uids| * n && k < |uids|
    requires forall i :: 0 <= i < |rows| ==> i / n < |uids| && rows[i].uid == uids[i / n]
    ensures k < |Pieces(rows, n)| && Whole(Pieces(rows, n)[k], n) && Pieces(rows, n)[k][0].uid == uids[k]
  {
    Arith.CellBound(k, n - 1, |uids|, n);
    PieceAt(rows, n, k);
    var g: Group := rows[k * n..k * n + n];
    forall i | 0 <= i < n ensures g[i].uid == uids[k] {
      Arith.DivUnique(k * n + i, n, k, i);
      assert g[i] == rows[k * n + i];
    }
  }

  lemma {:induction false} MetricsConcat(a: seq<Row>, b: seq<Row>, u: Uid)
    ensures Metrics(a + b, u) == Metrics(a, u) + Metrics(b, u)
  {
    if b == [] {
      assert a + b == a;
    } else {
      MetricsConcat(a, b[..|b| - 1], u);
      assert (a + b)[..|a + b| - 1] == a + b[..|b| - 1];
    }
  }

  lemma {:induction false} MetricsOfGroup(g: Group, u: Uid, v: Uid)
    requires forall i :: 0 <= i < |g| ==> g[i].uid == v
    ensures Metrics(g, u) == if u == v then MetricsOf(g) else []
  {
    if g != [] {
      MetricsOfGroup(g[..|g| - 1], u, v);
      assert MetricsOf(g) == MetricsOf(g[..|g| - 1]) + [g[|g| - 1].metric];
    }
  }

  lemma MetricsOfLast(gs: seq<Group>, n: nat, u: Uid)
    requires gs != [] && Whole(gs[|gs| - 1], n)
    ensures var last := |gs| - 1;
      Metrics(Flatten(gs), u)
        == Metrics(Flatten(gs[..last]), u) + (if u == gs[last][0].uid then MetricsOf(gs[last]) else [])
  {
    hide Metrics, MetricsOf;
    var last := |gs| - 1;
    MetricsConcat(Flatten(gs[..last]), gs[last], u);
    MetricsOfGroup(gs[last], u, gs[last][0].uid);
  }

  /** The metrics of a prompt are those of its group. */
  lemma {:induction false} MetricsOfBatch(gs: seq<Group>, n: nat, u: Uid)
    requires Generated(gs, n)
    ensures forall k :: 0 <= k < |gs| && gs[k][0].uid == u ==> Metrics(Flatten(gs), u) == MetricsOf(gs[k])
    ensures (forall k :: 0 <= k < |gs| ==> gs[k][0].uid != u) ==> Metrics(Flatten(gs), u) == []
  {
    hide Metrics, MetricsOf, Flatten;
    if gs != [] {
      MetricsOfBatch(gs[..|gs| - 1], n, u);
      MetricsOfLast(gs, n, u);
    } else {
      MetricsOfNone(u);
    }
  }

  lemma MetricsOfNone(u: Uid)
    ensures Metrics(Flatten([]), u) == []
  {
  }

  function UidsOf(gs: seq<Group>): (r: seq<Uid>)
    requires forall k :: 0 <= k < |gs| ==> gs[k] != []
    ensures |r| == |gs|
  {
    seq(|gs|, k requires 0 <= k < |gs| => gs[k][0].uid)
  }

  lemma {:induction false} UidsAppend(a: seq<Row>, g: Group, u: Uid)
    requires g != [] && u !in Uids(a) && forall i :: 0 <= i < |g| ==> g[i].uid == u
    ensures Uids(a + g) == Uids(a) + [u]
  {
    assert (a + g)[..|a + g| - 1] == a + g[..|g| - 1];
    if |g| > 1 {
      UidsAppend(a, g[..|g| - 1], u);
    } else {
      assert a + g[..0] == a;
    }
  }

  lemma {:induction false} UidsOfBatch(gs: seq<Group>, n: nat)
    requires Generated(gs, n)
    ensures Uids(Flatten(gs)) == UidsOf(gs)
  {
    if gs != [] {
      var last := |gs| - 1;
      UidsOfBatch(gs[..last], n);
      UidsAppend(Flatten(gs[..last]), gs[last], gs[last][0].uid);
      assert UidsOf(gs) == UidsOf(gs[..last]) + [gs[last][0].uid];
    }
  }

  lemma {:induction false} KeptRowsConcat(rows: seq<Row>, a: seq<Row>, b: seq<Row>)
    ensures KeptRows(rows, a + b) == KeptRows(rows, a) + KeptRows(rows, b)
  {
    hide Keeps;
    if b == [] {
      assert a + b == a;
    } else {
      var n := |b| - 1;
      KeptRowsConcat(rows, a, b[..n]);
      assert (a + b)[..|a + b| - 1] == a + b[..n];
      var one := if Keeps(rows, b[n].uid) then [b[n]] else [];
      assert KeptRows(rows, b) == KeptRows(rows, b[..n]) + one;
      assert KeptRows(rows, a) + KeptRows(rows, b[..n]) + one == KeptRows(rows, a) + (KeptRows(rows, b[..n]) + one);
    }
  }

  lemma {:induction false} KeptRowsOfGroup(rows: seq<Row>, g: Group, u: Uid)
    requires forall i :: 0 <= i < |g| ==> g[i].uid == u
    ensures KeptRows(rows, g) == if Keeps(rows, u) then g else []
  {
    if g != [] {
      KeptRowsOfGroup(rows, g[..|g| - 1], u);
      assert g == g[..|g| - 1] + [g[|g| - 1]];
    }
  }

  /** The rows decide about each group as its own metrics do. */
  ghost predicate Decides(rows: seq<Row>, gs: seq<Group>) {
    forall k :: 0 <= k < |gs| ==>
      && gs[k] != [] && (forall i :: 0 <= i < |gs[k]| ==> gs[k][i].uid == gs[k][0].uid)
      && (Keeps(rows, gs[k][0].uid) <==> Informative(gs[k]))
  }

  lemma {:induction false} FilteredGroups(rows: seq<Row>, gs: seq<Group>)
    requires Decides(rows, gs)
    ensures KeptRows(rows, Flatten(gs)) == Flatten(KeptGroups(gs))
  {
    hide Keeps, Informative, Flatten;
    if gs != [] {
      var last := |gs| - 1;
      FilteredGroups(rows, gs[..last]);
      FlattenUnfold(gs);
      KeptRowsConcat(rows, Flatten(gs[..last]), gs[last]);
      KeptRowsOfGroup(rows, gs[last], gs[last][0].uid);
      FlattenAppend(KeptGroups(gs[..last]), gs[last]);
      assert KeptGroups(gs[..last]) + [] == KeptGroups(gs[..last]);
    } else {
      FlattenNone<Row>();
    }
  }

  lemma {:induction false} FilteredCount(rows: seq<Row>, gs: seq<Group>)
    requires Decides(rows, gs)
    ensures |KeptUids(rows, UidsOf(gs))| == |KeptGroups(gs)|
  {
    hide Keeps, Informative;
    if gs != [] {
      var last := |gs| - 1;
      FilteredCount(rows, gs[..last]);
      assert UidsOf(gs)[..last] == UidsOf(gs[..last]);
    }
  }

  /** What the filter keeps of a generated batch: exactly its informative groups, whole and in
      order, and one prompt for each. */
  lemma FilterKeepsGroups(gs: seq<Group>, n: nat)
    requires Generated(gs, n)
    ensures var rows := Flatten(gs);
      && KeptRows(rows, rows) == Flatten(KeptGroups(gs))
      && |KeptUids(rows, Uids(rows))| == |KeptGroups(gs)|
  {
    var rows := Flatten(gs);
    forall k | 0 <= k < |gs| ensures gs[k] != [] && (Keeps(rows, gs[k][0].uid) <==> Informative(gs[k])) {
      assert Whole(gs[k], n);
      MetricsOfBatch(gs, n, gs[k][0].uid);
    }
    assert Decides(rows, gs);
    hide Keeps, Informative, Flatten;
    UidsOfBatch(gs, n);
    FilteredGroups(rows, gs);
    FilteredCount(rows, gs);
  }

  // ---- A training step ------------------------------------------------------------------------------

  /** The progress after generating the batches `batches` without training. */
  ghost predicate Accumulates(cfg: Config, s: Progress, batches: seq<seq<Group>>) {
    var kept := KeptGroups(Flatten(batches));
    && s.generations == |batches| && s.prompts == |kept|
    && (if s.batch.None? then batches == [] else s.batch.value == Flatten(kept))
  }

  lemma {:induction false} KeptGroupsConcat(a: seq<Group>, b: seq<Group>)
    ensures KeptGroups(a + b) == KeptGroups(a) + KeptGroups(b)
  {
    if b == [] {
      assert a + b == a;
    } else {
      KeptGroupsConcat(a, b[..|b| - 1]);
      assert (a + b)[..|a + b| - 1] == a + b[..|b| - 1];
    }
  }

  lemma AccumulateOne(cfg: Config, s: Progress, batches: seq<seq<Group>>, gs: seq<Group>)
    requires Accumulates(cfg, s, batches) && Generated(gs, cfg.n)
    ensures Accumulates(cfg, Accumulated(s, Flatten(gs)), batches + [gs])
    ensures Accumulated(s, Flatten(gs)).batch.Some?
  {
    FilterKeepsGroups(gs, cfg.n);
    FlattenAppend(batches, gs);
    KeptGroupsConcat(Flatten(batches), gs);
    FlattenConcat(KeptGroups(Flatten(batches)), KeptGroups(gs));
    hide KeptGroups, Flatten, KeptRows, KeptUids, Uids;
    if s.batch.None? {
      NoBatches();
    }
  }

  lemma NoBatches()
    ensures Flatten<Group>([]) == [] && KeptGroups([]) == [] && Flatten<Row>([]) == []
  {
  }

  /** Every group of a sequence survives from somewhere in it, with its properties. */
  lemma {:induction false} KeptAre(gs: seq<Group>, n: nat)
    requires forall k :: 0 <= k < |gs| ==> Whole(gs[k], n)
    ensures forall k :: 0 <= k < |KeptGroups(gs)| ==> Whole(KeptGroups(gs)[k], n) && Informative(KeptGroups(gs)[k])
    ensures forall g :: g in KeptGroups(gs) <==> g in gs && Informative(g)
  {
    if gs != [] {
      KeptAre(gs[..|gs| - 1], n);
      assert gs == gs[..|gs| - 1] + [gs[|gs| - 1]];
    }
  }

  /** The cut takes whole groups. */
  lemma CutIsGroups(gs: seq<Group>, n: nat, k: nat)
    requires (forall i :: 0 <= i < |gs| ==> Whole(gs[i], n)) && k <= |gs|
    ensures Take(Flatten(gs), k * n) == Flatten(gs[..k])
  {
    assert gs == gs[..k] + gs[k..];
    FlattenConcat(gs[..k], gs[k..]);
    FlattenLength(gs[..k], n);
    hide Flatten;
    assert |Flatten(gs[..k])| == k * n;
  }

  /** A training batch: the first `trainBatchSize` informative groups of what was generated. */
  ghost predicate Trains(cfg: Config, batches: seq<seq<Group>>, batch: seq<Row>) {
    var kept := KeptGroups(Flatten(batches));
    cfg.trainBatchSize <= |kept| && batch == Flatten(kept[..cfg.trainBatchSize])
  }

  lemma {:induction false} AllWhole(batches: seq<seq<Group>>, n: nat)
    requires forall b :: 0 <= b < |batches| ==> Generated(batches[b], n)
    ensures forall k :: 0 <= k < |Flatten(batches)| ==> Whole(Flatten(batches)[k], n)
  {
    if batches != [] {
      AllWhole(batches[..|batches| - 1], n);
    }
  }

  /** One more generated batch: train on the first `trainBatchSize` informative groups if there
      are that many by now, go on generating if that is allowed, or give up. */
  lemma StepExactly(cfg: Config, s: Progress, batches: seq<seq<Group>>, gs: seq<Group>)
    requires cfg.filter && Accumulates(cfg, s, batches)
    requires (forall b :: 0 <= b < |batches| ==> Generated(batches[b], cfg.n)) && Generated(gs, cfg.n)
    ensures var (t, outcome) := Step(cfg, s, Flatten(gs));
      var enough := |KeptGroups(Flatten(batches + [gs]))| >= cfg.trainBatchSize;
      && (outcome.Training? <==> enough)
      && (outcome.Training? ==> t == FRESH && Trains(cfg, batches + [gs], outcome.batch))
      && (outcome.Generating? ==> Accumulates(cfg, t, batches + [gs]))
      && (outcome.TooMany? <==> !enough && 0 < cfg.maxGenBatches <= |batches| + 1)
  {
    AccumulateOne(cfg, s, batches, gs);
    AllWhole(batches + [gs], cfg.n);
    var all := Flatten(batches + [gs]);
    KeptAre(all, cfg.n);
    hide Flatten, KeptGroups, Accumulated, Informative, Whole, Take;
    if |KeptGroups(all)| >= cfg.trainBatchSize {
      CutIsGroups(KeptGroups(all), cfg.n, cfg.trainBatchSize);
    }
  }

  // ---- Whole runs ---------------------------------------------------------------------------------

  function RowsOf(batches: seq<seq<Group>>): (r: seq<seq<Row>>)
    ensures |r| == |batches| && forall b :: 0 <= b < |r| ==> r[b] == Flatten(batches[b])
  {
    seq(|batches|, b requires 0 <= b < |batches| => Flatten(batches[b]))
  }

  /** No stretch from `from` that ends by `to` holds enough informative groups. */
  ghost predicate TooFew(cfg: Config, batches: seq<seq<Group>>, from: nat, to: nat) {
    forall k :: from < k <= to && k <= |batches| ==> |KeptGroups(Flatten(batches[from..k]))| < cfg.trainBatchSize
  }

  /** A training step on the first informative groups of this stretch of the stream, which is no
      longer than needed and within the generation limit. */
  ghost predicate StepOf(cfg: Config, batches: seq<seq<Group>>, span: (nat, nat), step: seq<Row>) {
    && span.0 < span.1 <= |batches|
    && (cfg.maxGenBatches > 0 ==> span.1 - span.0 <= cfg.maxGenBatches)
    && Trains(cfg, batches[span.0..span.1], step) && TooFew(cfg, batches, span.0, span.1 - 1)
  }

  /** What is pending is the stretch since `since`. */
  ghost predicate Pending(cfg: Config, s: Progress, batches: seq<seq<Group>>, since: nat) {
    && since <= |batches| && Accumulates(cfg, s, batches[since..]) && TooFew(cfg, batches, since, |batches|)
    && (cfg.maxGenBatches > 0 ==> s.generations < cfg.maxGenBatches)
  }

  /** The limit many batches from `since` on held too few informative groups. */
  ghost predicate GaveUp(cfg: Config, batches: seq<seq<Group>>, since: nat) {
    cfg.maxGenBatches > 0 && since + cfg.maxGenBatches <= |batches|
    && TooFew(cfg, batches, since, since + cfg.maxGenBatches)
  }

  ghost predicate Faithful(cfg: Config, r: Run, batches: seq<seq<Group>>) {
    && |r.spans| == |r.steps|
    && (forall t :: 0 <= t < |r.spans| ==> StepOf(cfg, batches, r.spans[t], r.steps[t]))
    && (if r.failed then GaveUp(cfg, batches, r.since) else Pending(cfg, r.progress, batches, r.since))
  }

  lemma FreshPending(cfg: Config, batches: seq<seq<Group>>)
    ensures Pending(cfg, FRESH, batches, |batches|)
  {
  }

  lemma TooFewStays(cfg: Config, batches: seq<seq<Group>>, gs: seq<Group>, from: nat, to: nat)
    requires to <= |batches| && TooFew(cfg, batches, from, to)
    ensures TooFew(cfg, batches + [gs], from, to)
  {
    hide KeptGroups, Flatten;
    forall k | from < k <= to
      ensures |KeptGroups(Flatten((batches + [gs])[from..k]))| < cfg.trainBatchSize
    {
      assert (batches + [gs])[from..k] == batches[from..k];
    }
  }

  lemma StepOfStays(cfg: Config, batches: seq<seq<Group>>, gs: seq<Group>, span: (nat, nat), step: seq<Row>)
    requires StepOf(cfg, batches, span, step)
    ensures StepOf(cfg, batches + [gs], span, step)
  {
    assert (batches + [gs])[span.0..span.1] == batches[span.0..span.1];
    TooFewStays(cfg, batches, gs, span.0, span.1 - 1);
    hide Trains, TooFew;
  }

  /** One more batch on a pending stretch. */
  lemma PendingStep(cfg: Config, s: Progress, batches: seq<seq<Group>>, since: nat, gs: seq<Group>)
    requires cfg.filter && Pending(cfg, s, batches, since)
    requires (forall b :: 0 <= b < |batches| ==> Generated(batches[b], cfg.n)) && Generated(gs, cfg.n)
    ensures var (t, outcome) := Step(cfg, s, Flatten(gs));
      var all := batches + [gs];
      && (outcome.Generating? ==> Pending(cfg, t, all, since))
      && (outcome.Training? ==> t == FRESH && StepOf(cfg, all, (since, |all|), outcome.batch))
      && (outcome.TooMany? ==> since + cfg.maxGenBatches == |all| && GaveUp(cfg, all, since))
  {
    hide KeptGroups, Flatten, Step, Trains, Generated, TooFew;
    StepExactly(cfg, s, batches[since..], gs);
    StepCounts(cfg, s, Flatten(gs));
    TooFewStays(cfg, batches, gs, since, |batches|);
    var all := batches + [gs];
    assert all[since..] == batches[since..] + [gs];
    assert all[since..|all|] == all[since..];
    if !Step(cfg, s, Flatten(gs)).1.Training? {
      TooFewYet(cfg, all, since);
    }
  }

  lemma TooFewYet(cfg: Config, all: seq<seq<Group>>, since: nat)
    requires since < |all| && TooFew(cfg, all, since, |all| - 1)
    requires |KeptGroups(Flatten(all[since..]))| < cfg.trainBatchSize
    ensures TooFew(cfg, all, since, |all|)
  {
    hide KeptGroups, Flatten;
    assert all[since..|all|] == all[since..];
  }

  lemma StepCounts(cfg: Config, s: Progress, rows: seq<Row>)
    requires cfg.filter
    ensures var (t, outcome) := Step(cfg, s, rows);
      outcome.Generating? ==> cfg.maxGenBatches <= 0 || t.generations < cfg.maxGenBatches
  {
  }

  lemma AdvanceFaithful(cfg: Config, r: Run, batches: seq<seq<Group>>, gs: seq<Group>)
    requires cfg.filter && Faithful(cfg, r, batches)
    requires (forall b :: 0 <= b < |batches| ==> Generated(batches[b], cfg.n)) && Generated(gs, cfg.n)
    ensures Faithful(cfg, Advance(cfg, r, |batches|, Flatten(gs)), batches + [gs])
  {
    hide StepOf, Pending, Step, Generated;
    forall t | 0 <= t < |r.spans| ensures StepOf(cfg, batches + [gs], r.spans[t], r.steps[t]) {
      StepOfStays(cfg, batches, gs, r.spans[t], r.steps[t]);
    }
    if r.failed {
      TooFewStays(cfg, batches, gs, r.since, r.since + cfg.maxGenBatches);
    } else {
      PendingStep(cfg, r.progress, batches, r.since, gs);
      FreshPending(cfg, batches + [gs]);
    }
  }

  lemma FitUnfold(cfg: Config, batches: seq<seq<Group>>)
    requires batches != []
    ensures var n := |batches| - 1;
      Fit(cfg, RowsOf(batches)) == Advance(cfg, Fit(cfg, RowsOf(batches[..n])), n, Flatten(batches[n]))
  {
    hide Advance;
    var n := |batches| - 1;
    assert RowsOf(batches)[..n] == RowsOf(batches[..n]);
  }

  lemma FitNone(cfg: Config)
    ensures Faithful(cfg, Fit(cfg, RowsOf([])), [])
  {
  }

  /** Over any number of generated batches, with filtering on: every training step trained on the
      first informative groups of its own stretch of the stream, which is no longer than needed
      and within the generation limit; and a run that gives up has just generated the limit many
      batches in vain. */
  lemma {:induction false} RunIsFaithful(cfg: Config, batches: seq<seq<Group>>)
    requires cfg.filter && forall b :: 0 <= b < |batches| ==> Generated(batches[b], cfg.n)
    ensures Faithful(cfg, Fit(cfg, RowsOf(batches)), batches)
  {
    hide *;
    if batches == [] {
      FitNone(cfg);
    } else {
      var n := |batches| - 1;
      RunIsFaithful(cfg, batches[..n]);
      FitUnfold(cfg, batches);
      AdvanceFaithful(cfg, Fit(cfg, RowsOf(batches[..n])), batches[..n], batches[n]);
      assert batches == batches[..n] + [batches[n]];
    }
  }

  /** Spans of one batch each. */
  function Singles(n: nat): (r: seq<(nat, nat)>)
    ensures |r| == n && forall t :: 0 <= t < n ==> r[t] == (t, t + 1)
  {
    if n == 0 then [] else Singles(n - 1) + [(n - 1, n)]
  }

  /** Without the filter every generated batch is trained on as it is, at once. */
  lemma {:induction false} UnfilteredRun(cfg: Config, stream: seq<seq<Row>>)
    requires !cfg.filter
    ensures Fit(cfg, stream) == Run(FRESH, stream, Singles(|stream|), |stream|, false)
  {
    if stream != [] {
      var n := |stream| - 1;
      UnfilteredRun(cfg, stream[..n]);
      UnfilteredStep(cfg, Run(FRESH, stream[..n], Singles(n), n, false), n, stream[n]);
      FitStep(cfg, stream);
      assert stream == stream[..n] + [stream[n]];
      hide Fit, Advance;
    }
  }

  lemma FitStep(cfg: Config, stream: seq<seq<Row>>)
    requires stream != []
    ensures var n := |stream| - 1;
      Fit(cfg, stream) == Advance(cfg, Fit(cfg, stream[..n]), n, stream[n])
  {
    hide Advance;
  }

  lemma UnfilteredStep(cfg: Config, r: Run, at: nat, rows: seq<Row>)
    requires !cfg.filter && !r.failed
    ensures Advance(cfg, r, at, rows) == Run(FRESH, r.steps + [rows], r.spans + [(r.since, at + 1)], at + 1, false)
  {
  }

  /** `kept` is made of the rows at the places `at` of the first `m`, in order; they are those of
      prompts whose metric varies over their responses, or that have one response. */
  ghost predicate Selected(rows: seq<Row>, m: nat, kept: seq<Row>, at: seq<nat>) {
    && |at| == |kept| && m <= |rows|
    && (forall k :: 0 <= k < |at| ==> at[k] < m && kept[k] == rows[at[k]])
    && (forall k, l :: 0 <= k < l < |at| ==> at[k] < at[l])
    && (forall i: nat :: i < m ==> (i in at <==> Varies(rows, rows[i].uid) || |Metrics(rows, rows[i].uid)| == 1))
  }

  lemma SelectNext(rows: seq<Row>, m: nat, kept: seq<Row>, at: seq<nat>)
    requires Selected(rows, m, kept, at) && m < |rows|
    ensures if Varies(rows, rows[m].uid) || |Metrics(rows, rows[m].uid)| == 1
      then Selected(rows, m + 1, kept + [rows[m]], at + [m])
      else Selected(rows, m + 1, kept, at)
  {
    hide Varies, Metrics;
  }

  /** The filter keeps exactly these rows, wherever the responses of a prompt stand. */
  lemma {:induction false} FilteredExactly(rows: seq<Row>, m: nat) returns (at: seq<nat>)
    requires m <= |rows|
    ensures Selected(rows, m, KeptRows(rows, rows[..m]), at)
  {
    at := [];
    if m > 0 {
      at := FilteredExactly(rows, m - 1);
      var kept := KeptRows(rows, rows[..m - 1]);
      assert rows[..m][..m - 1] == rows[..m - 1];
      SelectNext(rows, m - 1, kept, at);
      VariesIs(rows, rows[m - 1].uid);
      hide Selected, Varies, Metrics, Keeps;
      if Keeps(rows, rows[m - 1].uid) {
        at := at + [m - 1];
        assert KeptRows(rows, rows[..m]) == kept + [rows[m - 1]];
      } else {
        assert KeptRows(rows, rows[..m]) == kept;
      }
    }
  }

  /** Two responses to the prompt differ in the metric. */
  ghost predicate Varies(rows: seq<Row>, u: Uid) {
    exists i, j :: 0 <= i < |rows| && 0 <= j < |rows| &&
      rows[i].uid == rows[j].uid == u && rows[i].metric != rows[j].metric
  }

  lemma {:induction false} MetricsAre(rows: seq<Row>, u: Uid)
    ensures forall x ::
      x in Metrics(rows, u) <==> exists i :: 0 <= i < |rows| && rows[i].uid == u && rows[i].metric == x
  {
    if rows != [] {
      var n := |rows| - 1;
      MetricsAre(rows[..n], u);
      assert rows == rows[..n] + [rows[n]];
      forall x
        ensures x in Metrics(rows, u) <==> exists i :: 0 <= i < |rows| && rows[i].uid == u && rows[i].metric == x
      {
        if i :| 0 <= i < n && rows[i].uid == u && rows[i].metric == x {
          assert rows[..n][i] == rows[i];
        }
      }
    }
  }

  lemma VariesIs(rows: seq<Row>, u: Uid)
    ensures Keeps(rows, u) <==> Varies(rows, u) || |Metrics(rows, u)| == 1
  {
    MetricsAre(rows, u);
    var xs := Metrics(rows, u);
    if Varies(rows, u) {
      var i, j :| 0 <= i < |rows| && 0 <= j < |rows|
        && rows[i].uid == rows[j].uid == u && rows[i].metric != rows[j].metric;
      assert rows[i].metric in xs && rows[j].metric in xs;
    }
    if i, j :| 0 <= i < |xs| && 0 <= j < |xs| && xs[i] != xs[j] {
      assert xs[i] in xs && xs[j] in xs;
    }
    hide Metrics;
  }

  /** Uids are fresh over the whole stream. */
  ghost predicate FreshUids(gs: seq<Group>) {
    forall j, k :: 0 <= j < k < |gs| && gs[j] != [] && gs[k] != [] ==> gs[j][0].uid != gs[k][0].uid
  }

  lemma {:induction false} KeptStayFresh(gs: seq<Group>)
    requires FreshUids(gs)
    ensures FreshUids(KeptGroups(gs))
    ensures forall g :: g in KeptGroups(gs) ==> g in gs
  {
    if gs != [] {
      KeptStayFresh(gs[..|gs| - 1]);
      var kept := KeptGroups(gs[..|gs| - 1]);
      forall j | 0 <= j < |kept| ensures exists i :: 0 <= i < |gs| - 1 && kept[j] == gs[i] {
        assert kept[j] in gs[..|gs| - 1];
      }
    }
  }

  /** A training batch has exactly `n` times the batch size rows: that many whole groups, each with
      its own uid and, when there are several responses to a prompt, a metric that varies. */
  lemma TrainedBatchIsWhole(cfg: Config, batches: seq<seq<Group>>, batch: seq<Row>) returns (groups: seq<Group>)
    requires Trains(cfg, batches, batch) && FreshUids(Flatten(batches))
    requires forall b :: 0 <= b < |batches| ==> Generated(batches[b], cfg.n)
    ensures batch == Flatten(groups) && |groups| == cfg.trainBatchSize && |batch| == TrainRows(cfg)
    ensures FreshUids(groups)
    ensures forall k :: 0 <= k < |groups| ==>
      Whole(groups[k], cfg.n) && (cfg.n > 1 ==> !AllEqual(MetricsOf(groups[k])))
  {
    AllWhole(batches, cfg.n);
    KeptAre(Flatten(batches), cfg.n);
    KeptStayFresh(Flatten(batches));
    hide Flatten, KeptGroups, AllEqual, MetricsOf;
    groups := KeptGroups(Flatten(batches))[..cfg.trainBatchSize];
    FlattenLength(groups, cfg.n);
  }
}
