/** The same usage, grouped twice: by the worker, which adds up rows for all consumers, and by the
    admin UI, which overwrites slots for one consumer and does not ask about names it finds unsafe.
    Over rows that are unique per consumer, model and kind, as both queries return them, the two
    agree exactly on the safe names, and with them the cost, the percentage and the level. */
module UsageFolds {
  import opened Numbers
  import opened Reconcile

  /** A row of the usage query; a missing consumer or model is "". */
  datatype Row = Row(consumer: string, model: string, kind: string, tokens: int)

  predicate Counts(r: Row) {
    r.consumer != "" && r.model != "" && (r.kind == "prompt" || r.kind == "completion")
  }

  function Slot(u: Usage, model: string): Tokens { if model in u then u[model] else Tokens(0, 0) }

  function Tally(t: Tokens, kind: string): int { if kind == "prompt" then t.prompt else t.completion }

  function AddTo(t: Tokens, kind: string, n: int): Tokens {
    if kind == "prompt" then t.(prompt := t.prompt + n) else t.(completion := t.completion + n)
  }

  function SetTo(t: Tokens, kind: string, n: int): Tokens {
    if kind == "prompt" then t.(prompt := n) else t.(completion := n)
  }

  function Shaped(rows: seq<Row>): map<string, Usage> {
    if rows == [] then map[]
    else
      var out, r := Shaped(rows[..|rows| - 1]), rows[|rows| - 1];
      if !Counts(r) then out
      else
        var models := UsageOf(out, r.consumer);
        out[r.consumer := models[r.model := AddTo(Slot(models, r.model), r.kind, r.tokens)]]
  }

  /** _shape_usage, on the worker's rows. */
  method ShapeUsage(rows: seq<Row>) returns (out: map<string, Usage>)
    ensures out == Shaped(rows)
  {
    out := map[];
    for i := 0 to |rows|
      invariant out == Shaped(rows[..i])
    {
      assert rows[..i + 1][..i] == rows[..i];
      var r := rows[i];
      if r.consumer == "" || r.model == "" || (r.kind != "prompt" && r.kind != "completion") {
        continue;
      }
      ghost var before := out;
      if r.consumer !in out {
        out := out[r.consumer := map[]];
      }
      if r.model !in out[r.consumer] {
        out := out[r.consumer := out[r.consumer][r.model := Tokens(0, 0)]];
      }
      var slot := out[r.consumer][r.model];
      if r.kind == "prompt" {
        slot := slot.(prompt := slot.prompt + r.tokens);
      } else {
        slot := slot.(completion := slot.completion + r.tokens);
      }
      out := out[r.consumer := out[r.consumer][r.model := slot]];
      ghost var models := UsageOf(before, r.consumer);
      assert out[r.consumer] == models[r.model := AddTo(Slot(models, r.model), r.kind, r.tokens)];
      assert out == before[r.consumer := out[r.consumer]];
    }
    assert rows[..|rows|] == rows;
  }

  function Latest(rows: seq<Row>): Usage {
    if rows == [] then map[]
    else
      var out, r := Latest(rows[..|rows| - 1]), rows[|rows| - 1];
      if !Counts(r) then out else out[r.model := SetTo(Slot(out, r.model), r.kind, r.tokens)]
  }

  predicate SafeChar(c: char) {
    'A' <= c <= 'Z' || 'a' <= c <= 'z' || '0' <= c <= '9' || c == ' ' || c == '_' || c == '.' || c == ':' || c == '-'
  }

  predicate SafeText(s: string) { 1 <= |s| <= 128 && forall i :: 0 <= i < |s| ==> SafeChar(s[i]) }

  /** The pattern of names the UI asks about; its end also matches before a final newline. */
  predicate SafeName(name: string) {
    SafeText(name) || (name != "" && name[|name| - 1] == '\n' && SafeText(name[..|name| - 1]))
  }

  /** The usage the UI shows for a consumer, of whose rows the query would return these. */
  function Shown(name: string, rows: seq<Row>): Usage { if SafeName(name) then Latest(rows) else map[] }

  /** consumer_usage: nothing for an unsafe name, else the grouping of the rows the query returns. */
  method ConsumerUsage(name: string, rows: seq<Row>) returns (out: Usage)
    requires forall i :: 0 <= i < |rows| ==> rows[i].consumer == name
    ensures out == Shown(name, rows)
  {
    if !SafeName(name) {
      return map[];
    }
    out := map[];
    for i := 0 to |rows|
      invariant out == Latest(rows[..i])
    {
      assert rows[..i + 1][..i] == rows[..i];
      var r := rows[i];
      if r.model == "" || (r.kind != "prompt" && r.kind != "completion") {
        continue;
      }
      if r.model !in out {
        out := out[r.model := Tokens(0, 0)];
      }
      if r.kind == "prompt" {
        out := out[r.model := out[r.model].(prompt := r.tokens)];
      } else {
        out := out[r.model := out[r.model].(completion := r.tokens)];
      }
    }
    assert rows[..|rows|] == rows;
  }

  /** cost_usd and the percentage of _live_spend: no percentage without a budget, and the stored
      downgrade state, if any, when the usage query has failed. */
  method LiveSpend(queried: Option<Usage>, pricing: Pricing, doc: Doc) returns (cost: Option<real>, pct: Option<real>)
    ensures queried.Some? ==> cost == Some(Cost(queried.value, pricing))
    ensures queried.Some? ==>
              pct == if doc.budget.Some? && doc.budget.value != 0.0 then Some(Percent(cost.value, doc.budget.value)) else None
    ensures queried.None? && doc.active.Some? ==> cost == Some(doc.active.value.usage) && pct == Some(doc.active.value.pct)
    ensures queried.None? && doc.active.None? ==> cost == None && pct == None
  {
    if queried.None? {
      if doc.active.Some? {
        return Some(doc.active.value.usage), Some(doc.active.value.pct);
      }
      return None, None;
    }
    var usd := CostUsd(queried.value, pricing);
    cost := Some(usd);
    pct := if doc.budget.Some? && doc.budget.value != 0.0 then Some(Percent(usd, doc.budget.value)) else None;
  }

  /** cost_usd. */
  method CostUsd(usage: Usage, pricing: Pricing) returns (cost: real)
    ensures cost == Cost(usage, pricing)
  {
    var total, todo := 0.0, usage;
    while todo != map[]
      invariant total + RawCost(todo, pricing) == RawCost(usage, pricing)
      decreases |todo|
    {
      var model :| model in todo;
      RawCostAnyOrder(todo, pricing, model);
      total := total + ModelCost(todo[model], model, pricing);
      todo := todo - {model};
    }
    cost := RoundTo(total, 1000000.0);
  }

  // ---- what the folds compute ----

  /** Rows without a consumer or a model are dropped, and so are rows of any other kind. */
  lemma {:induction false} UnnamedRowsAreDropped(rows: seq<Row>, r: Row)
    requires r.consumer == "" || r.model == "" || r.kind !in {"prompt", "completion"}
    ensures Shaped(rows + [r]) == Shaped(rows)
    ensures r.consumer != "" ==> Latest(rows + [r]) == Latest(rows)
  {
    assert (rows + [r])[..|rows|] == rows;
  }

  /** So nothing is counted for, or under, an empty name. */
  lemma {:induction false} NothingUnnamed(rows: seq<Row>, c: string)
    ensures "" !in Shaped(rows) && "" !in UsageOf(Shaped(rows), c) && "" !in Latest(rows)
    decreases |rows|
  {
    if rows != [] {
      NothingUnnamed(rows[..|rows| - 1], c);
    }
  }

  /** The names the UI asks about: letters, digits, spaces and five marks, up to 128 of them. */
  lemma {:induction false} NamesAskedAbout()
    ensures SafeName("Team 7_a.b:c-Z") && !SafeName("") && !SafeName("a'b") && !SafeName("a;b") && !SafeName("a/b")
    ensures SafeName("a\n") && !SafeName("a\n\n") && !SafeName("\n")
    ensures forall s: string :: |s| > 129 ==> !SafeName(s)
    ensures forall s: string :: |s| == 128 && (forall i :: 0 <= i < |s| ==> s[i] == 'x') ==> SafeName(s)
  {
    assert "a\n"[..1] == "a" && "a\n\n"[..2][1] == '\n' && |"\n"[..0]| == 0;
    assert "\n"[0] == '\n' && "a\n\n"[1] == '\n';
    assert "a'b"[1] == '\'' && "a;b"[1] == ';' && "a/b"[1] == '/';
  }

  predicate Hits(r: Row, c: string, m: string, k: string) {
    Counts(r) && r.consumer == c && r.model == m && r.kind == k
  }

  /** At most one counting row per consumer, model and kind. */
  predicate UniqueRows(rows: seq<Row>) {
    forall i, j :: 0 <= i < j < |rows| && Counts(rows[i]) && Counts(rows[j]) ==>
      !(rows[i].consumer == rows[j].consumer && rows[i].model == rows[j].model && rows[i].kind == rows[j].kind)
  }

  function WorkerTally(rows: seq<Row>, c: string, m: string, k: string): int {
    Tally(Slot(UsageOf(Shaped(rows), c), m), k)
  }

  function UiTally(rows: seq<Row>, m: string, k: string): int { Tally(Slot(Latest(rows), m), k) }

  predicate KindOk(k: string) { k == "prompt" || k == "completion" }

  lemma {:induction false} WorkerMisses(rows: seq<Row>, c: string, m: string, k: string)
    requires KindOk(k) && forall i :: 0 <= i < |rows| ==> !Hits(rows[i], c, m, k)
    ensures WorkerTally(rows, c, m, k) == 0
    decreases |rows|
  {
    if rows != [] {
      WorkerMisses(rows[..|rows| - 1], c, m, k);
    }
  }

  lemma {:induction false} WorkerHits(rows: seq<Row>, i: nat)
    requires UniqueRows(rows) && i < |rows| && Counts(rows[i])
    ensures WorkerTally(rows, rows[i].consumer, rows[i].model, rows[i].kind) == rows[i].tokens
    decreases |rows|
  {
    var r, init := rows[i], rows[..|rows| - 1];
    if i == |rows| - 1 {
      WorkerMisses(init, r.consumer, r.model, r.kind);
    } else {
      assert init[i] == r;
      WorkerHits(init, i);
      assert !Hits(rows[|rows| - 1], r.consumer, r.model, r.kind);
    }
  }

  lemma {:induction false} UiMisses(rows: seq<Row>, c: string, m: string, k: string)
    requires KindOk(k) && forall i :: 0 <= i < |rows| ==> rows[i].consumer == c && !Hits(rows[i], c, m, k)
    ensures UiTally(rows, m, k) == 0
    decreases |rows|
  {
    if rows != [] {
      UiMisses(rows[..|rows| - 1], c, m, k);
    }
  }

  lemma {:induction false} UiHits(rows: seq<Row>, c: string, i: nat)
    requires UniqueRows(rows) && i < |rows| && Counts(rows[i]) && forall j :: 0 <= j < |rows| ==> rows[j].consumer == c
    ensures UiTally(rows, rows[i].model, rows[i].kind) == rows[i].tokens
    decreases |rows|
  {
    var r, init := rows[i], rows[..|rows| - 1];
    if i < |rows| - 1 {
      assert init[i] == r;
      UiHits(init, c, i);
      assert !Hits(rows[|rows| - 1], r.consumer, r.model, r.kind);
    }
  }

  lemma {:induction false} WorkerModels(rows: seq<Row>, c: string, m: string)
    ensures m in UsageOf(Shaped(rows), c) <==> exists r :: r in rows && Counts(r) && r.consumer == c && r.model == m
    decreases |rows|
  {
    if rows != [] {
      var init, last := rows[..|rows| - 1], rows[|rows| - 1];
      WorkerModels(init, c, m);
      assert forall r :: r in rows <==> r in init || r == last;
      if Counts(last) && last.consumer == c && last.model == m {
        assert m in UsageOf(Shaped(rows), c);
      } else {
        assert m in UsageOf(Shaped(rows), c) <==> m in UsageOf(Shaped(init), c);
      }
    }
  }

  lemma {:induction false} UiModels(rows: seq<Row>, m: string)
    ensures m in Latest(rows) <==> exists r :: r in rows && Counts(r) && r.model == m
    decreases |rows|
  {
    if rows != [] {
      var init, last := rows[..|rows| - 1], rows[|rows| - 1];
      UiModels(init, m);
      assert forall r :: r in rows <==> r in init || r == last;
      if Counts(last) && last.model == m {
        assert m in Latest(rows);
      } else {
        assert m in Latest(rows) <==> m in Latest(init);
      }
    }
  }

  /** The UI's rows are the worker's rows for consumer c, in any order. */
  ghost predicate RowsOf(ui: seq<Row>, rows: seq<Row>, c: string) {
    && (forall r :: r in ui ==> r.consumer == c)
    && (forall r :: Counts(r) && r.consumer == c ==> (r in ui <==> r in rows))
  }

  predicate SameSlot(r: Row, q: Row) { r.consumer == q.consumer && r.model == q.model && r.kind == q.kind }

  function SlotTotal(samples: seq<Row>, slot: Row): int {
    if samples == [] then 0
    else
      var last := samples[|samples| - 1];
      SlotTotal(samples[..|samples| - 1], slot) + (if SameSlot(last, slot) then last.tokens else 0)
  }

  ghost predicate HasSample(samples: seq<Row>, slot: Row) { exists s :: s in samples && SameSlot(s, slot) }

  /** What a query returns that sums the samples up by slot: one row for each slot with samples, with
      their total, in any order. */
  ghost predicate Summarises(rows: seq<Row>, samples: seq<Row>) {
    && (forall i, j :: 0 <= i < j < |rows| ==> !SameSlot(rows[i], rows[j]))
    && (forall r :: r in rows ==> r.tokens == SlotTotal(samples, r) && HasSample(samples, r))
    && (forall s :: s in samples ==> HasSample(rows, s))
  }

  lemma {:induction false} SameSlotSameTotal(samples: seq<Row>, r: Row, q: Row)
    requires SameSlot(r, q)
    ensures SlotTotal(samples, r) == SlotTotal(samples, q)
    decreases |samples|
  {
    if samples != [] {
      SameSlotSameTotal(samples[..|samples| - 1], r, q);
    }
  }

  lemma SummaryRow(rows: seq<Row>, samples: seq<Row>, r: Row)
    requires Summarises(rows, samples)
    ensures r in rows <==> r.tokens == SlotTotal(samples, r) && HasSample(samples, r)
  {
    if r.tokens == SlotTotal(samples, r) && HasSample(samples, r) {
      var s :| s in samples && SameSlot(s, r);
      assert HasSample(rows, s);
      var q :| q in rows && SameSlot(q, s);
      SameSlotSameTotal(samples, q, r);
      assert q == r;
    }
  }

  function OfConsumer(samples: seq<Row>, c: string): seq<Row> {
    if samples == [] then []
    else
      var last := samples[|samples| - 1];
      OfConsumer(samples[..|samples| - 1], c) + (if last.consumer == c then [last] else [])
  }

  lemma {:induction false} SamplesOfConsumer(samples: seq<Row>, c: string)
    ensures forall s :: s in OfConsumer(samples, c) <==> s in samples && s.consumer == c
    decreases |samples|
  {
    if samples != [] {
      var init, last := samples[..|samples| - 1], samples[|samples| - 1];
      SamplesOfConsumer(init, c);
      assert forall s :: s in samples <==> s in init || s == last;
    }
  }

  lemma {:induction false} TotalOfConsumer(samples: seq<Row>, slot: Row)
    ensures SlotTotal(OfConsumer(samples, slot.consumer), slot) == SlotTotal(samples, slot)
    decreases |samples|
  {
    if samples != [] {
      var few, last := OfConsumer(samples[..|samples| - 1], slot.consumer), samples[|samples| - 1];
      TotalOfConsumer(samples[..|samples| - 1], slot);
      assert (few + [last])[..|few|] == few && few + [] == few;
    }
  }

  /** The worker's query sums up all samples, the UI's those of one consumer; both thus return unique
      rows, and the UI's are the worker's for that consumer. */
  lemma QueriesMatch(ui: seq<Row>, rows: seq<Row>, samples: seq<Row>, c: string)
    requires Summarises(rows, samples) && Summarises(ui, OfConsumer(samples, c))
    ensures UniqueRows(ui) && UniqueRows(rows) && RowsOf(ui, rows, c)
  {
    SamplesOfConsumer(samples, c);
    forall r: Row
      ensures r in ui ==> r.consumer == c
      ensures r.consumer == c ==> (r in ui <==> r in rows)
    {
      SummaryRow(ui, OfConsumer(samples, c), r);
      SummaryRow(rows, samples, r);
      TotalOfConsumer(samples, r);
    }
  }

  lemma TalliesAgree(ui: seq<Row>, rows: seq<Row>, c: string, m: string, k: string)
    requires UniqueRows(ui) && UniqueRows(rows) && RowsOf(ui, rows, c) && KindOk(k)
    ensures UiTally(ui, m, k) == WorkerTally(rows, c, m, k)
  {
    assert forall i :: 0 <= i < |ui| ==> ui[i] in ui;
    assert forall j :: 0 <= j < |rows| ==> rows[j] in rows;
    if j :| 0 <= j < |rows| && Hits(rows[j], c, m, k) {
      assert rows[j] in ui;
      var i :| 0 <= i < |ui| && ui[i] == rows[j];
      WorkerHits(rows, j);
      UiHits(ui, c, i);
    } else {
      WorkerMisses(rows, c, m, k);
      UiMisses(ui, c, m, k);
    }
  }

  lemma ModelsAgree(ui: seq<Row>, rows: seq<Row>, c: string, m: string)
    requires RowsOf(ui, rows, c)
    ensures m in Latest(ui) <==> m in UsageOf(Shaped(rows), c)
  {
    WorkerModels(rows, c, m);
    UiModels(ui, m);
  }

  /** The two groupings are the same usage. */
  lemma FoldsAgree(ui: seq<Row>, rows: seq<Row>, c: string)
    requires UniqueRows(ui) && UniqueRows(rows) && RowsOf(ui, rows, c)
    ensures Latest(ui) == UsageOf(Shaped(rows), c)
  {
    var a, b := Latest(ui), UsageOf(Shaped(rows), c);
    forall m
      ensures m in a <==> m in b
      ensures m in a && m in b ==> a[m] == b[m]
    {
      ModelsAgree(ui, rows, c, m);
      TalliesAgree(ui, rows, c, m, "prompt");
      TalliesAgree(ui, rows, c, m, "completion");
    }
    assert a.Keys == b.Keys;
  }

  lemma NothingCosts(pricing: Pricing, budget: real)
    requires budget != 0.0
    ensures Cost(map[], pricing) == 0.0 && LevelFor(Percent(0.0, budget)) == 0
  {
    assert RoundTo(0.0, 1000000.0) == 0.0;
    assert 0.0 / budget == 0.0 by {
      QuotientTimes(0.0, budget);
    }
    assert RoundTo(0.0, 10000.0) == 0.0;
  }

  /** The UI shows the usage the worker counts if and only if the consumer's name is safe or the worker
      counts nothing for it. */
  lemma ShownIsCountedExactly(ui: seq<Row>, rows: seq<Row>, name: string)
    requires UniqueRows(ui) && UniqueRows(rows) && RowsOf(ui, rows, name)
    ensures Shown(name, ui) == UsageOf(Shaped(rows), name) <==> SafeName(name) || UsageOf(Shaped(rows), name) == map[]
  {
    FoldsAgree(ui, rows, name);
  }

  /** The UI shows the cost, and a percentage of the level, on which the worker acts, if and only if
      the consumer's name is safe or the worker finds no cost, respectively no level, for it. */
  lemma {:induction false} DisplayMatchesEnforcement(ui: seq<Row>, rows: seq<Row>, pricing: Pricing, doc: Doc)
    requires UniqueRows(ui) && UniqueRows(rows) && RowsOf(ui, rows, doc.consumer) && Eligible(doc)
    ensures Cost(Shown(doc.consumer, ui), pricing) == Cost(UsageOf(Shaped(rows), doc.consumer), pricing) <==>
            SafeName(doc.consumer) || Cost(UsageOf(Shaped(rows), doc.consumer), pricing) == 0.0
    ensures LevelFor(Percent(Cost(Shown(doc.consumer, ui), pricing), doc.budget.value)) == DueLevel(doc, Shaped(rows), pricing) <==>
            SafeName(doc.consumer) || DueLevel(doc, Shaped(rows), pricing) == 0
  {
    FoldsAgree(ui, rows, doc.consumer);
    NothingCosts(pricing, doc.budget.value);
  }

  /** A thousand prompt tokens at a rate of 1 against a budget of 1, under any unsafe name, such as one
      with an at sign: the worker enforces level 2, the UI shows level 0. */
  lemma UnsafeNamesAreHidden(name: string)
    requires name != "" && !SafeName(name)
    ensures var rows, pricing := [Row(name, "m", "prompt", 1000)], map["m" := Rate(1.0, 0.0)];
            var doc := Doc(name, Some(1.0), ["n"], None, map[]);
            && UniqueRows(rows) && RowsOf(rows, rows, name) && Eligible(doc)
            && DueLevel(doc, Shaped(rows), pricing) == 2
            && LevelFor(Percent(Cost(Shown(name, rows), pricing), 1.0)) == 0
    ensures !SafeName("a@b")
  {
    var rows, pricing := [Row(name, "m", "prompt", 1000)], map["m" := Rate(1.0, 0.0)];
    assert rows[..0] == [];
    assert Shaped(rows) == map[name := map["m" := Tokens(1000, 0)]];
    var u: Usage := map["m" := Tokens(1000, 0)];
    RawCostAnyOrder(u, pricing, "m");
    assert u - {"m"} == map[];
    assert RawCost(u, pricing) == 1.0;
    assert RoundTo(1.0, 1000000.0) == 1.0 && RoundTo(1.0, 10000.0) == 1.0;
    NothingCosts(pricing, 1.0);
    assert "a@b"[1] == '@';
  }

  /** The folds rely on the queries to sum up each slot into one row: on two rows for the same slot the
      worker would add and the UI overwrite. */
  lemma DuplicateRowsDisagree(a: int, b: int)
    ensures var rows := [Row("c", "m", "prompt", a), Row("c", "m", "prompt", b)];
            WorkerTally(rows, "c", "m", "prompt") == a + b && UiTally(rows, "m", "prompt") == b
  {
    var r, s := Row("c", "m", "prompt", a), Row("c", "m", "prompt", b);
    assert [r, s][..1] == [r] && [r][..0] == [];
    assert Shaped([r]) == map["c" := map["m" := Tokens(a, 0)]];
    assert Latest([r]) == map["m" := Tokens(a, 0)];
  }

  /** The tokens of the rows that hit a slot, in order. */
  function SlotTokens(rows: seq<Row>, c: string, m: string, k: string): seq<int> {
    if rows == [] then []
    else
      var last := rows[|rows| - 1];
      SlotTokens(rows[..|rows| - 1], c, m, k) + (if Hits(last, c, m, k) then [last.tokens] else [])
  }

  function Sum(xs: seq<int>): int { if xs == [] then 0 else Sum(xs[..|xs| - 1]) + xs[|xs| - 1] }

  function Last(xs: seq<int>): int { if xs == [] then 0 else xs[|xs| - 1] }

  /** Whatever the rows, a slot of the worker holds the sum of the tokens of the rows that hit it. */
  lemma {:induction false} WorkerSlotIsSum(rows: seq<Row>, c: string, m: string, k: string)
    requires KindOk(k)
    ensures WorkerTally(rows, c, m, k) == Sum(SlotTokens(rows, c, m, k))
    decreases |rows|
  {
    if rows != [] {
      var init, last := rows[..|rows| - 1], rows[|rows| - 1];
      WorkerSlotIsSum(init, c, m, k);
      WorkerTallyStep(rows, c, m, k);
      SumSnoc(SlotTokens(init, c, m, k), last.tokens);
    }
  }

  lemma SumSnoc(xs: seq<int>, x: int)
    ensures Sum(xs + [x]) == Sum(xs) + x && xs + [] == xs
  {
    assert (xs + [x])[..|xs|] == xs;
  }

  lemma WorkerTallyStep(rows: seq<Row>, c: string, m: string, k: string)
    requires KindOk(k) && rows != []
    ensures var last := rows[|rows| - 1];
            WorkerTally(rows, c, m, k) == WorkerTally(rows[..|rows| - 1], c, m, k) + (if Hits(last, c, m, k) then last.tokens else 0)
  {
  }

  /** Whatever the rows of a consumer, a slot of the UI holds the tokens of the last row that hits it. */
  lemma {:induction false} UiSlotIsLast(rows: seq<Row>, c: string, m: string, k: string)
    requires KindOk(k) && forall i :: 0 <= i < |rows| ==> rows[i].consumer == c
    ensures UiTally(rows, m, k) == Last(SlotTokens(rows, c, m, k))
    decreases |rows|
  {
    if rows != [] {
      UiSlotIsLast(rows[..|rows| - 1], c, m, k);
    }
  }

  lemma {:induction false} PositiveSum(xs: seq<int>)
    requires forall i :: 0 <= i < |xs| ==> xs[i] > 0
    ensures Sum(xs) >= |xs| && (|xs| >= 2 ==> Sum(xs) > Last(xs))
    decreases |xs|
  {
    if xs != [] {
      PositiveSum(xs[..|xs| - 1]);
    }
  }

  lemma {:induction false} SlotTokensArePositive(rows: seq<Row>, c: string, m: string, k: string)
    requires forall i :: 0 <= i < |rows| ==> rows[i].tokens > 0
    ensures forall i :: 0 <= i < |SlotTokens(rows, c, m, k)| ==> SlotTokens(rows, c, m, k)[i] > 0
    decreases |rows|
  {
    if rows != [] {
      SlotTokensArePositive(rows[..|rows| - 1], c, m, k);
    }
  }

  lemma {:induction false} HitsAreListed(rows: seq<Row>, i: nat, c: string, m: string, k: string)
    requires i < |rows| && Hits(rows[i], c, m, k)
    ensures |SlotTokens(rows[..i + 1], c, m, k)| == |SlotTokens(rows[..i], c, m, k)| + 1
    ensures |SlotTokens(rows, c, m, k)| > |SlotTokens(rows[..i], c, m, k)|
    decreases |rows|
  {
    assert rows[..i + 1][..i] == rows[..i];
    var init := rows[..|rows| - 1];
    if i < |init| {
      assert init[..i] == rows[..i] && init[..i + 1] == rows[..i + 1];
      HitsAreListed(init, i, c, m, k);
    } else {
      assert rows[..i + 1] == rows;
    }
  }

  /** One row for a slot is exactly what the folds rely on: on rows of one consumer that all count some tokens, the
      worker and the UI agree on every slot if and only if no slot has two rows. */
  lemma AgreementIsUniqueness(rows: seq<Row>, c: string)
    requires forall i :: 0 <= i < |rows| ==> rows[i].consumer == c && rows[i].tokens > 0
    ensures (forall m, k :: KindOk(k) ==> UiTally(rows, m, k) == WorkerTally(rows, c, m, k)) <==> UniqueRows(rows)
  {
    if UniqueRows(rows) {
      forall m, k | KindOk(k)
        ensures UiTally(rows, m, k) == WorkerTally(rows, c, m, k)
      {
        TalliesAgree(rows, rows, c, m, k);
      }
    } else {
      var i, j :| 0 <= i < j < |rows| && Counts(rows[i]) && Counts(rows[j])
                  && rows[i].model == rows[j].model && rows[i].kind == rows[j].kind;
      var m, k := rows[i].model, rows[i].kind;
      WorkerSlotIsSum(rows, c, m, k);
      UiSlotIsLast(rows, c, m, k);
      SlotTokensArePositive(rows, c, m, k);
      assert rows[..j][i] == rows[i];
      HitsAreListed(rows[..j], i, c, m, k);
      HitsAreListed(rows, j, c, m, k);
      PositiveSum(SlotTokens(rows, c, m, k));
    }
  }
}
