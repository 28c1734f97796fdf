/** The category context of src/hooks/useCategories.tsx: the NETSEA and
    WooCommerce category lists, the NETSEA-to-WooCommerce mapping list (also kept
    in storage under 'category_mappings'), and `syncCategories`, which walks the
    NETSEA categories in order, reuses a known mapping or creates the category
    in the store, and replaces the mapping list with what it collected. */
module Categories {
  import opened Prelude
  import opened Text
  import opened Errors
  import opened Effects
  import opened Catalog
  import AppSettings
  import LogService
  import NetseaApi
  import WooCommerceApi

  /** `{ netseaId, wooCommerceId }`; the store id is undefined when the create
      reply carried none. */
  datatype Mapping = Mapping(netseaId: int, wooCommerceId: Option<int>)

  const IncompleteMessage: string := "WooCommerce設定が不完全です"
  const NetseaStage: string := "NETSEAからカテゴリを取得中..."
  const WooStage: string := "WooCommerceのカテゴリを取得中..."
  const SyncingStage: string := "カテゴリを同期中..."
  const DoneStage: string := "カテゴリの同期が完了しました"
  const SyncedPrefix: string := "カテゴリを同期しました: "
  const SyncFailedPrefix: string := "カテゴリの同期に失敗: "
  const NetseaIdPrefix: string := "NETSEA ID: "
  const WooIdPrefix: string := ", WooCommerce ID: "
  const UnknownError: string := "不明なエラー"
  const UnknownCategory: string := "Unknown Category"
  const Total: int := 100
  const LoopBase: int := 30
  const LoopSpan: int := 70
  const CreatePause: int := 500

  /** `categoryMappings.find(m => m.netseaId === id)`. */
  function FindMapping(ms: seq<Mapping>, id: int): (r: Option<Mapping>)
    ensures r.Some? ==> r.value in ms && r.value.netseaId == id
    ensures r.None? <==> forall k :: 0 <= k < |ms| ==> ms[k].netseaId != id
    ensures r.Some? ==> exists k :: 0 <= k < |ms| && ms[k] == r.value
                          && forall j :: 0 <= j < k ==> ms[j].netseaId != id
    decreases |ms|
  {
    if |ms| == 0 then None else if ms[0].netseaId == id then Some(ms[0]) else FindMapping(ms[1..], id)
  }

  /** The progress of category `i` of `n`: `30 + Math.floor((i / n) * 70)`. */
  function LoopProgress(i: nat, n: nat): int
    requires i < n
  {
    LoopBase + (LoopSpan * i) / n
  }

  /** `${name} (${index + 1}/${n})`. */
  function Detail(name: string, i: nat, n: nat): string {
    name + " (" + NatStr(i + 1) + "/" + NatStr(n) + ")"
  }

  function SyncedLog(c: Category, wooId: Option<int>): LogService.LogEntry {
    LogService.LogEntry(LogService.Success, LogService.Sync, SyncedPrefix + c.name,
      Some(NetseaIdPrefix + IntStr(c.id) + WooIdPrefix + WooCommerceApi.IdText(wooId)))
  }

  function SyncFailedLog(name: string, e: Error): LogService.LogEntry {
    LogService.LogEntry(LogService.Error, LogService.Sync, SyncFailedPrefix + name, Some(MessageOr(e, UnknownError)))
  }

  /** What one category contributes: the mappings pushed and the events caused. */
  datatype Step = Step(pushed: seq<Mapping>, events: seq<Event>)

  /** The create call the loop would make for each category: by name, with no
      parent. Only the calls for unmapped categories are made. */
  function Attempts(cats: seq<Category>, s: AppSettings.Settings, creates: nat -> Fetched<int>): (r: seq<Traced<Option<int>>>)
    ensures |r| == |cats|
  {
    seq(|cats|, k requires 0 <= k < |cats| => WooCommerceApi.CreateCategory(cats[k].name, None, Some(s), creates(k)))
  }

  /** One pass of the loop body for category `i`: report progress; reuse a known
      mapping; otherwise create the category (`attempts[i]`), and on success
      record the mapping, log and wait 500 ms, on failure log and go on. */
  function SyncStep(cats: seq<Category>, existing: seq<Mapping>, attempts: seq<Traced<Option<int>>>, i: nat): Step
    requires i < |cats| == |attempts|
  {
    var c := cats[i];
    var progress := Progress(LoopProgress(i, |cats|), Total, SyncingStage, Some(Detail(c.name, i, |cats|)));
    var found := FindMapping(existing, c.id);
    if found.Some? then Step([found.value], [progress])
    else
      var created := attempts[i];
      if created.result.Err? then Step([], [progress] + created.trace + [Log(SyncFailedLog(c.name, created.result.error))])
      else Step([Mapping(c.id, created.result.value)],
                [progress] + created.trace + [Log(SyncedLog(c, created.result.value)), Sleep(CreatePause)])
  }

  /** The loop from category `i` on. */
  function SyncFrom(cats: seq<Category>, existing: seq<Mapping>, attempts: seq<Traced<Option<int>>>, i: nat): Step
    requires |cats| == |attempts|
    decreases |cats| - i
  {
    if i >= |cats| then Step([], [])
    else
      var a := SyncStep(cats, existing, attempts, i);
      var b := SyncFrom(cats, existing, attempts, i + 1);
      Step(a.pushed + b.pushed, a.events + b.events)
  }

  /** The outer `catch`: `new Error(message)`. */
  function Rethrown(e: Error): Error {
    PlainError(MessageOr(e, UnknownError))
  }

  /** What a sync ends with: the new mapping list or the error, the events, and
      the category lists it stored along the way. */
  datatype SyncOutcome = SyncOutcome(result: Result<seq<Mapping>, Error>, trace: seq<Event>,
                                     netsea: Option<seq<Category>>, woo: Option<seq<WooCommerceApi.WooCategory>>)

  /** `syncCategories(onProgress)` against the mapping list `existing`; the
      outcomes of the two list fetches and of the create of category k are
      oracles. */
  function Sync(s: AppSettings.Settings, existing: seq<Mapping>, netseaOutcome: Fetched<seq<NetseaApi.RawCategory>>,
                wooOutcome: Fetched<seq<WooCommerceApi.WooCategory>>, creates: nat -> Fetched<int>): SyncOutcome
  {
    if s.woocommerceApiKey == "" || s.woocommerceApiSecret == "" then
      SyncOutcome(Err(Rethrown(PlainError(IncompleteMessage))), [], None, None)
    else
      var start := [Progress(0, Total, NetseaStage, None)];
      var n := NetseaApi.FetchCategories(s, netseaOutcome);
      if n.result.Err? then SyncOutcome(Err(Rethrown(n.result.error)), start + n.trace, None, None)
      else
        var middle := [Progress(20, Total, WooStage, None)];
        var w := WooCommerceApi.FetchCategories(s, wooOutcome);
        if w.result.Err? then
          SyncOutcome(Err(Rethrown(w.result.error)), start + n.trace + middle + w.trace, Some(n.result.value), None)
        else
          var cats := n.result.value;
          var loop := SyncFrom(cats, existing, Attempts(cats, s, creates), 0);
          SyncOutcome(Ok(loop.pushed), start + n.trace + middle + w.trace + loop.events + [Progress(Total, Total, DoneStage, None)],
                      Some(cats), Some(w.result.value))
  }

  // ---------------------------------------------------------------- the loop invariant

  predicate Accounted(cats: seq<Category>, existing: seq<Mapping>, attempts: seq<Traced<Option<int>>>,
                      i: nat, pushed: seq<Mapping>, events: seq<Event>)
    requires |cats| == |attempts|
  {
    var rest := SyncFrom(cats, existing, attempts, i);
    var all := SyncFrom(cats, existing, attempts, 0);
    pushed + rest.pushed == all.pushed && events + rest.events == all.events
  }

  lemma AccountedStart(cats: seq<Category>, existing: seq<Mapping>, attempts: seq<Traced<Option<int>>>)
    requires |cats| == |attempts|
    ensures Accounted(cats, existing, attempts, 0, [], [])
  {
    var all := SyncFrom(cats, existing, attempts, 0);
    assert [] + all.pushed == all.pushed && [] + all.events == all.events;
  }

  lemma AccountedStep(cats: seq<Category>, existing: seq<Mapping>, attempts: seq<Traced<Option<int>>>,
                      i: nat, pushed: seq<Mapping>, events: seq<Event>, step: Step)
    requires i < |cats| == |attempts| && Accounted(cats, existing, attempts, i, pushed, events)
    requires step == SyncStep(cats, existing, attempts, i)
    ensures Accounted(cats, existing, attempts, i + 1, pushed + step.pushed, events + step.events)
  {
    var rest := SyncFrom(cats, existing, attempts, i + 1);
    AppendAssoc(pushed, step.pushed, rest.pushed);
    AppendAssoc(events, step.events, rest.events);
  }

  lemma AccountedEnd(cats: seq<Category>, existing: seq<Mapping>, attempts: seq<Traced<Option<int>>>,
                     i: nat, pushed: seq<Mapping>, events: seq<Event>)
    requires i >= |cats| == |attempts| && Accounted(cats, existing, attempts, i, pushed, events)
    ensures pushed == SyncFrom(cats, existing, attempts, 0).pushed
    ensures events == SyncFrom(cats, existing, attempts, 0).events
  {
    assert pushed + [] == pushed && events + [] == events;
  }

  /** The `for` loop of `syncCategories` over the NETSEA categories, with the
      mapping list as it was when the sync started. */
  method SyncLoop(cats: seq<Category>, existing: seq<Mapping>, s: AppSettings.Settings, creates: nat -> Fetched<int>)
    returns (newMappings: seq<Mapping>, events: seq<Event>)
    ensures Step(newMappings, events) == SyncFrom(cats, existing, Attempts(cats, s, creates), 0)
  {
    newMappings, events := [], [];
    ghost var attempts := Attempts(cats, s, creates);
    var i := 0;
    AccountedStart(cats, existing, attempts);
    while i < |cats|
      invariant i <= |cats|
      invariant Accounted(cats, existing, attempts, i, newMappings, events)
      decreases |cats| - i
    {
      var c := cats[i];
      var step: Step;
      var progress := Progress(LoopProgress(i, |cats|), Total, SyncingStage, Some(Detail(c.name, i, |cats|)));
      var found := FindMapping(existing, c.id);
      if found.Some? {
        step := Step([found.value], [progress]);
      } else {
        var created := WooCommerceApi.CreateCategory(c.name, None, Some(s), creates(i));
        assert created == attempts[i];
        if created.result.Err? {
          step := Step([], [progress] + created.trace + [Log(SyncFailedLog(c.name, created.result.error))]);
        } else {
          step := Step([Mapping(c.id, created.result.value)],
                       [progress] + created.trace + [Log(SyncedLog(c, created.result.value)), Sleep(CreatePause)]);
        }
      }
      AccountedStep(cats, existing, attempts, i, newMappings, events, step);
      newMappings := newMappings + step.pushed;
      events := events + step.events;
      i := i + 1;
    }
    AccountedEnd(cats, existing, attempts, i, newMappings, events);
  }

  // ---------------------------------------------------------------- the provider

  class CategoriesProvider {
    var netseaCategories: seq<Category>
    var wooCommerceCategories: seq<WooCommerceApi.WooCategory>
    var categoryMappings: seq<Mapping>
    var isLoading: bool
    var error: Option<string>
    /** The 'category_mappings' storage entry, already parsed. */
    var storedMappings: Option<seq<Mapping>>

    constructor ()
      ensures netseaCategories == [] && wooCommerceCategories == [] && categoryMappings == []
      ensures !isLoading && error.None? && storedMappings.None?
    {
      netseaCategories := [];
      wooCommerceCategories := [];
      categoryMappings := [];
      isLoading := false;
      error := None;
      storedMappings := None;
    }

    /** `syncCategories(onProgress)`. A sync that fails keeps the mapping list and
        the stored copy, sets the error message and rethrows it; a sync that gets
        through replaces both with the list it collected. Either way loading ends. */
    method SyncCategories(s: AppSettings.Settings, netseaOutcome: Fetched<seq<NetseaApi.RawCategory>>,
                          wooOutcome: Fetched<seq<WooCommerceApi.WooCategory>>, creates: nat -> Fetched<int>)
      returns (result: Result<(), Error>, trace: seq<Event>)
      modifies this
      ensures var o := Sync(s, old(categoryMappings), netseaOutcome, wooOutcome, creates);
        && trace == o.trace
        && (result.Ok? <==> o.result.Ok?)
        && (result.Err? ==> result.error == o.result.error)
        && categoryMappings == (if o.result.Ok? then o.result.value else old(categoryMappings))
        && storedMappings == (if o.result.Ok? then Some(o.result.value) else old(storedMappings))
        && netseaCategories == o.netsea.GetOr(old(netseaCategories))
        && wooCommerceCategories == o.woo.GetOr(old(wooCommerceCategories))
        && error == (if o.result.Err? then Some(o.result.error.Message()) else None)
        && !isLoading
    {
      isLoading := true;
      error := None;
      var existing := categoryMappings;
      if s.woocommerceApiKey == "" || s.woocommerceApiSecret == "" {
        var e := Rethrown(PlainError(IncompleteMessage));
        error := Some(e.Message());
        isLoading := false;
        return Err(e), [];
      }
      trace := [Progress(0, Total, NetseaStage, None)];
      var n := NetseaApi.FetchCategories(s, netseaOutcome);
      trace := trace + n.trace;
      if n.result.Err? {
        var e := Rethrown(n.result.error);
        error := Some(e.Message());
        isLoading := false;
        return Err(e), trace;
      }
      var cats := n.result.value;
      netseaCategories := cats;
      trace := trace + [Progress(20, Total, WooStage, None)];
      var w := WooCommerceApi.FetchCategories(s, wooOutcome);
      trace := trace + w.trace;
      if w.result.Err? {
        var e := Rethrown(w.result.error);
        error := Some(e.Message());
        isLoading := false;
        return Err(e), trace;
      }
      wooCommerceCategories := w.result.value;
      var newMappings, events := SyncLoop(cats, existing, s, creates);
      trace := trace + events + [Progress(Total, Total, DoneStage, None)];
      categoryMappings := newMappings;
      storedMappings := Some(newMappings);
      isLoading := false;
      result := Ok(());
    }

    /** `getCategoryNameById(id)` over the loaded NETSEA categories. */
    function GetCategoryNameById(id: string): string
      reads this
    {
      CategoryName(netseaCategories, id)
    }
  }

  /** `cats.find(cat => cat.id.toString() === id)`. */
  function FindCategory(cats: seq<Category>, id: string): (r: Option<Category>)
    decreases |cats|
  {
    if |cats| == 0 then None else if IntStr(cats[0].id) == id then Some(cats[0]) else FindCategory(cats[1..], id)
  }

  /** `category?.name || 'Unknown Category'`. */
  function CategoryName(cats: seq<Category>, id: string): string {
    var c := FindCategory(cats, id);
    if c.Some? && c.value.name != "" then c.value.name else UnknownCategory
  }

  // ---------------------------------------------------------------- properties

  /** Without both keys the sync fails at once with 'WooCommerce設定が不完全です':
      no progress report, no request. */
  lemma SyncNeedsKeys(s: AppSettings.Settings, existing: seq<Mapping>, netseaOutcome: Fetched<seq<NetseaApi.RawCategory>>,
                      wooOutcome: Fetched<seq<WooCommerceApi.WooCategory>>, creates: nat -> Fetched<int>)
    requires s.woocommerceApiKey == "" || s.woocommerceApiSecret == ""
    ensures var o := Sync(s, existing, netseaOutcome, wooOutcome, creates);
      o.result == Err(PlainError(IncompleteMessage)) && o.trace == [] && o.netsea.None? && o.woo.None?
  {
  }

  /** A category with a known mapping reuses it verbatim, with no request. */
  lemma StepReuses(cats: seq<Category>, existing: seq<Mapping>, attempts: seq<Traced<Option<int>>>, i: nat)
    requires i < |cats| == |attempts| && FindMapping(existing, cats[i].id).Some?
    ensures var step := SyncStep(cats, existing, attempts, i);
      step.pushed == [FindMapping(existing, cats[i].id).value] && Calls(step.events) == 0
  {
  }

  /** The events and mappings of an unmapped category's step, for any create
      attempt. */
  lemma StepAttempt(cats: seq<Category>, existing: seq<Mapping>, attempts: seq<Traced<Option<int>>>, i: nat)
    requires i < |cats| == |attempts| && FindMapping(existing, cats[i].id).None?
    ensures var step := SyncStep(cats, existing, attempts, i);
      var created := attempts[i];
      && Requests(step.events) == Requests(created.trace)
      && (created.result.Ok? ==> step.pushed == [Mapping(cats[i].id, created.result.value)]
                                 && step.events[|step.events| - 1] == Sleep(CreatePause))
      && (created.result.Err? ==> step.pushed == []
                                  && step.events[|step.events| - 1] == Log(SyncFailedLog(cats[i].name, created.result.error)))
  {
    var created := attempts[i];
    var progress := Progress(LoopProgress(i, |cats|), Total, SyncingStage, Some(Detail(cats[i].name, i, |cats|)));
    var tail: seq<Event> := if created.result.Err? then [Log(SyncFailedLog(cats[i].name, created.result.error))]
                            else [Log(SyncedLog(cats[i], created.result.value)), Sleep(CreatePause)];
    assert SyncStep(cats, existing, attempts, i).events == [progress] + created.trace + tail;
    RequestsAppend([progress], created.trace);
    RequestsAppend([progress] + created.trace, tail);
    assert Requests(tail) == [] by {
      if created.result.Ok? {
        assert tail[1..][1..] == [];
      }
    }
  }

  /** An unmapped category is created by name with no parent; on success its
      mapping records the new id and a 500 ms wait follows, on failure nothing is
      recorded and the failure is logged. */
  lemma StepCreates(cats: seq<Category>, existing: seq<Mapping>, s: AppSettings.Settings, creates: nat -> Fetched<int>, i: nat)
    requires i < |cats| && FindMapping(existing, cats[i].id).None? && WooCommerceApi.GetConfig(s).Ok?
    ensures var step := SyncStep(cats, existing, Attempts(cats, s, creates), i);
      var created := WooCommerceApi.CreatedId(creates(i), WooCommerceApi.CreateFailedPrefix);
      && Requests(step.events) == [WooCommerceApi.CategoryRequest(WooCommerceApi.GetConfig(s).value, cats[i].name, None)]
      && (created.Ok? ==> step.pushed == [Mapping(cats[i].id, created.value)] && step.events[|step.events| - 1] == Sleep(CreatePause))
      && (created.Err? ==> step.pushed == [] && step.events[|step.events| - 1] == Log(SyncFailedLog(cats[i].name, created.error)))
  {
    var attempts := Attempts(cats, s, creates);
    assert attempts[i] == WooCommerceApi.CreateCategory(cats[i].name, None, Some(s), creates(i));
    StepAttempt(cats, existing, attempts, i);
  }

  /** The create attempts make at most one request and report no progress. */
  predicate Quiet(attempts: seq<Traced<Option<int>>>) {
    forall k :: 0 <= k < |attempts| ==> Progresses(attempts[k].trace) == [] && Calls(attempts[k].trace) <= 1
  }

  lemma AttemptsQuiet(cats: seq<Category>, s: AppSettings.Settings, creates: nat -> Fetched<int>)
    ensures Quiet(Attempts(cats, s, creates))
  {
    var attempts := Attempts(cats, s, creates);
    forall k | 0 <= k < |attempts|
      ensures Progresses(attempts[k].trace) == [] && Calls(attempts[k].trace) <= 1
    {
      assert attempts[k] == WooCommerceApi.CreateCategory(cats[k].name, None, Some(s), creates(k));
      var t := attempts[k].trace;
      if |t| == 2 {
        assert t[1..][1..] == [];
        assert Progresses(t[1..]) == [] && Calls(t[1..]) == 0;
      }
    }
  }

  /** The create attempts that the loop needs all succeed. */
  predicate NoCreateFails(cats: seq<Category>, existing: seq<Mapping>, attempts: seq<Traced<Option<int>>>, i: nat)
    requires |cats| == |attempts|
  {
    forall k :: i <= k < |cats| && FindMapping(existing, cats[k].id).None? ==> attempts[k].result.Ok?
  }

  /** The mappings one step pushes, without its events. */
  function StepPushed(cats: seq<Category>, existing: seq<Mapping>, attempts: seq<Traced<Option<int>>>, i: nat): seq<Mapping>
    requires i < |cats| == |attempts|
  {
    var found := FindMapping(existing, cats[i].id);
    if found.Some? then [found.value]
    else if attempts[i].result.Err? then []
    else [Mapping(cats[i].id, attempts[i].result.value)]
  }

  /** The mappings the loop pushes from category `i` on. */
  function Pushed(cats: seq<Category>, existing: seq<Mapping>, attempts: seq<Traced<Option<int>>>, i: nat): seq<Mapping>
    requires |cats| == |attempts|
    decreases |cats| - i
  {
    if i >= |cats| then [] else StepPushed(cats, existing, attempts, i) + Pushed(cats, existing, attempts, i + 1)
  }

  lemma {:induction false} PushedIs(cats: seq<Category>, existing: seq<Mapping>, attempts: seq<Traced<Option<int>>>, i: nat)
    requires |cats| == |attempts|
    ensures SyncFrom(cats, existing, attempts, i).pushed == Pushed(cats, existing, attempts, i)
    decreases |cats| - i
  {
    if i < |cats| {
      PushedIs(cats, existing, attempts, i + 1);
      assert SyncStep(cats, existing, attempts, i).pushed == StepPushed(cats, existing, attempts, i);
    }
  }

  lemma {:induction false} PushedInOrder(cats: seq<Category>, existing: seq<Mapping>, attempts: seq<Traced<Option<int>>>, i: nat)
    requires i <= |cats| == |attempts| && NoCreateFails(cats, existing, attempts, i)
    ensures var r := Pushed(cats, existing, attempts, i);
      && |r| == |cats| - i
      && (forall j :: 0 <= j < |r| ==> r[j].netseaId == cats[i + j].id)
      && (forall j :: 0 <= j < |r| && FindMapping(existing, cats[i + j].id).Some? ==> r[j] == FindMapping(existing, cats[i + j].id).value)
    decreases |cats| - i
  {
    if i < |cats| {
      PushedInOrder(cats, existing, attempts, i + 1);
      var a := StepPushed(cats, existing, attempts, i);
      var b := Pushed(cats, existing, attempts, i + 1);
      var r := a + b;
      forall j | 0 < j < |r|
        ensures r[j] == b[j - 1] && i + j == (i + 1) + (j - 1)
      {
      }
    }
  }

  /** The categories are visited in order: as long as no create fails, the j-th
      mapping pushed belongs to category i + j, and a reused mapping is the
      known one. */
  lemma SyncFromInOrder(cats: seq<Category>, existing: seq<Mapping>, attempts: seq<Traced<Option<int>>>, i: nat)
    requires i <= |cats| == |attempts| && NoCreateFails(cats, existing, attempts, i)
    ensures var r := SyncFrom(cats, existing, attempts, i).pushed;
      && |r| == |cats| - i
      && (forall j :: 0 <= j < |r| ==> r[j].netseaId == cats[i + j].id)
      && (forall j :: 0 <= j < |r| && FindMapping(existing, cats[i + j].id).Some? ==> r[j] == FindMapping(existing, cats[i + j].id).value)
  {
    PushedIs(cats, existing, attempts, i);
    PushedInOrder(cats, existing, attempts, i);
  }

  /** When every category from i on already has a mapping, the loop makes no
      request. */
  lemma {:induction false} SyncFromReusesAll(cats: seq<Category>, existing: seq<Mapping>, attempts: seq<Traced<Option<int>>>, i: nat)
    requires i <= |cats| == |attempts|
    requires forall k :: i <= k < |cats| ==> FindMapping(existing, cats[k].id).Some?
    ensures Calls(SyncFrom(cats, existing, attempts, i).events) == 0
    decreases |cats| - i
  {
    if i < |cats| {
      SyncFromReusesAll(cats, existing, attempts, i + 1);
      CallsAppend(SyncStep(cats, existing, attempts, i).events, SyncFrom(cats, existing, attempts, i + 1).events);
    }
  }

  /** A rerun after a loop in which no create failed creates nothing: every
      category then has a mapping in the new list. */
  lemma RerunCreatesNothing(cats: seq<Category>, existing: seq<Mapping>, attempts: seq<Traced<Option<int>>>,
                            again: seq<Traced<Option<int>>>)
    requires |cats| == |attempts| == |again| && NoCreateFails(cats, existing, attempts, 0)
    ensures var next := SyncFrom(cats, existing, attempts, 0).pushed;
      Calls(SyncFrom(cats, next, again, 0).events) == 0
  {
    SyncFromInOrder(cats, existing, attempts, 0);
    var next := SyncFrom(cats, existing, attempts, 0).pushed;
    forall k | 0 <= k < |cats|
      ensures FindMapping(next, cats[k].id).Some?
    {
      assert next[k].netseaId == cats[0 + k].id;
    }
    SyncFromReusesAll(cats, next, again, 0);
  }

  /** Every create the loop makes is one request: the loop makes no more
      requests than there are categories. */
  lemma {:induction false} SyncFromCalls(cats: seq<Category>, existing: seq<Mapping>, attempts: seq<Traced<Option<int>>>, i: nat)
    requires i <= |cats| == |attempts| && Quiet(attempts)
    ensures Calls(SyncFrom(cats, existing, attempts, i).events) <= |cats| - i
    decreases |cats| - i
  {
    if i < |cats| {
      SyncFromCalls(cats, existing, attempts, i + 1);
      var a := SyncStep(cats, existing, attempts, i).events;
      CallsAppend(a, SyncFrom(cats, existing, attempts, i + 1).events);
      if FindMapping(existing, cats[i].id).None? {
        StepAttempt(cats, existing, attempts, i);
        assert Calls(attempts[i].trace) <= 1;
      }
    }
  }

  lemma MulMonotone(x: int, y: int, n: int)
    requires 0 < n
    ensures x <= y ==> x * n <= y * n
  {
  }

  /** The division behind the per-category progress is monotone. */
  lemma DivMonotone(a: int, b: int, n: int)
    requires 0 <= a <= b && 0 < n
    ensures a / n <= b / n
  {
    MulMonotone(b / n + 1, a / n, n);
    assert (b / n + 1) * n == (b / n) * n + n;
  }

  /** The per-category progress lies in [30, 99]. */
  lemma LoopProgressBounds(i: nat, n: nat)
    requires i < n
    ensures 30 <= LoopProgress(i, n) <= 99
  {
    MulMonotone(i + 1, n, LoopSpan);
    MulMonotone(LoopSpan, (LoopSpan * i) / n, n);
  }

  /** The per-category progress never decreases. */
  lemma LoopProgressMonotone(i: nat, j: nat, n: nat)
    requires i <= j < n
    ensures LoopProgress(i, n) <= LoopProgress(j, n)
  {
    DivMonotone(LoopSpan * i, LoopSpan * j, n);
  }

  /** The progress reports of one category's events: exactly its own. */
  lemma StepProgress(cats: seq<Category>, existing: seq<Mapping>, attempts: seq<Traced<Option<int>>>, i: nat)
    requires i < |cats| == |attempts| && Progresses(attempts[i].trace) == []
    ensures Progresses(SyncStep(cats, existing, attempts, i).events) == [LoopProgress(i, |cats|)]
  {
    var c := cats[i];
    var progress := Progress(LoopProgress(i, |cats|), Total, SyncingStage, Some(Detail(c.name, i, |cats|)));
    if FindMapping(existing, c.id).None? {
      var created := attempts[i];
      var tail: seq<Event> := if created.result.Err? then [Log(SyncFailedLog(c.name, created.result.error))]
                              else [Log(SyncedLog(c, created.result.value)), Sleep(CreatePause)];
      assert SyncStep(cats, existing, attempts, i).events == [progress] + created.trace + tail;
      assert Progresses(tail) == [] by {
        if created.result.Ok? {
          assert tail[1..][1..] == [];
        }
      }
      ProgressesAppend([progress], created.trace);
      ProgressesAppend([progress] + created.trace, tail);
    }
  }

  /** The progress values of categories i to n - 1. */
  function LoopProgresses(i: nat, n: nat): (r: seq<int>)
    ensures i <= n ==> |r| == n - i
    decreases n - i
  {
    if i >= n then [] else [LoopProgress(i, n)] + LoopProgresses(i + 1, n)
  }

  lemma {:induction false} LoopProgressesAt(i: nat, n: nat, a: nat)
    requires i + a < n
    ensures LoopProgresses(i, n)[a] == LoopProgress(i + a, n)
    decreases a
  {
    if a > 0 {
      LoopProgressesAt(i + 1, n, a - 1);
    }
  }

  /** The loop reports, for each category in turn, `30 + floor(i / n * 70)`. */
  lemma {:induction false} LoopProgressValues(cats: seq<Category>, existing: seq<Mapping>, attempts: seq<Traced<Option<int>>>, i: nat)
    requires i <= |cats| == |attempts| && Quiet(attempts)
    ensures Progresses(SyncFrom(cats, existing, attempts, i).events) == LoopProgresses(i, |cats|)
    decreases |cats| - i
  {
    if i < |cats| {
      LoopProgressValues(cats, existing, attempts, i + 1);
      StepProgress(cats, existing, attempts, i);
      ProgressesAppend(SyncStep(cats, existing, attempts, i).events, SyncFrom(cats, existing, attempts, i + 1).events);
    }
  }

  /** Those values lie in [30, 99] and never decrease. */
  lemma LoopProgressOrdered(n: nat)
    ensures var l := LoopProgresses(0, n);
      && (forall a :: 0 <= a < |l| ==> 30 <= l[a] <= 99)
      && (forall a, b :: 0 <= a < b < |l| ==> l[a] <= l[b])
  {
    var l := LoopProgresses(0, n);
    forall a | 0 <= a < |l|
      ensures 30 <= l[a] <= 99
    {
      LoopProgressesAt(0, n, a);
      LoopProgressBounds(0 + a, n);
    }
    forall a, b | 0 <= a < b < |l|
      ensures l[a] <= l[b]
    {
      LoopProgressesAt(0, n, a);
      LoopProgressesAt(0, n, b);
      LoopProgressMonotone(0 + a, 0 + b, n);
    }
  }

  /** Progress values of the events before the loop and after it. */
  lemma FramedProgress(first: seq<Event>, nt: seq<Event>, middle: seq<Event>, wt: seq<Event>, loop: seq<Event>,
                       finish: seq<Event>)
    requires Progresses(first) == [0] && Progresses(nt) == [] && Progresses(middle) == [20] && Progresses(wt) == []
    requires Progresses(finish) == [100]
    ensures Progresses(first + nt + middle + wt + loop + finish) == [0, 20] + Progresses(loop) + [100]
  {
    ProgressesAppend(first, nt);
    ProgressesAppend(first + nt, middle);
    ProgressesAppend(first + nt + middle, wt);
    ProgressesAppend(first + nt + middle + wt, loop);
    ProgressesAppend(first + nt + middle + wt + loop, finish);
  }

  /** Values in [30, 99] that never decrease stay ordered between 0, 20 and 100. */
  lemma Bracketed(l: seq<int>)
    requires forall a :: 0 <= a < |l| ==> 30 <= l[a] <= 99
    requires forall a, b :: 0 <= a < b < |l| ==> l[a] <= l[b]
    ensures var p := [0, 20] + l + [100];
      && (forall a :: 2 <= a < |p| - 1 ==> 30 <= p[a] <= 99)
      && (forall a, b :: 0 <= a < b < |p| ==> p[a] <= p[b])
  {
    var p := [0, 20] + l + [100];
    forall a, b | 0 <= a < b < |p|
      ensures p[a] <= p[b]
    {
      if 2 <= a && b < |p| - 1 {
        assert p[a] == l[a - 2] && p[b] == l[b - 2];
      } else if 2 <= a {
        assert p[a] == l[a - 2];
      } else if 2 <= b < |p| - 1 {
        assert p[b] == l[b - 2];
      }
    }
    forall a | 2 <= a < |p| - 1
      ensures 30 <= p[a] <= 99
    {
      assert p[a] == l[a - 2];
    }
  }

  /** A sync that gets through: both list fetches succeeded, and its events are
      the two list reads framed by progress reports, then the loop, then 100. */
  lemma SyncOkShape(s: AppSettings.Settings, existing: seq<Mapping>, netseaOutcome: Fetched<seq<NetseaApi.RawCategory>>,
                    wooOutcome: Fetched<seq<WooCommerceApi.WooCategory>>, creates: nat -> Fetched<int>)
    requires Sync(s, existing, netseaOutcome, wooOutcome, creates).result.Ok?
    ensures var n := NetseaApi.FetchCategories(s, netseaOutcome);
      var w := WooCommerceApi.FetchCategories(s, wooOutcome);
      var o := Sync(s, existing, netseaOutcome, wooOutcome, creates);
      && n.result.Ok? && w.result.Ok? && o.netsea == Some(n.result.value)
      && Progresses(n.trace) == [] && Calls(n.trace) <= 1 && Progresses(w.trace) == [] && Calls(w.trace) <= 1
      && o.trace == [Progress(0, Total, NetseaStage, None)] + n.trace + [Progress(20, Total, WooStage, None)] + w.trace
                    + SyncFrom(n.result.value, existing, Attempts(n.result.value, s, creates), 0).events
                    + [Progress(Total, Total, DoneStage, None)]
  {
    var w := WooCommerceApi.FetchCategories(s, wooOutcome);
    if |w.trace| > 0 {
      assert w.trace[1..] == [];
    }
  }

  /** The progress reports of a sync's events, given their shape: `loop` holds
      the events of the loop over `n` categories. */
  lemma TraceProgress(trace: seq<Event>, nt: seq<Event>, wt: seq<Event>, loop: seq<Event>, n: nat)
    requires Progresses(nt) == [] && Progresses(wt) == [] && Progresses(loop) == LoopProgresses(0, n)
    requires trace == [Progress(0, Total, NetseaStage, None)] + nt + [Progress(20, Total, WooStage, None)] + wt
                      + loop + [Progress(Total, Total, DoneStage, None)]
    ensures var p := Progresses(trace);
      && |p| == n + 3
      && p[0] == 0 && p[1] == 20 && p[|p| - 1] == 100
      && (forall a :: 2 <= a < |p| - 1 ==> 30 <= p[a] <= 99)
      && (forall a, b :: 0 <= a < b < |p| ==> p[a] <= p[b])
  {
    LoopProgressOrdered(n);
    FramedProgress([Progress(0, Total, NetseaStage, None)], nt, [Progress(20, Total, WooStage, None)], wt, loop,
                   [Progress(Total, Total, DoneStage, None)]);
    Bracketed(LoopProgresses(0, n));
  }

  /** A sync that gets through reports 0, then 20, then one value in [30, 99]
      per category, never decreasing, then 100. */
  lemma SyncProgress(s: AppSettings.Settings, existing: seq<Mapping>, netseaOutcome: Fetched<seq<NetseaApi.RawCategory>>,
                     wooOutcome: Fetched<seq<WooCommerceApi.WooCategory>>, creates: nat -> Fetched<int>)
    requires Sync(s, existing, netseaOutcome, wooOutcome, creates).result.Ok?
    ensures var o := Sync(s, existing, netseaOutcome, wooOutcome, creates);
      var p := Progresses(o.trace);
      && |p| == |o.netsea.value| + 3
      && p[0] == 0 && p[1] == 20 && p[|p| - 1] == 100
      && (forall a :: 2 <= a < |p| - 1 ==> 30 <= p[a] <= 99)
      && (forall a, b :: 0 <= a < b < |p| ==> p[a] <= p[b])
  {
    SyncOkShape(s, existing, netseaOutcome, wooOutcome, creates);
    var n := NetseaApi.FetchCategories(s, netseaOutcome);
    var w := WooCommerceApi.FetchCategories(s, wooOutcome);
    var cats := n.result.value;
    var attempts := Attempts(cats, s, creates);
    AttemptsQuiet(cats, s, creates);
    LoopProgressValues(cats, existing, attempts, 0);
    TraceProgress(Sync(s, existing, netseaOutcome, wooOutcome, creates).trace, n.trace, w.trace,
                  SyncFrom(cats, existing, attempts, 0).events, |cats|);
  }

  /** A failed list fetch stops the sync before the loop: no create is made and
      the error is rethrown. */
  lemma FetchFailureStops(s: AppSettings.Settings, existing: seq<Mapping>, netseaOutcome: Fetched<seq<NetseaApi.RawCategory>>,
                          wooOutcome: Fetched<seq<WooCommerceApi.WooCategory>>, creates: nat -> Fetched<int>)
    requires s.woocommerceApiKey != "" && s.woocommerceApiSecret != ""
    requires NetseaApi.FetchCategories(s, netseaOutcome).result.Err?
             || WooCommerceApi.FetchCategories(s, wooOutcome).result.Err?
    ensures var o := Sync(s, existing, netseaOutcome, wooOutcome, creates);
      && o.result.Err? && o.woo.None?
      && Calls(o.trace) <= 2
  {
    var n := NetseaApi.FetchCategories(s, netseaOutcome);
    var start := [Progress(0, Total, NetseaStage, None)];
    CallsAppend(start, n.trace);
    if n.result.Ok? {
      var w := WooCommerceApi.FetchCategories(s, wooOutcome);
      var middle := [Progress(20, Total, WooStage, None)];
      CallsAppend(start + n.trace, middle);
      CallsAppend(start + n.trace + middle, w.trace);
    }
  }

  /** A sync that gets through makes the two list requests and at most one
      create per category. */
  lemma SyncCalls(s: AppSettings.Settings, existing: seq<Mapping>, netseaOutcome: Fetched<seq<NetseaApi.RawCategory>>,
                  wooOutcome: Fetched<seq<WooCommerceApi.WooCategory>>, creates: nat -> Fetched<int>)
    requires Sync(s, existing, netseaOutcome, wooOutcome, creates).result.Ok?
    ensures var o := Sync(s, existing, netseaOutcome, wooOutcome, creates);
      Calls(o.trace) <= |o.netsea.value| + 2
  {
    SyncOkShape(s, existing, netseaOutcome, wooOutcome, creates);
    var n := NetseaApi.FetchCategories(s, netseaOutcome);
    var w := WooCommerceApi.FetchCategories(s, wooOutcome);
    var cats := n.result.value;
    var attempts := Attempts(cats, s, creates);
    var loop := SyncFrom(cats, existing, attempts, 0).events;
    var first := [Progress(0, Total, NetseaStage, None)];
    var middle := [Progress(20, Total, WooStage, None)];
    var finish := [Progress(Total, Total, DoneStage, None)];
    AttemptsQuiet(cats, s, creates);
    SyncFromCalls(cats, existing, attempts, 0);
    CallsAppend(first, n.trace);
    CallsAppend(first + n.trace, middle);
    CallsAppend(first + n.trace + middle, w.trace);
    CallsAppend(first + n.trace + middle + w.trace, loop);
    CallsAppend(first + n.trace + middle + w.trace + loop, finish);
  }

  /** A listed category with a non-empty name is found by its decimal id. */
  lemma {:induction false} NameById(cats: seq<Category>, k: nat, id: string)
    requires k < |cats| && IntStr(cats[k].id) == id && cats[k].name != ""
    requires forall j :: 0 <= j < k ==> IntStr(cats[j].id) != id
    ensures CategoryName(cats, id) == cats[k].name
    decreases k
  {
    if k > 0 {
      NameById(cats[1..], k - 1, id);
    }
  }

  /** An id no category has gives 'Unknown Category'. */
  lemma {:induction false} UnknownName(cats: seq<Category>, id: string)
    requires forall j :: 0 <= j < |cats| ==> IntStr(cats[j].id) != id
    ensures CategoryName(cats, id) == UnknownCategory
    decreases |cats|
  {
    if |cats| > 0 {
      UnknownName(cats[1..], id);
    }
  }
}
