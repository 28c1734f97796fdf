/** The category and publishing service of src/services/woocommerceApi.ts: the
    configuration check, category creation with a slug derived from the name,
    category paths ("A > B > C") created level by level, the category list, and
    the older publisher that posts a product and then each of its variations
    with a one-second pause. Every request is made once; its outcome is an
    oracle. */
module WooCommerceApi {
  import opened Prelude
  import opened Text
  import opened Errors
  import opened Effects
  import opened Catalog
  import AppSettings
  import LogService
  import Base64
  import WooPayload
  import ContentRules
  import WooClient

  // ---------------------------------------------------------------- configuration

  const KeysRequiredMessage: string := "WooCommerce APIキーとシークレットが必要です"
  const UnknownError: string := "不明なエラー"

  /** `{ WOO_API_URL, AUTH }`; `auth` is the base64 text, without the scheme. */
  datatype Config = Config(apiUrl: string, auth: string)

  /** `getWooCommerceConfig(settings)`: the keys are checked first; then trailing
      slashes are removed from the site URL, with no default site, and the
      credentials go through `btoa`. */
  function GetConfig(s: AppSettings.Settings): (r: Result<Config, Error>)
    ensures s.woocommerceApiKey == "" || s.woocommerceApiSecret == "" ==> r == Err(PlainError(KeysRequiredMessage))
    ensures r.Ok? <==> s.woocommerceApiKey != "" && s.woocommerceApiSecret != "" && WooClient.AuthHeader(s).Ok?
    ensures r.Err? && s.woocommerceApiKey != "" && s.woocommerceApiSecret != "" ==> r.error == WooClient.InvalidCharacter()
    ensures r.Ok? ==> r.value.apiUrl == StripTrailing(s.woocommerceSiteUrl, '/') + WooClient.ApiPath
  {
    if s.woocommerceApiKey == "" || s.woocommerceApiSecret == "" then Err(PlainError(KeysRequiredMessage))
    else
      var token := Base64.Btoa(WooClient.Credentials(s));
      if token.None? then Err(WooClient.InvalidCharacter())
      else Ok(Config(StripTrailing(s.woocommerceSiteUrl, '/') + WooClient.ApiPath, token.value))
  }

  const BasicScheme: string := "Basic "
  const CategoriesPath: string := "/products/categories"
  const CategoryListPath: string := "/products/categories?per_page=100"
  const ProductsPath: string := "/products"
  const VariationsPath: string := "/variations"

  /** The `Authorization` header: `Basic ${AUTH}`. */
  function Header(cfg: Config): string {
    BasicScheme + cfg.auth
  }

  /** Both clients send the same credentials: the header built here is the one
      the REST client builds. */
  lemma SameHeaderAsClient(s: AppSettings.Settings)
    requires GetConfig(s).Ok?
    ensures Header(GetConfig(s).value) == WooClient.AuthHeader(s).value
  {
  }

  /** The API URL keeps the site URL up to its trailing slashes; unlike the REST
      client there is no default site, so an empty URL, or one made of slashes,
      leaves only the path. */
  lemma ApiUrlWithoutDefault(s: AppSettings.Settings)
    requires GetConfig(s).Ok?
    ensures var base := GetConfig(s).value.apiUrl[..|GetConfig(s).value.apiUrl| - |WooClient.ApiPath|];
      && |base| <= |s.woocommerceSiteUrl| && s.woocommerceSiteUrl[..|base|] == base
      && (|base| > 0 ==> base[|base| - 1] != '/')
      && (forall k :: |base| <= k < |s.woocommerceSiteUrl| ==> s.woocommerceSiteUrl[k] == '/')
    ensures (forall k :: 0 <= k < |s.woocommerceSiteUrl| ==> s.woocommerceSiteUrl[k] == '/') ==>
      GetConfig(s).value.apiUrl == WooClient.ApiPath
      && WooClient.ApiUrl(s) == AppSettings.DefaultSiteUrl + WooClient.ApiPath
  {
    var url := s.woocommerceSiteUrl;
    StripTrailingSpec(url, '/');
    var base := StripTrailing(url, '/');
    assert GetConfig(s).value.apiUrl[..|GetConfig(s).value.apiUrl| - |WooClient.ApiPath|] == base;
    if forall k :: 0 <= k < |url| ==> url[k] == '/' {
      assert url == seq(|url|, _ => '/');
      WooClient.SlashesFallBack(|url|);
      SlashesStripped(|url|);
    }
  }

  lemma {:induction false} SlashesStripped(n: nat)
    ensures StripTrailing(seq(n, _ => '/'), '/') == ""
  {
    if n > 0 {
      var s := seq(n, _ => '/');
      assert s[..n - 1] == seq(n - 1, _ => '/');
      SlashesStripped(n - 1);
    }
  }

  // ---------------------------------------------------------------- slug

  /** A character the slug keeps: `[a-z0-9]`. */
  predicate SlugChar(c: char) {
    'a' <= c <= 'z' || '0' <= c <= '9'
  }

  /** An ASCII letter or digit, in either case. */
  predicate AsciiAlnum(c: char) {
    'a' <= c <= 'z' || 'A' <= c <= 'Z' || '0' <= c <= '9'
  }

  predicate HasSlugChar(s: string) {
    exists k :: 0 <= k < |s| && SlugChar(s[k])
  }

  /** Only slug characters and '-'. */
  predicate SlugAlphabet(s: string) {
    forall k :: 0 <= k < |s| ==> SlugChar(s[k]) || s[k] == '-'
  }

  predicate NoDoubleDash(s: string) {
    forall k :: 0 < k < |s| ==> !(s[k - 1] == '-' && s[k] == '-')
  }

  /** The shape every slug has. */
  predicate SlugShaped(s: string) {
    SlugAlphabet(s) && NoDoubleDash(s) && (|s| > 0 ==> s[0] != '-' && s[|s| - 1] != '-')
  }

  /** What one match of `/[^a-z0-9]+/` consumes at the start of `s`: the longest
      prefix of other characters is dropped. */
  function DropRun(s: string): (r: string)
    ensures |r| <= |s|
    ensures |s| > 0 && !SlugChar(s[0]) ==> |r| < |s|
    ensures |r| > 0 ==> SlugChar(r[0])
    decreases |s|
  {
    if |s| > 0 && !SlugChar(s[0]) then DropRun(s[1..]) else s
  }

  /** What is dropped is a prefix, and none of it is a slug character. */
  lemma {:induction false} DropRunSuffix(s: string)
    ensures var r := DropRun(s);
      r == s[|s| - |r|..] && forall k :: 0 <= k < |s| - |r| ==> !SlugChar(s[k])
    decreases |s|
  {
    if |s| > 0 && !SlugChar(s[0]) {
      DropRunSuffix(s[1..]);
      var r := DropRun(s);
      assert s[1..][|s| - 1 - |r|..] == s[|s| - |r|..];
      forall k | 1 <= k < |s| - |r|
        ensures !SlugChar(s[k])
      {
        assert s[k] == s[1..][k - 1];
      }
    }
  }

  lemma HasSlugCharCons(c: char, s: string)
    ensures HasSlugChar([c] + s) <==> SlugChar(c) || HasSlugChar(s)
  {
    var r := [c] + s;
    if HasSlugChar(r) && !SlugChar(c) {
      var k :| 0 <= k < |r| && SlugChar(r[k]);
      assert SlugChar(s[k - 1]);
    }
    if HasSlugChar(s) {
      var k :| 0 <= k < |s| && SlugChar(s[k]);
      assert SlugChar(r[k + 1]);
    }
    if SlugChar(c) {
      assert SlugChar(r[0]);
    }
  }

  /** Cutting a prefix without slug characters keeps every slug character. */
  lemma TailKeeps(s: string, n: nat)
    requires n <= |s| && forall k :: 0 <= k < n ==> !SlugChar(s[k])
    ensures HasSlugChar(s[n..]) <==> HasSlugChar(s)
  {
    var t := s[n..];
    if HasSlugChar(t) {
      var k :| 0 <= k < |t| && SlugChar(t[k]);
      assert SlugChar(s[n + k]);
    }
    if HasSlugChar(s) {
      var k :| 0 <= k < |s| && SlugChar(s[k]);
      assert SlugChar(t[k - n]);
    }
  }

  /** Dropping a run of other characters keeps every slug character. */
  lemma DropRunKeeps(s: string)
    ensures HasSlugChar(DropRun(s)) <==> HasSlugChar(s)
  {
    var t := DropRun(s);
    DropRunSuffix(s);
    TailKeeps(s, |s| - |t|);
    assert t == s[|s| - |t|..];
  }

  /** `.replace(/[^a-z0-9]+/g, '-')`: each maximal run of other characters becomes
      a single '-'; slug characters survive exactly. */
  function Dashed(s: string): (r: string)
    ensures |r| <= |s|
    ensures |s| > 0 ==> |r| > 0 && (r[0] == '-' <==> !SlugChar(s[0]))
    ensures SlugAlphabet(r) && NoDoubleDash(r)
    ensures HasSlugChar(r) <==> HasSlugChar(s)
    decreases |s|
  {
    if |s| == 0 then ""
    else if SlugChar(s[0]) then
      var rest := Dashed(s[1..]);
      var r := [s[0]] + rest;
      HasSlugCharCons(s[0], rest);
      assert s == [s[0]] + s[1..];
      HasSlugCharCons(s[0], s[1..]);
      r
    else
      var t := DropRun(s);
      var rest := Dashed(t);
      var r := "-" + rest;
      HasSlugCharCons('-', rest);
      DropRunKeeps(s);
      r
  }

  /** `.replace(/(^-|-$)/g, '')`: a '-' at the start and one at the end go. */
  function TrimDashes(s: string): string {
    var a := if |s| > 0 && s[0] == '-' then s[1..] else s;
    if |a| > 0 && a[|a| - 1] == '-' then a[..|a| - 1] else a
  }

  /** The slug `createWooCommerceCategory` sends for a category name. */
  function Slug(name: string): string {
    TrimDashes(Dashed(Lower(name)))
  }

  lemma TrimDashesShape(s: string)
    requires SlugAlphabet(s) && NoDoubleDash(s)
    ensures SlugShaped(TrimDashes(s))
    ensures HasSlugChar(TrimDashes(s)) <==> HasSlugChar(s)
  {
    var a := if |s| > 0 && s[0] == '-' then s[1..] else s;
    if |s| > 0 && s[0] == '-' {
      DropFirstDash(s);
    }
    if |a| > 0 && a[|a| - 1] == '-' {
      DropLastDash(a);
    }
  }

  /** Dropping a leading '-' keeps the alphabet, the single dashes and every
      slug character, and leaves no '-' in front. */
  lemma DropFirstDash(s: string)
    requires SlugAlphabet(s) && NoDoubleDash(s) && |s| > 0 && s[0] == '-'
    ensures var a := s[1..];
      SlugAlphabet(a) && NoDoubleDash(a) && (|a| > 0 ==> a[0] != '-') && (HasSlugChar(a) <==> HasSlugChar(s))
  {
    var a := s[1..];
    if |a| > 0 {
      assert s[1] == a[0];
    }
    if HasSlugChar(s) {
      var k :| 0 <= k < |s| && SlugChar(s[k]);
      assert SlugChar(a[k - 1]);
    }
    if HasSlugChar(a) {
      var k :| 0 <= k < |a| && SlugChar(a[k]);
      assert SlugChar(s[k + 1]);
    }
  }

  /** Dropping a trailing '-' keeps the alphabet, the single dashes, the first
      character and every slug character, and leaves no '-' at the end. */
  lemma DropLastDash(a: string)
    requires SlugAlphabet(a) && NoDoubleDash(a) && |a| > 0 && a[|a| - 1] == '-'
    ensures var r := a[..|a| - 1];
      SlugAlphabet(r) && NoDoubleDash(r) && (|r| > 0 ==> r[|r| - 1] != '-' && r[0] == a[0])
      && (HasSlugChar(r) <==> HasSlugChar(a))
  {
    var r := a[..|a| - 1];
    if |r| > 0 {
      assert r[|r| - 1] == a[|a| - 2];
    }
    if HasSlugChar(a) {
      var k :| 0 <= k < |a| && SlugChar(a[k]);
      assert SlugChar(r[k]);
    }
    if HasSlugChar(r) {
      var k :| 0 <= k < |r| && SlugChar(r[k]);
      assert SlugChar(a[k]);
    }
  }

  /** Every slug is made of `[a-z0-9]` and single dashes, with no dash at either end. */
  lemma SlugShape(name: string)
    ensures SlugShaped(Slug(name))
  {
    TrimDashesShape(Dashed(Lower(name)));
  }

  lemma {:induction false} DashedFixed(t: string)
    requires SlugAlphabet(t) && NoDoubleDash(t)
    ensures Dashed(t) == t
    decreases |t|
  {
    if |t| > 0 {
      DashedFixed(t[1..]);
      if !SlugChar(t[0]) {
        if |t| > 1 {
          assert SlugChar(t[1]);
        }
        assert DropRun(t) == t[1..];
      }
      assert t == [t[0]] + t[1..];
    }
  }

  /** A slug is its own slug, so slugging twice changes nothing. */
  lemma SlugIdempotent(name: string)
    ensures Slug(Slug(name)) == Slug(name)
  {
    var t := Slug(name);
    SlugShape(name);
    assert Lower(t) == t;
    DashedFixed(t);
  }

  /** The slug is empty exactly when the name has no ASCII letter or digit, as
      with a name written only in Japanese. */
  lemma SlugEmptyIff(name: string)
    ensures Slug(name) == "" <==> forall k :: 0 <= k < |name| ==> !AsciiAlnum(name[k])
  {
    var l := Lower(name);
    assert HasSlugChar(l) <==> exists k :: 0 <= k < |name| && AsciiAlnum(name[k]) by {
      if HasSlugChar(l) {
        var k :| 0 <= k < |l| && SlugChar(l[k]);
        assert AsciiAlnum(name[k]);
      }
      if exists k :: 0 <= k < |name| && AsciiAlnum(name[k]) {
        var k :| 0 <= k < |name| && AsciiAlnum(name[k]);
        assert SlugChar(l[k]);
      }
    }
    TrimDashesShape(Dashed(l));
    var r := Slug(name);
    if r != "" {
      assert SlugChar(r[0]);
    }
  }

  // ---------------------------------------------------------------- one category

  const SettingsRequiredMessage: string := "設定が必要です"
  const CreateFailedPrefix: string := "カテゴリの作成に失敗しました: "
  const CreatedPrefix: string := "カテゴリを作成しました: "
  const CreateFailedLogPrefix: string := "カテゴリの作成に失敗: "
  const IdPrefix: string := "ID: "
  const ParentIdPrefix: string := ", 親カテゴリID: "
  const Undefined: string := "undefined"

  /** `{ name, slug, ...(parentId ? { parent: parentId } : {}) }`. */
  function CategoryBody(name: string, parentId: Option<int>): (d: WooPayload.CategoryData)
    ensures d.name == name && d.slug == Slug(name)
    ensures d.parent.Some? <==> TruthyInt(parentId)
    ensures d.parent.Some? ==> d.parent == parentId
  {
    WooPayload.CategoryData(name, Slug(name), if TruthyInt(parentId) then parentId else None)
  }

  function CategoryRequest(cfg: Config, name: string, parentId: Option<int>): Request {
    Request(Post, cfg.apiUrl + CategoriesPath, Header(cfg), CategoryJson(CategoryBody(name, parentId)))
  }

  /** `${id}` of a number that may be undefined. */
  function IdText(id: Option<int>): string {
    if id.Some? then IntStr(id.value) else Undefined
  }

  function CreatedLog(name: string, id: Option<int>, parentId: Option<int>): LogService.LogEntry {
    LogService.LogEntry(LogService.Success, LogService.Sync, CreatedPrefix + name,
      Some(IdPrefix + IdText(id) + (if TruthyInt(parentId) then ParentIdPrefix + IntStr(parentId.value) else "")))
  }

  function CreateFailedLog(name: string, e: Error): LogService.LogEntry {
    LogService.LogEntry(LogService.Error, LogService.Sync, CreateFailedLogPrefix + name, Some(MessageOr(e, UnknownError)))
  }

  /** The `id` a create reply carries: a rejected fetch keeps its error, a body
      that is not JSON is the SyntaxError of `response.json()`, a status outside
      2xx becomes `Error(prefix + (errorData.message || statusText))`, and a 2xx
      object without a numeric `id` gives undefined. */
  function CreatedId(f: Fetched<int>, prefix: string): (r: Result<Option<int>, Error>)
    ensures r.Ok? <==> f.Replied? && f.reply.Ok() && !f.reply.content.NotJson?
    ensures r.Ok? ==> r.value == (if f.reply.content.Payload? then Some(f.reply.content.value) else None)
  {
    match f
    case Failed(e) => Err(e)
    case Replied(reply) =>
      if reply.content.NotJson? then Err(JsError("SyntaxError", reply.content.parseError))
      else if !reply.Ok() then Err(PlainError(prefix + BodyMessage(reply.content).GetOr(reply.statusText)))
      else if reply.content.Payload? then Ok(Some(reply.content.value))
      else Ok(None)
  }

  /** A refused create reports the API's message, or the status text when the
      body has none. */
  lemma CreatedIdRefused(f: Fetched<int>, prefix: string)
    requires f.Replied? && !f.reply.Ok() && !f.reply.content.NotJson?
    ensures CreatedId(f, prefix) == Err(PlainError(prefix +
      (if f.reply.content.OtherJson? && TruthyStr(f.reply.content.message) then f.reply.content.message.value
       else f.reply.statusText)))
  {
  }

  /** `createWooCommerceCategory(name, parentId, settings)`: the settings and the
      configuration are checked outside the `try`, so their errors are neither
      logged nor wrapped; inside it one post is made and one line logged, and an
      error is rethrown unchanged. The result is the new category's `id`. */
  function CreateCategory(name: string, parentId: Option<int>, settings: Option<AppSettings.Settings>,
                          outcome: Fetched<int>): (o: Traced<Option<int>>)
    ensures settings.None? ==> o == Traced(Err(PlainError(SettingsRequiredMessage)), [])
    ensures settings.Some? && GetConfig(settings.value).Err? ==> o == Traced(Err(GetConfig(settings.value).error), [])
    ensures settings.Some? && GetConfig(settings.value).Ok? ==>
      && |o.trace| == 2 && o.trace[0] == Call(CategoryRequest(GetConfig(settings.value).value, name, parentId))
      && o.trace[1].Log? && (o.trace[1].entry.kind == LogService.Success <==> o.result.Ok?)
      && o.result == CreatedId(outcome, CreateFailedPrefix)
      && Requests(o.trace) == [CategoryRequest(GetConfig(settings.value).value, name, parentId)]
  {
    if settings.None? then Traced(Err(PlainError(SettingsRequiredMessage)), [])
    else
      var cfg := GetConfig(settings.value);
      if cfg.Err? then Traced(Err(cfg.error), [])
      else
        var call := Call(CategoryRequest(cfg.value, name, parentId));
        var id := CreatedId(outcome, CreateFailedPrefix);
        var entry := if id.Err? then CreateFailedLog(name, id.error) else CreatedLog(name, id.value, parentId);
        var t := [call, Log(entry)];
        assert t[1..][1..] == [];
        Traced(if id.Err? then Err(id.error) else Ok(id.value), t)
  }

  /** A reply that is created, with its id. */
  predicate Created(f: Fetched<int>, id: int) {
    f.Replied? && f.reply.Ok() && f.reply.content == Payload(id)
  }

  // ---------------------------------------------------------------- category paths

  /** `categoryPath.split('>').map(c => c.trim())`. */
  function PathNames(path: string): (r: seq<string>)
    ensures |r| == |Split(path, '>')| && |r| >= 1
    ensures forall k :: 0 <= k < |r| ==> r[k] == Trim(Split(path, '>')[k])
  {
    var parts := Split(path, '>');
    seq(|parts|, k requires 0 <= k < |parts| => Trim(parts[k]))
  }

  /** The loop of `createCategoryHierarchy` from level `i` on, `parent` being the
      id the previous level returned; the create of level `k` meets `outcomes(k)`.
      The first error ends the walk and is rethrown. */
  function Levels(names: seq<string>, s: AppSettings.Settings, outcomes: nat -> Fetched<int>,
                  i: nat, parent: Option<int>): Traced<Option<int>>
    decreases |names| - i
  {
    if i >= |names| then Traced(Ok(parent), [])
    else
      var c := CreateCategory(names[i], parent, Some(s), outcomes(i));
      if c.result.Err? then c
      else After(c.trace, Levels(names, s, outcomes, i + 1, c.result.value))
  }

  /** `createCategoryHierarchy(categoryPath, settings)`. */
  function Hierarchy(path: string, s: AppSettings.Settings, outcomes: nat -> Fetched<int>): Traced<Option<int>> {
    Levels(PathNames(path), s, outcomes, 0, None)
  }

  /** The loop state at level `i`, followed by the walk from there, is the
      whole walk. */
  predicate LevelsAccounted(names: seq<string>, s: AppSettings.Settings, outcomes: nat -> Fetched<int>,
                            i: nat, parent: Option<int>, trace: seq<Event>)
  {
    i <= |names| && After(trace, Levels(names, s, outcomes, i, parent)) == Levels(names, s, outcomes, 0, None)
  }

  lemma LevelsAccountedStart(names: seq<string>, s: AppSettings.Settings, outcomes: nat -> Fetched<int>)
    ensures LevelsAccounted(names, s, outcomes, 0, None, [])
  {
    assert [] + Levels(names, s, outcomes, 0, None).trace == Levels(names, s, outcomes, 0, None).trace;
  }

  /** A level's create: a failure ends the walk with it, a success moves on. */
  lemma LevelsAccountedStep(names: seq<string>, s: AppSettings.Settings, outcomes: nat -> Fetched<int>,
                            i: nat, parent: Option<int>, trace: seq<Event>, c: Traced<Option<int>>)
    requires LevelsAccounted(names, s, outcomes, i, parent, trace) && i < |names|
    requires c == CreateCategory(names[i], parent, Some(s), outcomes(i))
    ensures c.result.Err? ==> Traced(c.result, trace + c.trace) == Levels(names, s, outcomes, 0, None)
    ensures c.result.Ok? ==> LevelsAccounted(names, s, outcomes, i + 1, c.result.value, trace + c.trace)
  {
    LevelsOk(names, s, outcomes, i, parent);
    if c.result.Ok? {
      AfterTwice(trace, c.trace, Levels(names, s, outcomes, i + 1, c.result.value));
    }
  }

  method CreateCategoryHierarchy(path: string, s: AppSettings.Settings, outcomes: nat -> Fetched<int>)
    returns (result: Result<Option<int>, Error>, trace: seq<Event>)
    ensures Traced(result, trace) == Hierarchy(path, s, outcomes)
  {
    result, trace := CreateLevels(PathNames(path), s, outcomes);
  }

  /** The `for` loop of `createCategoryHierarchy` over the level names. */
  method CreateLevels(names: seq<string>, s: AppSettings.Settings, outcomes: nat -> Fetched<int>)
    returns (result: Result<Option<int>, Error>, trace: seq<Event>)
    ensures Traced(result, trace) == Levels(names, s, outcomes, 0, None)
  {
    var parentId: Option<int> := None;
    trace := [];
    var i := 0;
    LevelsAccountedStart(names, s, outcomes);
    while i < |names|
      invariant LevelsAccounted(names, s, outcomes, i, parentId, trace)
      decreases |names| - i
    {
      var c := CreateCategory(names[i], parentId, Some(s), outcomes(i));
      LevelsAccountedStep(names, s, outcomes, i, parentId, trace, c);
      if c.result.Err? {
        return c.result, trace + c.trace;
      }
      trace := trace + c.trace;
      parentId := c.result.value;
      i := i + 1;
    }
    result := Ok(parentId);
  }

  /** The parent the create of level `k` is given when every level before it was
      created with the ids `ids`. */
  function ParentOf(ids: nat -> int, k: nat): Option<int> {
    if k == 0 then None else Some(ids(k - 1))
  }

  /** The requests of levels `i` on, level `k` made by `make` under the id of
      level `k - 1`. */
  function ChainRequests(make: (string, Option<int>) -> Request, names: seq<string>, ids: nat -> int, i: nat): (r: seq<Request>)
    ensures |r| == if i <= |names| then |names| - i else 0
    decreases |names| - i
  {
    if i >= |names| then [] else [make(names[i], ParentOf(ids, i))] + ChainRequests(make, names, ids, i + 1)
  }

  lemma {:induction false} ChainRequestsAt(make: (string, Option<int>) -> Request, names: seq<string>, ids: nat -> int, i: nat)
    requires i <= |names|
    ensures forall j :: 0 <= j < |names| - i ==>
      ChainRequests(make, names, ids, i)[j] == make(names[i + j], ParentOf(ids, i + j))
    decreases |names| - i
  {
    if i < |names| {
      ChainRequestsAt(make, names, ids, i + 1);
      var r := ChainRequests(make, names, ids, i);
      var rest := ChainRequests(make, names, ids, i + 1);
      assert r == [make(names[i], ParentOf(ids, i))] + rest;
      forall j | 0 < j < |names| - i
        ensures r[j] == make(names[i + j], ParentOf(ids, i + j))
      {
        assert r[j] == rest[j - 1];
        assert i + 1 + (j - 1) == i + j;
      }
    }
  }

  /** `CategoryRequest` under a fixed configuration. */
  function Maker(cfg: Config): (string, Option<int>) -> Request {
    (name, parent) => CategoryRequest(cfg, name, parent)
  }

  /** When every level is created with a non-zero id, each level is created under
      the one before it and the id of the last level is returned. */
  lemma {:induction false} LevelsChain(names: seq<string>, s: AppSettings.Settings, outcomes: nat -> Fetched<int>,
                                       ids: nat -> int, i: nat)
    requires GetConfig(s).Ok? && i <= |names|
    requires forall k :: i <= k < |names| ==> Created(outcomes(k), ids(k)) && ids(k) != 0
    ensures var o := Levels(names, s, outcomes, i, ParentOf(ids, i));
      && o.result == Ok(if i < |names| then Some(ids(|names| - 1)) else ParentOf(ids, i))
      && Requests(o.trace) == ChainRequests(Maker(GetConfig(s).value), names, ids, i)
    decreases |names| - i
  {
    if i < |names| {
      var c := CreateCategory(names[i], ParentOf(ids, i), Some(s), outcomes(i));
      CreateCreated(names[i], ParentOf(ids, i), s, outcomes(i), ids(i));
      LevelsOk(names, s, outcomes, i, ParentOf(ids, i));
      assert ParentOf(ids, i + 1) == Some(ids(i));
      LevelsChain(names, s, outcomes, ids, i + 1);
      var rest := Levels(names, s, outcomes, i + 1, Some(ids(i)));
      RequestsAppend(c.trace, rest.trace);
    }
  }

  /** A create that meets a created reply returns its id after one request. */
  lemma CreateCreated(name: string, parent: Option<int>, s: AppSettings.Settings, f: Fetched<int>, id: int)
    requires GetConfig(s).Ok? && Created(f, id)
    ensures var c := CreateCategory(name, parent, Some(s), f);
      c.result == Ok(Some(id)) && Requests(c.trace) == [CategoryRequest(GetConfig(s).value, name, parent)]
  {
  }

  /** A level whose create succeeds is followed by the walk from the next
      level under the id it returned. */
  lemma LevelsOk(names: seq<string>, s: AppSettings.Settings, outcomes: nat -> Fetched<int>, i: nat, parent: Option<int>)
    requires i < |names|
    ensures var c := CreateCategory(names[i], parent, Some(s), outcomes(i));
      c.result.Ok? ==> Levels(names, s, outcomes, i, parent) == After(c.trace, Levels(names, s, outcomes, i + 1, c.result.value))
  {
  }

  /** The walk from the first level, stated per level. */
  lemma LevelsChainAt(names: seq<string>, s: AppSettings.Settings, outcomes: nat -> Fetched<int>, ids: nat -> int)
    requires GetConfig(s).Ok? && |names| > 0
    requires forall k :: 0 <= k < |names| ==> Created(outcomes(k), ids(k)) && ids(k) != 0
    ensures var o := Levels(names, s, outcomes, 0, None);
      && o.result == Ok(Some(ids(|names| - 1)))
      && |Requests(o.trace)| == |names|
      && forall k :: 0 <= k < |names| ==>
           Requests(o.trace)[k] == Maker(GetConfig(s).value)(names[k], ParentOf(ids, k))
  {
    LevelsChain(names, s, outcomes, ids, 0);
    ChainRequestsAt(Maker(GetConfig(s).value), names, ids, 0);
  }

  /** A path whose levels are all created returns the last level's id, after one
      request per level, level `k` being created under level `k - 1`. */
  lemma HierarchyCreatesChain(path: string, s: AppSettings.Settings, outcomes: nat -> Fetched<int>, ids: nat -> int)
    requires GetConfig(s).Ok?
    requires forall k :: 0 <= k < |PathNames(path)| ==> Created(outcomes(k), ids(k)) && ids(k) != 0
    ensures var names := PathNames(path);
      var o := Hierarchy(path, s, outcomes);
      && o.result == Ok(Some(ids(|names| - 1)))
      && |Requests(o.trace)| == |names|
      && forall k :: 0 <= k < |names| ==>
           Requests(o.trace)[k] == Maker(GetConfig(s).value)(names[k], ParentOf(ids, k))
  {
    LevelsChainAt(PathNames(path), s, outcomes, ids);
  }

  /** A level that fails ends the walk: its error is rethrown and no later level
      is requested. */
  lemma {:induction false} LevelsStop(names: seq<string>, s: AppSettings.Settings, outcomes: nat -> Fetched<int>,
                                      i: nat, parent: Option<int>, j: nat)
    requires GetConfig(s).Ok? && i <= j < |names|
    requires forall k :: i <= k < j ==> CreatedId(outcomes(k), CreateFailedPrefix).Ok?
    requires CreatedId(outcomes(j), CreateFailedPrefix).Err?
    ensures var o := Levels(names, s, outcomes, i, parent);
      o.result == Err(CreatedId(outcomes(j), CreateFailedPrefix).error) && Calls(o.trace) == j - i + 1
    decreases j - i
  {
    var c := CreateCategory(names[i], parent, Some(s), outcomes(i));
    if i < j {
      LevelsStop(names, s, outcomes, i + 1, c.result.value, j);
      CallsAppend(c.trace, Levels(names, s, outcomes, i + 1, c.result.value).trace);
    }
  }

  // ---------------------------------------------------------------- category list

  /** A category as the API returns it (the fields the application reads). */
  datatype WooCategory = WooCategory(id: int, name: string, slug: string, parent: int)

  const ListFailedPrefix: string := "WooCommerceカテゴリの取得に失敗: "
  const ListStatusPrefix: string := "カテゴリの取得に失敗しました: "

  function ListRequest(cfg: Config): Request {
    Request(Get, cfg.apiUrl + CategoryListPath, Header(cfg), NoBody)
  }

  /** `fetchWooCommerceCategories(settings)`: one page of up to 100 categories.
      A rejected fetch and a refused status are rethrown with the
      "WooCommerceカテゴリの取得に失敗: " prefix; the JSON is returned without being
      awaited, so a parse failure escapes that wrapping. */
  function FetchCategories(s: AppSettings.Settings, outcome: Fetched<seq<WooCategory>>): (o: Traced<seq<WooCategory>>)
    ensures GetConfig(s).Err? ==> o == Traced(Err(GetConfig(s).error), [])
    ensures GetConfig(s).Ok? ==> o.trace == [Call(ListRequest(GetConfig(s).value))]
    ensures GetConfig(s).Ok? && outcome.Failed? ==>
      o.result == Err(PlainError(ListFailedPrefix + MessageOr(outcome.error, UnknownError)))
    ensures GetConfig(s).Ok? && outcome.Replied? && !outcome.reply.Ok() ==>
      o.result == Err(PlainError(ListFailedPrefix + ListStatusPrefix + outcome.reply.statusText))
    ensures o.result.Ok? <==> GetConfig(s).Ok? && outcome.Replied? && outcome.reply.Ok() && !outcome.reply.content.NotJson?
    ensures o.result.Ok? && outcome.reply.content.Payload? ==> o.result.value == outcome.reply.content.value
  {
    var cfg := GetConfig(s);
    if cfg.Err? then Traced(Err(cfg.error), [])
    else
      var t := [Call(ListRequest(cfg.value))];
      match outcome
      case Failed(e) => Traced(Err(PlainError(ListFailedPrefix + MessageOr(e, UnknownError))), t)
      case Replied(reply) =>
        if !reply.Ok() then Traced(Err(PlainError(ListFailedPrefix + ListStatusPrefix + reply.statusText)), t)
        else match reply.content
          case Payload(list) => Traced(Ok(list), t)
          case OtherJson(_) => Traced(Ok([]), t)
          case NotJson(m) => Traced(Err(JsError("SyntaxError", m)), t)
  }

  // ---------------------------------------------------------------- publishing

  const ExclusionPrefix: string := "除外ワード「"
  const ExclusionSuffix: string := "」が商品名に含まれているため、この商品は出品できません"
  const WordSeparator: string := "、"
  const ProductFailedPrefix: string := "商品の作成に失敗しました: "
  const ApiErrorPrefix: string := "WooCommerce APIエラー: "
  const VariationPause: int := 1000
  const DefaultCategory: int := 1

  /** The error naming every exclude word the product name holds, in list order. */
  function ExclusionError(name: string, words: seq<string>): Error {
    PlainError(ExclusionPrefix + Join(ContentRules.MatchedWords(name, words), WordSeparator) + ExclusionSuffix)
  }

  /** `new Error('WooCommerce APIエラー: ' + message)` of the `catch`. */
  function Wrap(e: Error): (r: Error)
    ensures r.IsError() && r.Name() == "Error" && StartsWith(r.Message(), ApiErrorPrefix)
  {
    var m := ApiErrorPrefix + MessageOr(e, UnknownError);
    assert m[..|ApiErrorPrefix|] == ApiErrorPrefix;
    PlainError(m)
  }

  /** `categoryId ? [{ id: categoryId }] : [{ id: 1 }]`. */
  function CategoryIds(categoryId: Option<int>): (r: seq<int>)
    ensures |r| == 1
    ensures TruthyInt(categoryId) ==> r == [categoryId.value]
    ensures !TruthyInt(categoryId) ==> r == [DefaultCategory]
  {
    if TruthyInt(categoryId) then [categoryId.value] else [DefaultCategory]
  }

  /** The product this publisher sends: the name rewritten, the description as
      it is. */
  function PublishData(p: Product, price: int, s: AppSettings.Settings, categoryId: Option<int>): WooPayload.ProductData {
    WooPayload.BuildProductData(p, ContentRules.Rewrite(p.productName, s.replaceWords), p.description.GetOr(""),
      CategoryIds(categoryId), price)
  }

  function ProductRequest(cfg: Config, data: WooPayload.ProductData): Request {
    Request(Post, cfg.apiUrl + ProductsPath, Header(cfg), ProductJson(data))
  }

  function VariationRequest(cfg: Config, productId: string, v: WooPayload.VariationData): Request {
    Request(Post, cfg.apiUrl + ProductsPath + "/" + productId + VariationsPath, Header(cfg), VariationJson(v))
  }

  /** The variation loop from index `i`: each post is followed by a one-second
      pause whatever the status of its reply; only a rejected fetch ends it. */
  function PostVariations<V>(cfg: Config, productId: string, vs: seq<WooPayload.VariationData>,
                             posts: nat -> Fetched<V>, i: nat): Traced<()>
    decreases |vs| - i
  {
    if i >= |vs| then Traced(Ok(()), [])
    else if posts(i).Failed? then Traced(Err(posts(i).error), [Call(VariationRequest(cfg, productId, vs[i]))])
    else After([Call(VariationRequest(cfg, productId, vs[i])), Sleep(VariationPause)],
               PostVariations(cfg, productId, vs, posts, i + 1))
  }

  /** The `try` block: the product post, then its variations under the returned
      id; every error leaves it wrapped. */
  function PostAll<V>(cfg: Config, data: WooPayload.ProductData, post: Fetched<int>, posts: nat -> Fetched<V>): Traced<()> {
    var created := CreatedId(post, ProductFailedPrefix);
    var head := [Call(ProductRequest(cfg, data))];
    if created.Err? then Traced(Err(Wrap(created.error)), head)
    else
      var v := PostVariations(cfg, IdText(created.value), data.variations, posts, 0);
      if v.result.Err? then Traced(Err(Wrap(v.result.error)), head + v.trace)
      else Traced(Ok(()), head + v.trace)
  }

  /** `publishToWooCommerce(product, price, settings, categoryId)` of this
      service; `post` is the outcome of the product post and `posts(k)` that of
      variation k. The configuration and the exclusion test come before the
      `try`, so their errors are not wrapped. */
  function Publish<V>(p: Product, price: int, s: AppSettings.Settings, categoryId: Option<int>,
                      post: Fetched<int>, posts: nat -> Fetched<V>): Traced<()>
  {
    var cfg := GetConfig(s);
    if cfg.Err? then Traced(Err(cfg.error), [])
    else if ContentRules.Excluded(p.productName, s.excludeWords) then
      Traced(Err(ExclusionError(p.productName, s.excludeWords)), [])
    else PostAll(cfg.value, PublishData(p, price, s, categoryId), post, posts)
  }

  /** The `forEach` over the replace rules, rewriting the product name. */
  method RewriteName(name: string, rules: seq<AppSettings.ReplaceRule>) returns (r: string)
    ensures r == ContentRules.Rewrite(name, rules)
  {
    r := name;
    var i := 0;
    while i < |rules|
      invariant i <= |rules|
      invariant ContentRules.Rewrite(r, rules[i..]) == ContentRules.Rewrite(name, rules)
      decreases |rules| - i
    {
      assert rules[i..][1..] == rules[i + 1..];
      r := ReplaceAllCI(r, rules[i].from, rules[i].to);
      i := i + 1;
    }
    assert rules[i..] == [];
  }

  method PublishToWooCommerce<V>(p: Product, price: int, s: AppSettings.Settings, categoryId: Option<int>,
                                 post: Fetched<int>, posts: nat -> Fetched<V>)
    returns (result: Result<(), Error>, trace: seq<Event>)
    ensures Traced(result, trace) == Publish(p, price, s, categoryId, post, posts)
  {
    var cfg := GetConfig(s);
    if cfg.Err? {
      return Err(cfg.error), [];
    }
    if ContentRules.Excluded(p.productName, s.excludeWords) {
      return Err(ExclusionError(p.productName, s.excludeWords)), [];
    }
    var name := RewriteName(p.productName, s.replaceWords);
    var data := WooPayload.BuildProductData(p, name, p.description.GetOr(""), CategoryIds(categoryId), price);
    assert data == PublishData(p, price, s, categoryId);
    var head := [Call(ProductRequest(cfg.value, data))];
    var created := CreatedId(post, ProductFailedPrefix);
    if created.Err? {
      return Err(Wrap(created.error)), head;
    }
    var id := IdText(created.value);
    var vs := data.variations;
    var posted: seq<Event> := [];
    var i := 0;
    while i < |vs|
      invariant i <= |vs|
      invariant After(posted, PostVariations(cfg.value, id, vs, posts, i)) == PostVariations(cfg.value, id, vs, posts, 0)
      decreases |vs| - i
    {
      var call := Call(VariationRequest(cfg.value, id, vs[i]));
      if posts(i).Failed? {
        return Err(Wrap(posts(i).error)), head + (posted + [call]);
      }
      AfterTwice(posted, [call, Sleep(VariationPause)], PostVariations(cfg.value, id, vs, posts, i + 1));
      posted := posted + [call, Sleep(VariationPause)];
      i := i + 1;
    }
    return Ok(()), head + posted;
  }

  /** The keys are checked first: without them nothing else happens, not even
      the exclusion test. */
  lemma PublishNeedsKeys<V>(p: Product, price: int, s: AppSettings.Settings, categoryId: Option<int>,
                            post: Fetched<int>, posts: nat -> Fetched<V>)
    requires s.woocommerceApiKey == "" || s.woocommerceApiSecret == ""
    ensures Publish(p, price, s, categoryId, post, posts) == Traced(Err(PlainError(KeysRequiredMessage)), [])
  {
  }

  /** Only the product name is checked against the exclude words: a request is
      made exactly when the configuration holds and the name holds none of them,
      whatever the description says. */
  lemma PublishRequestsIff<V>(p: Product, price: int, s: AppSettings.Settings, categoryId: Option<int>,
                              post: Fetched<int>, posts: nat -> Fetched<V>)
    ensures var t := Publish(p, price, s, categoryId, post, posts).trace;
      (|t| > 0 <==> GetConfig(s).Ok? && !ContentRules.Excluded(p.productName, s.excludeWords))
      && (|t| > 0 ==> t[0] == Call(ProductRequest(GetConfig(s).value, PublishData(p, price, s, categoryId))))
  {
  }

  /** An excluded name is refused with a message naming the matched words,
      joined with "、", before any request. */
  lemma PublishRejectsExcluded<V>(p: Product, price: int, s: AppSettings.Settings, categoryId: Option<int>,
                                  post: Fetched<int>, posts: nat -> Fetched<V>)
    requires GetConfig(s).Ok?
    requires exists k :: 0 <= k < |s.excludeWords| && ContainsCI(p.productName, s.excludeWords[k])
    ensures var words := ContentRules.MatchedWords(p.productName, s.excludeWords);
      && |words| > 0
      && Publish(p, price, s, categoryId, post, posts)
         == Traced(Err(PlainError(ExclusionPrefix + Join(words, WordSeparator) + ExclusionSuffix)), [])
  {
    ContentRules.ExcludedIffMatched(p.productName, s.excludeWords);
    var k :| 0 <= k < |s.excludeWords| && ContainsCI(p.productName, s.excludeWords[k]);
    assert ContentRules.MatchesWord(p.productName, s.excludeWords[k]);
  }

  /** The product sent: the rewritten name, the description untouched and without
      additional text, the given category when it is truthy and category 1
      otherwise, and one variation payload per variant. */
  lemma PublishDataFields(p: Product, price: int, s: AppSettings.Settings, categoryId: Option<int>)
    ensures var data := PublishData(p, price, s, categoryId);
      && data.name == ContentRules.Rewrite(p.productName, s.replaceWords)
      && data.description == p.description.GetOr("")
      && data.categories == (if TruthyInt(categoryId) then [categoryId.value] else [1])
      && data.variations == WooPayload.Variations(p, price)
  {
  }

  /** When no variation post is rejected, every variation is posted in order,
      each followed by a one-second pause, whatever the replies' statuses. */
  lemma {:induction false} VariationsIgnoreStatus<V>(cfg: Config, productId: string, vs: seq<WooPayload.VariationData>,
                                                     posts: nat -> Fetched<V>, i: nat)
    requires i <= |vs|
    requires forall k :: i <= k < |vs| ==> posts(k).Replied?
    ensures var o := PostVariations(cfg, productId, vs, posts, i);
      && o.result.Ok?
      && Requests(o.trace) == VariationRequests(cfg, productId, vs, i)
      && Waited(o.trace) == VariationPause * (|vs| - i)
    decreases |vs| - i
  {
    if i < |vs| {
      VariationsIgnoreStatus(cfg, productId, vs, posts, i + 1);
      PausedPost(VariationRequest(cfg, productId, vs[i]), PostVariations(cfg, productId, vs, posts, i + 1).trace);
    }
  }

  /** The posts of variations `i` on, in order. */
  function VariationRequests(cfg: Config, productId: string, vs: seq<WooPayload.VariationData>, i: nat): (r: seq<Request>)
    ensures |r| == if i <= |vs| then |vs| - i else 0
    decreases |vs| - i
  {
    if i >= |vs| then [] else [VariationRequest(cfg, productId, vs[i])] + VariationRequests(cfg, productId, vs, i + 1)
  }

  /** One post and its pause, then the rest. */
  lemma PausedPost(req: Request, rest: seq<Event>)
    ensures Requests([Call(req), Sleep(VariationPause)] + rest) == [req] + Requests(rest)
    ensures Waited([Call(req), Sleep(VariationPause)] + rest) == VariationPause + Waited(rest)
  {
    var head := [Call(req), Sleep(VariationPause)];
    RequestsAppend(head, rest);
    WaitedAppend(head, rest);
    assert head[1..][1..] == [];
  }

  /** A variation post whose fetch is rejected ends the loop with that error;
      the variations after it are not posted. */
  lemma {:induction false} VariationsStop<V>(cfg: Config, productId: string, vs: seq<WooPayload.VariationData>,
                                             posts: nat -> Fetched<V>, i: nat, j: nat)
    requires i <= j < |vs|
    requires forall k :: i <= k < j ==> posts(k).Replied?
    requires posts(j).Failed?
    ensures var o := PostVariations(cfg, productId, vs, posts, i);
      o.result == Err(posts(j).error) && Calls(o.trace) == j - i + 1
    decreases j - i
  {
    if i < j {
      VariationsStop(cfg, productId, vs, posts, i + 1, j);
      var head := [Call(VariationRequest(cfg, productId, vs[i])), Sleep(VariationPause)];
      CallsAppend(head, PostVariations(cfg, productId, vs, posts, i + 1).trace);
      assert head[1..][1..] == [];
    }
  }

  /** Past the checks, every error is rethrown with the "WooCommerce APIエラー: "
      prefix. */
  lemma PublishErrorsWrapped<V>(p: Product, price: int, s: AppSettings.Settings, categoryId: Option<int>,
                                post: Fetched<int>, posts: nat -> Fetched<V>)
    requires GetConfig(s).Ok? && !ContentRules.Excluded(p.productName, s.excludeWords)
    requires Publish(p, price, s, categoryId, post, posts).result.Err?
    ensures var e := Publish(p, price, s, categoryId, post, posts).result.error;
      e.IsError() && e.Name() == "Error" && StartsWith(e.Message(), ApiErrorPrefix)
  {
  }

  /** A created product without an id gets its variations posted to
      ".../products/undefined/variations". */
  lemma MissingIdPostsToUndefined<V>(cfg: Config, data: WooPayload.ProductData, post: Fetched<int>, posts: nat -> Fetched<V>)
    requires post.Replied? && post.reply.Ok() && post.reply.content.OtherJson?
    requires |data.variations| > 0
    ensures var t := PostAll(cfg, data, post, posts).trace;
      |t| >= 2 && t[1] == Call(Request(Post, cfg.apiUrl + "/products/undefined/variations", Header(cfg),
                                       VariationJson(data.variations[0])))
  {
    var v := PostVariations(cfg, Undefined, data.variations, posts, 0);
    assert PostAll(cfg, data, post, posts).trace == [Call(ProductRequest(cfg, data))] + v.trace;
    PostVariationsFirst(cfg, Undefined, data.variations, posts);
    assert ProductsPath + "/" + Undefined + VariationsPath == "/products/undefined/variations";
    assert cfg.apiUrl + ProductsPath + "/" + Undefined + VariationsPath == cfg.apiUrl + "/products/undefined/variations";
  }

  /** The variation loop starts with the post of the first variation. */
  lemma PostVariationsFirst<V>(cfg: Config, productId: string, vs: seq<WooPayload.VariationData>, posts: nat -> Fetched<V>)
    requires |vs| > 0
    ensures var t := PostVariations(cfg, productId, vs, posts, 0).trace;
      |t| >= 1 && t[0] == Call(VariationRequest(cfg, productId, vs[0]))
  {
  }
}
