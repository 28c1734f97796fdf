/** Application settings (src/hooks/useSettings.tsx): the record, its defaults,
    loading from storage merged over the defaults, partial updates and saving.
    Storage holds the parsed JSON; `JSON.stringify` turns the `Infinity` of the
    default top tier into `null`, which is `Absent` after a reload. */
module AppSettings {
  import opened Prelude

  /** A tier bound as JavaScript sees it after storage: a number, `Infinity`, or `null`. */
  datatype Bound = Finite(n: int) | Infinite | Absent

  datatype PriceRange = PriceRange(minPrice: Bound, maxPrice: Bound, multiplier: real, correctionPrice: int)
  datatype ReplaceRule = ReplaceRule(from: string, to: string)
  datatype CategoryPair = CategoryPair(netseaCategory: string, baseCategory: string)

  datatype Settings = Settings(
    netseaApiKey: string,
    baseApiKey: string,
    woocommerceApiKey: string,
    woocommerceApiSecret: string,
    woocommerceSiteUrl: string,
    replaceWords: seq<ReplaceRule>,
    excludeWords: seq<string>,
    additionalDescription: string,
    autoUpdateInterval: int,
    priceRanges: seq<PriceRange>,
    minProfitAmount: int,
    stockThreshold: int,
    categoryMapping: seq<CategoryPair>,
    notificationEmail: string,
    autoSync: bool)

  /** A `Partial<Settings>`: the keys present in a stored object or an update. */
  datatype SettingsPatch = SettingsPatch(
    netseaApiKey: Option<string>,
    baseApiKey: Option<string>,
    woocommerceApiKey: Option<string>,
    woocommerceApiSecret: Option<string>,
    woocommerceSiteUrl: Option<string>,
    replaceWords: Option<seq<ReplaceRule>>,
    excludeWords: Option<seq<string>>,
    additionalDescription: Option<string>,
    autoUpdateInterval: Option<int>,
    priceRanges: Option<seq<PriceRange>>,
    minProfitAmount: Option<int>,
    stockThreshold: Option<int>,
    categoryMapping: Option<seq<CategoryPair>>,
    notificationEmail: Option<string>,
    autoSync: Option<bool>)

  const DefaultSiteUrl: string := "https://test1211.com/luxe"

  /** The three default tiers: [0, 1000] at 1.3, [1001, 3000] at 1.25, [3001, ∞) at 1.2. */
  function DefaultTiers(): seq<PriceRange> {
    [PriceRange(Finite(0), Finite(1000), 1.3, 0),
     PriceRange(Finite(1001), Finite(3000), 1.25, 0),
     PriceRange(Finite(3001), Infinite, 1.2, 0)]
  }

  function Defaults(): Settings {
    Settings("", "", "", "", DefaultSiteUrl, [], [], "", 60, DefaultTiers(), 500, 3, [], "", false)
  }

  /** Consecutive tiers meet: each finite maximum is followed by the next minimum. */
  predicate Contiguous(ranges: seq<PriceRange>) {
    forall k :: 0 <= k < |ranges| - 1 ==>
      ranges[k].maxPrice.Finite? && ranges[k + 1].minPrice == Finite(ranges[k].maxPrice.n + 1)
  }

  /** The default tiers start at 0, are contiguous over the integers and end unbounded,
      and the default minimum profit is 500. */
  lemma DefaultTiersCover()
    ensures var t := Defaults().priceRanges;
      |t| == 3 && t[0].minPrice == Finite(0) && Contiguous(t) && t[2].maxPrice == Infinite
      && forall k :: 0 <= k < |t| ==> t[k].minPrice.Finite? && (t[k].maxPrice.Finite? ==> t[k].minPrice.n <= t[k].maxPrice.n)
    ensures Defaults().minProfitAmount == 500
  {
  }

  function EmptyPatch(): SettingsPatch {
    SettingsPatch(None, None, None, None, None, None, None, None, None, None, None, None, None, None, None)
  }

  /** `{ ...s, ...patch }`: every key of the patch replaces the current value. */
  function Merge(s: Settings, p: SettingsPatch): Settings {
    Settings(
      p.netseaApiKey.GetOr(s.netseaApiKey),
      p.baseApiKey.GetOr(s.baseApiKey),
      p.woocommerceApiKey.GetOr(s.woocommerceApiKey),
      p.woocommerceApiSecret.GetOr(s.woocommerceApiSecret),
      p.woocommerceSiteUrl.GetOr(s.woocommerceSiteUrl),
      p.replaceWords.GetOr(s.replaceWords),
      p.excludeWords.GetOr(s.excludeWords),
      p.additionalDescription.GetOr(s.additionalDescription),
      p.autoUpdateInterval.GetOr(s.autoUpdateInterval),
      p.priceRanges.GetOr(s.priceRanges),
      p.minProfitAmount.GetOr(s.minProfitAmount),
      p.stockThreshold.GetOr(s.stockThreshold),
      p.categoryMapping.GetOr(s.categoryMapping),
      p.notificationEmail.GetOr(s.notificationEmail),
      p.autoSync.GetOr(s.autoSync))
  }

  /** A merge only touches supplied keys: the empty update changes nothing, and
      applying the same update twice is the same as once. */
  lemma MergeLaws(s: Settings, p: SettingsPatch)
    ensures Merge(s, EmptyPatch()) == s
    ensures Merge(Merge(s, p), p) == Merge(s, p)
    ensures p.priceRanges.None? ==> Merge(s, p).priceRanges == s.priceRanges
    ensures p.priceRanges.Some? ==> Merge(s, p).priceRanges == p.priceRanges.value
  {
  }

  /** The initial state: the defaults, or the stored object spread over them with an
      empty or missing site URL falling back to the default URL. */
  function Load(stored: Option<SettingsPatch>): (r: Settings)
    ensures stored.None? ==> r == Defaults()
    ensures stored.Some? ==> r.woocommerceSiteUrl != ""
    ensures stored.Some? && TruthyStr(stored.value.woocommerceSiteUrl) ==> r.woocommerceSiteUrl == stored.value.woocommerceSiteUrl.value
    ensures stored.Some? && !TruthyStr(stored.value.woocommerceSiteUrl) ==> r.woocommerceSiteUrl == DefaultSiteUrl
    ensures stored.Some? ==> r == Merge(Defaults(), stored.value).(woocommerceSiteUrl := r.woocommerceSiteUrl)
  {
    if stored.None? then Defaults()
    else
      var m := Merge(Defaults(), stored.value);
      var url := stored.value.woocommerceSiteUrl;
      m.(woocommerceSiteUrl := if TruthyStr(url) then url.value else DefaultSiteUrl)
  }

  /** `Infinity` does not survive JSON: it is stored as `null`. */
  function JsonBound(b: Bound): Bound {
    if b.Infinite? then Absent else b
  }

  function JsonRange(r: PriceRange): PriceRange {
    r.(minPrice := JsonBound(r.minPrice), maxPrice := JsonBound(r.maxPrice))
  }

  /** What a JSON round trip makes of a tier list: same tiers, `Infinity` bounds become `null`. */
  function JsonRanges(ranges: seq<PriceRange>): (r: seq<PriceRange>)
    ensures |r| == |ranges|
    ensures forall k :: 0 <= k < |r| ==> r[k] == JsonRange(ranges[k])
  {
    seq(|ranges|, k requires 0 <= k < |ranges| => JsonRange(ranges[k]))
  }

  /** What a JSON round trip makes of a settings value. */
  function JsonRoundTrip(s: Settings): (r: Settings)
    ensures r.priceRanges == JsonRanges(s.priceRanges)
    ensures forall k :: 0 <= k < |r.priceRanges| ==> !r.priceRanges[k].maxPrice.Infinite? && !r.priceRanges[k].minPrice.Infinite?
  {
    s.(priceRanges := JsonRanges(s.priceRanges))
  }

  /** `JSON.parse(JSON.stringify(s))`: every key present, bounds round-tripped. */
  function Persisted(s: Settings): SettingsPatch {
    var j := JsonRoundTrip(s);
    SettingsPatch(Some(j.netseaApiKey), Some(j.baseApiKey), Some(j.woocommerceApiKey), Some(j.woocommerceApiSecret),
      Some(j.woocommerceSiteUrl), Some(j.replaceWords), Some(j.excludeWords), Some(j.additionalDescription),
      Some(j.autoUpdateInterval), Some(j.priceRanges), Some(j.minProfitAmount), Some(j.stockThreshold),
      Some(j.categoryMapping), Some(j.notificationEmail), Some(j.autoSync))
  }

  /** Reloading what was saved gives the saved settings back, up to the JSON
      treatment of `Infinity` and the fallback for an empty site URL. */
  lemma ReloadPersisted(s: Settings)
    ensures Load(Some(Persisted(s))) == JsonRoundTrip(s).(woocommerceSiteUrl := if s.woocommerceSiteUrl != "" then s.woocommerceSiteUrl else DefaultSiteUrl)
  {
  }

  /** The settings state and its `app_settings` storage slot. */
  class SettingsProvider {
    var settings: Settings
    var stored: Option<SettingsPatch>

    /** Mounting: the initial state comes from storage, then the persisting effect
        (lines 93-95) writes it back. */
    constructor (initial: Option<SettingsPatch>)
      ensures settings == Load(initial)
      ensures stored == Some(Persisted(settings))
    {
      settings := Load(initial);
      stored := Some(Persisted(Load(initial)));
    }

    /** `updateSettings(newSettings)`: merge and persist. */
    method UpdateSettings(patch: SettingsPatch)
      modifies this
      ensures settings == Merge(old(settings), patch)
      ensures stored == Some(Persisted(settings))
    {
      settings := Merge(settings, patch);
      stored := Some(Persisted(settings));
    }

    /** `saveSettings()`: persist without changing the settings. */
    method SaveSettings()
      modifies this
      ensures settings == old(settings)
      ensures stored == Some(Persisted(settings))
    {
      stored := Some(Persisted(settings));
    }
  }
}
