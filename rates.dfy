// Exchange-rate updates (both the provider-based updater and the older
// fixer/apilayer one): the 24-hour staleness test, the choice of target
// currencies, the in-place rate update with its count, and the guards and
// request choice of fetchExchangeRates. The rate fetch is an abstract
// outcome; the stored currencies are an array updated in place.

module Rates {
  import opened Common
  import opened Schema
  import opened SyncTypes

  const DayMs: int := 24 * 60 * 60 * 1000

  /** shouldUpdateRates: an empty stamp always updates; otherwise at least
      24 hours must have passed. `lastMs` is the parsed stamp, None when it
      does not parse (the comparison with NaN is false). */
  function ShouldUpdateRates(lastUpdate: string, lastMs: Option<int>, nowMs: int): (r: bool)
    ensures lastUpdate == "" ==> r
    ensures lastUpdate != "" ==> (r <==> lastMs.Some? && nowMs - lastMs.value >= DayMs)
  {
    if lastUpdate == "" then true
    else lastMs.Some? && nowMs - lastMs.value >= DayMs
  }

  // ---------------------------------------------------------------------
  // Targets and the rate update
  // ---------------------------------------------------------------------

  /** A currency to update: never the main one; one of the listed ids, or
      any other currency when none is listed. */
  predicate IsTarget(c: Currency, mainId: string, targetIds: seq<string>)
  {
    if |targetIds| > 0 then c.id in targetIds && c.id != mainId else c.id != mainId
  }

  function Targets(currencies: seq<Currency>, mainId: string, targetIds: seq<string>): (r: seq<Currency>)
    ensures forall c :: c in r <==> c in currencies && IsTarget(c, mainId, targetIds)
    ensures forall c :: c in r ==> c.id != mainId
  {
    Filter(currencies, (c: Currency) => IsTarget(c, mainId, targetIds))
  }

  /** The currency after the loop: a target whose code came back takes the
      fetched rate. */
  function Applied(c: Currency, mainId: string, targetIds: seq<string>, rates: map<string, real>): Currency
  {
    if IsTarget(c, mainId, targetIds) && c.code in rates then c.(rate := rates[c.code]) else c
  }

  /** The number the update reports: the targets whose code came back. */
  function UpdatedCount(currencies: seq<Currency>, mainId: string, targetIds: seq<string>, rates: map<string, real>): nat
  {
    |Filter(Targets(currencies, mainId, targetIds), (c: Currency) => c.code in rates)|
  }

  /** The currencies after a successful update: targets take the fetched
      rates, and the main currency (its first entry) gets rate 1. */
  function RatesApplied(currencies: seq<Currency>, mainId: string, targetIds: seq<string>, rates: map<string, real>): (r: seq<Currency>)
    ensures |r| == |currencies|
  {
    var m := IndexOfId(currencies, mainId);
    seq(|currencies|, j requires 0 <= j < |currencies| =>
      if j == m then currencies[j].(rate := 1.0) else Applied(currencies[j], mainId, targetIds, rates))
  }

  /** `currencies.find((c) => c.id === id)` as an index, or -1. */
  function IndexOfId(currencies: seq<Currency>, id: string): (r: int)
    ensures -1 <= r < |currencies|
    ensures r == -1 <==> forall c :: c in currencies ==> c.id != id
    ensures r >= 0 ==> currencies[r].id == id && forall j :: 0 <= j < r ==> currencies[j].id != id
  {
    if currencies == [] then -1
    else if currencies[0].id == id then 0
    else
      var k := IndexOfId(currencies[1..], id);
      if k < 0 then -1 else k + 1
  }

  /** Only the rates change, only of targets whose code came back and of
      the main currency, which ends at 1. */
  lemma RatesAppliedSpec(currencies: seq<Currency>, mainId: string, targetIds: seq<string>, rates: map<string, real>)
    requires IndexOfId(currencies, mainId) >= 0
    ensures var r := RatesApplied(currencies, mainId, targetIds, rates);
      && r[IndexOfId(currencies, mainId)].rate == 1.0
      && (forall j :: 0 <= j < |r| ==> r[j] == currencies[j].(rate := r[j].rate))
      && (forall j :: 0 <= j < |r| && r[j] != currencies[j] ==>
            j == IndexOfId(currencies, mainId) || (IsTarget(currencies[j], mainId, targetIds) && currencies[j].code in rates))
      && (forall j :: 0 <= j < |r| && IsTarget(currencies[j], mainId, targetIds) && currencies[j].code in rates ==>
            r[j].rate == rates[currencies[j].code])
  {
  }

  lemma UpdatedCountStep(s: seq<Currency>, c: Currency, mainId: string, targetIds: seq<string>, rates: map<string, real>)
    ensures UpdatedCount(s + [c], mainId, targetIds, rates)
      == UpdatedCount(s, mainId, targetIds, rates) + (if IsTarget(c, mainId, targetIds) && c.code in rates then 1 else 0)
  {
    var isT := (x: Currency) => IsTarget(x, mainId, targetIds);
    var has := (x: Currency) => x.code in rates;
    FilterAppend(s, [c], isT);
    assert Filter([c], isT) == if isT(c) then [c] else [] by {
      assert [c][1..] == [];
    }
    FilterAppend(Filter(s, isT), Filter([c], isT), has);
    if isT(c) {
      assert Filter([c], has) == if has(c) then [c] else [] by {
        assert [c][1..] == [];
      }
    }
  }

  /** The loop over the targets, updating each in place and counting. */
  method ApplyRates(a: array<Currency>, mainId: string, targetIds: seq<string>, rates: map<string, real>)
    returns (updated: nat)
    modifies a
    ensures forall j :: 0 <= j < a.Length ==> a[j] == Applied(old(a[j]), mainId, targetIds, rates)
    ensures updated == UpdatedCount(old(a[..]), mainId, targetIds, rates)
  {
    updated := 0;
    ghost var orig := a[..];
    var i := 0;
    while i < a.Length
      invariant 0 <= i <= a.Length
      invariant forall j :: 0 <= j < i ==> a[j] == Applied(orig[j], mainId, targetIds, rates)
      invariant forall j :: i <= j < a.Length ==> a[j] == orig[j]
      invariant updated == CountedSoFar(orig[..i], mainId, targetIds, rates)
    {
      var cur := a[i];
      assert orig[..i + 1][..i] == orig[..i];
      if IsTarget(cur, mainId, targetIds) && cur.code in rates {
        a[i] := cur.(rate := rates[cur.code]);
        updated := updated + 1;
      }
      assert a[i] == Applied(orig[i], mainId, targetIds, rates);
      i := i + 1;
    }
    assert orig[..i] == orig == old(a[..]);
    assert forall j :: 0 <= j < a.Length ==> old(a[j]) == orig[j];
    CountedSoFarIsUpdatedCount(orig, mainId, targetIds, rates);
  }

  /** The loop's running count, element by element from the front. */
  function CountedSoFar(s: seq<Currency>, mainId: string, targetIds: seq<string>, rates: map<string, real>): nat
  {
    if s == [] then 0
    else
      var last := s[|s| - 1];
      CountedSoFar(s[..|s| - 1], mainId, targetIds, rates) + (if IsTarget(last, mainId, targetIds) && last.code in rates then 1 else 0)
  }

  /** The running count over the whole array is the count the update reports. */
  lemma {:induction false} CountedSoFarIsUpdatedCount(s: seq<Currency>, mainId: string, targetIds: seq<string>, rates: map<string, real>)
    ensures CountedSoFar(s, mainId, targetIds, rates) == UpdatedCount(s, mainId, targetIds, rates)
  {
    if s == [] {
      assert Targets(s, mainId, targetIds) == [];
    } else {
      var front := s[..|s| - 1];
      CountedSoFarIsUpdatedCount(front, mainId, targetIds, rates);
      assert s == front + [s[|s| - 1]];
      UpdatedCountStep(front, s[|s| - 1], mainId, targetIds, rates);
    }
  }

  /** What a rate fetch settles to. */
  datatype Fetched = Fetched(rates: map<string, real>) | FetchFailed(message: string)

  /** `{ updated, error? }`. */
  datatype RateUpdate = RateUpdate(updated: nat, error: Option<string>)

  /** A rate-history write issued by the provider-based updater. */
  datatype HistoryOp = Snapshot(currencyId: string, rate: real) | Prune(keepDays: int)

  /** The snapshots written while the targets are updated, in array order:
      one per target whose code came back, with its new rate. */
  function Snapshots(s: seq<Currency>, mainId: string, targetIds: seq<string>, rates: map<string, real>): (r: seq<HistoryOp>)
    ensures forall k :: 0 <= k < |r| ==> r[k].Snapshot? && r[k].currencyId != mainId
  {
    if s == [] then []
    else
      var last := s[|s| - 1];
      Snapshots(s[..|s| - 1], mainId, targetIds, rates)
        + (if IsTarget(last, mainId, targetIds) && last.code in rates then [Snapshot(last.id, rates[last.code])] else [])
  }

  /** One snapshot per updated currency: as many as the update reports. */
  lemma {:induction false} SnapshotsMatchCount(s: seq<Currency>, mainId: string, targetIds: seq<string>, rates: map<string, real>)
    ensures |Snapshots(s, mainId, targetIds, rates)| == UpdatedCount(s, mainId, targetIds, rates)
  {
    SnapshotsAreCounted(s, mainId, targetIds, rates);
    CountedSoFarIsUpdatedCount(s, mainId, targetIds, rates);
  }

  lemma {:induction false} SnapshotsAreCounted(s: seq<Currency>, mainId: string, targetIds: seq<string>, rates: map<string, real>)
    ensures |Snapshots(s, mainId, targetIds, rates)| == CountedSoFar(s, mainId, targetIds, rates)
  {
    if s != [] {
      SnapshotsAreCounted(s[..|s| - 1], mainId, targetIds, rates);
    }
  }

  /** The history writes of a successful update: nothing when history is
      switched off; otherwise the target snapshots, the main currency at 1,
      and a prune to `historyDays` (90 by default). */
  function HistoryWrites(before: seq<Currency>, mainId: string, targetIds: seq<string>, rates: map<string, real>,
                         historyEnabled: Option<bool>, historyDays: Option<int>): seq<HistoryOp>
  {
    if historyEnabled == Some(false) then []
    else Snapshots(before, mainId, targetIds, rates)
         + [Snapshot(mainId, 1.0), Prune(if historyDays.Some? then historyDays.value else 90)]
  }

  /** The provider names the updater knows. */
  const KnownProviders: set<string> := {"frankfurter", "fixer", "apilayer", "exchangerate", "openexchangerates", "currencyapi"}

  /** The shared tail of both updaters once the rates are in: apply them,
      then set the main currency's rate to 1. */
  method ApplyAndFixMain(a: array<Currency>, m: nat, mainId: string, targetIds: seq<string>, rates: map<string, real>)
    returns (updated: nat)
    requires m < a.Length && m == IndexOfId(a[..], mainId)
    modifies a
    ensures a[..] == RatesApplied(old(a[..]), mainId, targetIds, rates)
    ensures updated == UpdatedCount(old(a[..]), mainId, targetIds, rates)
  {
    ghost var before := a[..];
    updated := ApplyRates(a, mainId, targetIds, rates);
    a[m] := a[m].(rate := 1.0);
    assert a[..] == RatesApplied(before, mainId, targetIds, rates);
  }

  /** updateCurrencyRates (provider-based). `fetched` is what the
      provider's fetchRates settles to; `fetchedWith` reports the call made,
      if any; `history` lists the rate-history writes. */
  method UpdateCurrencyRates(
    providerType: string, a: array<Currency>, mainId: string, targetIds: seq<string>,
    fetched: Fetched, historyEnabled: Option<bool>, historyDays: Option<int>)
    returns (res: RateUpdate, fetchedWith: Option<(string, seq<string>)>, history: seq<HistoryOp>)
    modifies a
    ensures fetched.FetchFailed? || res.error.Some? ==> history == []
    ensures providerType !in KnownProviders ==>
      res == RateUpdate(0, Some("Unknown provider")) && a[..] == old(a[..]) && fetchedWith == None
    ensures providerType in KnownProviders && IndexOfId(old(a[..]), mainId) < 0 ==>
      res == RateUpdate(0, Some("Main currency not found")) && a[..] == old(a[..]) && fetchedWith == None
    ensures providerType in KnownProviders && IndexOfId(old(a[..]), mainId) >= 0 ==>
      var targets := Targets(old(a[..]), mainId, targetIds);
      && (targets == [] ==> res == RateUpdate(0, None) && a[..] == old(a[..]) && fetchedWith == None && history == [])
      && (targets != [] ==> fetchedWith == Some((old(a[IndexOfId(a[..], mainId)]).code, seq(|targets|, k requires 0 <= k < |targets| => targets[k].code))))
      && (targets != [] && fetched.FetchFailed? ==> res == RateUpdate(0, Some(fetched.message)) && a[..] == old(a[..]))
      && (targets != [] && fetched.Fetched? ==>
            res == RateUpdate(UpdatedCount(old(a[..]), mainId, targetIds, fetched.rates), None)
            && a[..] == RatesApplied(old(a[..]), mainId, targetIds, fetched.rates)
            && history == HistoryWrites(old(a[..]), mainId, targetIds, fetched.rates, historyEnabled, historyDays))
  {
    fetchedWith, history := None, [];
    if providerType !in KnownProviders {
      return RateUpdate(0, Some("Unknown provider")), fetchedWith, history;
    }
    var m := IndexOfId(a[..], mainId);
    if m == -1 {
      return RateUpdate(0, Some("Main currency not found")), fetchedWith, history;
    }
    var targets := Targets(a[..], mainId, targetIds);
    if |targets| == 0 {
      return RateUpdate(0, None), fetchedWith, history;
    }
    var codes := seq(|targets|, k requires 0 <= k < |targets| => targets[k].code);
    fetchedWith := Some((a[m].code, codes));
    if fetched.FetchFailed? {
      return RateUpdate(0, Some(fetched.message)), fetchedWith, history;
    }
    var before := a[..];
    var updated := ApplyAndFixMain(a, m, mainId, targetIds, fetched.rates);
    history := RecordHistory(a, before, m, mainId, targetIds, fetched.rates, historyEnabled, historyDays);
    res := RateUpdate(updated, None);
  }

  /** A target whose code came back holds the fetched rate after the update. */
  lemma TargetApplied(before: seq<Currency>, j: nat, mainId: string, targetIds: seq<string>, rates: map<string, real>)
    requires j < |before| && IsTarget(before[j], mainId, targetIds) && before[j].code in rates
    ensures RatesApplied(before, mainId, targetIds, rates)[j] == before[j].(rate := rates[before[j].code])
  {
    assert j != IndexOfId(before, mainId);
  }

  /** The history writes of updateCurrencyRates, issued after the rates are
      in: a snapshot of each updated target and of the main currency, then
      the prune, unless history is switched off. */
  method RecordHistory(a: array<Currency>, before: seq<Currency>, m: nat, mainId: string, targetIds: seq<string>,
                       rates: map<string, real>, historyEnabled: Option<bool>, historyDays: Option<int>)
    returns (history: seq<HistoryOp>)
    requires |before| == a.Length && m < a.Length && m == IndexOfId(before, mainId)
    requires a[..] == RatesApplied(before, mainId, targetIds, rates)
    ensures history == HistoryWrites(before, mainId, targetIds, rates, historyEnabled, historyDays)
  {
    history := [];
    if historyEnabled == Some(false) {
      return;
    }
    var j := 0;
    while j < a.Length
      invariant 0 <= j <= a.Length
      invariant history == Snapshots(before[..j], mainId, targetIds, rates)
    {
      assert before[..j + 1][..j] == before[..j];
      if IsTarget(before[j], mainId, targetIds) && before[j].code in rates {
        TargetApplied(before, j, mainId, targetIds, rates);
        history := history + [Snapshot(a[j].id, a[j].rate)];
      }
      j := j + 1;
    }
    assert before[..j] == before;
    history := history + [Snapshot(a[m].id, 1.0), Prune(if historyDays.Some? then historyDays.value else 90)];
  }

  // ---------------------------------------------------------------------
  // fetchExchangeRates (fixer.io / apilayer)
  // ---------------------------------------------------------------------

  const FixerBase: string := "http://data.fixer.io/api/latest"
  const ApilayerBase: string := "https://api.apilayer.com/fixer/latest"

  /** A request: its URL and its headers. */
  datatype Request = Request(url: string, headers: map<string, string>)

  /** The request fetchExchangeRates sends: apilayer (provider 1) takes the
      key in a header, fixer.io in the query string. */
  function RequestFor(apiKey: string, provider: int, targetCodes: seq<string>): (q: Request)
    ensures provider == 1 ==> StartsWith(q.url, ApilayerBase) && q.headers == map["apikey" := apiKey]
    ensures provider != 1 ==> StartsWith(q.url, FixerBase + "?access_key=" + apiKey) && q.headers == map[]
  {
    var symbols := Join(targetCodes, ",");
    if provider == 1 then Request(ApilayerBase + "?symbols=" + symbols, map["apikey" := apiKey])
    else
      var url := FixerBase + "?access_key=" + apiKey + "&symbols=" + symbols;
      assert url[..|FixerBase + "?access_key=" + apiKey|] == FixerBase + "?access_key=" + apiKey;
      Request(url, map[])
  }

  /** The JSON body of a rates response. */
  datatype RatesBody = RatesBody(success: bool, base: string, rates: map<string, real>)

  /** Whether fetchExchangeRates issues a request at all. */
  predicate Requests(apiKey: string, targetCodes: seq<string>)
  {
    apiKey != "" && targetCodes != []
  }

  /** The rates relative to `baseCode`: the response's base defaults to
      EUR; when it differs from `baseCode` and `baseCode` has a non-zero
      rate, every rate is divided by it, otherwise the raw rates stand. */
  function CrossRated(body: RatesBody, baseCode: string): (r: map<string, real>)
    ensures r.Keys == body.rates.Keys
  {
    var fetchBase := if body.base == "" then "EUR" else body.base;
    if fetchBase == baseCode then body.rates
    else if baseCode !in body.rates || body.rates[baseCode] == 0.0 then body.rates
    else map code | code in body.rates :: body.rates[code] / body.rates[baseCode]
  }

  /** After cross-rating, the requested base is worth exactly 1, and each
      rate is its quotient by the base's raw rate. */
  lemma CrossRatedBaseIsOne(body: RatesBody, baseCode: string)
    requires (if body.base == "" then "EUR" else body.base) != baseCode
    requires baseCode in body.rates && body.rates[baseCode] != 0.0
    ensures CrossRated(body, baseCode)[baseCode] == 1.0
    ensures forall code :: code in body.rates ==>
      CrossRated(body, baseCode)[code] * body.rates[baseCode] == body.rates[code]
  {
  }

  /** fetchExchangeRates, given what its request settles to. */
  function FetchExchangeRates(apiKey: string, baseCode: string, targetCodes: seq<string>, response: Http<RatesBody>): (r: Fetched)
    ensures apiKey == "" ==> r == FetchFailed("Error: No API key provided")
    ensures apiKey != "" && targetCodes == [] ==> r == Fetched(map[])
    ensures r.Fetched? && Requests(apiKey, targetCodes) ==> response.Ok() && response.body.success
    ensures Requests(apiKey, targetCodes) && response.Ok() && response.body.success ==>
      r == Fetched(CrossRated(response.body, baseCode))
  {
    if apiKey == "" then FetchFailed("Error: No API key provided")
    else if targetCodes == [] then Fetched(map[])
    else if !response.Ok() then
      FetchFailed(if response.Response? then "Error: HTTP " + IntToString(response.status) else response.message)
    else if !response.body.success then FetchFailed("Error: API returned error")
    else Fetched(CrossRated(response.body, baseCode))
  }

  /** updateCurrencyRates (fixer / apilayer): the same update, fetching
      through fetchExchangeRates; `sent` is the request it issues, if any. */
  method UpdateFixerRates(apiKey: string, provider: int, a: array<Currency>, mainId: string, targetIds: seq<string>,
                          response: Http<RatesBody>)
    returns (res: RateUpdate, sent: Option<Request>)
    modifies a
    ensures IndexOfId(old(a[..]), mainId) < 0 ==>
      res == RateUpdate(0, Some("Main currency not found")) && a[..] == old(a[..]) && sent == None
    ensures IndexOfId(old(a[..]), mainId) >= 0 ==>
      var targets := Targets(old(a[..]), mainId, targetIds);
      var codes := seq(|targets|, k requires 0 <= k < |targets| => targets[k].code);
      var fetched := FetchExchangeRates(apiKey, old(a[IndexOfId(a[..], mainId)]).code, codes, response);
      && (targets == [] ==> res == RateUpdate(0, None) && a[..] == old(a[..]) && sent == None)
      && (targets != [] ==> (sent.Some? <==> apiKey != "") && (sent.Some? ==> sent.value == RequestFor(apiKey, provider, codes)))
      && (targets != [] && fetched.FetchFailed? ==> res == RateUpdate(0, Some(fetched.message)) && a[..] == old(a[..]))
      && (targets != [] && fetched.Fetched? ==>
            res == RateUpdate(UpdatedCount(old(a[..]), mainId, targetIds, fetched.rates), None)
            && a[..] == RatesApplied(old(a[..]), mainId, targetIds, fetched.rates))
  {
    sent := None;
    var m := IndexOfId(a[..], mainId);
    if m == -1 {
      return RateUpdate(0, Some("Main currency not found")), sent;
    }
    var targets := Targets(a[..], mainId, targetIds);
    if |targets| == 0 {
      return RateUpdate(0, None), sent;
    }
    var codes := seq(|targets|, k requires 0 <= k < |targets| => targets[k].code);
    if Requests(apiKey, codes) {
      sent := Some(RequestFor(apiKey, provider, codes));
    }
    var fetched := FetchExchangeRates(apiKey, a[m].code, codes, response);
    if fetched.FetchFailed? {
      return RateUpdate(0, Some(fetched.message)), sent;
    }
    var updated := ApplyAndFixMain(a, m, mainId, targetIds, fetched.rates);
    res := RateUpdate(updated, None);
  }

  /** A reported count never exceeds the number of targets. */
  lemma UpdatedAtMostTargets(currencies: seq<Currency>, mainId: string, targetIds: seq<string>, rates: map<string, real>)
    ensures UpdatedCount(currencies, mainId, targetIds, rates) <= |Targets(currencies, mainId, targetIds)|
  {
  }
}
