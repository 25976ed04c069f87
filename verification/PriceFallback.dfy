/** Prices by instrument, and where to borrow one when an instrument has no fresh price of its own. */
module PriceFallback {
  import opened Base
  import opened OiTypes

  datatype PriceQuote = PriceQuote(instrument: InstrumentId, price: Decimal, ts: Nanos)

  datatype IndexEntry = IndexEntry(id: InstrumentId, quote: string)

  datatype Provenance = Native | Fallback(from: Exchange, quoteMatch: bool)

  datatype Priced = Priced(price: Decimal, provenance: Provenance)

  type Prices = map<InstrumentId, (Decimal, Nanos)>

  lemma RankOfListed(i: nat)
    requires i < |ALL_EXCHANGES|
    ensures Rank(ALL_EXCHANGES[i]) == i
  {}

  /** Donors are preferred in this order of their exchanges. */
  lemma PreferenceOrder()
    ensures Rank(Binance) < Rank(Bybit) < Rank(Okx) < Rank(BingX) < Rank(KuCoin) < Rank(Mexc) < Rank(Bitget)
      < Rank(Hyperliquid) < Rank(Aster)
  {}

  // Canonical names

  function UpperChar(c: char): char {
    if 'a' <= c <= 'z' then c - 'a' + 'A' else c
  }

  function Upper(s: string): string {
    seq(|s|, i requires 0 <= i < |s| => UpperChar(s[i]))
  }

  /** KuCoin's name for Bitcoin; anything else is left as it is. */
  function CanonicalBase(asset: string): string {
    if Upper(asset) == "XBT" then "BTC" else asset
  }

  const STABLES: set<string> := {"USDT", "USDC", "BUSD", "FDUSD", "USD", "TUSD", "DAI"}

  /** One name for the dollar and the coins pegged to it; anything else is left as it is, in its own case. */
  function CanonicalQuote(quote: string): string {
    if Upper(quote) in STABLES then "USD-PEG" else quote
  }

  /** The same letters, `name` being in capitals. */
  ghost predicate IsAnyCaseOf(s: string, name: string) {
    |s| == |name| && forall i :: 0 <= i < |s| ==> s[i] == name[i] || ('A' <= name[i] <= 'Z' && s[i] == name[i] - 'A' + 'a')
  }

  predicate InCapitals(name: string) {
    forall i :: 0 <= i < |name| ==> 'A' <= name[i] <= 'Z'
  }

  lemma UpperIs(s: string, name: string)
    requires InCapitals(name)
    ensures Upper(s) == name <==> IsAnyCaseOf(s, name)
  {
    if IsAnyCaseOf(s, name) {
      assert forall i :: 0 <= i < |s| ==> UpperChar(s[i]) == name[i];
      assert Upper(s) == name;
    }
    if Upper(s) == name {
      assert forall i :: 0 <= i < |s| ==> UpperChar(s[i]) == Upper(s)[i];
    }
  }

  /** The dollar or one of the six coins pegged to it, in any case, or already the name of their family. */
  ghost predicate IsDollar(q: string) {
    || IsAnyCaseOf(q, "USDT") || IsAnyCaseOf(q, "USDC") || IsAnyCaseOf(q, "BUSD") || IsAnyCaseOf(q, "FDUSD")
    || IsAnyCaseOf(q, "USD") || IsAnyCaseOf(q, "TUSD") || IsAnyCaseOf(q, "DAI") || q == "USD-PEG"
  }

  lemma DollarsMeet(q: string)
    ensures CanonicalQuote(q) == "USD-PEG" <==> IsDollar(q)
    ensures !IsDollar(q) ==> CanonicalQuote(q) == q
  {
    UpperIs(q, "USDT");
    UpperIs(q, "USDC");
    UpperIs(q, "BUSD");
    UpperIs(q, "FDUSD");
    UpperIs(q, "USD");
    UpperIs(q, "TUSD");
    UpperIs(q, "DAI");
  }

  /** Two quotes count as the same exactly when they are the same string or both are dollars. */
  lemma SameQuoteIff(a: string, b: string)
    ensures CanonicalQuote(a) == CanonicalQuote(b) <==> a == b || (IsDollar(a) && IsDollar(b))
  {
    DollarsMeet(a);
    DollarsMeet(b);
  }

  ghost predicate IsBitcoin(a: string) {
    IsAnyCaseOf(a, "XBT") || a == "BTC"
  }

  /** Two bases count as the same exactly when they are the same string or both name Bitcoin. */
  lemma SameBaseIff(a: string, b: string)
    ensures CanonicalBase(a) == CanonicalBase(b) <==> a == b || (IsBitcoin(a) && IsBitcoin(b))
  {
    UpperIs(a, "XBT");
    UpperIs(b, "XBT");
  }

  // What the fallback promises

  function Abs(d: Nanos): Nanos { if d < 0 then -d else d }

  function FreshIn(prices: Prices, tolerance: Nanos, k: InstrumentId, near: Nanos): Option<Decimal> {
    if k in prices && Abs(near - prices[k].1) <= tolerance then Some(prices[k].0) else None
  }

  /** A price is fresh as long as it is at most the tolerance older, or newer, than the moment asked for. */
  lemma FreshMeans(prices: Prices, tolerance: Nanos, k: InstrumentId, near: Nanos, p: Decimal)
    ensures FreshIn(prices, tolerance, k, near) == Some(p) <==>
      k in prices && prices[k].0 == p && prices[k].1 - tolerance <= near <= prices[k].1 + tolerance
  {}

  /** What a lookup goes by: the prices, their tolerated age, the instrument asked for and the moment. */
  datatype Query = Query(prices: Prices, tolerance: Nanos, target: InstrumentId, near: Nanos)

  predicate IsDonor(q: Query, e: IndexEntry, quote: Option<string>) {
    && e.id != q.target
    && (quote.Some? ==> e.quote == quote.value)
    && FreshIn(q.prices, q.tolerance, e.id, q.near).Some?
  }

  predicate Preferred(entries: seq<IndexEntry>, i: int, j: int)
    requires 0 <= i < |entries| && 0 <= j < |entries|
  {
    var (a, b) := (Rank(entries[i].id.exchange), Rank(entries[j].id.exchange));
    a < b || (a == b && i < j)
  }

  /** Entry i is a donor, and comes before every other one by exchange and then by registration. */
  predicate FirstDonor(q: Query, entries: seq<IndexEntry>, quote: Option<string>, i: int) {
    && 0 <= i < |entries| && IsDonor(q, entries[i], quote)
    && forall j :: 0 <= j < |entries| && j != i && IsDonor(q, entries[j], quote) ==> Preferred(entries, i, j)
  }

  predicate NoDonor(q: Query, entries: seq<IndexEntry>, quote: Option<string>) {
    forall e :: e in entries ==> !IsDonor(q, e, quote)
  }

  /** The price of entry i, as borrowed. */
  function Borrowed(q: Query, entries: seq<IndexEntry>, i: int, quoteMatch: bool): Priced
    requires 0 <= i < |entries| && FreshIn(q.prices, q.tolerance, entries[i].id, q.near).Some?
  {
    Priced(FreshIn(q.prices, q.tolerance, entries[i].id, q.near).value, Fallback(entries[i].id.exchange, quoteMatch))
  }

  /** What one pass over a bucket returns. */
  ghost predicate PassReturns(q: Query, entries: seq<IndexEntry>, quote: Option<string>, r: Option<Priced>) {
    match r
    case None => NoDonor(q, entries, quote)
    case Some(p) => exists i :: FirstDonor(q, entries, quote, i) && p == Borrowed(q, entries, i, quote.Some?)
  }

  lemma FirstDonorUnique(q: Query, entries: seq<IndexEntry>, quote: Option<string>, i: int, j: int)
    requires FirstDonor(q, entries, quote, i) && FirstDonor(q, entries, quote, j)
    ensures i == j
  {}

  /** Native if fresh; else the first same-quote donor; else the first donor; else nothing. */
  ghost predicate Resolves(q: Query, entries: seq<IndexEntry>, quote: string, r: Option<Priced>) {
    if FreshIn(q.prices, q.tolerance, q.target, q.near).Some?
    then r == Some(Priced(FreshIn(q.prices, q.tolerance, q.target, q.near).value, Native))
    else if !NoDonor(q, entries, Some(quote)) then PassReturns(q, entries, Some(quote), r)
    else PassReturns(q, entries, None, r)
  }

  /** The answer is determined; there is none exactly when nobody has a fresh price. */
  lemma ResolvesUniquely(q: Query, entries: seq<IndexEntry>, quote: string, r: Option<Priced>, r': Option<Priced>)
    requires Resolves(q, entries, quote, r) && Resolves(q, entries, quote, r')
    ensures r == r'
    ensures r == None <==> FreshIn(q.prices, q.tolerance, q.target, q.near) == None && NoDonor(q, entries, None)
  {
    if FreshIn(q.prices, q.tolerance, q.target, q.near) == None {
      var pass := if !NoDonor(q, entries, Some(quote)) then Some(quote) else None;
      if r.Some? && r'.Some? {
        var i :| FirstDonor(q, entries, pass, i) && r.value == Borrowed(q, entries, i, pass.Some?);
        var j :| FirstDonor(q, entries, pass, j) && r'.value == Borrowed(q, entries, j, pass.Some?);
        FirstDonorUnique(q, entries, pass, i, j);
      }
    }
  }

  /** A borrowed price is flagged as a quote match exactly when its donor's quote is the one asked for. */
  lemma QuoteMatchIsTrue(q: Query, entries: seq<IndexEntry>, quote: string, r: Option<Priced>) returns (i: int)
    requires Resolves(q, entries, quote, r) && r.Some? && r.value.provenance.Fallback?
    ensures 0 <= i < |entries| && IsDonor(q, entries[i], None)
    ensures r.value.provenance == Fallback(entries[i].id.exchange, entries[i].quote == quote)
    ensures r.value.price == FreshIn(q.prices, q.tolerance, entries[i].id, q.near).value
  {
    var pass := if !NoDonor(q, entries, Some(quote)) then Some(quote) else None;
    i :| FirstDonor(q, entries, pass, i) && r.value == Borrowed(q, entries, i, pass.Some?);
    assert entries[i] in entries;
    assert pass == None ==> !IsDonor(q, entries[i], Some(quote));
  }

  // The provider

  predicate NoDuplicate(entries: seq<IndexEntry>) {
    forall i, j :: 0 <= i < j < |entries| ==> entries[i].id != entries[j].id
  }

  predicate Registered(entries: seq<IndexEntry>, k: InstrumentId) {
    exists i :: 0 <= i < |entries| && entries[i].id == k
  }

  /** The last quote for k, if there is one. */
  function LastQuote(quotes: seq<PriceQuote>, k: InstrumentId): Option<PriceQuote>
    decreases |quotes|
  {
    if quotes == [] then None
    else if quotes[|quotes| - 1].instrument == k then Some(quotes[|quotes| - 1])
    else LastQuote(quotes[..|quotes| - 1], k)
  }

  ghost predicate Ingested(before: Prices, quotes: seq<PriceQuote>, after: Prices) {
    forall k :: match LastQuote(quotes, k)
                case Some(q) => k in after && after[k] == (q.price, q.ts)
                case None => (k in after <==> k in before) && (k in after ==> after[k] == before[k])
  }

  class InMemoryPriceProvider {
    var prices: Prices
    var byBase: map<string, seq<IndexEntry>>
    const tolerance: Nanos

    predicate Valid()
      reads this
    {
      forall b :: b in byBase ==> NoDuplicate(byBase[b])
    }

    function Bucket(base: string): seq<IndexEntry>
      reads this
    {
      if base in byBase then byBase[base] else []
    }

    constructor (tolerance: Nanos)
      ensures Valid() && this.tolerance == tolerance && prices == map[] && byBase == map[]
    {
      this.tolerance, prices, byBase := tolerance, map[], map[];
    }

    method Ingest(quotes: seq<PriceQuote>)
      modifies this`prices
      ensures Ingested(old(prices), quotes, prices)
    {
      var i := 0;
      while i < |quotes|
        invariant 0 <= i <= |quotes|
        invariant Ingested(old(prices), quotes[..i], prices)
      {
        assert quotes[..i + 1][..i] == quotes[..i];
        prices := prices[quotes[i].instrument := (quotes[i].price, quotes[i].ts)];
        i := i + 1;
      }
      assert quotes[..i] == quotes;
    }

    /** Registering an instrument again changes nothing, and keeps its first quote. */
    method RegisterInstrument(instrument: InstrumentId, baseAsset: string, quoteAsset: string)
      requires Valid()
      modifies this`byBase
      ensures Valid()
      ensures var base := CanonicalBase(baseAsset);
        byBase == old(byBase)[base :=
          if Registered(old(Bucket(base)), instrument) then old(Bucket(base))
          else old(Bucket(base)) + [IndexEntry(instrument, CanonicalQuote(quoteAsset))]]
    {
      var base, quote := CanonicalBase(baseAsset), CanonicalQuote(quoteAsset);
      var bucket := Bucket(base);
      var known := false;
      var i := 0;
      while i < |bucket| && !known
        invariant 0 <= i <= |bucket|
        invariant known ==> Registered(bucket, instrument)
        invariant !known ==> forall j :: 0 <= j < i ==> bucket[j].id != instrument
      {
        known := bucket[i].id == instrument;
        i := i + 1;
      }
      if !known {
        bucket := bucket + [IndexEntry(instrument, quote)];
      }
      byBase := byBase[base := bucket];
    }

    function Fresh(instrument: InstrumentId, near: Nanos): Option<Decimal>
      reads this`prices
    {
      FreshIn(prices, tolerance, instrument, near)
    }

    /** Exchange by exchange, entry by entry: the first entry that will do. */
    method ScanPass(entries: seq<IndexEntry>, target: InstrumentId, near: Nanos, requireQuote: Option<string>)
      returns (r: Option<Priced>)
      ensures PassReturns(Query(prices, tolerance, target, near), entries, requireQuote, r)
    {
      ghost var q := Query(prices, tolerance, target, near);
      var x := 0;
      while x < |ALL_EXCHANGES|
        invariant 0 <= x <= |ALL_EXCHANGES|
        invariant forall j :: 0 <= j < |entries| && Rank(entries[j].id.exchange) < x ==> !IsDonor(q, entries[j], requireQuote)
      {
        RankOfListed(x);
        var i := 0;
        while i < |entries|
          invariant 0 <= i <= |entries|
          invariant forall j :: 0 <= j < i && Rank(entries[j].id.exchange) == x ==> !IsDonor(q, entries[j], requireQuote)
        {
          var entry := entries[i];
          if entry.id.exchange == ALL_EXCHANGES[x] && entry.id != target
             && (requireQuote == None || entry.quote == requireQuote.value) {
            var p := Fresh(entry.id, near);
            if p.Some? {
              assert FirstDonor(q, entries, requireQuote, i);
              return Some(Priced(p.value, Fallback(ALL_EXCHANGES[x], requireQuote.Some?)));
            }
          }
          i := i + 1;
        }
        x := x + 1;
      }
      r := None;
    }

    method PriceUsdWithFallback(instrument: InstrumentId, baseAsset: string, quoteAsset: string, near: Nanos)
      returns (r: Option<Priced>)
      ensures Resolves(Query(prices, tolerance, instrument, near), Bucket(CanonicalBase(baseAsset)), CanonicalQuote(quoteAsset), r)
    {
      var own := Fresh(instrument, near);
      if own.Some? {
        return Some(Priced(own.value, Native));
      }
      var base := CanonicalBase(baseAsset);
      if base !in byBase {
        return None;
      }
      var entries := byBase[base];
      ghost var q := Query(prices, tolerance, instrument, near);
      r := ScanPass(entries, instrument, near, Some(CanonicalQuote(quoteAsset)));
      if r.Some? {
        assert !NoDonor(q, entries, Some(CanonicalQuote(quoteAsset)));
        return;
      }
      r := ScanPass(entries, instrument, near, None);
    }
  }
}
