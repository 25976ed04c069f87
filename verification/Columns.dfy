/** The columnar wire formats: rows transposed into columns, and read back. */
module Columns {
  import opened Base
  import opened OiTypes
  import opened WalNames

  type Show = Decimal -> string
  type Parse = string -> Option<Decimal>

  /** Printed decimals read back as they were. */
  ghost predicate ReadsBack(show: Show, parse: Parse) {
    forall d :: parse(show(d)) == Some(d)
  }

  type Column<T> = Option<seq<Option<T>>>

  datatype OiColumns = OiColumns(
    n: nat, ts: seq<int>, native: Ohlc<seq<string>>, coins: Ohlc<Column<string>>, usd: Ohlc<Column<string>>)

  datatype OiRow = OiRow(ts: int, native: Ohlc<Decimal>, coins: Ohlc<Option<Decimal>>, usd: Ohlc<Option<Decimal>>)

  /** Milliseconds, cut toward zero. */
  function Millis(t: Nanos): int {
    if t >= 0 then t / 1_000_000 else -(-t / 1_000_000)
  }

  /** Less than a millisecond is lost, and never away from zero. */
  lemma MillisCuts(t: Nanos)
    ensures t >= 0 ==> 0 <= Millis(t) * 1_000_000 <= t < Millis(t) * 1_000_000 + 1_000_000
    ensures t <= 0 ==> Millis(t) * 1_000_000 - 1_000_000 < t <= Millis(t) * 1_000_000 <= 0
  {
    if t < 0 {
      assert -t == (-t / 1_000_000) * 1_000_000 + (-t % 1_000_000);
    }
  }

  function RowOf(s: Snapshot): OiRow {
    OiRow(Millis(s.bucket), s.native, s.coins, s.usd)
  }

  function ShowOption(v: Option<Decimal>, show: Show): Option<string> {
    match v case None => None case Some(d) => Some(show(d))
  }

  predicate AnyValue(v: Ohlc<Option<Decimal>>) {
    v.open.Some? || v.high.Some? || v.low.Some? || v.close.Some?
  }

  function Push<T>(column: Column<T>, v: Option<T>): Column<T> {
    match column case None => None case Some(vs) => Some(vs + [v])
  }

  /** One row pushed onto the four columns of a group, those that are there. */
  function PushGroup(g: Ohlc<Column<string>>, v: Ohlc<Option<Decimal>>, show: Show): Ohlc<Column<string>> {
    Ohlc(Push(g.open, ShowOption(v.open, show)), Push(g.high, ShowOption(v.high, show)),
         Push(g.low, ShowOption(v.low, show)), Push(g.close, ShowOption(v.close, show)))
  }

  function EmptyGroup(present: bool): Ohlc<Column<string>> {
    var c: Column<string> := if present then Some([]) else None;
    Ohlc(c, c, c, c)
  }

  function PushNative(g: Ohlc<seq<string>>, v: Ohlc<Decimal>, show: Show): Ohlc<seq<string>> {
    Ohlc(g.open + [show(v.open)], g.high + [show(v.high)], g.low + [show(v.low)], g.close + [show(v.close)])
  }

  // What the columns are

  predicate ColumnShows(column: Column<string>, i: int, v: Option<Decimal>, show: Show)
    requires column.Some? ==> 0 <= i < |column.value|
  {
    column.Some? ==> column.value[i] == ShowOption(v, show)
  }

  /** The group is absent, or its four columns have n entries each. */
  predicate Sized(g: Ohlc<Column<string>>, present: bool, n: nat) {
    if !present then g == EmptyGroup(false)
    else
      && g.open.Some? && g.high.Some? && g.low.Some? && g.close.Some?
      && |g.open.value| == |g.high.value| == |g.low.value| == |g.close.value| == n
  }

  predicate GroupShows(g: Ohlc<Column<string>>, i: nat, v: Ohlc<Option<Decimal>>, present: bool, n: nat, show: Show)
    requires Sized(g, present, n) && i < n
  {
    && ColumnShows(g.open, i, v.open, show) && ColumnShows(g.high, i, v.high, show)
    && ColumnShows(g.low, i, v.low, show) && ColumnShows(g.close, i, v.close, show)
  }

  predicate NativeSized(g: Ohlc<seq<string>>, n: nat) {
    |g.open| == |g.high| == |g.low| == |g.close| == n
  }

  predicate NativeShows(g: Ohlc<seq<string>>, i: nat, v: Ohlc<Decimal>, n: nat, show: Show)
    requires NativeSized(g, n) && i < n
  {
    g.open[i] == show(v.open) && g.high[i] == show(v.high) && g.low[i] == show(v.low) && g.close[i] == show(v.close)
  }

  /** Column by column, the first rows of `snaps`. */
  ghost predicate Holds(c: OiColumns, snaps: seq<Snapshot>, coins: bool, usd: bool, show: Show) {
    var n := |snaps|;
    && |c.ts| == n && NativeSized(c.native, n) && Sized(c.coins, coins, n) && Sized(c.usd, usd, n)
    && forall i :: 0 <= i < n ==> HoldsRow(c, i, snaps[i], coins, usd, n, show)
  }

  ghost predicate HoldsRow(c: OiColumns, i: nat, s: Snapshot, coins: bool, usd: bool, n: nat, show: Show)
    requires i < n == |c.ts| && NativeSized(c.native, n) && Sized(c.coins, coins, n) && Sized(c.usd, usd, n)
  {
    && c.ts[i] == Millis(s.bucket) && NativeShows(c.native, i, s.native, n, show)
    && GroupShows(c.coins, i, s.coins, coins, n, show) && GroupShows(c.usd, i, s.usd, usd, n, show)
  }

  ghost predicate SomeCoins(snaps: seq<Snapshot>) {
    exists s :: s in snaps && AnyValue(s.coins)
  }

  ghost predicate SomeUsd(snaps: seq<Snapshot>) {
    exists s :: s in snaps && AnyValue(s.usd)
  }

  lemma PushHolds(c: OiColumns, snaps: seq<Snapshot>, s: Snapshot, coins: bool, usd: bool, show: Show)
    requires Holds(c, snaps, coins, usd, show)
    ensures Holds(c.(ts := c.ts + [Millis(s.bucket)], native := PushNative(c.native, s.native, show),
                     coins := PushGroup(c.coins, s.coins, show), usd := PushGroup(c.usd, s.usd, show)),
                  snaps + [s], coins, usd, show)
  {
    var d := c.(ts := c.ts + [Millis(s.bucket)], native := PushNative(c.native, s.native, show),
                coins := PushGroup(c.coins, s.coins, show), usd := PushGroup(c.usd, s.usd, show));
    forall i | 0 <= i < |snaps + [s]| ensures HoldsRow(d, i, (snaps + [s])[i], coins, usd, |snaps + [s]|, show) {
      if i < |snaps| {
        assert HoldsRow(c, i, snaps[i], coins, usd, |snaps|, show);
      }
    }
  }

  /** First pass: which optional groups have any value. It stops as soon as both do. */
  method Detect(snaps: seq<Snapshot>) returns (hasCoins: bool, hasUsd: bool)
    ensures hasCoins == SomeCoins(snaps) && hasUsd == SomeUsd(snaps)
  {
    hasCoins, hasUsd := false, false;
    var i := 0;
    while i < |snaps|
      invariant 0 <= i <= |snaps|
      invariant hasCoins == SomeCoins(snaps[..i]) && hasUsd == SomeUsd(snaps[..i])
    {
      assert snaps[..i + 1] == snaps[..i] + [snaps[i]];
      assert snaps[i] in snaps[..i + 1];
      if !hasCoins && AnyValue(snaps[i].coins) {
        hasCoins := true;
      }
      if !hasUsd && AnyValue(snaps[i].usd) {
        hasUsd := true;
      }
      i := i + 1;
      if hasCoins && hasUsd {
        assert snaps == snaps[..i] + snaps[i..];
        break;
      }
    }
    assert i == |snaps| ==> snaps[..i] == snaps;
  }

  /** Transpose rows into columns; a group of columns is there iff some row has a value in it. */
  method FromSnapshots(snaps: seq<Snapshot>, show: Show) returns (out: OiColumns)
    ensures out.n == |snaps|
    ensures Holds(out, snaps, SomeCoins(snaps), SomeUsd(snaps), show)
  {
    var hasCoins, hasUsd := Detect(snaps);
    out := OiColumns(|snaps|, [], Ohlc([], [], [], []), EmptyGroup(hasCoins), EmptyGroup(hasUsd));
    var i := 0;
    while i < |snaps|
      invariant 0 <= i <= |snaps| && out.n == |snaps|
      invariant Holds(out, snaps[..i], hasCoins, hasUsd, show)
    {
      var s := snaps[i];
      PushHolds(out, snaps[..i], s, hasCoins, hasUsd, show);
      assert snaps[..i + 1] == snaps[..i] + [s];
      out := out.(ts := out.ts + [Millis(s.bucket)], native := PushNative(out.native, s.native, show),
                  coins := PushGroup(out.coins, s.coins, show), usd := PushGroup(out.usd, s.usd, show));
      i := i + 1;
    }
    assert snaps[..i] == snaps;
  }

  // Reading the columns back

  /** Entry i of a column; nothing where the column, the entry or a parsable number is missing. */
  function Entry(column: Column<string>, i: nat, parse: Parse): Option<Decimal> {
    match column
    case None => None
    case Some(vs) => if i < |vs| && vs[i].Some? then parse(vs[i].value) else None
  }

  function Group(g: Ohlc<Column<string>>, i: nat, parse: Parse): Ohlc<Option<Decimal>> {
    Ohlc(Entry(g.open, i, parse), Entry(g.high, i, parse), Entry(g.low, i, parse), Entry(g.close, i, parse))
  }

  function Number(vs: seq<string>, i: nat, parse: Parse): Option<Decimal> {
    if i < |vs| then parse(vs[i]) else None
  }

  function Native(g: Ohlc<seq<string>>, i: nat, parse: Parse): Ohlc<Option<Decimal>> {
    Ohlc(Number(g.open, i, parse), Number(g.high, i, parse), Number(g.low, i, parse), Number(g.close, i, parse))
  }

  /** Row i, if its native numbers can be read. */
  function ReadRow(c: OiColumns, i: nat, parse: Parse): Option<OiRow> {
    var native := Native(c.native, i, parse);
    if i < |c.ts| && native.open.Some? && native.high.Some? && native.low.Some? && native.close.Some? then
      Some(OiRow(c.ts[i], Ohlc(native.open.value, native.high.value, native.low.value, native.close.value),
                 Group(c.coins, i, parse), Group(c.usd, i, parse)))
    else None
  }

  lemma GroupReads(g: Ohlc<Column<string>>, i: nat, v: Ohlc<Option<Decimal>>, present: bool, n: nat, show: Show,
      parse: Parse)
    requires ReadsBack(show, parse) && i < n && Sized(g, present, n) && GroupShows(g, i, v, present, n, show)
    requires present || !AnyValue(v)
    ensures Group(g, i, parse) == v
  {}

  lemma NativeReads(g: Ohlc<seq<string>>, i: nat, v: Ohlc<Decimal>, n: nat, show: Show, parse: Parse)
    requires ReadsBack(show, parse) && i < n && NativeSized(g, n) && NativeShows(g, i, v, n, show)
    ensures Native(g, i, parse) == Ohlc(Some(v.open), Some(v.high), Some(v.low), Some(v.close))
  {
    NumberReads(v.open, show, parse);
    NumberReads(v.high, show, parse);
    NumberReads(v.low, show, parse);
    NumberReads(v.close, show, parse);
  }

  lemma NumberReads(d: Decimal, show: Show, parse: Parse)
    requires ReadsBack(show, parse)
    ensures parse(show(d)) == Some(d)
  {}

  /** Reading the columns gives back every row, and a group is missing exactly when no row has a value in it. */
  lemma DecodeInverts(out: OiColumns, snaps: seq<Snapshot>, show: Show, parse: Parse)
    requires ReadsBack(show, parse)
    requires Holds(out, snaps, SomeCoins(snaps), SomeUsd(snaps), show)
    ensures forall i :: 0 <= i < |snaps| ==> ReadRow(out, i, parse) == Some(RowOf(snaps[i]))
    ensures out.coins == Ohlc(None, None, None, None) <==> forall s :: s in snaps ==> s.coins == Ohlc(None, None, None, None)
    ensures out.usd == Ohlc(None, None, None, None) <==> forall s :: s in snaps ==> s.usd == Ohlc(None, None, None, None)
  {
    forall i | 0 <= i < |snaps| ensures ReadRow(out, i, parse) == Some(RowOf(snaps[i])) {
      var s, n := snaps[i], |snaps|;
      assert s in snaps;
      assert HoldsRow(out, i, s, SomeCoins(snaps), SomeUsd(snaps), n, show);
      NativeReads(out.native, i, s.native, n, show, parse);
      assert !SomeCoins(snaps) ==> !AnyValue(s.coins);
      assert !SomeUsd(snaps) ==> !AnyValue(s.usd);
      GroupReads(out.coins, i, s.coins, SomeCoins(snaps), n, show, parse);
      GroupReads(out.usd, i, s.usd, SomeUsd(snaps), n, show, parse);
    }
  }

  // Numbers that read back

  /** One way of printing: a sign where needed, and decimal digits. */
  function Print(d: Decimal): string {
    if d < 0 then "-" + Digits(-d, Dec) else Digits(d, Dec)
  }

  function Scan(s: string): Option<Decimal> {
    var negative := s != "" && s[0] == '-';
    var digits := DecimalValue(if negative then s[1..] else s);
    if digits == None then None
    else
      var d: Decimal := if negative then -(digits.value as int) else digits.value;
      Some(d)
  }

  lemma ScanPrinted(d: Decimal)
    ensures Scan(Print(d)) == Some(d)
  {
    if d < 0 {
      DecimalRoundTrip(-d);
      assert Print(d)[1..] == Digits(-d, Dec);
    } else {
      DecimalRoundTrip(d);
      DigitsPlain(d, Dec);
      assert Print(d)[0] in Digits(d, Dec);
    }
  }

  /** There are printers whose output reads back, so what is said of them is said of something. */
  lemma PrintedReadsBack()
    ensures ReadsBack(Print, Scan)
  {
    forall d ensures Scan(Print(d)) == Some(d) {
      ScanPrinted(d);
    }
  }

  // Funding

  datatype FundingColumns = FundingColumns(n: nat, ts: seq<int>, rate: seq<string>, nextFunding: Column<int>, intervalHours: Column<nat>)

  datatype FundingRow = FundingRow(ts: int, rate: Decimal, nextFunding: Option<int>, intervalHours: Option<nat>)

  function MillisOption(t: Option<Nanos>): Option<int> {
    match t case None => None case Some(x) => Some(Millis(x))
  }

  function FundingRowOf(b: FundingBar): FundingRow {
    FundingRow(Millis(b.bucket), b.rate, MillisOption(b.nextFunding), b.intervalHours)
  }

  /** A column is there exactly when some bar has a value for it. */
  ghost predicate FundingHolds(c: FundingColumns, bars: seq<FundingBar>, nft: bool, ih: bool, show: Show) {
    var n := |bars|;
    && |c.ts| == n == |c.rate|
    && (if nft then c.nextFunding.Some? && |c.nextFunding.value| == n else c.nextFunding == None)
    && (if ih then c.intervalHours.Some? && |c.intervalHours.value| == n else c.intervalHours == None)
    && forall i :: 0 <= i < n ==>
         && c.ts[i] == Millis(bars[i].bucket) && c.rate[i] == show(bars[i].rate)
         && (nft && bars[i].nextFunding.None? ==> c.nextFunding.value[i] == None)
         && (nft && bars[i].nextFunding.Some? ==> c.nextFunding.value[i] == Some(Millis(bars[i].nextFunding.value)))
         && (ih ==> c.intervalHours.value[i] == bars[i].intervalHours)
  }

  predicate SomeNext(bars: seq<FundingBar>) {
    exists b :: b in bars && b.nextFunding.Some?
  }

  predicate SomeInterval(bars: seq<FundingBar>) {
    exists b :: b in bars && b.intervalHours.Some?
  }

  method FromBars(bars: seq<FundingBar>, show: Show) returns (out: FundingColumns)
    ensures out.n == |bars|
    ensures FundingHolds(out, bars, SomeNext(bars), SomeInterval(bars), show)
  {
    var hasNft, hasIh := SomeNext(bars), SomeInterval(bars);
    out := FundingColumns(|bars|, [], [], if hasNft then Some([]) else None, if hasIh then Some([]) else None);
    var i := 0;
    while i < |bars|
      invariant 0 <= i <= |bars| && out.n == |bars|
      invariant FundingHolds(out, bars[..i], hasNft, hasIh, show)
    {
      var b := bars[i];
      assert bars[..i + 1] == bars[..i] + [b];
      out := out.(ts := out.ts + [Millis(b.bucket)], rate := out.rate + [show(b.rate)],
                  nextFunding := Push(out.nextFunding, MillisOption(b.nextFunding)),
                  intervalHours := Push(out.intervalHours, b.intervalHours));
      i := i + 1;
    }
    assert bars[..i] == bars;
  }

  function At<T>(column: Column<T>, i: nat): Option<T> {
    match column case None => None case Some(vs) => if i < |vs| then vs[i] else None
  }

  function ReadFundingRow(c: FundingColumns, i: nat, parse: Parse): Option<FundingRow> {
    if i < |c.ts| && i < |c.rate| && parse(c.rate[i]).Some?
    then Some(FundingRow(c.ts[i], parse(c.rate[i]).value, At(c.nextFunding, i), At(c.intervalHours, i)))
    else None
  }

  lemma FundingDecodeInverts(out: FundingColumns, bars: seq<FundingBar>, show: Show, parse: Parse)
    requires ReadsBack(show, parse)
    requires FundingHolds(out, bars, SomeNext(bars), SomeInterval(bars), show)
    ensures forall i :: 0 <= i < |bars| ==> ReadFundingRow(out, i, parse) == Some(FundingRowOf(bars[i]))
    ensures out.nextFunding == None <==> !SomeNext(bars)
    ensures out.intervalHours == None <==> !SomeInterval(bars)
  {
    forall i | 0 <= i < |bars| ensures ReadFundingRow(out, i, parse) == Some(FundingRowOf(bars[i])) {
      assert bars[i] in bars;
    }
  }
}
