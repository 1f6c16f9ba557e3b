/** The Indexer of indexer.go: a table of running averages per ticker, fed
    by a collecter on every tick and reported to a handler.

    `strconv.ParseFloat` and `strconv.FormatFloat` are parameters (`parse`,
    `format`); the collecter is an interface in the source, so `Index`
    receives what its `Collect` returned; the handler is a `Handler` object
    that records the prices it receives. */
module Indexer {
  import opened Wrappers
  import opened Errors
  import opened Ticker
  import opened Averaging
  import Collecter
  import Lifecycle

  /** What `Collect` returned: the price slice and the error, nil as None. */
  datatype Collected = Collected(prices: Option<seq<Price>>, err: Option<Error>)

  /** The abstract value of the `avgs` map. */
  type Table = map<Ticker, Acc>

  /** Every accumulator in the table has counted at least one sample. */
  predicate WellFormed(t: Table) {
    forall k | k in t :: t[k].num >= 1.0
  }

  /** One parsed sample folded into the table. The first sample of a ticker
      is stored as parsed, sign included; later ones go through `Add`. */
  function Fold(t: Table, tk: Ticker, p: real): Table {
    if tk in t then t[tk := t[tk].Add(p)] else t[tk := Acc(p, 1.0)]
  }

  /** The table after folding `prices` in order, and the parse error that
      stopped the fold, if any; samples before the failing one stay folded. */
  datatype Folded = Folded(table: Table, err: Option<Error>)

  function FoldPrices(t: Table, prices: seq<Price>, parse: string -> Option<real>): Folded
    decreases |prices|
  {
    if prices == [] then Folded(t, None)
    else
      var f := FoldPrices(t, prices[..|prices| - 1], parse);
      var last := prices[|prices| - 1];
      if f.err.Some? then f
      else match parse(last.price)
        case None => Folded(f.table, Some(NumError(last.price)))
        case Some(p) => Folded(Fold(f.table, last.ticker, p), None)
  }

  /** What one `index` call does to the table: a collect error leaves it
      alone, otherwise the collected prices are folded in. */
  function IndexTable(t: Table, c: Collected, parse: string -> Option<real>): Folded {
    if c.err.Some? then Folded(t, c.err) else FoldPrices(t, c.prices.GetOr([]), parse)
  }

  /** Folding never removes a ticker, never adds one that no price named,
      adds every ticker when all prices parse, and keeps every count at
      least one. */
  lemma {:induction false} FoldPricesKeys(t: Table, prices: seq<Price>, parse: string -> Option<real>)
    ensures var r := FoldPrices(t, prices, parse).table;
      && t.Keys <= r.Keys
      && (forall k | k in r :: k in t || exists j | 0 <= j < |prices| :: prices[j].ticker == k)
      && (FoldPrices(t, prices, parse).err.None? ==> forall j | 0 <= j < |prices| :: prices[j].ticker in r)
      && (WellFormed(t) ==> WellFormed(r))
    decreases |prices|
  {
    if prices != [] {
      var init := prices[..|prices| - 1];
      FoldPricesKeys(t, init, parse);
      forall j | 0 <= j < |init| ensures prices[j] == init[j] { }
    }
  }

  /** Prices after a parse failure are never looked at. */
  lemma {:induction false} FoldPricesStopsAtError(t: Table, prices: seq<Price>, m: nat, parse: string -> Option<real>)
    requires m <= |prices|
    requires FoldPrices(t, prices[..m], parse).err.Some?
    ensures FoldPrices(t, prices, parse) == FoldPrices(t, prices[..m], parse)
    decreases |prices| - m
  {
    if m < |prices| {
      assert prices[..m + 1][..m] == prices[..m];
      FoldPricesStopsAtError(t, prices, m + 1, parse);
    } else {
      assert prices[..m] == prices;
    }
  }

  /** A fold fails exactly when some price does not parse; it then fails
      with the first such price's error, and the table holds the fold of
      the prices before it. */
  lemma {:induction false} FoldPricesError(t: Table, prices: seq<Price>, parse: string -> Option<real>)
    ensures FoldPrices(t, prices, parse).err.None? <==> forall j | 0 <= j < |prices| :: parse(prices[j].price).Some?
    ensures var f := FoldPrices(t, prices, parse);
      f.err.Some? ==>
        exists j | 0 <= j < |prices| ::
          && parse(prices[j].price).None?
          && (forall k | 0 <= k < j :: parse(prices[k].price).Some?)
          && f.err == Some(NumError(prices[j].price))
          && f.table == FoldPrices(t, prices[..j], parse).table
    decreases |prices|
  {
    if prices != [] {
      var n := |prices|;
      var init := prices[..n - 1];
      FoldPricesError(t, init, parse);
      forall j | 0 <= j < |init| ensures prices[j] == init[j] { }
      var f := FoldPrices(t, init, parse);
      if f.err.Some? {
        var j :| 0 <= j < |init| && parse(init[j].price).None? && (forall k | 0 <= k < j :: parse(init[k].price).Some?)
          && f.err == Some(NumError(init[j].price)) && f.table == FoldPrices(t, init[..j], parse).table;
        assert init[..j] == prices[..j];
      } else if parse(prices[n - 1].price).None? {
        assert prices[..n - 1] == init;
      }
    }
  }

  /** The entry a ticker has, if any. */
  function Lookup(t: Table, tk: Ticker): Option<Acc> {
    if tk in t then Some(t[tk]) else None
  }

  /** The parsed values of the prices that name `tk`, in order. */
  function Samples(prices: seq<Price>, tk: Ticker, parse: string -> Option<real>): seq<real>
    decreases |prices|
  {
    if prices == [] then []
    else
      var last := prices[|prices| - 1];
      Samples(prices[..|prices| - 1], tk, parse)
        + (if last.ticker == tk && parse(last.price).Some? then [parse(last.price).value] else [])
  }

  /** The prices before the first one that does not parse. */
  function Parsed(prices: seq<Price>, parse: string -> Option<real>): (r: seq<Price>)
    ensures |r| <= |prices|
    decreases |prices|
  {
    if prices == [] || parse(prices[0].price).None? then []
    else [prices[0]] + Parsed(prices[1..], parse)
  }

  /** The entry a ticker reaches from `o` after the samples `vs`, in closed
      form: a ticker not yet in the table starts from its first sample as
      parsed, sign included, and every later sample adds its magnitude; a
      ticker already there adds the magnitude of every sample. */
  function Entry(o: Option<Acc>, vs: seq<real>): Option<Acc> {
    if vs == [] then o
    else if o.None? then Some(Acc(vs[0] + SumAbs(vs[1..]), |vs| as real))
    else Some(Acc(o.value.sum + SumAbs(vs), o.value.num + |vs| as real))
  }

  lemma EntrySnoc(o: Option<Acc>, vs: seq<real>, v: real)
    ensures Entry(o, vs + [v]) == Some(if Entry(o, vs).None? then Acc(v, 1.0) else Entry(o, vs).value.Add(v))
  {
    var ws := vs + [v];
    assert ws[..|ws| - 1] == vs;
    if vs != [] {
      assert ws[1..][..|ws[1..]| - 1] == vs[1..];
    }
  }

  lemma EntryAppend(o: Option<Acc>, vs: seq<real>, ws: seq<real>)
    ensures Entry(Entry(o, vs), ws) == Entry(o, vs + ws)
  {
    if vs == [] {
      assert vs + ws == ws;
    } else if ws == [] {
      assert vs + ws == vs;
    } else if o.None? {
      EntryAppendNew(vs, ws);
    } else {
      SumAbsAppend(vs, ws);
    }
  }

  lemma EntryAppendNew(vs: seq<real>, ws: seq<real>)
    requires vs != [] && ws != []
    ensures Entry(Entry(None, vs), ws) == Entry(None, vs + ws)
  {
    var all := vs + ws;
    assert all[0] == vs[0] && all[1..] == vs[1..] + ws;
    SumAbsAppend(vs[1..], ws);
  }

  /** When every price parses, each ticker's entry after the fold is the
      closed form `Entry` of its own samples: other tickers' prices do not
      affect it, and a ticker with no sample keeps what it had (absent
      stays absent). */
  lemma {:induction false} FoldPricesEntry(t: Table, prices: seq<Price>, tk: Ticker, parse: string -> Option<real>)
    requires forall j | 0 <= j < |prices| :: parse(prices[j].price).Some?
    ensures FoldPrices(t, prices, parse).err.None?
    ensures Lookup(FoldPrices(t, prices, parse).table, tk) == Entry(Lookup(t, tk), Samples(prices, tk, parse))
    decreases |prices|
  {
    if prices != [] {
      var n := |prices|;
      var init := prices[..n - 1];
      FoldPricesEntry(t, init, tk, parse);
      var vs := Samples(init, tk, parse);
      var f := FoldPrices(t, init, parse);
      var last := prices[n - 1];
      var p := parse(last.price).value;
      assert FoldPrices(t, prices, parse) == Folded(Fold(f.table, last.ticker, p), None);
      if last.ticker == tk {
        assert Samples(prices, tk, parse) == vs + [p];
        EntrySnoc(Lookup(t, tk), vs, p);
      } else {
        assert Samples(prices, tk, parse) == vs + [];
        assert vs + [] == vs;
      }
    }
  }

  lemma {:induction false} ParsedIsPrefix(prices: seq<Price>, j: nat, parse: string -> Option<real>)
    requires j <= |prices|
    requires forall k | 0 <= k < j :: parse(prices[k].price).Some?
    requires j < |prices| ==> parse(prices[j].price).None?
    ensures Parsed(prices, parse) == prices[..j]
    decreases |prices|
  {
    if j == 0 {
      assert prices[..0] == [];
    } else {
      ParsedIsPrefix(prices[1..], j - 1, parse);
      assert [prices[0]] + prices[1..][..j - 1] == prices[..j];
    }
  }

  /** Whatever the parse results, each ticker's entry after the fold is the
      closed form `Entry` of its samples among the prices before the first
      parse failure. */
  lemma FoldPricesEntryAny(t: Table, prices: seq<Price>, tk: Ticker, parse: string -> Option<real>)
    ensures Lookup(FoldPrices(t, prices, parse).table, tk)
      == Entry(Lookup(t, tk), Samples(Parsed(prices, parse), tk, parse))
  {
    FoldPricesError(t, prices, parse);
    var f := FoldPrices(t, prices, parse);
    if f.err.None? {
      ParsedIsPrefix(prices, |prices|, parse);
      assert prices[..|prices|] == prices;
      FoldPricesEntry(t, prices, tk, parse);
    } else {
      var j :| 0 <= j < |prices| && parse(prices[j].price).None?
        && (forall k | 0 <= k < j :: parse(prices[k].price).Some?)
        && f.err == Some(NumError(prices[j].price))
        && f.table == FoldPrices(t, prices[..j], parse).table;
      ParsedIsPrefix(prices, j, parse);
      FoldPricesEntry(t, prices[..j], tk, parse);
    }
  }

  /** Any number of `index` calls in a row: keys are never removed and
      every count stays at least one. */
  function IndexAll(t: Table, cs: seq<Collected>, parse: string -> Option<real>): Table
    decreases |cs|
  {
    if cs == [] then t else IndexAll(IndexTable(t, cs[0], parse).table, cs[1..], parse)
  }

  lemma {:induction false} IndexAllKeepsKeys(t: Table, cs: seq<Collected>, parse: string -> Option<real>)
    requires WellFormed(t)
    ensures t.Keys <= IndexAll(t, cs, parse).Keys
    ensures WellFormed(IndexAll(t, cs, parse))
    decreases |cs|
  {
    if cs != [] {
      var c := cs[0];
      if c.err.None? {
        FoldPricesKeys(t, c.prices.GetOr([]), parse);
      }
      IndexAllKeepsKeys(IndexTable(t, c, parse).table, cs[1..], parse);
    }
  }

  /** The samples of `tk` that a run of `index` calls folds in: for each
      call whose collect succeeded, those among the prices before its
      first parse failure. */
  function AllSamples(cs: seq<Collected>, tk: Ticker, parse: string -> Option<real>): seq<real>
    decreases |cs|
  {
    if cs == [] then []
    else
      (if cs[0].err.None? then Samples(Parsed(cs[0].prices.GetOr([]), parse), tk, parse) else [])
        + AllSamples(cs[1..], tk, parse)
  }

  /** Across any run of `index` calls, a ticker's entry is the closed form
      `Entry` of all its samples, however they were split among the calls
      and interleaved with other tickers' prices. */
  lemma {:induction false} IndexAllEntry(t: Table, cs: seq<Collected>, tk: Ticker, parse: string -> Option<real>)
    ensures Lookup(IndexAll(t, cs, parse), tk) == Entry(Lookup(t, tk), AllSamples(cs, tk, parse))
    decreases |cs|
  {
    if cs != [] {
      var c := cs[0];
      var t1 := IndexTable(t, c, parse).table;
      IndexAllEntry(t1, cs[1..], tk, parse);
      var vs := if c.err.None? then Samples(Parsed(c.prices.GetOr([]), parse), tk, parse) else [];
      if c.err.None? {
        FoldPricesEntryAny(t, c.prices.GetOr([]), tk, parse);
      } else {
        assert Lookup(t1, tk) == Entry(Lookup(t, tk), vs);
      }
      EntryAppend(Lookup(t, tk), vs, AllSamples(cs[1..], tk, parse));
    }
  }

  /** A ticker that was not in the table is absent exactly when it got no
      sample; otherwise its count is its number of samples and its sum is
      the sum of their magnitudes, except that a negative first sample
      counts with its sign. With non-negative samples the average is the
      mean Σ|v|/n. */
  lemma NewTickerAverage(t: Table, cs: seq<Collected>, tk: Ticker, parse: string -> Option<real>)
    requires tk !in t
    ensures var r := IndexAll(t, cs, parse); var vs := AllSamples(cs, tk, parse);
      && (tk in r <==> vs != [])
      && (tk in r ==>
            && r[tk].num == |vs| as real
            && r[tk].sum == SumAbs(vs) + vs[0] - Abs(vs[0])
            && ((forall j | 0 <= j < |vs| :: vs[j] >= 0.0) ==> r[tk].Average() == SumAbs(vs) / |vs| as real))
  {
    var r := IndexAll(t, cs, parse);
    var vs := AllSamples(cs, tk, parse);
    IndexAllEntry(t, cs, tk, parse);
    if vs != [] {
      SumAbsCons(vs);
      var a := r[tk];
      assert a == Acc(vs[0] + SumAbs(vs[1..]), |vs| as real);
      if forall j | 0 <= j < |vs| :: vs[j] >= 0.0 {
        assert vs[0] >= 0.0;
        MeanOf(a, SumAbs(vs), |vs|);
      }
    }
  }

  lemma SumAbsCons(vs: seq<real>)
    requires vs != []
    ensures SumAbs(vs) == Abs(vs[0]) + SumAbs(vs[1..])
  {
    SumAbsAppend([vs[0]], vs[1..]);
    assert [vs[0]] + vs[1..] == vs;
    assert [vs[0]][..0] == [];
  }

  lemma MeanOf(a: Acc, total: real, n: nat)
    requires n > 0 && a == Acc(total, n as real)
    ensures a.Average() == total / n as real
  {
    assert a.Average() * a.num == a.sum;
  }

  /** The raw first sample makes a new ticker's entry depend on the order
      and the signs of its samples: -1 then 2 gives sum 1, 2 then -1 gives
      sum 3, and -1, -2, -3, -4 give sum 8 where `Add` alone gives 10. */
  lemma FirstSampleKeepsSign(at: Time, parse: string -> Option<real>)
    requires parse("-1") == Some(-1.0) && parse("2") == Some(2.0)
    requires parse("-2") == Some(-2.0) && parse("-3") == Some(-3.0) && parse("-4") == Some(-4.0)
    ensures Lookup(FoldPrices(map[], [Price(BTCUSDTicker, at, "-1"), Price(BTCUSDTicker, at, "2")], parse).table, BTCUSDTicker)
      == Some(Acc(1.0, 2.0))
    ensures Lookup(FoldPrices(map[], [Price(BTCUSDTicker, at, "2"), Price(BTCUSDTicker, at, "-1")], parse).table, BTCUSDTicker)
      == Some(Acc(3.0, 2.0))
    ensures Lookup(FoldPrices(map[], [Price(BTCUSDTicker, at, "-1"), Price(BTCUSDTicker, at, "-2"),
                                      Price(BTCUSDTicker, at, "-3"), Price(BTCUSDTicker, at, "-4")], parse).table, BTCUSDTicker)
      == Some(Acc(8.0, 4.0))
  {
    var tk := BTCUSDTicker;
    var m1, p2 := Price(tk, at, "-1"), Price(tk, at, "2");
    var m2, m3, m4 := Price(tk, at, "-2"), Price(tk, at, "-3"), Price(tk, at, "-4");
    SamplesOfOne(m1, p2, m3, m4, tk, parse);
    SamplesOfOne(m1, m2, m3, m4, tk, parse);
    FoldPricesEntry(map[], [m1, p2], tk, parse);
    FoldPricesEntry(map[], [p2, m1], tk, parse);
    FoldPricesEntry(map[], [m1, m2, m3, m4], tk, parse);
    assert [m1, p2][..1] == [m1];
    assert [p2, m1][..1] == [p2];
    assert [m1][..0] == [] && [p2][..0] == [];
    assert [-2.0, -3.0, -4.0][..2] == [-2.0, -3.0];
    assert [-2.0, -3.0][..1] == [-2.0];
    assert [-2.0][..0] == [];
  }

  /** The samples of prices that all name `tk` and all parse. */
  lemma SamplesOfOne(a: Price, b: Price, c: Price, d: Price, tk: Ticker, parse: string -> Option<real>)
    requires a.ticker == tk && b.ticker == tk && c.ticker == tk && d.ticker == tk
    requires parse(a.price).Some? && parse(b.price).Some? && parse(c.price).Some? && parse(d.price).Some?
    ensures var va, vb, vc, vd := parse(a.price).value, parse(b.price).value, parse(c.price).value, parse(d.price).value;
      && Samples([a, b], tk, parse) == [va, vb]
      && Samples([b, a], tk, parse) == [vb, va]
      && Samples([a, b, c, d], tk, parse) == [va, vb, vc, vd]
  {
    var va, vb, vc, vd := parse(a.price).value, parse(b.price).value, parse(c.price).value, parse(d.price).value;
    assert [a][..0] == [] && [b][..0] == [];
    assert Samples([a], tk, parse) == [va] && Samples([b], tk, parse) == [vb];
    assert [a, b][..1] == [a] && [b, a][..1] == [b];
    assert Samples([a, b], tk, parse) == [va] + [vb];
    assert Samples([b, a], tk, parse) == [vb] + [va];
    assert [a, b, c][..2] == [a, b];
    assert Samples([a, b, c], tk, parse) == [va, vb] + [vc];
    assert [a, b, c, d][..3] == [a, b, c];
    assert Samples([a, b, c, d], tk, parse) == [va, vb, vc] + [vd];
  }

  /** The handler call for ticker `k`. */
  function Report(t: Table, k: Ticker, at: Time, format: real -> string): Price
    requires k in t && t[k].num != 0.0
  {
    Price(k, at, format(t[k].Average()))
  }

  /** The tickers a batch of handler calls was made for. */
  function Tickers(batch: seq<Price>): set<Ticker> {
    set j | 0 <= j < |batch| :: batch[j].ticker
  }

  /** `batch` holds one handler call per ticker of `t` and no other, each
      carrying the tick's time and the formatted average, in some order. */
  predicate Reports(batch: seq<Price>, t: Table, at: Time, format: real -> string)
    requires WellFormed(t)
  {
    ReportsSome(batch, t, t.Keys, at, format)
  }

  /** `batch` reports exactly the tickers of `seen`, once each. */
  predicate ReportsSome(batch: seq<Price>, t: Table, seen: set<Ticker>, at: Time, format: real -> string)
    requires WellFormed(t)
  {
    && seen <= t.Keys
    && Tickers(batch) == seen
    && (forall j, j' | 0 <= j < j' < |batch| :: batch[j].ticker != batch[j'].ticker)
    && (forall j | 0 <= j < |batch| :: batch[j].ticker in t && batch[j] == Report(t, batch[j].ticker, at, format))
  }

  lemma ReportsSomeGrow(batch: seq<Price>, t: Table, seen: set<Ticker>, at: Time, format: real -> string, k: Ticker)
    requires WellFormed(t) && ReportsSome(batch, t, seen, at, format)
    requires k in t && k !in seen
    ensures ReportsSome(batch + [Report(t, k, at, format)], t, seen + {k}, at, format)
  {
    var b := batch + [Report(t, k, at, format)];
    assert Tickers(b) == Tickers(batch) + {k} by {
      assert forall j | 0 <= j < |batch| :: b[j] == batch[j];
      assert b[|batch|].ticker == k;
    }
  }

  /** Tickers that do not repeat are as many as the calls. */
  lemma {:induction false} TickersCount(batch: seq<Price>)
    requires forall j, j' | 0 <= j < j' < |batch| :: batch[j].ticker != batch[j'].ticker
    ensures |Tickers(batch)| == |batch|
    decreases |batch|
  {
    if batch != [] {
      var init := batch[..|batch| - 1];
      var last := batch[|batch| - 1];
      TickersCount(init);
      assert Tickers(batch) == Tickers(init) + {last.ticker};
      assert last.ticker !in Tickers(init);
    }
  }

  /** The handler is called exactly as many times as the table has keys,
      and once for each key. */
  lemma ReportsOncePerKey(batch: seq<Price>, t: Table, at: Time, format: real -> string)
    requires WellFormed(t) && Reports(batch, t, at, format)
    ensures |batch| == |t|
    ensures forall k | k in t :: exists j | 0 <= j < |batch| :: batch[j].ticker == k
  {
    TickersCount(batch);
    assert |t.Keys| == |t|;
    forall k | k in t ensures exists j | 0 <= j < |batch| :: batch[j].ticker == k {
      assert k in Tickers(batch);
    }
  }

  /** A sequence without repetitions holds each of its elements once. */
  lemma {:induction false} DistinctMultiset(s: seq<Price>)
    requires forall j, j' | 0 <= j < j' < |s| :: s[j] != s[j']
    ensures forall x :: multiset(s)[x] == if x in s then 1 else 0
    decreases |s|
  {
    if s != [] {
      var init := s[..|s| - 1];
      DistinctMultiset(init);
      assert s == init + [s[|s| - 1]];
      assert s[|s| - 1] !in init;
    }
  }

  /** Reports of the same table and tick agree up to order: the handler's
      calls are determined as a multiset. */
  lemma ReportsDetermined(b1: seq<Price>, b2: seq<Price>, t: Table, at: Time, format: real -> string)
    requires WellFormed(t)
    requires Reports(b1, t, at, format) && Reports(b2, t, at, format)
    ensures multiset(b1) == multiset(b2)
  {
    DistinctMultiset(b1);
    DistinctMultiset(b2);
    forall x ensures x in b1 <==> x in b2 {
      if x in b1 {
        var i :| 0 <= i < |b1| && b1[i] == x;
        assert x.ticker in Tickers(b2);
        var j :| 0 <= j < |b2| && b2[j].ticker == x.ticker;
        assert b2[j] == x;
      }
      if x in b2 {
        var i :| 0 <= i < |b2| && b2[i] == x;
        assert x.ticker in Tickers(b1);
        var j :| 0 <= j < |b1| && b1[j].ticker == x.ticker;
        assert b1[j] == x;
      }
    }
  }

  /** Two samples "2" and "2" for BTC_USD on a fresh table give one handler
      call, for BTC_USD at the tick's time with price "2". */
  lemma IndexTwoSamplesExample(at: Time, seen: Time, parse: string -> Option<real>, format: real -> string)
    requires parse("2") == Some(2.0) && format(2.0) == "2"
    ensures var c := Collected(Some([Price(BTCUSDTicker, seen, "2"), Price(BTCUSDTicker, seen, "2")]), None);
      var f := IndexTable(map[], c, parse);
      && f.err.None?
      && f.table == map[BTCUSDTicker := Acc(4.0, 2.0)]
      && (forall batch :: Reports(batch, f.table, at, format) <==> batch == [Price(BTCUSDTicker, at, "2")])
  {
    var prices := [Price(BTCUSDTicker, seen, "2"), Price(BTCUSDTicker, seen, "2")];
    FoldPricesEntry(map[], prices, BTCUSDTicker, parse);
    FoldPricesKeys(map[], prices, parse);
    SamplesOfOne(prices[0], prices[1], prices[0], prices[1], BTCUSDTicker, parse);
    assert [prices[0], prices[1]] == prices;
    assert [2.0, 2.0][1..] == [2.0];
    assert SumAbs([2.0]) == 2.0 by {
      assert [2.0][..0] == [];
    }
    var t := map[BTCUSDTicker := Acc(4.0, 2.0)];
    assert FoldPrices(map[], prices, parse).table == t by {
      var r := FoldPrices(map[], prices, parse).table;
      assert r.Keys == {BTCUSDTicker};
      assert Lookup(r, BTCUSDTicker) == Some(Acc(4.0, 2.0));
    }
    assert t[BTCUSDTicker].Average() == 2.0;
    var expected := [Price(BTCUSDTicker, at, "2")];
    assert Report(t, BTCUSDTicker, at, format) == expected[0];
    forall batch: seq<Price> ensures Reports(batch, t, at, format) <==> batch == expected {
      if Reports(batch, t, at, format) {
        ReportsOncePerKey(batch, t, at, format);
        assert |batch| == 1 && batch[0].ticker in t;
        assert batch[0] == expected[0];
      }
      if batch == expected {
        assert Tickers(batch) == {BTCUSDTicker} by {
          assert batch[0].ticker == BTCUSDTicker;
        }
      }
    }
  }

  /** A handler that records every price it is called with. */
  class Handler {
    var calls: seq<Price>

    constructor ()
      ensures calls == []
    {
      calls := [];
    }

    method Handle(p: Price)
      modifies this
      ensures calls == old(calls) + [p]
    {
      calls := calls + [p];
    }
  }

  class Indexer {
    var avgs: map<Ticker, Avg>
    var handle: Handler
    var interval: int
    var collecter: Collecter.StreamCollecter
    var err: Option<Error>
    var started: bool
    var done: bool
    var pending: seq<Error>
    var stopping: nat  // Stop calls waiting in their select

    /** Every accumulator has counted a sample, and no two tickers share one. */
    ghost predicate Valid()
      reads this, avgs.Values
    {
      && (forall k | k in avgs :: avgs[k].num >= 1.0)
      && (forall k, k' | k in avgs && k' in avgs && k != k' :: avgs[k] != avgs[k'])
      && Lifecycle.Inv(Life())
    }

    /** The values the `avgs` map points to. */
    ghost function Table(): Table
      reads this, avgs.Values
    {
      map k | k in avgs :: avgs[k].Value()
    }

    /** The lifecycle fields, as a Lifecycle state. */
    function Life(): Lifecycle.State
      reads this
    {
      Lifecycle.State(started, done, err, pending, stopping)
    }

    /** The initial state of a valid `NewIndexer` call. */
    constructor (clctr: Collecter.StreamCollecter, handle: Handler, interval: int)
      ensures Valid()
      ensures avgs == map[] && Life() == Lifecycle.Initial
      ensures this.handle == handle && this.collecter == clctr && this.interval == interval
    {
      this.collecter := clctr;
      this.done := false;
      this.started := false;
      this.avgs := map[];
      this.handle := handle;
      this.interval := interval;
      this.err := None;
      this.pending := [];
      this.stopping := 0;
    }

    /** The last error recorded by the loop. */
    function Err(): (r: Option<Error>)
      reads this
      ensures r == Life().err
    {
      err
    }

    /** Starts the loop unless it is running. */
    method Start()
      requires Valid()
      modifies this`started
      ensures Valid()
      ensures Life() == Lifecycle.Next(old(Life()), Lifecycle.Start)
    {
      if started {
        return;
      }
      started := true;
    }

    /** The first step of `Stop`: it loads `started` and, when the loop is
        not running, returns nil at once; otherwise it goes on to wait in
        its select. */
    method StopCheck() returns (returned: bool)
      requires Valid()
      modifies this`stopping
      ensures Valid()
      ensures Life() == Lifecycle.Next(old(Life()), Lifecycle.StopCheck)
      ensures returned <==> !old(started)
    {
      if !started {
        return true;
      }
      stopping := stopping + 1;
      returned := false;
    }

    /** The second step of a `Stop` that saw the loop running: the select
        case `sel` fired, either the send into the `done` slot or the
        cancellation of Stop's own context. The loop may have exited in
        between; the send still goes into the slot. */
    method StopSelected(sel: Lifecycle.StopSelect) returns (r: Option<Error>)
      requires Valid()
      requires Lifecycle.Enabled(Life(), Lifecycle.StopSelected(sel))
      modifies this`done, this`stopping
      ensures Valid()
      ensures Life() == Lifecycle.Next(old(Life()), Lifecycle.StopSelected(sel))
      ensures r == Lifecycle.StopReply(sel)
    {
      stopping := stopping - 1;
      match sel
      case SignalSent =>
        done := true;
        r := None;
      case StopCtxDone(reason) =>
        r := Some(Ctx(reason));
    }

    /** The loop's tick case: the `index` call it spawns runs (the mutex
        serialises it with other ticks); if it fails, it waits to send its
        error on the loop's `errs` channel. */
    method OnTick(at: Time, collected: Collected, parse: string -> Option<real>, format: real -> string)
      returns (e: Option<Error>)
      requires Valid()
      requires Lifecycle.Enabled(Life(), Lifecycle.Tick(None))
      modifies this`avgs, this`pending, avgs.Values, handle
      ensures Valid()
      ensures Life() == Lifecycle.Next(old(Life()), Lifecycle.Tick(e))
      ensures forall v | v in avgs.Values :: v in old(avgs.Values) || fresh(v)
      ensures Folded(Table(), e) == IndexTable(old(Table()), collected, parse)
      ensures e.Some? ==> handle.calls == old(handle.calls)
      ensures e.None? ==>
        && |handle.calls| >= |old(handle.calls)|
        && handle.calls[..|old(handle.calls)|] == old(handle.calls)
        && Reports(handle.calls[|old(handle.calls)|..], Table(), at, format)
    {
      e := Index(at, collected, parse, format);
      if e.Some? {
        pending := pending + [e.value];
      }
    }

    /** The loop's `done` case: the signal is taken and the loop returns,
        leaving `err` as it was. */
    method OnDone()
      requires Valid()
      requires Lifecycle.Enabled(Life(), Lifecycle.DoneReceived)
      modifies this`started, this`done, this`pending
      ensures Valid()
      ensures Life() == Lifecycle.Next(old(Life()), Lifecycle.DoneReceived)
    {
      done := false;
      started, pending := false, [];
    }

    /** The loop's `ctx.Done()` case: the context error is recorded unless
        an error already is, and the loop returns. */
    method OnCtxDone(reason: CtxErr)
      requires Valid()
      requires Lifecycle.Enabled(Life(), Lifecycle.CtxDone(reason))
      modifies this`started, this`err, this`pending
      ensures Valid()
      ensures Life() == Lifecycle.Next(old(Life()), Lifecycle.CtxDone(reason))
    {
      if err.None? {
        err := Some(Ctx(reason));
      }
      started, pending := false, [];
    }

    /** The loop's `errs` case: the error of pending index call `j`
        replaces `err`, and the loop returns. */
    method OnIndexErr(j: nat)
      requires Valid()
      requires Lifecycle.Enabled(Life(), Lifecycle.IndexErrReceived(j))
      modifies this`started, this`err, this`pending
      ensures Valid()
      ensures Life() == Lifecycle.Next(old(Life()), Lifecycle.IndexErrReceived(j))
    {
      err := Some(pending[j]);
      started, pending := false, [];
    }

    /** One `index` call: collect, fold each parsed price into its ticker's
        accumulator, then call the handler once per ticker in the table. A
        collect or parse error returns before any handler call. */
    method Index(at: Time, collected: Collected, parse: string -> Option<real>, format: real -> string)
      returns (e: Option<Error>)
      requires Valid()
      modifies this`avgs, avgs.Values, handle
      ensures Valid()
      ensures forall v | v in avgs.Values :: v in old(avgs.Values) || fresh(v)
      ensures Folded(Table(), e) == IndexTable(old(Table()), collected, parse)
      ensures e.Some? ==> handle.calls == old(handle.calls)
      ensures e.None? ==>
        && |handle.calls| >= |old(handle.calls)|
        && handle.calls[..|old(handle.calls)|] == old(handle.calls)
        && Reports(handle.calls[|old(handle.calls)|..], Table(), at, format)
    {
      if collected.err.Some? {
        return collected.err;
      }
      e := FoldIn(collected.prices.GetOr([]), parse);
      if e.Some? {
        return;
      }
      Publish(at, format);
    }

    /** The first loop of `index`: each price is parsed and folded into its
        ticker's accumulator, creating it on first sight; a parse error
        returns at once. */
    method FoldIn(prices: seq<Price>, parse: string -> Option<real>) returns (e: Option<Error>)
      requires Valid()
      modifies this`avgs, avgs.Values
      ensures Valid()
      ensures Folded(Table(), e) == FoldPrices(old(Table()), prices, parse)
      ensures forall v | v in avgs.Values :: v in old(avgs.Values) || fresh(v)
    {
      ghost var t0 := Table();
      var i := 0;
      while i < |prices|
        invariant 0 <= i <= |prices|
        invariant Valid()
        invariant FoldPrices(t0, prices[..i], parse) == Folded(Table(), None)
        invariant forall v | v in avgs.Values :: v in old(avgs.Values) || fresh(v)
      {
        var pr := prices[i];
        assert prices[..i + 1][..i] == prices[..i];
        match parse(pr.price)
        case None =>
          FoldPricesStopsAtError(t0, prices, i + 1, parse);
          return Some(NumError(pr.price));
        case Some(p) =>
          FoldOne(pr.ticker, p);
        i := i + 1;
      }
      assert prices[..i] == prices;
      e := None;
    }

    /** One parsed sample: a ticker seen for the first time gets a new
        accumulator holding the sample as parsed, with a count of one;
        otherwise the ticker's accumulator `Add`s it in place. */
    method FoldOne(tk: Ticker, p: real)
      requires Valid()
      modifies this`avgs, avgs.Values
      ensures Valid()
      ensures Table() == Fold(old(Table()), tk, p)
      ensures forall v | v in avgs.Values :: v in old(avgs.Values) || fresh(v)
      ensures tk in old(avgs) ==> avgs == old(avgs)
      ensures tk !in old(avgs) ==> tk in avgs && fresh(avgs[tk]) && avgs == old(avgs)[tk := avgs[tk]]
    {
      if tk !in avgs {
        var a := new Avg(p, 1.0);
        avgs := avgs[tk := a];
      } else {
        var a := avgs[tk];
        var r := a.Add(p);
        avgs := avgs[tk := r];
      }
    }

    /** The second loop of `index`: the handler is called for every key of
        the map, in the map's (unspecified) iteration order. */
    method Publish(at: Time, format: real -> string)
      requires Valid()
      modifies handle
      ensures |handle.calls| >= |old(handle.calls)|
      ensures handle.calls[..|old(handle.calls)|] == old(handle.calls)
      ensures Reports(handle.calls[|old(handle.calls)|..], Table(), at, format)
    {
      ghost var t := Table();
      assert WellFormed(t) && t.Keys == avgs.Keys;
      var keys := avgs.Keys;
      ghost var seen: set<Ticker> := {};
      ghost var batch: seq<Price> := [];
      while keys != {}
        invariant keys !! seen && keys + seen == avgs.Keys
        invariant forall k | k in avgs :: avgs[k].Value() == t[k]
        invariant handle.calls == old(handle.calls) + batch
        invariant ReportsSome(batch, t, seen, at, format)
        decreases keys
      {
        var k :| k in keys;
        var p := Price(k, at, format(avgs[k].Average()));
        assert p == Report(t, k, at, format);
        handle.Handle(p);
        ReportsSomeGrow(batch, t, seen, at, format, k);
        batch := batch + [p];
        keys := keys - {k};
        seen := seen + {k};
      }
      assert handle.calls[|old(handle.calls)|..] == batch;
      assert Table() == t;
    }
  }

  /** Validates the arguments, the handler first, and builds an idle
      Indexer with an empty table and no error. */
  method NewIndexer(clctr: Option<Collecter.StreamCollecter>, handle: Handler?, interval: int)
    returns (idx: Indexer?, err: Option<Error>)
    ensures handle == null ==> idx == null && err == Some(InvalidHandler)
    ensures handle != null && clctr.None? ==> idx == null && err == Some(InvalidCollecter)
    ensures handle != null && clctr.Some? ==>
      && err.None? && idx != null && fresh(idx) && idx.Valid()
      && idx.avgs == map[] && idx.Table() == map[] && idx.Life() == Lifecycle.Initial
      && idx.handle == handle && idx.collecter == clctr.value && idx.interval == interval
  {
    if handle == null {
      return null, Some(InvalidHandler);
    }
    if clctr.None? {
      return null, Some(InvalidCollecter);
    }
    idx := new Indexer(clctr.value, handle, interval);
    err := None;
  }
}
