/** The scan: every symbol of the list is analysed in turn and the analyses
    that produced a report are collected, in list order. */
module Scan {
  import opened Wrappers
  import opened Scoring

  /** The results of the successful analyses among `symbols`, in order; a
      symbol listed twice is analysed, and collected, twice. */
  function Collected<R>(symbols: seq<string>, analyze: string -> Option<R>): (rs: seq<R>)
    ensures |rs| <= |symbols|
  {
    if symbols == [] then []
    else
      var last := analyze(symbols[|symbols| - 1]);
      Collected(symbols[..|symbols| - 1], analyze) + (if last.Some? then [last.value] else [])
  }

  /** The positions of the successful analyses, in increasing order, each
      successful position once. */
  function Hits<R>(symbols: seq<string>, analyze: string -> Option<R>): (idx: seq<nat>)
    ensures forall k :: 0 <= k < |idx| ==> idx[k] < |symbols| && analyze(symbols[idx[k]]).Some?
    ensures forall k, l :: 0 <= k < l < |idx| ==> idx[k] < idx[l]
    ensures forall i :: 0 <= i < |symbols| && analyze(symbols[i]).Some? ==> i in idx
  {
    if symbols == [] then []
    else
      var n := |symbols| - 1;
      var init := symbols[..n];
      var idx0 := Hits(init, analyze);
      assert forall k :: 0 <= k < |idx0| ==> symbols[idx0[k]] == init[idx0[k]];
      assert forall i :: 0 <= i < n ==> symbols[i] == init[i];
      idx0 + (if analyze(symbols[n]).Some? then [n] else [])
  }

  /** The collected results are the successful analyses at the hit
      positions, one for one: together with the contract of `Hits`, every
      success is collected once per position, in input order. */
  lemma {:induction false} CollectedInOrder<R>(symbols: seq<string>, analyze: string -> Option<R>)
    ensures var rs, idx := Collected(symbols, analyze), Hits(symbols, analyze);
      && |idx| == |rs|
      && forall k :: 0 <= k < |idx| ==> analyze(symbols[idx[k]]) == Some(rs[k])
  {
    if symbols != [] {
      var n := |symbols| - 1;
      var init := symbols[..n];
      CollectedInOrder(init, analyze);
      var rs0, idx0 := Collected(init, analyze), Hits(init, analyze);
      assert forall k :: 0 <= k < |idx0| ==> symbols[idx0[k]] == init[idx0[k]];
    }
  }

  /** Scanning two lists one after the other is scanning their
      concatenation: no symbol's outcome affects another's. */
  lemma {:induction false} CollectedAppend<R>(xs: seq<string>, ys: seq<string>, analyze: string -> Option<R>)
    ensures Collected(xs + ys, analyze) == Collected(xs, analyze) + Collected(ys, analyze)
  {
    if ys == [] {
      assert xs + ys == xs;
    } else {
      var m := |ys| - 1;
      assert (xs + ys)[..|xs + ys| - 1] == xs + ys[..m];
      assert (xs + ys)[|xs + ys| - 1] == ys[m];
      CollectedAppend(xs, ys[..m], analyze);
    }
  }

  /** A symbol listed twice is reported twice. */
  lemma CollectedKeepsDuplicates<R>(symbols: seq<string>, sid: string, r: R, analyze: string -> Option<R>)
    requires analyze(sid) == Some(r)
    ensures Collected(symbols + [sid, sid], analyze) == Collected(symbols, analyze) + [r, r]
  {
    CollectedAppend(symbols, [sid, sid], analyze);
    assert [sid, sid][..1] == [sid];
    assert [sid][..0] == [];
  }

  /** The analysis of one symbol: its series from the market-data fetch,
      which yields nothing when the fetch fails, then the scoring routine. */
  function Analyzer(fetch: string -> Option<seq<Bar>>): (analyze: string -> Option<Report>)
    ensures forall sid :: analyze(sid).Some? <==> fetch(sid).Some? && |fetch(sid).value| >= MinBars
    ensures forall sid :: analyze(sid).Some? ==> analyze(sid) == Analysis(sid, fetch(sid).value)
  {
    sid => if fetch(sid).Some? then Analysis(sid, fetch(sid).value) else None
  }

  /** Every report of a scan comes from a symbol of the list, with a fetched
      series of at least `MinBars` bars, and has a score in [0,100]. */
  lemma ScanReportsValid(symbols: seq<string>, fetch: string -> Option<seq<Bar>>)
    ensures forall r :: r in Collected(symbols, Analyzer(fetch)) ==>
      && r.sid in symbols
      && fetch(r.sid).Some? && |fetch(r.sid).value| >= MinBars
      && 0 <= r.score <= 100
  {
    var rs, idx := Collected(symbols, Analyzer(fetch)), Hits(symbols, Analyzer(fetch));
    CollectedInOrder(symbols, Analyzer(fetch));
    forall r | r in rs
      ensures r.sid in symbols && fetch(r.sid).Some? && |fetch(r.sid).value| >= MinBars && 0 <= r.score <= 100
    {
      var k :| 0 <= k < |rs| && rs[k] == r;
      var sid := symbols[idx[k]];
      assert Analyzer(fetch)(sid) == Some(r);
    }
  }

  /** Runs the scoring routine over the list of symbols and keeps the
      reports it returns. */
  method ScanStocks(symbols: seq<string>, fetch: string -> Option<seq<Bar>>) returns (results: seq<Report>)
    ensures results == Collected(symbols, Analyzer(fetch))
  {
    results := [];
    for i := 0 to |symbols|
      invariant results == Collected(symbols[..i], Analyzer(fetch))
    {
      var sid := symbols[i];
      var res := None;
      var bars := fetch(sid);
      if bars.Some? {
        res := AnalyzeStock(sid, bars.value);
      }
      if res.Some? {
        results := results + [res.value];
      }
      assert symbols[..i + 1][..i] == symbols[..i];
    }
    assert symbols[..|symbols|] == symbols;
  }
}
