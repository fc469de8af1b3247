/**
 What an exit sweep does when the positions it was given to watch were read before the account was
 locked: when it raises, and when it leaves the rows a sweep that reads them afresh would leave.
 */
module Sweeps {
  import opened Prelude
  import opened Money
  import opened Portfolio
  import opened Matching
  import opened Ledger
  import opened LedgerRuns

  /** The tables, without the history the model keeps beside them. */
  function Tables(a: Account): Account {
    a.(journal := [])
  }

  // ---------------------------------------------------------------- one watched row

  /** The row the sweep read is not there any more. */
  predicate Gone(a: Account, w: Watch) {
    w.symbol !in a.positions || a.positions[w.symbol].id != w.id
  }

  predicate Quoted(w: Watch, quotes: map<string, Quote>) {
    w.symbol in quotes && !quotes[w.symbol].stale
  }

  /** The sweep will place an exit for the row. */
  predicate Triggered(a: Account, w: Watch, tick: string, quotes: map<string, Quote>) {
    && !Gone(a, w) && a.positions[w.symbol].qty != 0 && Quoted(w, quotes)
    && Decision(a.positions[w.symbol], quotes[w.symbol].last).reason.Some?
    && ExitKey(w.id, tick) !in a.orders
  }

  /** The price the exit would trade at is not positive. */
  predicate Unpriced(a: Account, w: Watch, quotes: map<string, Quote>)
    requires !Gone(a, w) && Quoted(w, quotes)
  {
    quotes[w.symbol].SidePrice(if a.positions[w.symbol].qty < 0 then Buy else Sell) <= 0.0
  }

  /** The row makes the sweep raise. */
  predicate Fails(a: Account, w: Watch, tick: string, quotes: map<string, Quote>) {
    Gone(a, w) || (Triggered(a, w, tick, quotes) && Unpriced(a, w, quotes))
  }

  /** The sweep leaves the row as it is: no fresh quote, or the extreme unchanged and no exit due
      (none decided, or its key taken). */
  predicate Quiet(a: Account, w: Watch, tick: string, quotes: map<string, Quote>)
    requires !Gone(a, w)
  {
    var p := a.positions[w.symbol];
    || p.qty == 0 || !Quoted(w, quotes)
    || (!Triggered(a, w, tick, quotes) && p.highWater == Some(Round(Decision(p, quotes[w.symbol].last).highWater)))
  }

  /** The sweep changes the row. */
  predicate Acts(a: Account, w: Watch, tick: string, quotes: map<string, Quote>) {
    !Gone(a, w) && !Quiet(a, w, tick, quotes)
  }

  /** The exact condition for one watched row to raise. */
  lemma SettleOneRaisesIff(a: Account, w: Watch, tick: string, quotes: map<string, Quote>)
    ensures SettleOne(a, w, tick, quotes).Raised? <==> Fails(a, w, tick, quotes)
  {
    hide EvaluateExit, FillMarket;
    if Triggered(a, w, tick, quotes) {
      var p, quote, key := a.positions[w.symbol], quotes[w.symbol], ExitKey(w.id, tick);
      var b := WithOrder(WithMark(a, w.symbol, quote.last), key, ExitOrder(w.symbol, p));
      if Unpriced(a, w, quotes) {
        if SettleOne(a, w, tick, quotes).Done? {
          FilledHasPrice(b, key, ExitOrder(w.symbol, p).size, quote, w.id);
        }
      } else {
        ExitPriced(b, key, ExitOrder(w.symbol, p), quote, w.id);
      }
    }
  }

  /** What one watched row changes: its own position row at most, and its own exit key at most. */
  ghost predicate TouchesOnly(a: Account, b: Account, w: Watch, tick: string) {
    && (forall s :: s != w.symbol ==> (s in b.positions <==> s in a.positions))
    && (forall s :: s != w.symbol && s in a.positions ==> b.positions[s] == a.positions[s])
    && (w.symbol in b.positions ==> w.symbol in a.positions && b.positions[w.symbol].id == a.positions[w.symbol].id)
    && a.orders.Keys <= b.orders.Keys <= a.orders.Keys + {ExitKey(w.id, tick)}
  }

  predicate RowChanged(a: Account, b: Account, s: string)
    requires s in a.positions
  {
    s !in b.positions || b.positions[s] != a.positions[s]
  }

  /** A row that does not fail is left alone exactly when it is quiet. */
  lemma SettleOneTouches(a: Account, w: Watch, tick: string, quotes: map<string, Quote>)
    requires !Fails(a, w, tick, quotes)
    ensures var out := SettleOne(a, w, tick, quotes);
            && out.Done? && TouchesOnly(a, out.account, w, tick)
            && (Quiet(a, w, tick, quotes) ==> Tables(out.account) == Tables(a))
            && (RowChanged(a, out.account, w.symbol) <==> Acts(a, w, tick, quotes))
            && (Triggered(a, w, tick, quotes) ==> w.symbol !in out.account.positions)
  {
    hide EvaluateExit, ComputeFill;
    SettleOneRaisesIff(a, w, tick, quotes);
    if Triggered(a, w, tick, quotes) {
      TriggeredTouches(a, w, tick, quotes);
      hide SettleOne;
    } else {
      hide FillMarket, ExitOrder;
      MarkedOnly(a, w, tick, quotes);
    }
  }

  lemma TriggeredTouches(a: Account, w: Watch, tick: string, quotes: map<string, Quote>)
    requires Triggered(a, w, tick, quotes) && !Unpriced(a, w, quotes)
    ensures var out := SettleOne(a, w, tick, quotes);
            out.Done? && TouchesOnly(a, out.account, w, tick) && w.symbol !in out.account.positions
  {
    hide EvaluateExit, ApplyFill, Margin, Value;
    var p, quote, key := a.positions[w.symbol], quotes[w.symbol], ExitKey(w.id, tick);
    var o := ExitOrder(w.symbol, p);
    var b := WithOrder(WithMark(a, w.symbol, quote.last), key, o);
    ExitPriced(b, key, o, quote, w.id);
    var f := ComputeFill(quote, o.side, o.crypto, o.size).value;
    ExitBooked(b, key, f, w.id);
    hide ComputeFill, FillMarket;
  }

  lemma MarkedOnly(a: Account, w: Watch, tick: string, quotes: map<string, Quote>)
    requires !Gone(a, w) && !Triggered(a, w, tick, quotes)
    ensures SettleOne(a, w, tick, quotes) ==
              if a.positions[w.symbol].qty == 0 || !Quoted(w, quotes) then Done(a)
              else Done(WithMark(a, w.symbol, quotes[w.symbol].last))
  {
    hide EvaluateExit, FillMarket;
  }

  // ---------------------------------------------------------------- the history plays no part

  lemma BookTables(a: Account, b: Account, key: string, f: FillQuote, pid: nat)
    requires Tables(a) == Tables(b) && key in a.orders
    ensures Tables(Book(a, key, f, pid)) == Tables(Book(b, key, f, pid))
  {
    hide ApplyFill, RowAfter, PowerOf;
    SameRow(a, b, a.orders[key], f, pid);
  }

  lemma SameRow(a: Account, b: Account, o: Order, f: FillQuote, pid: nat)
    requires Tables(a) == Tables(b)
    ensures Held(a, o.symbol) == Held(b, o.symbol)
    ensures forall after :: RowAfter(a, o, after, f.price, pid) == RowAfter(b, o, after, f.price, pid)
  {
  }

  lemma FillTables(a: Account, b: Account, key: string, size: Size, quote: Quote, pid: nat)
    requires Tables(a) == Tables(b) && key in a.orders
    ensures SameOutcome(FillMarket(a, key, size, quote, pid), FillMarket(b, key, size, quote, pid))
  {
    hide ComputeFill, Book, Value, Margin, Round;
    var fq := ComputeFill(quote, a.orders[key].side, a.orders[key].crypto, size);
    if fq.Some? {
      BookTables(a, b, key, fq.value, pid);
    }
  }

  /** Both raised, or both left the same tables. */
  ghost predicate SameOutcome(x: Outcome, y: Outcome) {
    x.Raised? == y.Raised? && (x.Done? && y.Done? ==> Tables(x.account) == Tables(y.account))
  }

  lemma PlaceTables(a: Account, b: Account, key: string, req: Request, quote: Option<Quote>, pid: nat)
    requires Tables(a) == Tables(b)
    ensures SameOutcome(PlaceOrder(a, key, req, quote, pid), PlaceOrder(b, key, req, quote, pid))
  {
    hide FillMarket, NewOrder;
    if key !in a.orders && Fresh(quote) && req.kind.Market? {
      FillTables(WithOrder(a, key, NewOrder(req)), WithOrder(b, key, NewOrder(req)), key, req.size, quote.value, pid);
    }
  }

  lemma SettleOneTables(a: Account, b: Account, w: Watch, tick: string, quotes: map<string, Quote>)
    requires Tables(a) == Tables(b)
    ensures SameOutcome(SettleOne(a, w, tick, quotes), SettleOne(b, w, tick, quotes))
  {
    hide FillMarket, Decision;
    if !Gone(a, w) && Quoted(w, quotes) {
      var key, o := ExitKey(w.id, tick), ExitOrder(w.symbol, a.positions[w.symbol]);
      FillTables(WithOrder(WithMark(a, w.symbol, quotes[w.symbol].last), key, o),
                 WithOrder(WithMark(b, w.symbol, quotes[w.symbol].last), key, o), key, o.size, quotes[w.symbol], w.id);
    }
  }

  lemma {:induction false} SettleExitsTables(a: Account, b: Account, watch: seq<Watch>, tick: string,
                                             quotes: map<string, Quote>)
    requires Tables(a) == Tables(b)
    ensures SameOutcome(SettleExits(a, watch, tick, quotes), SettleExits(b, watch, tick, quotes))
    decreases |watch|
  {
    hide SettleOne;
    if |watch| > 0 {
      var n := |watch| - 1;
      SettleExitsTables(a, b, watch[..n], tick, quotes);
      var x, y := SettleExits(a, watch[..n], tick, quotes), SettleExits(b, watch[..n], tick, quotes);
      if x.Done? {
        SettleOneTables(x.account, y.account, watch[n], tick, quotes);
      }
    }
  }

  // ---------------------------------------------------------------- exit keys

  lemma {:induction false} DigitsInjective(m: nat, n: nat)
    requires Digits(m) == Digits(n)
    ensures m == n
  {
    LastDigit(m);
    LastDigit(n);
    assert Digits(m)[|Digits(m)| - 1] == Digits(n)[|Digits(n)| - 1];
    if m >= 10 {
      assert Digits(m)[..|Digits(m)| - 1] == Digits(m / 10) && Digits(n)[..|Digits(n)| - 1] == Digits(n / 10);
      DigitsInjective(m / 10, n / 10);
    }
  }

  lemma LastDigit(n: nat)
    ensures |Digits(n)| > 0 && (|Digits(n)| == 1 <==> n < 10)
    ensures Digits(n)[|Digits(n)| - 1] == ('0' as int + n % 10) as char
  {
  }

  /** Different positions have different exit keys in the same sweep. */
  lemma ExitKeyInjective(m: nat, n: nat, tick: string)
    requires ExitKey(m, tick) == ExitKey(n, tick)
    ensures m == n
  {
    var a, b := ExitKey(m, tick), ExitKey(n, tick);
    assert |a| == 5 + |Digits(m)| + 1 + |tick| && |b| == 5 + |Digits(n)| + 1 + |tick|;
    assert Digits(m) == a[5..5 + |Digits(m)|] && Digits(n) == b[5..5 + |Digits(n)|];
    DigitsInjective(m, n);
  }

  // ---------------------------------------------------------------- whole sweeps

  predicate AscendingIds(watch: seq<Watch>) {
    forall i, j :: 0 <= i < j < |watch| ==> watch[i].id < watch[j].id
  }

  predicate SomeFails(a: Account, watch: seq<Watch>, tick: string, quotes: map<string, Quote>) {
    exists i :: 0 <= i < |watch| && Fails(a, watch[i], tick, quotes)
  }

  predicate Watches(watch: seq<Watch>, symbol: string) {
    exists i :: 0 <= i < |watch| && watch[i].symbol == symbol
  }

  predicate SameAt(a: Account, b: Account, s: string) {
    (s in b.positions <==> s in a.positions) && (s in a.positions ==> b.positions[s] == a.positions[s])
  }

  predicate IdsKept(a: Account, b: Account) {
    forall s :: s in b.positions ==> s in a.positions && b.positions[s].id == a.positions[s].id
  }

  predicate KeyOf(watch: seq<Watch>, tick: string, k: string) {
    exists i :: 0 <= i < |watch| && k == ExitKey(watch[i].id, tick)
  }

  predicate KeysKept(a: Account, b: Account, watch: seq<Watch>, tick: string) {
    a.orders.Keys <= b.orders.Keys && forall k :: k in b.orders ==> k in a.orders || KeyOf(watch, tick, k)
  }

  /** What a sweep did to one of its rows. */
  predicate SweptRow(a: Account, b: Account, w: Watch, tick: string, quotes: map<string, Quote>) {
    && !Gone(a, w) && (RowChanged(a, b, w.symbol) <==> Acts(a, w, tick, quotes))
    && (Triggered(a, w, tick, quotes) ==> w.symbol !in b.positions)
  }

  /** How far a sweep that did not raise is from the account it started from. */
  ghost predicate Swept(a: Account, b: Account, watch: seq<Watch>, tick: string, quotes: map<string, Quote>) {
    && (forall s :: !Watches(watch, s) ==> SameAt(a, b, s))
    && IdsKept(a, b) && KeysKept(a, b, watch, tick)
    && (forall i :: 0 <= i < |watch| ==> SweptRow(a, b, watch[i], tick, quotes))
  }

  /** Before its turn comes, a row looks to the sweep as it did when the account was locked. */
  lemma NextIsUntouched(a: Account, b: Account, watch: seq<Watch>, w: Watch, tick: string, quotes: map<string, Quote>)
    requires AscendingIds(watch + [w]) && !SomeFails(a, watch, tick, quotes) && Swept(a, b, watch, tick, quotes)
    ensures Gone(b, w) <==> Gone(a, w)
    ensures !Gone(a, w) ==> b.positions[w.symbol] == a.positions[w.symbol]
    ensures ExitKey(w.id, tick) in b.orders <==> ExitKey(w.id, tick) in a.orders
  {
    hide Acts, Triggered, RowChanged;
    NotWatched(a, watch, w, tick, quotes);
    forall i | 0 <= i < |watch| ensures watch[i].id < w.id && watch[i].id != w.id {
      assert (watch + [w])[i] == watch[i] && (watch + [w])[|watch|] == w;
    }
    if ExitKey(w.id, tick) in b.orders && ExitKey(w.id, tick) !in a.orders {
      var i :| 0 <= i < |watch| && ExitKey(w.id, tick) == ExitKey(watch[i].id, tick);
      ExitKeyInjective(w.id, watch[i].id, tick);
    }
    if Watches(watch, w.symbol) {
      assert Gone(a, w);
    } else {
      assert SameAt(a, b, w.symbol);
    }
  }

  lemma NotWatched(a: Account, watch: seq<Watch>, w: Watch, tick: string, quotes: map<string, Quote>)
    requires AscendingIds(watch + [w]) && !SomeFails(a, watch, tick, quotes)
    ensures !Gone(a, w) ==> !Watches(watch, w.symbol)
  {
    hide Triggered;
    forall i | 0 <= i < |watch| ensures watch[i].id < w.id && !Gone(a, watch[i]) {
      assert (watch + [w])[i] == watch[i] && (watch + [w])[|watch|] == w;
      assert !Fails(a, watch[i], tick, quotes);
    }
  }

  /** So the sweep judges it as it would have then. */
  lemma SameView(a: Account, b: Account, w: Watch, tick: string, quotes: map<string, Quote>)
    requires Gone(b, w) <==> Gone(a, w)
    requires !Gone(a, w) ==> b.positions[w.symbol] == a.positions[w.symbol]
    requires ExitKey(w.id, tick) in b.orders <==> ExitKey(w.id, tick) in a.orders
    ensures Fails(b, w, tick, quotes) <==> Fails(a, w, tick, quotes)
    ensures Acts(b, w, tick, quotes) <==> Acts(a, w, tick, quotes)
    ensures Triggered(b, w, tick, quotes) <==> Triggered(a, w, tick, quotes)
  {
    hide Decision;
  }

  lemma SweptNext(a: Account, b: Account, watch: seq<Watch>, w: Watch, tick: string, quotes: map<string, Quote>)
    requires AscendingIds(watch + [w]) && !SomeFails(a, watch, tick, quotes) && Swept(a, b, watch, tick, quotes)
    requires !Fails(a, w, tick, quotes)
    ensures SettleOne(b, w, tick, quotes).Done?
    ensures Swept(a, SettleOne(b, w, tick, quotes).account, watch + [w], tick, quotes)
    ensures !Acts(a, w, tick, quotes) ==> Tables(SettleOne(b, w, tick, quotes).account) == Tables(b)
  {
    hide Swept, SettleOne;
    NextIsUntouched(a, b, watch, w, tick, quotes);
    SameView(a, b, w, tick, quotes);
    SettleOneTouches(b, w, tick, quotes);
    NotWatched(a, watch, w, tick, quotes);
    hide Quiet, Triggered, Unpriced, Acts;
    SweptStep(a, b, SettleOne(b, w, tick, quotes).account, watch, w, tick, quotes);
  }

  lemma SweptStep(a: Account, b: Account, c: Account, watch: seq<Watch>, w: Watch, tick: string,
                  quotes: map<string, Quote>)
    requires Swept(a, b, watch, tick, quotes) && TouchesOnly(b, c, w, tick)
    requires !Gone(a, w) && !Gone(b, w) && b.positions[w.symbol] == a.positions[w.symbol]
    requires RowChanged(b, c, w.symbol) <==> Acts(a, w, tick, quotes)
    requires Triggered(a, w, tick, quotes) ==> w.symbol !in c.positions
    requires !Watches(watch, w.symbol)
    ensures Swept(a, c, watch + [w], tick, quotes)
  {
    hide Acts, Triggered, KeysKept, SweptRow, Gone, Watches, SameAt;
    var more := watch + [w];
    KeysStep(a, b, c, watch, w, tick);
    forall s | !Watches(more, s) ensures SameAt(a, c, s) {
      WatchesAppend(watch, w, s);
      SameStep(a, b, c, s, w, tick);
    }
    forall i | 0 <= i < |more| ensures SweptRow(a, c, more[i], tick, quotes) {
      if i < |watch| {
        WatchesAt(watch, i);
        assert SweptRow(a, b, watch[i], tick, quotes);
        RowStep(a, b, c, watch[i], w, tick, quotes);
      } else {
        LastStep(a, b, c, w, tick, quotes);
      }
    }
  }

  lemma WatchesAppend(watch: seq<Watch>, w: Watch, s: string)
    ensures Watches(watch + [w], s) <==> Watches(watch, s) || s == w.symbol
  {
    var more := watch + [w];
    assert more[|watch|] == w;
    if i :| 0 <= i < |watch| && watch[i].symbol == s {
      assert more[i].symbol == s;
    }
  }

  lemma WatchesAt(watch: seq<Watch>, i: nat)
    requires i < |watch|
    ensures Watches(watch, watch[i].symbol)
  {
  }

  lemma KeysStep(a: Account, b: Account, c: Account, watch: seq<Watch>, w: Watch, tick: string)
    requires KeysKept(a, b, watch, tick) && TouchesOnly(b, c, w, tick)
    ensures KeysKept(a, c, watch + [w], tick)
  {
    var more := watch + [w];
    forall k | k in c.orders && k !in a.orders ensures KeyOf(more, tick, k) {
      if k in b.orders {
        var i :| 0 <= i < |watch| && k == ExitKey(watch[i].id, tick);
        assert more[i] == watch[i];
      } else {
        assert more[|watch|] == w;
      }
    }
  }

  lemma SameStep(a: Account, b: Account, c: Account, s: string, w: Watch, tick: string)
    requires SameAt(a, b, s) && TouchesOnly(b, c, w, tick) && s != w.symbol
    ensures SameAt(a, c, s)
  {
  }

  lemma RowStep(a: Account, b: Account, c: Account, v: Watch, w: Watch, tick: string, quotes: map<string, Quote>)
    requires SweptRow(a, b, v, tick, quotes) && TouchesOnly(b, c, w, tick) && v.symbol != w.symbol
    ensures SweptRow(a, c, v, tick, quotes)
  {
    hide Acts, Triggered;
  }

  lemma LastStep(a: Account, b: Account, c: Account, w: Watch, tick: string, quotes: map<string, Quote>)
    requires !Gone(a, w) && !Gone(b, w) && b.positions[w.symbol] == a.positions[w.symbol]
    requires RowChanged(b, c, w.symbol) <==> Acts(a, w, tick, quotes)
    requires Triggered(a, w, tick, quotes) ==> w.symbol !in c.positions
    ensures SweptRow(a, c, w, tick, quotes)
  {
    hide Acts, Triggered;
  }

  lemma SweptNothing(a: Account, tick: string, quotes: map<string, Quote>)
    ensures Swept(a, a, [], tick, quotes)
  {
  }

  /** The exact condition for a sweep to raise, on the account as it is under the lock: some watched
      row is gone, or is due to exit at a price that is not positive. */
  lemma {:induction false} SweepRaisesIff(a: Account, watch: seq<Watch>, tick: string, quotes: map<string, Quote>)
    requires AscendingIds(watch)
    ensures SettleExits(a, watch, tick, quotes).Raised? <==> SomeFails(a, watch, tick, quotes)
    ensures !SomeFails(a, watch, tick, quotes) ==>
              Swept(a, SettleExits(a, watch, tick, quotes).account, watch, tick, quotes)
    decreases |watch|
  {
    hide SettleOne, Fails, Swept, Quiet, Triggered;
    if |watch| == 0 {
      SweptNothing(a, tick, quotes);
    } else {
      var init, w := watch[..|watch| - 1], watch[|watch| - 1];
      assert watch == init + [w];
      SweepRaisesIff(a, init, tick, quotes);
      if !SomeFails(a, init, tick, quotes) {
        var b := SettleExits(a, init, tick, quotes).account;
        if Fails(a, w, tick, quotes) {
          SameFailure(a, b, init, w, tick, quotes);
        } else {
          SweptNext(a, b, init, w, tick, quotes);
        }
      }
    }
  }

  lemma SameFailure(a: Account, b: Account, watch: seq<Watch>, w: Watch, tick: string, quotes: map<string, Quote>)
    requires AscendingIds(watch + [w]) && !SomeFails(a, watch, tick, quotes) && Swept(a, b, watch, tick, quotes)
    requires Fails(a, w, tick, quotes)
    ensures SettleOne(b, w, tick, quotes).Raised?
  {
    NextIsUntouched(a, b, watch, w, tick, quotes);
    SettleOneRaisesIff(b, w, tick, quotes);
    hide SettleOne, Decision, Swept;
  }

  // ---------------------------------------------------------------- stale against current

  /** The watched rows the sweep changes, in order. */
  function Active(a: Account, watch: seq<Watch>, tick: string, quotes: map<string, Quote>): seq<Watch> {
    if |watch| == 0 then []
    else
      var n := |watch| - 1;
      Active(a, watch[..n], tick, quotes) + if Acts(a, watch[n], tick, quotes) then [watch[n]] else []
  }

  lemma {:induction false} ActiveOf(a: Account, watch: seq<Watch>, tick: string, quotes: map<string, Quote>)
    requires AscendingIds(watch)
    ensures AscendingIds(Active(a, watch, tick, quotes))
    ensures forall w :: w in Active(a, watch, tick, quotes) <==> w in watch && Acts(a, w, tick, quotes)
    decreases |watch|
  {
    hide Acts;
    if |watch| > 0 {
      var init, w := watch[..|watch| - 1], watch[|watch| - 1];
      assert watch == init + [w];
      ActiveOf(a, init, tick, quotes);
      var x := Active(a, init, tick, quotes);
      forall i | 0 <= i < |x| ensures x[i].id < w.id {
        assert x[i] in init;
        var j :| 0 <= j < |init| && init[j] == x[i];
        assert watch[j].id < watch[|watch| - 1].id;
      }
    }
  }

  lemma NoneFail(a: Account, watch: seq<Watch>, part: seq<Watch>, tick: string, quotes: map<string, Quote>)
    requires !SomeFails(a, watch, tick, quotes) && forall w :: w in part ==> w in watch
    ensures !SomeFails(a, part, tick, quotes)
  {
    hide Fails;
    forall i | 0 <= i < |part| ensures !Fails(a, part[i], tick, quotes) {
      assert part[i] in watch;
      var j :| 0 <= j < |watch| && watch[j] == part[i];
    }
  }

  /** A sweep that does not raise leaves the tables a sweep of its active rows alone leaves. */
  lemma {:induction false} SweepIsActive(a: Account, watch: seq<Watch>, tick: string, quotes: map<string, Quote>)
    requires AscendingIds(watch) && !SomeFails(a, watch, tick, quotes)
    ensures !SomeFails(a, Active(a, watch, tick, quotes), tick, quotes)
    ensures SameOutcome(SettleExits(a, watch, tick, quotes),
                        SettleExits(a, Active(a, watch, tick, quotes), tick, quotes))
    decreases |watch|
  {
    hide SettleOne, Acts, Fails, Swept, Tables;
    ActiveOf(a, watch, tick, quotes);
    NoneFail(a, watch, Active(a, watch, tick, quotes), tick, quotes);
    if |watch| > 0 {
      var init, w := watch[..|watch| - 1], watch[|watch| - 1];
      assert watch == init + [w];
      NoneFail(a, watch, init, tick, quotes);
      assert w in watch && !Fails(a, watch[|watch| - 1], tick, quotes);
      SweepIsActive(a, init, tick, quotes);
      SweepRaisesIff(a, init, tick, quotes);
      var x := Active(a, init, tick, quotes);
      ActiveOf(a, init, tick, quotes);
      SweepRaisesIff(a, x, tick, quotes);
      var b := SettleExits(a, init, tick, quotes).account;
      SweptNext(a, b, init, w, tick, quotes);
      if Acts(a, w, tick, quotes) {
        assert (x + [w])[..|x|] == x;
        SettleOneTables(b, SettleExits(a, x, tick, quotes).account, w, tick, quotes);
      } else {
        assert x + [] == x;
      }
    }
  }

  /** What a sweep does to the committed rows: its active rows, or nothing when it raises. */
  function Effect(a: Account, watch: seq<Watch>, tick: string, quotes: map<string, Quote>): seq<Watch> {
    if SomeFails(a, watch, tick, quotes) then [] else Active(a, watch, tick, quotes)
  }

  ghost function Committed(a: Account, watch: seq<Watch>, tick: string, quotes: map<string, Quote>): Account {
    Commit(a, SettleExits(a, watch, tick, quotes))
  }

  lemma CommittedIsEffect(a: Account, watch: seq<Watch>, tick: string, quotes: map<string, Quote>)
    requires AscendingIds(watch)
    ensures Tables(Committed(a, watch, tick, quotes)) ==
            Tables(Committed(a, Effect(a, watch, tick, quotes), tick, quotes))
  {
    hide Acts, Fails;
    SweepRaisesIff(a, watch, tick, quotes);
    if !SomeFails(a, watch, tick, quotes) {
      SweepIsActive(a, watch, tick, quotes);
      ActiveOf(a, watch, tick, quotes);
      SweepRaisesIff(a, Active(a, watch, tick, quotes), tick, quotes);
    }
  }

  /** The rows a sweep changed can be read off the tables it left. */
  lemma ChangedIffActs(a: Account, watch: seq<Watch>, tick: string, quotes: map<string, Quote>, w: Watch)
    requires AscendingIds(watch) && !Gone(a, w)
    ensures RowChanged(a, Committed(a, watch, tick, quotes), w.symbol) <==> w in Effect(a, watch, tick, quotes)
  {
    hide Acts, Fails, Triggered, KeysKept;
    SweepRaisesIff(a, watch, tick, quotes);
    ActiveOf(a, watch, tick, quotes);
    var b := Committed(a, watch, tick, quotes);
    if !SomeFails(a, watch, tick, quotes) {
      if Watches(watch, w.symbol) {
        var i :| 0 <= i < |watch| && watch[i].symbol == w.symbol;
        assert SweptRow(a, b, watch[i], tick, quotes);
        assert watch[i] == w;
      } else {
        assert SameAt(a, b, w.symbol);
        AllWatched(watch);
      }
    }
  }

  lemma AllWatched(watch: seq<Watch>)
    ensures forall w :: w in watch ==> Watches(watch, w.symbol)
  {
  }

  lemma {:induction false} AscendingUnique(x: seq<Watch>, y: seq<Watch>)
    requires AscendingIds(x) && AscendingIds(y) && forall w :: w in x <==> w in y
    ensures x == y
    decreases |x|
  {
    if |x| == 0 {
      FirstIn(y);
    } else {
      var a := x[|x| - 1];
      assert a in x && a in y;
      var c := y[|y| - 1];
      assert c in y && c in x;
      LastIsMost(x, c);
      LastIsMost(y, a);
      var x', y' := x[..|x| - 1], y[..|y| - 1];
      forall w ensures w in x' <==> w in y' {
        NotTwice(x, w);
        NotTwice(y, w);
      }
      AscendingUnique(x', y');
      assert x == x' + [a] && y == y' + [a];
    }
  }

  lemma LastIsMost(x: seq<Watch>, w: Watch)
    requires AscendingIds(x) && w in x
    ensures w == x[|x| - 1] || w.id < x[|x| - 1].id
  {
    var i :| 0 <= i < |x| && x[i] == w;
  }

  lemma FirstIn<T>(xs: seq<T>)
    ensures xs == [] || xs[0] in xs
  {
  }

  lemma NotTwice(x: seq<Watch>, w: Watch)
    requires AscendingIds(x) && |x| > 0
    ensures w in x[..|x| - 1] <==> w in x && w != x[|x| - 1]
  {
    assert x == x[..|x| - 1] + [x[|x| - 1]];
    if w in x[..|x| - 1] {
      var i :| 0 <= i < |x| - 1 && x[i] == w;
      assert x[i].id < x[|x| - 1].id;
    }
  }

  lemma ActedRow(a: Account, watch: seq<Watch>, tick: string, quotes: map<string, Quote>, w: Watch)
    requires AscendingIds(watch) && w in Effect(a, watch, tick, quotes)
    ensures !Gone(a, w)
  {
    ActiveOf(a, watch, tick, quotes);
  }

  /** Two sweeps of the same account under its lock, whatever each was given to watch, commit the same
      tables exactly when they act on the same rows. */
  lemma SameTablesIff(a: Account, stale: seq<Watch>, current: seq<Watch>, tick: string, quotes: map<string, Quote>)
    requires AscendingIds(stale) && AscendingIds(current)
    ensures (Tables(Committed(a, stale, tick, quotes)) == Tables(Committed(a, current, tick, quotes)))
         == (Effect(a, stale, tick, quotes) == Effect(a, current, tick, quotes))
  {
    hide Acts, SomeFails;
    var x, y := Effect(a, stale, tick, quotes), Effect(a, current, tick, quotes);
    CommittedIsEffect(a, stale, tick, quotes);
    CommittedIsEffect(a, current, tick, quotes);
    if Tables(Committed(a, stale, tick, quotes)) == Tables(Committed(a, current, tick, quotes)) {
      forall w ensures w in x <==> w in y {
        if w in x {
          ActedRow(a, stale, tick, quotes, w);
        }
        if w in y {
          ActedRow(a, current, tick, quotes, w);
        }
        if !Gone(a, w) {
          ChangedIffActs(a, stale, tick, quotes, w);
          ChangedIffActs(a, current, tick, quotes, w);
        }
      }
      ActiveOf(a, stale, tick, quotes);
      ActiveOf(a, current, tick, quotes);
      AscendingUnique(x, y);
    }
  }

  // ---------------------------------------------------------------- the list a sweep reads

  predicate HasLevel(p: Position) {
    p.levels.stopLoss.Some? || p.levels.takeProfit.Some? || p.levels.trailing.Some?
  }

  /** The open positions with some exit level, by ascending id. */
  predicate IsWatchList(a: Account, watch: seq<Watch>) {
    && AscendingIds(watch)
    && (forall w :: w in watch ==>
          w.symbol in a.positions && a.positions[w.symbol].id == w.id && a.positions[w.symbol].qty != 0)
    && (forall s :: s in a.positions && HasLevel(a.positions[s]) && a.positions[s].qty != 0 ==>
          Watch(a.positions[s].id, s) in watch)
    && (forall w :: w in watch ==> HasLevel(a.positions[w.symbol]))
  }

  /** An account has one such list. */
  lemma FreshListUnique(a: Account, x: seq<Watch>, y: seq<Watch>)
    requires IsWatchList(a, x) && IsWatchList(a, y)
    ensures x == y
  {
    AscendingUnique(x, y);
  }

  /** The stale list still has every row, and every row on only one of the lists is quiet. */
  ghost predicate StaleIsHarmless(a: Account, stale: seq<Watch>, current: seq<Watch>, tick: string,
                                  quotes: map<string, Quote>)
  {
    && (forall w :: w in stale ==> !Gone(a, w))
    && (forall w :: w in current && w !in stale ==> !Acts(a, w, tick, quotes))
    && (forall w :: w in stale && w !in current ==> !Acts(a, w, tick, quotes))
  }

  /** The exact condition for a sweep of a stale list to leave what a sweep that reads the list under
      the lock leaves.  When that one does not raise: no watched row is gone, and every row on only one
      of the lists is quiet - an open position with a level that the stale list misses has no fresh
      quote, or its extreme is unchanged and no exit is due.  When it raises: some row of the stale
      list makes the sweep raise too. */
  lemma StaleSweepIff(a: Account, stale: seq<Watch>, current: seq<Watch>, tick: string, quotes: map<string, Quote>)
    requires AscendingIds(stale) && IsWatchList(a, current)
    ensures SameOutcome(SettleExits(a, stale, tick, quotes), SettleExits(a, current, tick, quotes)) <==>
              if SomeFails(a, current, tick, quotes) then SomeFails(a, stale, tick, quotes)
              else StaleIsHarmless(a, stale, current, tick, quotes)
  {
    hide Acts, Fails, Tables, SomeFails, IsWatchList;
    AscendsOf(a, current);
    SweepRaisesIff(a, stale, tick, quotes);
    SweepRaisesIff(a, current, tick, quotes);
    if !SomeFails(a, current, tick, quotes) {
      SoundSweepIff(a, stale, current, tick, quotes);
    }
  }

  lemma AscendsOf(a: Account, watch: seq<Watch>)
    requires IsWatchList(a, watch)
    ensures AscendingIds(watch)
  {
  }

  lemma SoundSweepIff(a: Account, stale: seq<Watch>, current: seq<Watch>, tick: string, quotes: map<string, Quote>)
    requires AscendingIds(stale) && IsWatchList(a, current) && !SomeFails(a, current, tick, quotes)
    ensures SameOutcome(SettleExits(a, stale, tick, quotes), SettleExits(a, current, tick, quotes)) <==>
              StaleIsHarmless(a, stale, current, tick, quotes)
  {
    hide Acts, Fails, Tables;
    SweepRaisesIff(a, stale, tick, quotes);
    SweepRaisesIff(a, current, tick, quotes);
    SameTablesIff(a, stale, current, tick, quotes);
    ActiveOf(a, stale, tick, quotes);
    ActiveOf(a, current, tick, quotes);
    FailsIffGone(a, stale, current, tick, quotes);
    if forall w :: (w in stale && Acts(a, w, tick, quotes)) <==> (w in current && Acts(a, w, tick, quotes)) {
      AscendingUnique(Active(a, stale, tick, quotes), Active(a, current, tick, quotes));
    }
  }

  lemma FailsIffGone(a: Account, stale: seq<Watch>, current: seq<Watch>, tick: string, quotes: map<string, Quote>)
    requires !SomeFails(a, current, tick, quotes)
    ensures (forall w :: w in stale && w !in current ==> !Acts(a, w, tick, quotes)) ==>
              (SomeFails(a, stale, tick, quotes) <==> exists w :: w in stale && Gone(a, w))
    ensures (exists w :: w in stale && Gone(a, w)) ==> SomeFails(a, stale, tick, quotes)
  {
    forall w ensures Gone(a, w) ==> Fails(a, w, tick, quotes)
             ensures w in current || !Acts(a, w, tick, quotes) ==> (Fails(a, w, tick, quotes) <==> Gone(a, w)) {
      OneFails(a, current, w, tick, quotes);
    }
    hide Fails, Acts, Gone;
    if w :| w in stale && Gone(a, w) {
      var i :| 0 <= i < |stale| && stale[i] == w;
      assert Fails(a, stale[i], tick, quotes);
    }
  }

  /** A row on a list that does not fail, or a quiet one, fails only when it is gone. */
  lemma OneFails(a: Account, current: seq<Watch>, w: Watch, tick: string, quotes: map<string, Quote>)
    requires !SomeFails(a, current, tick, quotes)
    ensures Gone(a, w) ==> Fails(a, w, tick, quotes)
    ensures w in current || !Acts(a, w, tick, quotes) ==> (Fails(a, w, tick, quotes) <==> Gone(a, w))
  {
    hide Decision;
    assert w in current ==> !Fails(a, w, tick, quotes);
  }
}
