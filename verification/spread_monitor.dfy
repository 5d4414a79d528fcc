/** The per-pair step of the polling loop (bot.py, process_pair): skip the
    pair when either venue gives no price, otherwise compute the percentage
    spread, decide whether to alert, and record the spread. The network calls
    are parameters: the venue-A (MEXC) price arrives as a value and the
    venue-B depth endpoint as a function. */
module SpreadMonitor {
  import opened Wrappers
  import QuantoMapping

  /** The asset part of a pair symbol: everything before the first '/', or the
      whole symbol when it has none. */
  function BaseAsset(symbol: string): (base: string)
    ensures base <= symbol
    ensures '/' !in base
    ensures base == symbol || symbol[|base|] == '/'
  {
    if symbol == [] || symbol[0] == '/' then []
    else [symbol[0]] + BaseAsset(symbol[1..])
  }

  /** Python truthiness of an optional price: None and 0.0 are falsy. */
  predicate Falsy(price: Option<real>)
  {
    price.None? || price.value == 0.0
  }

  /** The signed percentage by which the venue-B price `q` differs from the
      venue-A price `m`, which is the denominator. */
  function SpreadPercent(m: real, q: real): (spread: real)
    requires m != 0.0
    ensures q == m + m * spread / 100.0
    ensures q == m <==> spread == 0.0
    ensures m > 0.0 ==> (spread > 0.0 <==> q > m) && (spread < 0.0 <==> q < m)
  {
    (q - m) / m * 100.0
  }

  function Abs(x: real): real { if x < 0.0 then -x else x }

  /** The spread last recorded for `symbol`, 0 when there is none. */
  function PrevSpread(last: map<string, real>, symbol: string): real
  {
    if symbol in last then last[symbol] else 0.0
  }

  /** The alert gate: the spread's magnitude reaches the threshold and exceeds
      the magnitude of the spread recorded before it. */
  predicate ShouldAlert(spread: real, prev: real, threshold: real): (fire: bool)
    ensures fire ==> spread != prev && spread != 0.0
    ensures prev == 0.0 ==> (fire <==> spread != 0.0 && (spread >= threshold || -spread >= threshold))
  {
    Abs(spread) >= threshold && Abs(spread) > Abs(prev)
  }

  /** The two trade directions named in an alert. */
  datatype Direction = BuyMexcSellQuanto | SellMexcBuyQuanto

  function DirectionOf(spread: real): Direction
  {
    if spread > 0.0 then BuyMexcSellQuanto else SellMexcBuyQuanto
  }

  /** The content of an alert message: the pair, the spread and the direction. */
  datatype Alert = Alert(symbol: string, spread: real, direction: Direction)

  /** The venue-B price process_pair works with: the price found by the
      market-code search for the symbol's base asset. */
  function MappedPrice(source: QuantoMapping.DepthSource, symbol: string): Option<real>
  {
    QuantoMapping.Mapping(source, BaseAsset(symbol)).1
  }

  /** process_pair finds no venue-B price exactly when every candidate code
      for the symbol's base asset misses. */
  lemma MappedPriceFound(source: QuantoMapping.DepthSource, symbol: string)
    ensures MappedPrice(source, symbol).None?
        <==> forall c :: c in QuantoMapping.Candidates(BaseAsset(symbol)) ==> QuantoMapping.Miss(source, c)
  {
  }

  /** The spread one call records for `symbol`, or None when the call skips it. */
  function ObservedSpread(symbol: string, mexcPrice: Option<real>, source: QuantoMapping.DepthSource): (spread: Option<real>)
    ensures spread.None? <==> Falsy(mexcPrice) || Falsy(MappedPrice(source, symbol))
    ensures spread.Some? ==>
      MappedPrice(source, symbol).value == mexcPrice.value + mexcPrice.value * spread.value / 100.0
  {
    if Falsy(mexcPrice) then None
    else
      var q := MappedPrice(source, symbol);
      if Falsy(q) then None else Some(SpreadPercent(mexcPrice.value, q.value))
  }

  /** With a positive venue-A price the alert reads "buy on MEXC, sell on
      Quanto" exactly when Quanto is quoted higher. */
  lemma DirectionFollowsPrices(m: real, q: real)
    requires m > 0.0
    ensures DirectionOf(SpreadPercent(m, q)) == BuyMexcSellQuanto <==> q > m
  {
  }

  /** The alerts raised for one pair over consecutive non-skipped polls that
      observe `spreads`, starting from the recorded spread `prev`. A skipped
      poll changes nothing, so it does not appear in the sequence. */
  function AlertTrace(prev: real, spreads: seq<real>, threshold: real): (fired: seq<bool>)
    ensures |fired| == |spreads|
    ensures forall i :: 0 <= i < |spreads| ==>
      (fired[i] <==> ShouldAlert(spreads[i], if i == 0 then prev else spreads[i - 1], threshold))
    decreases spreads
  {
    if spreads == [] then []
    else [ShouldAlert(spreads[0], prev, threshold)] + AlertTrace(spreads[0], spreads[1..], threshold)
  }

  /** A spread that stays put above the threshold alerts once, not on every poll. */
  lemma {:induction false} SustainedSpreadAlertsOnce(prev: real, spreads: seq<real>, threshold: real)
    requires forall i :: 0 <= i < |spreads| ==> Abs(spreads[i]) == Abs(spreads[0])
    ensures forall i :: 1 <= i < |spreads| ==> !AlertTrace(prev, spreads, threshold)[i]
  {
    var fired := AlertTrace(prev, spreads, threshold);
    forall i | 1 <= i < |spreads| ensures !fired[i] {
      assert Abs(spreads[i - 1]) == Abs(spreads[0]);
    }
  }

  /** The worked example: threshold 1.0, no recorded spread, and spreads 0.5,
      1.2, 1.3, 0.9, 1.4 alert at the second, third and fifth poll. */
  lemma AlertTraceExample()
    ensures AlertTrace(0.0, [0.5, 1.2, 1.3, 0.9, 1.4], 1.0) == [false, true, true, false, true]
  {
  }

  /** The base asset of "BTC/USDT" is "BTC". */
  lemma BtcBase()
    ensures BaseAsset("BTC/USDT") == "BTC"
  {
    var sym := "BTC/USDT";
    assert sym[1..] == "TC/USDT" && sym[2..] == "C/USDT" && sym[3..] == "/USDT";
    assert BaseAsset("/USDT") == [];
  }

  /** For "BTC/USDT" at 50000 on MEXC, where "BTC-USDT-SWAP" is the first code
      that quotes (bid 50400, ask 50600), the recorded spread is +1%. */
  lemma {:induction false} BtcSpread(source: QuantoMapping.DepthSource)
    requires forall j :: 0 <= j < 3 ==> source(QuantoMapping.Candidates("BTC")[j]).None?
    requires source("BTC-USDT-SWAP")
      == Some(QuantoMapping.DepthReply(true, Some(QuantoMapping.Book([Some(50400.0)], [Some(50600.0)]))))
    ensures ObservedSpread("BTC/USDT", Some(50000.0), source) == Some(1.0)
  {
    BtcBase();
    var codes := QuantoMapping.Candidates("BTC");
    assert codes[3] == "BTC-USDT-SWAP";
    assert QuantoMapping.QuantoPrice(source(codes[3])) == Some(50500.0);
    var k := QuantoMapping.FirstHit(source, codes);
    assert QuantoMapping.Miss(source, codes[0]) && QuantoMapping.Miss(source, codes[1]) && QuantoMapping.Miss(source, codes[2]);
    assert k == 3;
    assert MappedPrice(source, "BTC/USDT") == Some(50500.0);
    assert SpreadPercent(50000.0, 50500.0) == 1.0;
  }

  /** End to end: a fresh monitor with threshold 1.0 polling "BTC/USDT" in the
      situation of BtcSpread sends an alert of +1% telling to buy on MEXC and
      sell on Quanto. */
  method BtcScenario(source: QuantoMapping.DepthSource) returns (alert: Option<Alert>)
    requires forall j :: 0 <= j < 3 ==> source(QuantoMapping.Candidates("BTC")[j]).None?
    requires source("BTC-USDT-SWAP")
      == Some(QuantoMapping.DepthReply(true, Some(QuantoMapping.Book([Some(50400.0)], [Some(50600.0)]))))
    ensures alert == Some(Alert("BTC/USDT", 1.0, BuyMexcSellQuanto))
  {
    BtcSpread(source);
    var monitor := new Monitor(1.0);
    alert := monitor.ProcessPair("BTC/USDT", Some(50000.0), source);
  }

  /** One poll of a pair: the MEXC price fetched for it and the depth endpoint
      as it answers during that poll. */
  datatype Poll = Poll(mexcPrice: Option<real>, source: QuantoMapping.DepthSource)

  /** The spread one poll records for `symbol`, None when it skips. */
  function PollSpread(symbol: string, poll: Poll): Option<real>
  {
    ObservedSpread(symbol, poll.mexcPrice, poll.source)
  }

  /** For each poll, in order, the spread it records for `symbol`, None when
      it skips. */
  function PollSpreads(symbol: string, polls: seq<Poll>): (obs: seq<Option<real>>)
    ensures |obs| == |polls|
    decreases |polls|
  {
    if polls == [] then []
    else PollSpreads(symbol, polls[..|polls| - 1]) + [PollSpread(symbol, polls[|polls| - 1])]
  }

  /** Entry `i` of PollSpreads is what poll `i` records. */
  lemma {:induction false} PollSpreadsAt(symbol: string, polls: seq<Poll>, i: nat)
    requires i < |polls|
    ensures PollSpreads(symbol, polls)[i] == PollSpread(symbol, polls[i])
    decreases |polls|
  {
    if i < |polls| - 1 {
      PollSpreadsAt(symbol, polls[..|polls| - 1], i);
    }
  }

  /** PollSpreads of one more poll. */
  lemma PollSpreadsSnoc(symbol: string, polls: seq<Poll>, i: nat)
    requires i < |polls|
    ensures PollSpreads(symbol, polls[..i + 1]) == PollSpreads(symbol, polls[..i]) + [PollSpread(symbol, polls[i])]
  {
    assert polls[..i + 1][..i] == polls[..i];
  }

  /** The recorded spreads of a series of polls, skipped polls left out. */
  function Present(obs: seq<Option<real>>): (spreads: seq<real>)
    ensures |spreads| <= |obs|
    decreases |obs|
  {
    if obs == [] then []
    else
      var init := Present(obs[..|obs| - 1]);
      match obs[|obs| - 1]
      case None => init
      case Some(spread) => init + [spread]
  }

  /** For each non-skipped poll, in order, whether its call returned an alert. */
  function FiredAtPresent(obs: seq<Option<real>>, alerts: seq<Option<Alert>>): seq<bool>
    requires |alerts| == |obs|
    decreases |obs|
  {
    if obs == [] then []
    else
      var n := |obs| - 1;
      var init := FiredAtPresent(obs[..n], alerts[..n]);
      if obs[n].None? then init else init + [alerts[n].Some?]
  }

  /** A dictionary after `spreads` were written under `symbol`, one after the other. */
  function Recorded(m: map<string, real>, symbol: string, spreads: seq<real>): map<string, real>
  {
    if spreads == [] then m else m[symbol := spreads[|spreads| - 1]]
  }

  /** Appending one observation to a series appends one gate decision, taken
      against the observation before it. */
  lemma AlertTraceSnoc(prev: real, spreads: seq<real>, spread: real, threshold: real)
    ensures AlertTrace(prev, spreads + [spread], threshold)
         == AlertTrace(prev, spreads, threshold)
            + [ShouldAlert(spread, if spreads == [] then prev else spreads[|spreads| - 1], threshold)]
  {
    var xs := spreads + [spread];
    var lhs := AlertTrace(prev, xs, threshold);
    var rhs := AlertTrace(prev, spreads, threshold)
               + [ShouldAlert(spread, if spreads == [] then prev else spreads[|spreads| - 1], threshold)];
    forall i | 0 <= i < |xs| ensures lhs[i] == rhs[i] {
      if i < |spreads| {
        assert xs[i] == spreads[i];
        assert i > 0 ==> xs[i - 1] == spreads[i - 1];
      } else {
        assert xs[i] == spread;
        assert i > 0 ==> xs[i - 1] == spreads[|spreads| - 1];
      }
    }
  }

  /** One ProcessPair call inside a series keeps the alert part of the
      series' invariant: a skipped poll sends nothing, and the alert flags of
      the non-skipped polls follow AlertTrace. Here `o` is what the call
      observes, `alert` what it returns, and `lastBefore` the `lastSpread`
      dictionary it starts from. */
  lemma TraceStep(symbol: string, obs: seq<Option<real>>, alerts: seq<Option<Alert>>,
                  o: Option<real>, alert: Option<Alert>, threshold: real,
                  last0: map<string, real>, lastBefore: map<string, real>)
    requires |alerts| == |obs|
    requires forall j :: 0 <= j < |obs| && obs[j].None? ==> alerts[j].None?
    requires FiredAtPresent(obs, alerts) == AlertTrace(PrevSpread(last0, symbol), Present(obs), threshold)
    requires lastBefore == Recorded(last0, symbol, Present(obs))
    requires o.None? ==> alert.None?
    requires o.Some? ==> alert.Some? == ShouldAlert(o.value, PrevSpread(lastBefore, symbol), threshold)
    ensures forall j :: 0 <= j < |obs| + 1 && (obs + [o])[j].None? ==> (alerts + [alert])[j].None?
    ensures FiredAtPresent(obs + [o], alerts + [alert])
         == AlertTrace(PrevSpread(last0, symbol), Present(obs + [o]), threshold)
  {
    var before := Present(obs);
    var prev0 := PrevSpread(last0, symbol);
    PresentSnoc(obs, o);
    FiredAtPresentSnoc(obs, alerts, o, alert);
    if o.Some? {
      assert PrevSpread(lastBefore, symbol) == if before == [] then prev0 else before[|before| - 1];
      AlertTraceSnoc(prev0, before, o.value, threshold);
    }
  }

  /** One ProcessPair call inside a series keeps a dictionary it writes equal
      to the starting one with the recorded spreads written in order. */
  lemma RecordedStep(symbol: string, obs: seq<Option<real>>, o: Option<real>,
                     m0: map<string, real>, before: map<string, real>, after: map<string, real>)
    requires before == Recorded(m0, symbol, Present(obs))
    requires o.None? ==> after == before
    requires o.Some? ==> after == before[symbol := o.value]
    ensures after == Recorded(m0, symbol, Present(obs + [o]))
  {
    PresentSnoc(obs, o);
    if o.Some? {
      RecordedSnoc(m0, symbol, Present(obs), o.value);
    }
  }

  /** Present grows by the new spread exactly when the new poll records one. */
  lemma PresentSnoc(obs: seq<Option<real>>, o: Option<real>)
    ensures Present(obs + [o]) == if o.None? then Present(obs) else Present(obs) + [o.value]
  {
    assert (obs + [o])[..|obs|] == obs;
  }

  /** FiredAtPresent grows by the new alert flag exactly when the new poll records a spread. */
  lemma FiredAtPresentSnoc(obs: seq<Option<real>>, alerts: seq<Option<Alert>>, o: Option<real>, alert: Option<Alert>)
    requires |alerts| == |obs|
    ensures FiredAtPresent(obs + [o], alerts + [alert])
         == if o.None? then FiredAtPresent(obs, alerts) else FiredAtPresent(obs, alerts) + [alert.Some?]
  {
    assert (obs + [o])[..|obs|] == obs;
    assert (alerts + [alert])[..|alerts|] == alerts;
  }

  /** Writing one more spread leaves only that spread under `symbol`. */
  lemma RecordedSnoc(m: map<string, real>, symbol: string, spreads: seq<real>, spread: real)
    ensures Recorded(m, symbol, spreads + [spread]) == Recorded(m, symbol, spreads)[symbol := spread]
  {
    if spreads != [] {
      assert m[symbol := spreads[|spreads| - 1]][symbol := spread] == m[symbol := spread];
    }
  }

  /** The state process_pair shares across polls: `prices`, the spreads shown
      on the dashboard, and `lastSpread`, the spreads the alert gate compares
      against. */
  class Monitor {
    const threshold: real
    var prices: map<string, real>
    var lastSpread: map<string, real>

    constructor (threshold: real)
      ensures this.threshold == threshold
      ensures prices == map[] && lastSpread == map[]
    {
      this.threshold := threshold;
      prices := map[];
      lastSpread := map[];
    }

    /** One poll of `symbol` given the venue-A price already fetched. Returns
        the alert to send, if any. */
    method ProcessPair(symbol: string, mexcPrice: Option<real>, source: QuantoMapping.DepthSource)
      returns (alert: Option<Alert>)
      modifies this
      ensures ObservedSpread(symbol, mexcPrice, source).None? ==>
        prices == old(prices) && lastSpread == old(lastSpread) && alert.None?
      ensures ObservedSpread(symbol, mexcPrice, source).Some? ==>
        var spread := ObservedSpread(symbol, mexcPrice, source).value;
        && prices == old(prices)[symbol := spread]
        && lastSpread == old(lastSpread)[symbol := spread]
        && alert == (if ShouldAlert(spread, PrevSpread(old(lastSpread), symbol), threshold)
                     then Some(Alert(symbol, spread, DirectionOf(spread))) else None)
    {
      alert := None;
      if Falsy(mexcPrice) {
        return;
      }
      var m := mexcPrice.value;
      var base := BaseAsset(symbol);
      var code, quantoPrice := QuantoMapping.TryMappings(source, base);
      if Falsy(quantoPrice) {
        return;
      }
      var spread := SpreadPercent(m, quantoPrice.value);
      prices := prices[symbol := spread];
      var prev := PrevSpread(lastSpread, symbol);
      if ShouldAlert(spread, prev, threshold) {
        alert := Some(Alert(symbol, spread, DirectionOf(spread)));
      }
      lastSpread := lastSpread[symbol := spread];
    }

    /** ProcessPair on poll `i` of `polls`, after polls 0..i-1 sent `alerts`
        and the run started from the dictionaries `last0` and `prices0`: what
        ProcessSeries keeps true of the polls so far holds again with poll
        `i` added. */
    method PollStep(symbol: string, polls: seq<Poll>, i: nat, ghost alerts: seq<Option<Alert>>,
                    ghost last0: map<string, real>, ghost prices0: map<string, real>)
      returns (alert: Option<Alert>)
      modifies this
      requires i < |polls| && |alerts| == i
      requires forall j :: 0 <= j < i && PollSpreads(symbol, polls[..i])[j].None? ==> alerts[j].None?
      requires FiredAtPresent(PollSpreads(symbol, polls[..i]), alerts)
            == AlertTrace(PrevSpread(last0, symbol), Present(PollSpreads(symbol, polls[..i])), threshold)
      requires lastSpread == Recorded(last0, symbol, Present(PollSpreads(symbol, polls[..i])))
      requires prices == Recorded(prices0, symbol, Present(PollSpreads(symbol, polls[..i])))
      ensures forall j :: 0 <= j < i + 1 && PollSpreads(symbol, polls[..i + 1])[j].None? ==> (alerts + [alert])[j].None?
      ensures FiredAtPresent(PollSpreads(symbol, polls[..i + 1]), alerts + [alert])
           == AlertTrace(PrevSpread(last0, symbol), Present(PollSpreads(symbol, polls[..i + 1])), threshold)
      ensures lastSpread == Recorded(last0, symbol, Present(PollSpreads(symbol, polls[..i + 1])))
      ensures prices == Recorded(prices0, symbol, Present(PollSpreads(symbol, polls[..i + 1])))
    {
      ghost var obs := PollSpreads(symbol, polls[..i]);
      ghost var o := PollSpread(symbol, polls[i]);
      PollSpreadsSnoc(symbol, polls, i);
      ghost var lastBefore, pricesBefore := lastSpread, prices;
      alert := ProcessPair(symbol, polls[i].mexcPrice, polls[i].source);
      TraceStep(symbol, obs, alerts, o, alert, threshold, last0, lastBefore);
      RecordedStep(symbol, obs, o, last0, lastBefore, lastSpread);
      RecordedStep(symbol, obs, o, prices0, pricesBefore, prices);
    }

    /** Polls `symbol` once per element of `polls`, in order. Skipped polls
        send nothing and leave the state alone; over the others the alerts
        sent are exactly those AlertTrace gives, starting from the record
        held before the first poll. */
    method ProcessSeries(symbol: string, polls: seq<Poll>) returns (alerts: seq<Option<Alert>>)
      modifies this
      ensures |alerts| == |polls|
      ensures forall i :: 0 <= i < |polls| && PollSpreads(symbol, polls)[i].None? ==> alerts[i].None?
      ensures FiredAtPresent(PollSpreads(symbol, polls), alerts)
           == AlertTrace(PrevSpread(old(lastSpread), symbol), Present(PollSpreads(symbol, polls)), threshold)
      ensures lastSpread == Recorded(old(lastSpread), symbol, Present(PollSpreads(symbol, polls)))
      ensures prices == Recorded(old(prices), symbol, Present(PollSpreads(symbol, polls)))
    {
      alerts := [];
      var i := 0;
      while i < |polls|
        invariant 0 <= i <= |polls| && |alerts| == i
        invariant forall j :: 0 <= j < i && PollSpreads(symbol, polls[..i])[j].None? ==> alerts[j].None?
        invariant FiredAtPresent(PollSpreads(symbol, polls[..i]), alerts)
               == AlertTrace(PrevSpread(old(lastSpread), symbol), Present(PollSpreads(symbol, polls[..i])), threshold)
        invariant lastSpread == Recorded(old(lastSpread), symbol, Present(PollSpreads(symbol, polls[..i])))
        invariant prices == Recorded(old(prices), symbol, Present(PollSpreads(symbol, polls[..i])))
      {
        var alert := PollStep(symbol, polls, i, alerts, old(lastSpread), old(prices));
        alerts := alerts + [alert];
        i := i + 1;
      }
      assert polls[..i] == polls;
    }
  }
}
