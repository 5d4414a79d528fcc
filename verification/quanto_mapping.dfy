/** Venue-B (Quanto) market lookup: the six market codes tried for a base
    asset, the mid price read from a depth reply, and the first-match search
    over the codes (bot.py, fetch_quanto_price and try_quanto_mappings). */
module QuantoMapping {
  import opened Wrappers

  /** The level-1 book of a depth reply. Each entry stands for one level and
      holds its first field (the price) converted to a number, or None when
      that level has no first field or the field does not convert. */
  datatype Book = Book(bids: seq<Option<real>>, asks: seq<Option<real>>)

  /** A decoded depth reply: whether its `success` field is truthy, and its
      `data` object, None when the reply has no `data` key. */
  datatype DepthReply = DepthReply(success: bool, data: Option<Book>)

  /** The depth endpoint for one market code: the decoded reply, or None when
      reading it raises. That covers a failed request, a timeout and a body
      that is not JSON, and also a body whose structure makes the lookup
      raise: one that is not a JSON object, or whose `data` is null or not an
      object. */
  type DepthSource = string -> Option<DepthReply>

  function Min(x: real, y: real): real { if x <= y then x else y }
  function Max(x: real, y: real): real { if x <= y then y else x }

  /** The market codes tried for `base`, in order. No code is tried twice
      for the same base asset. */
  function Candidates(base: string): (codes: seq<string>)
    ensures |codes| == 6
    ensures forall i :: 0 <= i < |codes| ==> base <= codes[i]
    ensures forall i, j :: 0 <= i < j < |codes| ==> codes[i] != codes[j]
  {
    [ base + "-USD-SWAP-LIN",
      base + "-USDT-SWAP-LIN",
      base + "-USD-SWAP",
      base + "-USDT-SWAP",
      base + "-USD",
      base + "-USDT" ]
  }

  /** A reply the bot can price: the request returned, `success` is truthy,
      `data` is present, both sides have a level and both top prices convert. */
  predicate Usable(reply: Option<DepthReply>)
  {
    && reply.Some?
    && reply.value.success
    && reply.value.data.Some?
    && |reply.value.data.value.bids| > 0
    && |reply.value.data.value.asks| > 0
    && reply.value.data.value.bids[0].Some?
    && reply.value.data.value.asks[0].Some?
  }

  function TopBid(reply: Option<DepthReply>): real
    requires Usable(reply)
  {
    reply.value.data.value.bids[0].value
  }

  function TopAsk(reply: Option<DepthReply>): real
    requires Usable(reply)
  {
    reply.value.data.value.asks[0].value
  }

  /** The price read from a depth reply: the point midway between the top bid
      and the top ask when the reply is usable, and no price otherwise. */
  function QuantoPrice(reply: Option<DepthReply>): (price: Option<real>)
    ensures price.Some? <==> Usable(reply)
    ensures price.Some? ==> Min(TopBid(reply), TopAsk(reply)) <= price.value <= Max(TopBid(reply), TopAsk(reply))
    ensures price.Some? ==> price.value - TopBid(reply) == TopAsk(reply) - price.value
  {
    if reply.Some? && reply.value.success && reply.value.data.Some? then
      var book := reply.value.data.value;
      if |book.bids| > 0 && |book.asks| > 0 then
        match (book.bids[0], book.asks[0])
        case (Some(bid), Some(ask)) => Some((bid + ask) / 2.0)
        case _ => None
      else None
    else None
  }

  /** The lookup of market code `code` yields no price. */
  predicate Miss(source: DepthSource, code: string)
  {
    QuantoPrice(source(code)).None?
  }

  /** The position of the first code in `codes` whose lookup yields a price,
      or |codes| when none does. */
  function FirstHit(source: DepthSource, codes: seq<string>): (k: nat)
    ensures k <= |codes|
    ensures forall j :: 0 <= j < k ==> Miss(source, codes[j])
    ensures k < |codes| ==> !Miss(source, codes[k])
  {
    if codes == [] then 0
    else if !Miss(source, codes[0]) then 0
    else 1 + FirstHit(source, codes[1..])
  }

  /** The (market code, price) pair the search settles on, as a value. */
  function Mapping(source: DepthSource, base: string): (found: (Option<string>, Option<real>))
    ensures found.0.Some? <==> found.1.Some?
    ensures found.0.None? <==> forall c :: c in Candidates(base) ==> Miss(source, c)
    ensures found.0.Some? ==> found.0.value in Candidates(base) && found.1 == QuantoPrice(source(found.0.value))
  {
    var codes := Candidates(base);
    var k := FirstHit(source, codes);
    if k < |codes| then (Some(codes[k]), QuantoPrice(source(codes[k]))) else (None, None)
  }

  /** Tries the candidate codes for `base` in order and stops at the first one
      whose lookup yields a price. */
  method TryMappings(source: DepthSource, base: string) returns (code: Option<string>, price: Option<real>)
    ensures code.Some? <==> price.Some?
    ensures code.Some? ==>
      (exists k :: 0 <= k < |Candidates(base)| && Candidates(base)[k] == code.value
         && QuantoPrice(source(code.value)) == price
         && forall j :: 0 <= j < k ==> Miss(source, Candidates(base)[j]))
    ensures code.None? <==> forall c :: c in Candidates(base) ==> Miss(source, c)
    ensures (code, price) == Mapping(source, base)
  {
    var codes := Candidates(base);
    var i := 0;
    while i < |codes|
      invariant 0 <= i <= |codes|
      invariant forall j :: 0 <= j < i ==> Miss(source, codes[j])
    {
      var p := QuantoPrice(source(codes[i]));
      if p.Some? {
        assert codes[i] in codes && !Miss(source, codes[i]);
        code, price := Some(codes[i]), p;
        return;
      }
      i := i + 1;
    }
    code, price := None, None;
  }

  /** A later candidate is never chosen while an earlier one yields a price. */
  lemma EarliestHitWins(source: DepthSource, base: string, j: nat)
    requires j < |Candidates(base)| && !Miss(source, Candidates(base)[j])
    ensures Mapping(source, base).0.Some?
    ensures forall k :: 0 <= k < |Candidates(base)| && Mapping(source, base).0 == Some(Candidates(base)[k]) ==> k <= j
  {
  }
}
