/** The last-price cache (`Kite.ltp`, kite-momentum-rebalancer/app/kite_client.py). The clock is monotone; the
    broker answers each batch with prices for some of the keys asked. */
module PriceCache {

  const LTP_BATCH_SIZE := 1000

  /** A price the broker gave. */
  datatype Quote = Quote(key: string, at: int, price: real)

  function Key(exchange: string, symbol: string): string {
    exchange + ":" + symbol
  }

  /** `key.split(":", 1)[1]`. */
  function AfterColon(key: string): string {
    if key == [] then [] else if key[0] == ':' then key[1..] else AfterColon(key[1..])
  }

  lemma {:induction false} KeySplits(exchange: string, symbol: string)
    requires ':' !in exchange
    ensures AfterColon(Key(exchange, symbol)) == symbol
  {
    var key := Key(exchange, symbol);
    if exchange == [] {
      assert key == ":" + symbol;
      assert key[1..] == symbol;
    } else {
      assert exchange[0] in exchange && forall c :: c in exchange[1..] ==> c in exchange;
      KeySplits(exchange[1..], symbol);
      assert key[1..] == Key(exchange[1..], symbol);
    }
  }

  /** One key names one exchange and one symbol. */
  lemma {:induction false} KeyInjective(e: string, s: string, f: string, t: string)
    requires ':' !in e && ':' !in f && Key(e, s) == Key(f, t)
    ensures e == f && s == t
  {
    KeySplits(e, s);
    KeySplits(f, t);
    assert |e| == |f|;
    assert e == Key(e, s)[..|e|] && f == Key(f, t)[..|f|];
  }

  /** `dict.fromkeys`, less the empty names: each symbol once, in order. */
  function Wanted(symbols: seq<string>): seq<string> {
    if symbols == [] then []
    else
      var front, s := Wanted(symbols[..|symbols| - 1]), symbols[|symbols| - 1];
      if s == "" || s in front then front else front + [s]
  }

  predicate Distinct(s: seq<string>) {
    forall i, j :: 0 <= i < j < |s| ==> s[i] != s[j]
  }

  lemma {:induction false} WantedIs(symbols: seq<string>)
    ensures Distinct(Wanted(symbols)) && forall s :: s in Wanted(symbols) <==> s in symbols && s != ""
  {
    if symbols != [] {
      var front, s := symbols[..|symbols| - 1], symbols[|symbols| - 1];
      WantedIs(front);
      assert symbols == front + [s];
    }
  }

  type Cache = map<string, (int, real)>

  predicate Fresh(cache: Cache, ttl: int, exchange: string, symbol: string, now: int) {
    Key(exchange, symbol) in cache && now - cache[Key(exchange, symbol)].0 < ttl
  }

  function Keys(exchange: string, symbols: seq<string>): seq<string> {
    seq(|symbols|, i requires 0 <= i < |symbols| => Key(exchange, symbols[i]))
  }

  function Flatten(batches: seq<seq<string>>): seq<string> {
    if batches == [] then [] else Flatten(batches[..|batches| - 1]) + batches[|batches| - 1]
  }

  /** A key and its price, as the broker answers. */
  datatype Priced = Priced(key: string, price: real)

  function Quotes(reply: seq<Priced>, at: int): seq<Quote> {
    if reply == [] then []
    else Quotes(reply[..|reply| - 1], at) + [Quote(reply[|reply| - 1].key, at, reply[|reply| - 1].price)]
  }

  /** The broker prices only keys it was asked for, perhaps not all. */
  predicate Answers(reply: seq<Priced>, keys: seq<string>) {
    forall i :: 0 <= i < |reply| ==> reply[i].key in keys
  }

  predicate Same(key: string, a: Cache, b: Cache) {
    (key in a <==> key in b) && (key in a ==> a[key] == b[key])
  }

  /** The price was given for that exchange and symbol: since `from`, or less than `ttl` before `now`. */
  ghost predicate Served(log: seq<Quote>, from: nat, exchange: string, symbol: string, price: real, now: int, ttl: int)
  {
    exists k :: 0 <= k < |log| && log[k].key == Key(exchange, symbol) && log[k].price == price
      && (k >= from || now - log[k].at < ttl)
  }

  ghost predicate AllServed(log: seq<Quote>, from: nat, exchange: string, out: map<string, real>, now: int, ttl: int) {
    forall s :: s in out ==> Served(log, from, exchange, s, out[s], now, ttl)
  }

  /** Every key names one of the symbols on the exchange. */
  ghost predicate KeysOf(keys: seq<string>, exchange: string, names: seq<string>) {
    forall key :: key in keys ==> exists s :: s in names && key == Key(exchange, s)
  }

  /** The answer to one batch is all there. */
  predicate AllIn(reply: seq<Priced>, out: map<string, real>) {
    forall i :: 0 <= i < |reply| ==> AfterColon(reply[i].key) in out
  }

  /** The names in an answer. */
  predicate Named(out: map<string, real>, names: seq<string>) {
    forall s :: s in out ==> s in names
  }

  /** `out` with a batch's answer on top. */
  ghost predicate Merged(exchange: string, at: int, out: map<string, real>, reply: seq<Priced>, more: map<string, real>)
  {
    && out.Keys <= more.Keys && AllIn(reply, more)
    && forall s :: s in more ==>
        (s in out && more[s] == out[s]) || Quote(Key(exchange, s), at, more[s]) in Quotes(reply, at)
  }

  lemma MergedStep(exchange: string, at: int, out: map<string, real>, reply: seq<Priced>, i: nat,
                   more: map<string, real>, s: string)
    requires i < |reply| && ':' !in exchange && reply[i].key == Key(exchange, s)
    requires Merged(exchange, at, out, reply[..i], more)
    ensures AfterColon(reply[i].key) == s && Merged(exchange, at, out, reply[..i + 1], more[s := reply[i].price])
  {
    KeySplits(exchange, s);
    assert reply[..i + 1][..i] == reply[..i];
  }

  /** Every batch sent so far is answered in full. */
  ghost predicate AllAnswered(broker: (nat, seq<string>) -> seq<Priced>, batches: seq<seq<string>>,
                              out: map<string, real>)
  {
    forall b :: 0 <= b < |batches| ==> AllIn(broker(b, batches[b]), out)
  }

  lemma AnsweredMore(broker: (nat, seq<string>) -> seq<Priced>, batches: seq<seq<string>>, batch: seq<string>,
                     out: map<string, real>, more: map<string, real>)
    requires AllAnswered(broker, batches, out) && out.Keys <= more.Keys && AllIn(broker(|batches|, batch), more)
    ensures AllAnswered(broker, batches + [batch], more)
  {
    forall b | 0 <= b < |batches| ensures AllIn(broker(b, (batches + [batch])[b]), more) {
      assert AllIn(broker(b, batches[b]), out);
    }
  }

  /** Nothing but those keys changed. */
  ghost predicate OnlyThese(keys: seq<string>, a: Cache, b: Cache) {
    forall key :: key !in keys ==> Same(key, a, b)
  }

  predicate SmallBatches(batches: seq<seq<string>>) {
    forall b :: 0 <= b < |batches| ==> 0 < |batches[b]| <= LTP_BATCH_SIZE
  }

  class Kite {
    const ttl: int
    var cache: Cache
    ghost var log: seq<Quote>

    /** Every cached price is one the broker gave for that key at that time. */
    ghost predicate Valid()
      reads this
    {
      forall key :: key in cache ==> Quote(key, cache[key].0, cache[key].1) in log
    }

    constructor (seconds: int)
      ensures Valid() && cache == map[] && ttl == seconds
    {
      ttl, cache, log := seconds, map[], [];
    }

    /** Fresh answers and the names without one. */
    method Split(wanted: seq<string>, exchange: string, now: int) returns (out: map<string, real>, missing: seq<string>)
      requires Distinct(wanted)
      ensures forall s :: s in out <==> s in wanted && Fresh(cache, ttl, exchange, s, now)
      ensures forall s :: s in out ==> Key(exchange, s) in cache && out[s] == cache[Key(exchange, s)].1
      ensures forall s :: s in missing <==> s in wanted && !Fresh(cache, ttl, exchange, s, now)
      ensures Distinct(missing)
    {
      out, missing := map[], [];
      for i := 0 to |wanted|
        invariant forall s :: s in out <==> s in wanted[..i] && Fresh(cache, ttl, exchange, s, now)
        invariant forall s :: s in out ==> Key(exchange, s) in cache && out[s] == cache[Key(exchange, s)].1
        invariant forall s :: s in missing <==> s in wanted[..i] && !Fresh(cache, ttl, exchange, s, now)
        invariant Distinct(missing)
      {
        assert wanted[..i + 1] == wanted[..i] + [wanted[i]];
        assert wanted[i] !in wanted[..i];
        if Fresh(cache, ttl, exchange, wanted[i], now) {
          out := out[wanted[i] := cache[Key(exchange, wanted[i])].1];
        } else {
          missing := missing + [wanted[i]];
        }
      }
      assert wanted[..|wanted|] == wanted;
    }

    /** One price, into the cache. */
    method Store(q: Quote)
      requires Valid()
      modifies this
      ensures Valid() && log == old(log) + [q] && cache == old(cache)[q.key := (q.at, q.price)]
    {
      ghost var was := log;
      log := log + [q];
      cache := cache[q.key := (q.at, q.price)];
      assert log[|was|] == q && forall x :: x in was ==> x in log;
    }

    /** One reply, into the cache and the answer. */
    method Take(keys: seq<string>, at: int, reply: seq<Priced>, out: map<string, real>, ghost exchange: string,
                ghost names: seq<string>)
      returns (more: map<string, real>)
      requires Valid() && ':' !in exchange && Answers(reply, keys)
      requires KeysOf(keys, exchange, names) && Named(out, names)
      modifies this
      ensures Valid() && log == old(log) + Quotes(reply, at)
      ensures OnlyThese(keys, old(cache), cache)
      ensures Named(more, names) && Merged(exchange, at, out, reply, more)
    {
      more := out;
      for i := 0 to |reply|
        invariant log == old(log) + Quotes(reply[..i], at)
        invariant Valid()
        invariant OnlyThese(keys, old(cache), cache)
        invariant Named(more, names) && Merged(exchange, at, out, reply[..i], more)
      {
        assert reply[..i + 1][..i] == reply[..i];
        var key := reply[i].key;
        ghost var s :| s in names && key == Key(exchange, s);
        MergedStep(exchange, at, out, reply, i, more, s);
        Store(Quote(key, at, reply[i].price));
        more := more[AfterColon(key) := reply[i].price];
      }
      assert reply[..|reply|] == reply;
    }

    /** One batch: asked once, and taken. */
    method Fetch(batch: seq<string>, b: nat, times: nat -> int, broker: (nat, seq<string>) -> seq<Priced>,
                 out: map<string, real>,
                 ghost exchange: string, ghost from: nat, ghost now: int, ghost names: seq<string>)
      returns (more: map<string, real>)
      requires Valid() && ':' !in exchange && KeysOf(batch, exchange, names) && Answers(broker(b, batch), batch)
      requires Named(out, names)
      requires from <= |log| && AllServed(log, from, exchange, out, now, ttl)
      modifies this
      ensures Valid() && old(log) <= log && OnlyThese(batch, old(cache), cache)
      ensures out.Keys <= more.Keys && AllServed(log, from, exchange, more, now, ttl)
      ensures AllIn(broker(b, batch), more) && Named(more, names)
    {
      more := Take(batch, times(b), broker(b, batch), out, exchange, names);
      forall s | s in more ensures Served(log, from, exchange, s, more[s], now, ttl) {
        StillServed(old(log), log, from, exchange, s, more[s], now, ttl, times(b), broker(b, batch),
                    s in out && out[s] == more[s]);
      }
    }

    /** `ltp`. Symbols with a fresh answer cost no call; each of the others is asked for once, in batches no
        larger than the limit, and what is answered is returned; no other symbol is; and every price returned
        was given by the broker for that exchange and symbol, in this call or less than the time to live ago.
        `times` and `broker` are what the clock and the broker do at each call. */
    method Ltp(symbols: seq<string>, exchange: string, now: int, times: nat -> int,
               broker: (nat, seq<string>) -> seq<Priced>)
      returns (out: map<string, real>, batches: seq<seq<string>>)
      requires Valid() && ':' !in exchange
      requires forall b, keys :: Answers(broker(b, keys), keys)
      modifies this
      ensures Valid() && old(log) <= log
      ensures forall s :: s in Wanted(symbols) && Fresh(old(cache), ttl, exchange, s, now) ==> s in out
      ensures Named(out, Wanted(symbols))
      ensures AllServed(log, |old(log)|, exchange, out, now, ttl)
      ensures AllAnswered(broker, batches, out)
      ensures SmallBatches(batches) && Distinct(Flatten(batches))
      ensures forall key :: key in Flatten(batches)
                <==> exists s ::
                       s in Wanted(symbols) && !Fresh(old(cache), ttl, exchange, s, now) && key == Key(exchange, s)
      ensures OnlyThese(Flatten(batches), old(cache), cache)
    {
      WantedIs(symbols);
      var missing;
      out, missing := Split(Wanted(symbols), exchange, now);
      FreshServed(exchange, out, now);
      KeysAre(exchange, missing);
      batches := [];
      var keys := Keys(exchange, missing);
      ghost var served := out.Keys;
      var start := 0;
      while start < |keys|
        invariant 0 <= start <= |keys| && Flatten(batches) == keys[..start] && SmallBatches(batches)
        invariant Valid() && old(log) <= log && served <= out.Keys
        invariant AllServed(log, |old(log)|, exchange, out, now, ttl)
        invariant Named(out, Wanted(symbols)) && AllAnswered(broker, batches, out)
        invariant OnlyThese(keys[..start], old(cache), cache)
      {
        var next := if start + LTP_BATCH_SIZE < |keys| then start + LTP_BATCH_SIZE else |keys|;
        var batch, b := keys[start..next], |batches|;
        assert KeysOf(batch, exchange, Wanted(symbols));
        ghost var before, had := cache, out;
        out := Fetch(batch, b, times, broker, out, exchange, |old(log)|, now, Wanted(symbols));
        AnsweredMore(broker, batches, batch, had, out);
        batches := batches + [batch];
        assert batches[..b] == batches[..|batches| - 1];
        assert keys[..start] + batch == keys[..next];
        OnlyThen(keys[..start], batch, old(cache), before, cache);
        start := next;
      }
      assert keys[..start] == keys;
    }

    lemma FreshServed(exchange: string, out: map<string, real>, now: int)
      requires Valid()
      requires forall s :: s in out ==> Fresh(cache, ttl, exchange, s, now) && out[s] == cache[Key(exchange, s)].1
      ensures AllServed(log, |log|, exchange, out, now, ttl)
    {
      forall s | s in out ensures Served(log, |log|, exchange, s, out[s], now, ttl) {
        var key := Key(exchange, s);
        assert Quote(key, cache[key].0, cache[key].1) in log;
      }
    }
  }

  lemma OnlyThen(x: seq<string>, y: seq<string>, a: Cache, b: Cache, c: Cache)
    requires OnlyThese(x, a, b) && OnlyThese(y, b, c)
    ensures OnlyThese(x + y, a, c)
  {
    forall key | key !in x + y ensures Same(key, a, c) {
      assert key !in x && key !in y;
      assert Same(key, a, b) && Same(key, b, c);
    }
  }

  lemma KeysAre(exchange: string, symbols: seq<string>)
    requires ':' !in exchange && Distinct(symbols)
    ensures var keys := Keys(exchange, symbols);
            Distinct(keys) && forall key :: key in keys <==> exists s :: s in symbols && key == Key(exchange, s)
  {
    var keys := Keys(exchange, symbols);
    forall i, j | 0 <= i < j < |keys| ensures keys[i] != keys[j] {
      if keys[i] == keys[j] {
        KeyInjective(exchange, symbols[i], exchange, symbols[j]);
      }
    }
    forall s | s in symbols ensures Key(exchange, s) in keys {
      var i :| 0 <= i < |symbols| && symbols[i] == s;
      assert keys[i] == Key(exchange, s);
    }
  }

  lemma {:induction false} StillServed(log0: seq<Quote>, log: seq<Quote>, from: nat, exchange: string, s: string,
                                       price: real, now: int, ttl: int, at: int, reply: seq<Priced>, kept: bool)
    requires from <= |log0| && log == log0 + Quotes(reply, at)
    requires if kept then Served(log0, from, exchange, s, price, now, ttl)
        else Quote(Key(exchange, s), at, price) in Quotes(reply, at)
    ensures Served(log, from, exchange, s, price, now, ttl)
  {
    if kept {
      var k :| 0 <= k < |log0| && log0[k].key == Key(exchange, s) && log0[k].price == price
        && (k >= from || now - log0[k].at < ttl);
      assert log[k] == log0[k];
    } else {
      var k :| 0 <= k < |Quotes(reply, at)| && Quotes(reply, at)[k] == Quote(Key(exchange, s), at, price);
      assert log[|log0| + k] == Quotes(reply, at)[k];
    }
  }
}
