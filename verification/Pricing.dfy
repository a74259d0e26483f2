/** The versioned price table, its Redis cache, and the cost of a completion.
    Prices are whole millionths of a dollar per 1000 tokens; times are seconds. */
module Pricing {
  import opened Wrappers
  import opened Text
  import opened Registry

  datatype Price = Price(input: int, output: int)

  datatype PriceRow = PriceRow(id: ModelIdentifier, price: Price, effectiveFrom: int, effectiveTo: Option<int>) {
    /** The row's window covers `at`: from its start, up to but excluding its end. */
    predicate Covers(id: ModelIdentifier, at: int) {
      this.id == id && effectiveFrom <= at && (effectiveTo.Some? ==> at < effectiveTo.value)
    }
  }

  /** The covering row that took effect last, if any row covers `at`. */
  function ActivePrice(rows: seq<PriceRow>, id: ModelIdentifier, at: int): (best: Option<PriceRow>)
    ensures best.Some? ==> best.value in rows && best.value.Covers(id, at)
    ensures best.Some? ==> forall r :: r in rows && r.Covers(id, at) ==> r.effectiveFrom <= best.value.effectiveFrom
    ensures best.None? ==> forall r :: r in rows ==> !r.Covers(id, at)
  {
    if rows == [] then None else
    assert rows == [rows[0]] + rows[1..];
    var rest := ActivePrice(rows[1..], id, at);
    if rows[0].Covers(id, at) && (rest.Some? ==> rest.value.effectiveFrom <= rows[0].effectiveFrom) then Some(rows[0])
    else rest
  }

  /** When one version ends where the next begins, the price changes hands at that very
      second: there is always one price, and never a choice of two. */
  lemma HandoverIsSeamless(before: PriceRow, next: PriceRow, id: ModelIdentifier, at: int)
    requires before.id == next.id == id && before.effectiveTo == Some(next.effectiveFrom) && next.effectiveTo == None
    requires before.effectiveFrom <= at
    ensures ActivePrice([before, next], id, at) == ActivePrice([next, before], id, at)
         == Some(if at < next.effectiveFrom then before else next)
  {
    assert [before, next][1..] == [next] && [next, before][1..] == [before];
    assert [before][1..] == [] && [next][1..] == [];
    var rows := [before, next];
    assert rows[0] == before && rows[1] == next && before in rows && next in rows;
  }

  /** A price scheduled for later, or for another model, does not change today's. */
  lemma LaterPricesDoNotMatterYet(rows: seq<PriceRow>, row: PriceRow, id: ModelIdentifier, at: int)
    requires at < row.effectiveFrom || row.id != id
    ensures ActivePrice(rows + [row], id, at) == ActivePrice(rows, id, at)
  {
    if rows == [] {
      assert [row][1..] == [] && [] + [row] == [row];
    } else {
      assert (rows + [row])[1..] == rows[1..] + [row];
      LaterPricesDoNotMatterYet(rows[1..], row, id, at);
    }
  }

  // -------------------------------------------------------------- encoding

  const NO_PRICE: string := "NONE"

  /** How a price prints and how a text reads as one. */
  datatype Codec = Codec(show: int -> string, read: string -> Option<int>)

  /** Prices print without a comma, do not begin like the sentinel, and read back. */
  ghost predicate Faithful(f: Codec) {
    forall n: int {:trigger f.show(n)} :: f.read(f.show(n)) == Some(n) && ',' !in f.show(n) && f.show(n) != ""
      && f.show(n)[0] != 'N'
  }

  /** Plain decimals are such a way to print. */
  lemma DecimalsAreFaithful()
    ensures Faithful(Codec(IntText, ParseInt))
  {
    forall n: int
      ensures ParseInt(IntText(n)) == Some(n) && ',' !in IntText(n) && IntText(n) != "" && IntText(n)[0] != 'N'
    {
      ParseIntText(n);
      IntTextAvoids(n, ',');
      IntTextAvoids(n, 'N');
    }
  }

  function Encode(f: Codec, p: Price): string { f.show(p.input) + "," + f.show(p.output) }

  function Decode(f: Codec, raw: string): Option<Price> {
    var i, o := f.read(Before(raw, ',')), f.read(After(raw, ','));
    if i.Some? && o.Some? then Some(Price(i.value, o.value)) else None
  }

  function CacheText(f: Codec, p: Option<Price>): string { if p.Some? then Encode(f, p.value) else NO_PRICE }

  function FromCache(f: Codec, raw: string): Option<Price> { if raw == NO_PRICE then None else Decode(f, raw) }

  /** What is cached reads back, and a price never looks like "no price". */
  lemma CacheTextReadsBack(f: Codec, p: Option<Price>)
    requires Faithful(f)
    ensures FromCache(f, CacheText(f, p)) == p
    ensures p.Some? ==> CacheText(f, p) != NO_PRICE
  {
    if p.Some? {
      var input, output := f.show(p.value.input), f.show(p.value.output);
      PartitionAtFirst(input, ',', output);
      assert input + [','] + output == Encode(f, p.value);
      assert CacheText(f, p)[0] == input[0];
    }
  }

  // ------------------------------------------------------------------ cost

  datatype TokenUsage = TokenUsage(inputTokens: nat, outputTokens: nat)

  /** Dollars. */
  function CostUsd(p: Option<Price>, u: TokenUsage): real {
    if p.None? then 0.0
    else u.inputTokens as real / 1000.0 * (p.value.input as real / 1000000.0)
         + u.outputTokens as real / 1000.0 * (p.value.output as real / 1000000.0)
  }

  /** In billionths of a dollar every cost is a whole number. */
  lemma CostInBillionths(p: Price, u: TokenUsage)
    ensures CostUsd(Some(p), u) * 1000000000.0 == (u.inputTokens * p.input + u.outputTokens * p.output) as real
  {
  }

  /** 1000 input tokens cost the input price, 1000 output tokens the output price, usages
      are charged independently of each other, and an unpriced model is free. */
  lemma CostIsLinear(p: Price, u: TokenUsage, v: TokenUsage, n: nat)
    ensures CostUsd(Some(p), TokenUsage(1000, 0)) == p.input as real / 1000000.0
    ensures CostUsd(Some(p), TokenUsage(0, 1000)) == p.output as real / 1000000.0
    ensures CostUsd(Some(p), TokenUsage(u.inputTokens + v.inputTokens, u.outputTokens + v.outputTokens))
         == CostUsd(Some(p), u) + CostUsd(Some(p), v)
    ensures CostUsd(Some(p), TokenUsage(n * u.inputTokens, n * u.outputTokens)) == n as real * CostUsd(Some(p), u)
    ensures CostUsd(None, u) == 0.0
  {
  }

  // ----------------------------------------------------------------- class

  /** One read of the price table: when, what it held, and whether it could be read. */
  datatype Load = Load(id: ModelIdentifier, at: int, rows: seq<PriceRow>, reachable: bool) {
    function Result(): Option<Price> {
      if !reachable then None else
      match ActivePrice(rows, id, at)
      case None => None
      case Some(row) => Some(row.price)
    }
  }

  datatype Cached = Cached(text: string, expiresAt: int)

  class CostService {
    const ttl: int
    const codec: Codec
    var rows: seq<PriceRow>         // model_pricing
    var cache: map<string, Cached>  // the pricing keys of Redis
    ghost var loads: seq<Load>   // reads of the table, in order
    ghost var clock: int

    constructor (ttl: int, codec: Codec)
      requires Faithful(codec)
      ensures Valid() && this.ttl == ttl && this.codec == codec && rows == [] && cache == map[] && loads == []
    {
      this.ttl, this.codec := ttl, codec;
      rows, cache := [], map[];
      loads, clock := [], 0;
    }

    function CacheKey(id: ModelIdentifier): string { "pricing:" + id.ToText() }

    /** The load explains the entry. */
    ghost predicate Explains(l: Load, key: string, c: Cached) {
      CacheKey(l.id) == key && c.text == CacheText(codec, l.Result()) && c.expiresAt == l.at + ttl
    }

    ghost predicate Explained(known: seq<Load>, key: string, c: Cached) {
      exists l :: l in known && Explains(l, key, c)
    }

    ghost predicate Valid()
      reads this
    {
      && Faithful(codec)
      && (forall key :: key in cache ==> Explained(loads, key, cache[key]))
      && (forall l :: l in loads ==> l.at <= clock)
    }

    /** Some read of the table explains the price used. */
    ghost predicate Justified(known: seq<Load>, id: ModelIdentifier, now: int, price: Option<Price>) {
      exists l :: l in known && UsableAt(l, id, now) && price == l.Result()
    }

    /** Adds a price version. */
    method Create(row: PriceRow)
      requires Valid()
      modifies this`rows
      ensures Valid() && rows == old(rows) + [row]
    {
      rows := rows + [row];
    }

    /** The price used at `now` is what some read of the table returned at most a time
        to live earlier, under the same printed identifier; a read made now sees the
        current table. Redis and database failures only cost a lookup. */
    method GetPricing(id: ModelIdentifier, now: int, databaseUp: bool, cacheReadable: bool, cacheWritable: bool)
      returns (price: Option<Price>)
      requires Valid() && clock <= now
      modifies this`cache, this`loads, this`clock
      ensures Valid() && clock == now
      ensures Justified(loads, id, now, price)
      ensures exists l :: l in loads && l.id.ToText() == id.ToText() && price == l.Result()
                          && (l.at == now || now - ttl < l.at <= now)
      ensures var key := CacheKey(id);
              if cacheReadable && key in old(cache) && now < old(cache)[key].expiresAt then
                loads == old(loads) && cache == old(cache)
              else
                && loads == old(loads) + [Load(id, now, rows, databaseUp)]
                && price == (if databaseUp && ActivePrice(rows, id, now).Some?
                             then Some(ActivePrice(rows, id, now).value.price) else None)
                && cache == if cacheWritable && 1 <= ttl
                            then old(cache)[key := Cached(CacheText(codec, price), now + ttl)] else old(cache)
    {
      JustifiedMeans(loads, id, now);
      hide CacheText, FromCache, Explained, Justified, UsableAt;
      clock := now;
      var key := CacheKey(id);
      if cacheReadable && key in cache && now < cache[key].expiresAt {
        price := FromCache(codec, cache[key].text);
        FreshEntryJustifies(loads, id, now, cache[key]);
        return;
      }
      var best := ActivePrice(rows, id, now);
      hide ActivePrice;
      price := if databaseUp && best.Some? then Some(best.value.price) else None;
      ghost var load := Load(id, now, rows, databaseUp);
      assert price == load.Result();
      ReadJustifies(loads, load, CacheKey(id));
      loads := loads + [load];
      JustifiedMeans(loads, id, now);
      if cacheWritable && 1 <= ttl {
        cache := cache[key := Cached(CacheText(codec, price), now + ttl)];
      }
    }

    /** The read was made now, or less than a time to live ago, under the same text. */
    lemma JustifiedMeans(known: seq<Load>, id: ModelIdentifier, now: int)
      ensures forall price :: Justified(known, id, now, price)
                <==> exists l :: l in known && l.id.ToText() == id.ToText() && price == l.Result()
                                 && (l.at == now || now - ttl < l.at <= now)
    {
      forall price | exists l :: l in known && l.id.ToText() == id.ToText() && price == l.Result()
                                 && (l.at == now || now - ttl < l.at <= now)
        ensures Justified(known, id, now, price)
      {
        var l :| l in known && l.id.ToText() == id.ToText() && price == l.Result()
          && (l.at == now || now - ttl < l.at <= now);
        assert UsableAt(l, id, now);
      }
    }

    /** A read made now justifies its own result and the entry written from it, and
        earlier entries keep their explanations. */
    lemma ReadJustifies(known: seq<Load>, l: Load, key: string)
      requires key == CacheKey(l.id)
      ensures Justified(known + [l], l.id, l.at, l.Result())
      ensures Explained(known + [l], key, Cached(CacheText(codec, l.Result()), l.at + ttl))
      ensures forall k, c :: Explained(known, k, c) ==> Explained(known + [l], k, c)
    {
      assert UsableAt(l, l.id, l.at) && l in known + [l];
      assert Explains(l, key, Cached(CacheText(codec, l.Result()), l.at + ttl));
      forall k, c | Explained(known, k, c)
        ensures Explained(known + [l], k, c)
      {
        var e :| e in known && Explains(e, k, c);
        assert e in known + [l];
      }
    }

    lemma FreshEntryJustifies(known: seq<Load>, id: ModelIdentifier, now: int, c: Cached)
      requires Faithful(codec) && Explained(known, CacheKey(id), c) && now < c.expiresAt
      requires forall l :: l in known ==> l.at <= now
      ensures Justified(known, id, now, FromCache(codec, c.text))
    {
      var l :| l in known && Explains(l, CacheKey(id), c);
      CacheTextReadsBack(codec, l.Result());
      SameTail("pricing:", l.id.ToText(), id.ToText());
      assert UsableAt(l, id, now);
    }

    ghost predicate UsableAt(l: Load, id: ModelIdentifier, now: int) {
      l.id.ToText() == id.ToText() && l.at <= now && (l.at == now || now - ttl < l.at)
    }

    /** The cost of a completion at a price that is at most a time to live old. */
    method CalculateCostUsd(id: ModelIdentifier, usage: TokenUsage, now: int, databaseUp: bool, cacheReadable: bool,
        cacheWritable: bool)
      returns (cost: real)
      requires Valid() && clock <= now
      modifies this`cache, this`loads, this`clock
      ensures Valid() && clock == now
      ensures exists price :: Justified(loads, id, now, price) && cost == CostUsd(price, usage)
      ensures exists l :: l in loads && l.id.ToText() == id.ToText() && (l.at == now || now - ttl < l.at <= now) &&
                match l.Result()
                case None => cost == 0.0
                case Some(p) =>
                  cost * 1000000000.0 == (usage.inputTokens * p.input + usage.outputTokens * p.output) as real
    {
      var pricing := GetPricing(id, now, databaseUp, cacheReadable, cacheWritable);
      if pricing.Some? {
        CostInBillionths(pricing.value, usage);
      }
      cost := CostUsd(pricing, usage);
    }
  }

  lemma SameTail(head: string, a: string, b: string)
    requires head + a == head + b
    ensures a == b
  {
    assert a == (head + a)[|head|..] && b == (head + b)[|head|..];
  }

  /** Printed identifiers stand for one model each when provider names hold no colon. */
  lemma SameTextSameModel(a: ModelIdentifier, b: ModelIdentifier)
    requires ':' !in a.provider && ':' !in b.provider && a.ToText() == b.ToText()
    ensures a == b
  {
    PartitionAtFirst(a.provider, ':', a.model);
    PartitionAtFirst(b.provider, ':', b.model);
  }
}
