/** Token and cost sums of the traffic dashboard, in total, by day and by model. Amounts are reals. */
module TrafficCost {
  import opened Common
  import TrafficSeries

  datatype Tokens = Tokens(input: int, output: int, cacheRead: int, cacheWrite: int)

  /** A recorded exchange with what its bodies say: the model, the usage, and what the pricing of its
      model asks for that usage. */
  datatype Exchange = Exchange(id: string, startedAt: int, durationMs: int, modelId: Option<string>,
                               usage: Option<Tokens>, price: real)

  /** What one bucket of a chart adds up. */
  datatype Tally = Tally(tokens: Tokens, cost: real, calls: int)

  const NO_TOKENS := Tokens(0, 0, 0, 0)

  const ZERO := Tally(NO_TOKENS, 0.0, 0)

  function Plus(a: Tally, b: Tally): Tally {
    Tally(Tokens(a.tokens.input + b.tokens.input, a.tokens.output + b.tokens.output,
                 a.tokens.cacheRead + b.tokens.cacheRead, a.tokens.cacheWrite + b.tokens.cacheWrite),
          a.cost + b.cost, a.calls + b.calls)
  }

  /** One entry of a chart. */
  datatype Entry = Entry(key: string, sum: Tally)

  /** An amount and the bucket it goes to, if any. */
  datatype Item = Item(key: Option<string>, amount: Tally)

  // ---- Grouping in an insertion-ordered map ----

  predicate Unique(entries: seq<Entry>) {
    forall i, j :: 0 <= i < j < |entries| ==> entries[i].key != entries[j].key
  }

  function AddTo(entries: seq<Entry>, key: string, t: Tally): seq<Entry> {
    if entries == [] then [Entry(key, Plus(ZERO, t))]
    else if entries[0].key == key then [Entry(key, Plus(entries[0].sum, t))] + entries[1..]
    else [entries[0]] + AddTo(entries[1..], key, t)
  }

  function Group(items: seq<Item>, n: nat): seq<Entry>
    requires n <= |items|
  {
    if n == 0 then []
    else if items[n - 1].key.None? then Group(items, n - 1)
    else AddTo(Group(items, n - 1), items[n - 1].key.value, items[n - 1].amount)
  }

  /** The sum of the amounts of one bucket. */
  function BucketTotal(items: seq<Item>, n: nat, key: string): Tally
    requires n <= |items|
  {
    if n == 0 then ZERO
    else if items[n - 1].key == Some(key) then Plus(BucketTotal(items, n - 1, key), items[n - 1].amount)
    else BucketTotal(items, n - 1, key)
  }

  /** The sum of all amounts that go to some bucket. */
  function GrandTotal(items: seq<Item>, n: nat): Tally
    requires n <= |items|
  {
    if n == 0 then ZERO
    else if items[n - 1].key.Some? then Plus(GrandTotal(items, n - 1), items[n - 1].amount)
    else GrandTotal(items, n - 1)
  }

  function SumOf(entries: seq<Entry>): Tally {
    if entries == [] then ZERO else Plus(entries[0].sum, SumOf(entries[1..]))
  }

  function Lookup(entries: seq<Entry>, key: string): Option<Tally> {
    if entries == [] then None
    else if entries[0].key == key then Some(entries[0].sum)
    else Lookup(entries[1..], key)
  }

  lemma {:induction false} AddToSum(entries: seq<Entry>, key: string, t: Tally)
    ensures SumOf(AddTo(entries, key, t)) == Plus(SumOf(entries), t)
  {
    if entries == [] {
      assert AddTo(entries, key, t)[1..] == [];
    } else if entries[0].key == key {
      assert AddTo(entries, key, t)[1..] == entries[1..];
    } else {
      AddToSum(entries[1..], key, t);
      assert AddTo(entries, key, t)[1..] == AddTo(entries[1..], key, t);
    }
  }

  lemma {:induction false} AddToLookup(entries: seq<Entry>, key: string, t: Tally, k: string)
    ensures Lookup(AddTo(entries, key, t), k)
            == if k != key then Lookup(entries, k)
               else Some(Plus(if Lookup(entries, key).Some? then Lookup(entries, key).value else ZERO, t))
  {
    if entries == [] {
      assert AddTo(entries, key, t)[1..] == [];
    } else if entries[0].key == key {
      assert AddTo(entries, key, t)[1..] == entries[1..];
    } else {
      AddToLookup(entries[1..], key, t, k);
      assert AddTo(entries, key, t)[1..] == AddTo(entries[1..], key, t);
    }
  }

  lemma {:induction false} AddToUnique(entries: seq<Entry>, key: string, t: Tally)
    requires Unique(entries)
    ensures Unique(AddTo(entries, key, t))
    ensures forall e :: e in AddTo(entries, key, t) ==> e.key == key || exists d :: d in entries && d.key == e.key
  {
    if entries != [] && entries[0].key != key {
      AddToUnique(entries[1..], key, t);
    }
  }

  lemma {:induction false} NoItemsNoTotal(items: seq<Item>, n: nat, key: string)
    requires n <= |items|
    ensures (forall i :: 0 <= i < n ==> items[i].key != Some(key)) ==> BucketTotal(items, n, key) == ZERO
  {
    if n > 0 {
      NoItemsNoTotal(items, n - 1, key);
    }
  }

  lemma {:induction false} GroupIsUnique(items: seq<Item>, n: nat)
    requires n <= |items|
    ensures Unique(Group(items, n))
  {
    if n > 0 {
      GroupIsUnique(items, n - 1);
      if items[n - 1].key.Some? {
        AddToUnique(Group(items, n - 1), items[n - 1].key.value, items[n - 1].amount);
      }
    }
  }

  lemma {:induction false} GroupSum(items: seq<Item>, n: nat)
    requires n <= |items|
    ensures SumOf(Group(items, n)) == GrandTotal(items, n)
  {
    if n > 0 {
      GroupSum(items, n - 1);
      if items[n - 1].key.Some? {
        AddToSum(Group(items, n - 1), items[n - 1].key.value, items[n - 1].amount);
      }
    }
  }

  predicate Occurs(items: seq<Item>, n: nat, key: string)
    requires n <= |items|
  {
    exists i :: 0 <= i < n && items[i].key == Some(key)
  }

  lemma {:induction false} GroupLookup(items: seq<Item>, n: nat, key: string)
    requires n <= |items|
    ensures Lookup(Group(items, n), key) == if Occurs(items, n, key) then Some(BucketTotal(items, n, key)) else None
  {
    if n > 0 {
      GroupLookup(items, n - 1, key);
      NoItemsNoTotal(items, n - 1, key);
      if items[n - 1].key.Some? {
        AddToLookup(Group(items, n - 1), items[n - 1].key.value, items[n - 1].amount, key);
      }
    }
  }

  /** Grouping conserves: the buckets are distinct, each holds exactly its own amounts, and together
      they hold all of them. */
  lemma GroupConserves(items: seq<Item>, n: nat, key: string)
    requires n <= |items|
    ensures Unique(Group(items, n)) && SumOf(Group(items, n)) == GrandTotal(items, n)
    ensures Lookup(Group(items, n), key) == if Occurs(items, n, key) then Some(BucketTotal(items, n, key)) else None
  {
    GroupIsUnique(items, n);
    GroupSum(items, n);
    GroupLookup(items, n, key);
  }

  // ---- Sorting the entries ----

  function Insert(e: Entry, s: seq<Entry>, rank: Entry -> real): seq<Entry> {
    if s == [] || rank(e) <= rank(s[0]) then [e] + s else [s[0]] + Insert(e, s[1..], rank)
  }

  /** The entries in the order of a comparison, given as a rank. */
  function SortBy(s: seq<Entry>, rank: Entry -> real): seq<Entry> {
    if s == [] then [] else Insert(s[0], SortBy(s[1..], rank), rank)
  }

  lemma {:induction false} InsertKeepsSum(e: Entry, s: seq<Entry>, rank: Entry -> real)
    ensures SumOf(Insert(e, s, rank)) == Plus(e.sum, SumOf(s))
  {
    var r := Insert(e, s, rank);
    if s == [] || rank(e) <= rank(s[0]) {
      assert r[1..] == s;
    } else {
      InsertKeepsSum(e, s[1..], rank);
      assert r[1..] == Insert(e, s[1..], rank);
    }
  }

  lemma {:induction false} InsertKeepsEntries(e: Entry, s: seq<Entry>, rank: Entry -> real)
    requires Unique(s) && forall d :: d in s ==> d.key != e.key
    ensures Unique(Insert(e, s, rank)) && forall d :: d in Insert(e, s, rank) <==> d == e || d in s
  {
    if s != [] && !(rank(e) <= rank(s[0])) {
      InsertKeepsEntries(e, s[1..], rank);
      var r := Insert(e, s[1..], rank);
      forall k | 0 <= k < |r| ensures r[k].key != s[0].key {
        assert r[k] in r;
        assert r[k] == e || r[k] in s[1..];
      }
    }
  }

  /** Sorting keeps the entries and their sum. */
  lemma {:induction false} SortKeeps(s: seq<Entry>, rank: Entry -> real)
    requires Unique(s)
    ensures Unique(SortBy(s, rank)) && forall e :: e in SortBy(s, rank) <==> e in s
    ensures SumOf(SortBy(s, rank)) == SumOf(s)
  {
    if s != [] {
      SortKeeps(s[1..], rank);
      InsertKeepsSum(s[0], SortBy(s[1..], rank), rank);
      InsertKeepsEntries(s[0], SortBy(s[1..], rank), rank);
    }
  }

  predicate Ordered(s: seq<Entry>, rank: Entry -> real) {
    forall i :: 0 < i < |s| ==> rank(s[i - 1]) <= rank(s[i])
  }

  lemma {:induction false} InsertIsOrdered(e: Entry, s: seq<Entry>, rank: Entry -> real)
    requires Ordered(s, rank)
    ensures Ordered(Insert(e, s, rank), rank)
  {
    if s != [] && !(rank(e) <= rank(s[0])) {
      InsertIsOrdered(e, s[1..], rank);
    }
  }

  lemma {:induction false} SortIsOrdered(s: seq<Entry>, rank: Entry -> real)
    ensures Ordered(SortBy(s, rank), rank)
  {
    if s != [] {
      SortIsOrdered(s[1..], rank);
      InsertIsOrdered(s[0], SortBy(s[1..], rank), rank);
    }
  }

  // ---- Rounding to a hundredth of a cent ----

  /** `Math.round(x * 10000) / 10000`. */
  function Round4(x: real): real {
    (x * 10000.0 + 0.5).Floor as real / 10000.0
  }

  lemma Round4IsClose(x: real)
    ensures -0.00005 <= Round4(x) - x <= 0.00005
  {
  }

  function SumRounded(rows: seq<Entry>): real {
    if rows == [] then 0.0 else Round4(rows[0].sum.cost) + SumRounded(rows[1..])
  }

  /** Rounding every bucket loses at most half a hundredth of a cent for each. */
  lemma {:induction false} RoundedSumIsClose(rows: seq<Entry>)
    ensures -0.00005 * |rows| as real <= SumRounded(rows) - SumOf(rows).cost <= 0.00005 * |rows| as real
  {
    if rows != [] {
      RoundedSumIsClose(rows[1..]);
      Round4IsClose(rows[0].sum.cost);
    }
  }

  // ---- Lookups by exchange id ----

  function UsageMap(records: seq<Exchange>, n: nat): map<string, Option<Tokens>>
    requires n <= |records|
  {
    if n == 0 then map[] else UsageMap(records, n - 1)[records[n - 1].id := records[n - 1].usage]
  }

  /** Without a model there is no price. */
  function CostOf(r: Exchange): real {
    if r.modelId.Some? then r.price else 0.0
  }

  function SetIn(entries: seq<Entry>, key: string, t: Tally): seq<Entry> {
    if entries == [] then [Entry(key, t)]
    else if entries[0].key == key then [Entry(key, t)] + entries[1..]
    else [entries[0]] + SetIn(entries[1..], key, t)
  }

  function CostTally(cost: real, calls: int): Tally {
    Tally(NO_TOKENS, cost, calls)
  }

  /** The cost of every exchange with a usage, by id and in insertion order: the last one of an id counts. */
  function CostMap(records: seq<Exchange>, n: nat): seq<Entry>
    requires n <= |records|
  {
    if n == 0 then []
    else if records[n - 1].usage.Some? then
      SetIn(CostMap(records, n - 1), records[n - 1].id, CostTally(CostOf(records[n - 1]), 0))
    else CostMap(records, n - 1)
  }

  ghost predicate DistinctIds(records: seq<Exchange>) {
    forall i, j :: 0 <= i < j < |records| ==> records[i].id != records[j].id
  }

  lemma {:induction false} SetInLookup(entries: seq<Entry>, key: string, t: Tally, k: string)
    ensures Lookup(SetIn(entries, key, t), k) == if k == key then Some(t) else Lookup(entries, k)
  {
    if entries == [] {
      assert SetIn(entries, key, t)[1..] == [];
    } else if entries[0].key == key {
      assert SetIn(entries, key, t)[1..] == entries[1..];
    } else {
      SetInLookup(entries[1..], key, t, k);
      assert SetIn(entries, key, t)[1..] == SetIn(entries[1..], key, t);
    }
  }

  lemma {:induction false} SetNewSum(entries: seq<Entry>, key: string, t: Tally)
    requires Lookup(entries, key).None?
    ensures SumOf(SetIn(entries, key, t)) == Plus(SumOf(entries), t)
  {
    if entries == [] {
      assert SetIn(entries, key, t)[1..] == [];
    } else {
      SetNewSum(entries[1..], key, t);
      assert SetIn(entries, key, t)[1..] == SetIn(entries[1..], key, t);
    }
  }

  // ---- The last record of an id ----

  function TokensOf(usage: Option<Tokens>): Tokens {
    if usage.Some? then usage.value else NO_TOKENS
  }

  /** A record whose entry an id can have: in the cost map only one with a usage. */
  predicate Sets(r: Exchange, id: string, withUsage: bool) {
    r.id == id && (withUsage ==> r.usage.Some?)
  }

  function LastOf(records: seq<Exchange>, n: nat, id: string, withUsage: bool): (k: Option<nat>)
    requires n <= |records|
    ensures k.Some? ==> k.value < n && Sets(records[k.value], id, withUsage)
                        && forall j :: k.value < j < n ==> !Sets(records[j], id, withUsage)
    ensures k.None? ==> forall j :: 0 <= j < n ==> !Sets(records[j], id, withUsage)
  {
    if n == 0 then None
    else if Sets(records[n - 1], id, withUsage) then Some(n - 1)
    else LastOf(records, n - 1, id, withUsage)
  }

  lemma {:induction false} UsageIsLast(records: seq<Exchange>, n: nat, id: string)
    requires n <= |records|
    ensures var k := LastOf(records, n, id, false);
            && (id in UsageMap(records, n) <==> k.Some?)
            && (k.Some? ==> UsageMap(records, n)[id] == records[k.value].usage)
  {
    if n > 0 {
      UsageIsLast(records, n - 1, id);
    }
  }

  lemma {:induction false} CostIsLast(records: seq<Exchange>, n: nat, id: string)
    requires n <= |records|
    ensures var k := LastOf(records, n, id, true);
            Lookup(CostMap(records, n), id) == if k.Some? then Some(CostTally(CostOf(records[k.value]), 0)) else None
  {
    if n > 0 {
      CostIsLast(records, n - 1, id);
      if records[n - 1].usage.Some? {
        SetInLookup(CostMap(records, n - 1), records[n - 1].id, CostTally(CostOf(records[n - 1]), 0), id);
      }
    }
  }

  /** The usage and the cost that a chart counts for a record: those of the last record of its id. */
  function UsageShown(records: seq<Exchange>, id: string): Tokens {
    var k := LastOf(records, |records|, id, false);
    if k.Some? then TokensOf(records[k.value].usage) else NO_TOKENS
  }

  function CostShown(records: seq<Exchange>, id: string): real {
    var k := LastOf(records, |records|, id, true);
    if k.Some? then CostOf(records[k.value]) else 0.0
  }

  lemma UsageShownOfDistinct(records: seq<Exchange>, i: nat)
    requires DistinctIds(records) && i < |records|
    ensures UsageShown(records, records[i].id) == TokensOf(records[i].usage)
  {
    assert Sets(records[i], records[i].id, false);
  }

  lemma CostOfDistinct(records: seq<Exchange>, n: nat, i: nat)
    requires DistinctIds(records) && i < |records| && n <= |records|
    ensures Lookup(CostMap(records, n), records[i].id)
            == if i < n && records[i].usage.Some? then Some(CostTally(CostOf(records[i]), 0)) else None
  {
    CostIsLast(records, n, records[i].id);
    assert i < n && records[i].usage.Some? ==> Sets(records[i], records[i].id, true);
  }

  // ---- The charts ----

  /** The day of a time, as the first ten characters of its ISO form give it; `dayOf` stands for that
      conversion. */
  function Day(dayOf: int -> string, startedAt: int): string {
    if startedAt > 0 then dayOf(startedAt) else "(unknown)"
  }

  function TokenItem(r: Exchange, usages: map<string, Option<Tokens>>, dayOf: int -> string): Item {
    Item(Some(Day(dayOf, r.startedAt)),
         Tally(if r.id in usages then TokensOf(usages[r.id]) else NO_TOKENS, 0.0, 0))
  }

  function CostItem(r: Exchange, costs: seq<Entry>, dayOf: int -> string): Item {
    var c := Lookup(costs, r.id);
    Item(Some(Day(dayOf, r.startedAt)), CostTally(if c.Some? then c.value.cost else 0.0, 1))
  }

  function ModelItem(r: Exchange, costs: seq<Entry>): Item {
    var c := Lookup(costs, r.id);
    if r.modelId.Some? && c.Some? then Item(r.modelId, CostTally(c.value.cost, 1)) else Item(None, ZERO)
  }

  /** What each record adds to the daily tokens. */
  function TokenItems(records: seq<Exchange>, usages: map<string, Option<Tokens>>, dayOf: int -> string)
      : (items: seq<Item>)
    ensures |items| == |records|
    ensures forall i :: 0 <= i < |records| ==> items[i] == TokenItem(records[i], usages, dayOf)
  {
    seq(|records|, i requires 0 <= i < |records| => TokenItem(records[i], usages, dayOf))
  }

  function CostItems(records: seq<Exchange>, costs: seq<Entry>, dayOf: int -> string): (items: seq<Item>)
    ensures |items| == |records|
    ensures forall i :: 0 <= i < |records| ==> items[i] == CostItem(records[i], costs, dayOf)
  {
    seq(|records|, i requires 0 <= i < |records| => CostItem(records[i], costs, dayOf))
  }

  function ModelItems(records: seq<Exchange>, costs: seq<Entry>): (items: seq<Item>)
    ensures |items| == |records|
    ensures forall i :: 0 <= i < |records| ==> items[i] == ModelItem(records[i], costs)
  {
    seq(|records|, i requires 0 <= i < |records| => ModelItem(records[i], costs))
  }

  /** The loop that the three charts share: each record's amount is added to its bucket. */
  method GroupItems(items: seq<Item>) returns (entries: seq<Entry>)
    ensures entries == Group(items, |items|)
  {
    entries := [];
    for n := 0 to |items|
      invariant entries == Group(items, n)
    {
      if items[n].key.Some? {
        entries := AddTo(entries, items[n].key.value, items[n].amount);
      }
    }
  }

  method BuildUsageMap(records: seq<Exchange>) returns (usages: map<string, Option<Tokens>>)
    ensures usages == UsageMap(records, |records|)
  {
    usages := map[];
    for n := 0 to |records|
      invariant usages == UsageMap(records, n)
    {
      usages := usages[records[n].id := records[n].usage];
    }
  }

  method BuildCostMap(records: seq<Exchange>) returns (costs: seq<Entry>)
    ensures costs == CostMap(records, |records|)
  {
    costs := [];
    for n := 0 to |records|
      invariant costs == CostMap(records, n)
    {
      if records[n].usage.Some? {
        costs := SetIn(costs, records[n].id, CostTally(CostOf(records[n]), 0));
      }
    }
  }

  /** The rows are the groups of the items: one for every bucket, with exactly that bucket's amounts,
      and together all of them. */
  ghost predicate Groups(rows: seq<Entry>, items: seq<Item>) {
    && Unique(rows)
    && (forall e :: e in rows ==> Occurs(items, |items|, e.key) && e.sum == BucketTotal(items, |items|, e.key))
    && (forall key :: Occurs(items, |items|, key) ==> Lookup(rows, key).Some?)
    && SumOf(rows) == GrandTotal(items, |items|)
  }

  lemma {:induction false} LookupMeansMember(entries: seq<Entry>, key: string)
    ensures Lookup(entries, key).Some? <==> exists e :: e in entries && e.key == key
    ensures Lookup(entries, key).Some? ==> Entry(key, Lookup(entries, key).value) in entries
  {
    if entries != [] {
      LookupMeansMember(entries[1..], key);
      assert entries == [entries[0]] + entries[1..];
    }
  }

  lemma {:induction false} MemberIsFound(entries: seq<Entry>, e: Entry)
    requires Unique(entries) && e in entries
    ensures Lookup(entries, e.key) == Some(e.sum)
  {
    if entries[0] != e {
      assert entries == [entries[0]] + entries[1..];
      MemberIsFound(entries[1..], e);
    }
  }

  lemma GroupIsGroups(items: seq<Item>)
    ensures Groups(Group(items, |items|), items)
  {
    var rows := Group(items, |items|);
    GroupConserves(items, |items|, "");
    forall e | e in rows ensures Occurs(items, |items|, e.key) && e.sum == BucketTotal(items, |items|, e.key) {
      GroupConserves(items, |items|, e.key);
      MemberIsFound(rows, e);
    }
    forall key | Occurs(items, |items|, key) ensures Lookup(rows, key).Some? {
      GroupConserves(items, |items|, key);
    }
  }

  lemma SortedGroups(items: seq<Item>, rank: Entry -> real)
    ensures Groups(SortBy(Group(items, |items|), rank), items)
  {
    var rows := Group(items, |items|);
    GroupIsGroups(items);
    SortKeeps(rows, rank);
    forall key | Occurs(items, |items|, key) ensures Lookup(SortBy(rows, rank), key).Some? {
      LookupMeansMember(rows, key);
      LookupMeansMember(SortBy(rows, rank), key);
    }
  }

  datatype CostRow = CostRow(key: string, cost: real, calls: int)

  /** The displayed rows: every group with its cost rounded. */
  function Rounded(rows: seq<Entry>): (shown: seq<CostRow>)
    ensures |shown| == |rows|
    ensures forall i :: 0 <= i < |rows| ==>
              shown[i] == CostRow(rows[i].key, Round4(rows[i].sum.cost), rows[i].sum.calls)
  {
    seq(|rows|, i requires 0 <= i < |rows| => CostRow(rows[i].key, Round4(rows[i].sum.cost), rows[i].sum.calls))
  }

  /** The most expensive model first. */
  function CostRank(e: Entry): real {
    -e.sum.cost
  }

  // ---- Charts against totals ----

  function TokenTotal(records: seq<Exchange>, n: nat): Tokens
    requires n <= |records|
  {
    if n == 0 then NO_TOKENS
    else
      var t, u := TokenTotal(records, n - 1), TokensOf(records[n - 1].usage);
      Tokens(t.input + u.input, t.output + u.output, t.cacheRead + u.cacheRead, t.cacheWrite + u.cacheWrite)
  }

  function SumShown(shown: seq<CostRow>): real {
    if shown == [] then 0.0 else shown[0].cost + SumShown(shown[1..])
  }

  function SumCalls(shown: seq<CostRow>): int {
    if shown == [] then 0 else shown[0].calls + SumCalls(shown[1..])
  }

  lemma {:induction false} ShownSums(rows: seq<Entry>)
    ensures SumShown(Rounded(rows)) == SumRounded(rows) && SumCalls(Rounded(rows)) == SumOf(rows).calls
  {
    if rows != [] {
      ShownSums(rows[1..]);
      assert Rounded(rows)[1..] == Rounded(rows[1..]);
    }
  }

  /** What the charts add up: for every record the amounts of the last record of its id. */
  function TokensShown(records: seq<Exchange>, n: nat): Tokens
    requires n <= |records|
  {
    if n == 0 then NO_TOKENS
    else
      var t, u := TokensShown(records, n - 1), UsageShown(records, records[n - 1].id);
      Tokens(t.input + u.input, t.output + u.output, t.cacheRead + u.cacheRead, t.cacheWrite + u.cacheWrite)
  }

  function CostsShown(records: seq<Exchange>, n: nat): real
    requires n <= |records|
  {
    if n == 0 then 0.0 else CostsShown(records, n - 1) + CostShown(records, records[n - 1].id)
  }

  function ModelCostsShown(records: seq<Exchange>, n: nat): real
    requires n <= |records|
  {
    if n == 0 then 0.0
    else ModelCostsShown(records, n - 1)
         + if records[n - 1].modelId.Some? then CostShown(records, records[n - 1].id) else 0.0
  }

  lemma TokenItemShows(records: seq<Exchange>, r: Exchange, dayOf: int -> string)
    ensures var item := TokenItem(r, UsageMap(records, |records|), dayOf);
            item.key.Some? && item.amount.tokens == UsageShown(records, r.id)
  {
    UsageIsLast(records, |records|, r.id);
  }

  lemma {:induction false} TokensAddUp(records: seq<Exchange>, items: seq<Item>, n: nat)
    requires n <= |records| == |items|
    requires forall i :: 0 <= i < |items| ==>
               items[i].key.Some? && items[i].amount.tokens == UsageShown(records, records[i].id)
    ensures GrandTotal(items, n).tokens == TokensShown(records, n)
  {
    if n > 0 {
      TokensAddUp(records, items, n - 1);
    }
  }

  lemma DailyTokensTotal(records: seq<Exchange>, dayOf: int -> string)
    ensures GrandTotal(TokenItems(records, UsageMap(records, |records|), dayOf), |records|).tokens
            == TokensShown(records, |records|)
  {
    var items := TokenItems(records, UsageMap(records, |records|), dayOf);
    forall i | 0 <= i < |items|
      ensures items[i].key.Some? && items[i].amount.tokens == UsageShown(records, records[i].id)
    {
      TokenItemShows(records, records[i], dayOf);
    }
    TokensAddUp(records, items, |records|);
  }

  lemma {:induction false} TokensShownOfDistinct(records: seq<Exchange>, n: nat)
    requires DistinctIds(records) && n <= |records|
    ensures TokensShown(records, n) == TokenTotal(records, n)
  {
    if n > 0 {
      TokensShownOfDistinct(records, n - 1);
      UsageShownOfDistinct(records, n - 1);
    }
  }

  lemma {:induction false} CostsAddUp(records: seq<Exchange>, items: seq<Item>, dayOf: int -> string, n: nat)
    requires n <= |records| == |items|
    requires forall i :: 0 <= i < |items| ==> items[i] == CostItem(records[i], CostMap(records, |records|), dayOf)
    ensures GrandTotal(items, n).cost == CostsShown(records, n) && GrandTotal(items, n).calls == n
  {
    if n > 0 {
      CostsAddUp(records, items, dayOf, n - 1);
      CostIsLast(records, |records|, records[n - 1].id);
    }
  }

  lemma {:induction false} ModelCostsAddUp(records: seq<Exchange>, items: seq<Item>, n: nat)
    requires n <= |records| == |items|
    requires forall i :: 0 <= i < |items| ==> items[i] == ModelItem(records[i], CostMap(records, |records|))
    ensures GrandTotal(items, n).cost == ModelCostsShown(records, n)
  {
    if n > 0 {
      ModelCostsAddUp(records, items, n - 1);
      CostIsLast(records, |records|, records[n - 1].id);
    }
  }

  lemma CostMapNext(records: seq<Exchange>, n: nat)
    requires DistinctIds(records) && n < |records|
    ensures SumOf(CostMap(records, n + 1)).cost
            == SumOf(CostMap(records, n)).cost + if records[n].usage.Some? then CostOf(records[n]) else 0.0
  {
    CostOfDistinct(records, n, n);
    if records[n].usage.Some? {
      SetNewSum(CostMap(records, n), records[n].id, CostTally(CostOf(records[n]), 0));
    }
  }

  lemma CostShownOfDistinct(records: seq<Exchange>, i: nat)
    requires DistinctIds(records) && i < |records|
    ensures CostShown(records, records[i].id) == if records[i].usage.Some? then CostOf(records[i]) else 0.0
  {
    assert records[i].usage.Some? ==> Sets(records[i], records[i].id, true);
  }

  /** With distinct ids both cost charts add up to the total cost: every exchange counts once, and one
      without a model costs nothing. */
  lemma {:induction false} CostsShownOfDistinct(records: seq<Exchange>, n: nat)
    requires DistinctIds(records) && n <= |records|
    ensures CostsShown(records, n) == ModelCostsShown(records, n) == SumOf(CostMap(records, n)).cost
  {
    if n > 0 {
      CostsShownOfDistinct(records, n - 1);
      CostShownOfDistinct(records, n - 1);
      CostMapNext(records, n - 1);
    }
  }

  /** Within half a hundredth of a cent for each of the rows. */
  predicate Close(x: real, y: real, rows: nat) {
    -0.00005 * rows as real <= x - y <= 0.00005 * rows as real
  }

  /** Costs are shown within half a hundredth of a cent for each row. */
  lemma ShownCostIsClose(shown: seq<CostRow>, rows: seq<Entry>, total: real)
    requires shown == Rounded(rows) && SumOf(rows).cost == total
    ensures Close(SumShown(shown), total, |shown|)
  {
    ShownSums(rows);
    RoundedSumIsClose(rows);
  }

  // ---- The three charts ----

  method BuildDailyTokens(records: seq<Exchange>, dayOf: int -> string, rank: Entry -> real)
      returns (days: seq<Entry>)
    ensures Ordered(days, rank)
    ensures Groups(days, TokenItems(records, UsageMap(records, |records|), dayOf))
    ensures SumOf(days).tokens == TokensShown(records, |records|)
    ensures DistinctIds(records) ==> SumOf(days).tokens == TokenTotal(records, |records|)
  {
    var usages := BuildUsageMap(records);
    var entries := GroupItems(TokenItems(records, usages, dayOf));
    days := SortBy(entries, rank);
    SortIsOrdered(entries, rank);
    SortedGroups(TokenItems(records, usages, dayOf), rank);
    DailyTokensTotal(records, dayOf);
    if DistinctIds(records) {
      TokensShownOfDistinct(records, |records|);
    }
  }

  method BuildDailyCost(records: seq<Exchange>, costs: seq<Entry>, dayOf: int -> string, rank: Entry -> real)
      returns (shown: seq<CostRow>, ghost rows: seq<Entry>)
    requires costs == CostMap(records, |records|)
    ensures shown == Rounded(rows) && Groups(rows, CostItems(records, costs, dayOf))
    ensures Ordered(rows, rank)
    ensures SumCalls(shown) == |records| && Close(SumShown(shown), CostsShown(records, |records|), |shown|)
    ensures DistinctIds(records) ==> Close(SumShown(shown), SumOf(costs).cost, |shown|)
  {
    var entries := GroupItems(CostItems(records, costs, dayOf));
    var sorted := SortBy(entries, rank);
    shown, rows := Rounded(sorted), sorted;
    SortIsOrdered(entries, rank);
    SortedGroups(CostItems(records, costs, dayOf), rank);
    CostsAddUp(records, CostItems(records, costs, dayOf), dayOf, |records|);
    ShownSums(sorted);
    ShownCostIsClose(shown, sorted, CostsShown(records, |records|));
    if DistinctIds(records) {
      CostsShownOfDistinct(records, |records|);
    }
  }

  method BuildCostByModel(records: seq<Exchange>, costs: seq<Entry>)
      returns (shown: seq<CostRow>, ghost rows: seq<Entry>)
    requires costs == CostMap(records, |records|)
    ensures shown == Rounded(rows) && Groups(rows, ModelItems(records, costs))
    ensures Close(SumShown(shown), ModelCostsShown(records, |records|), |shown|)
    ensures DistinctIds(records) ==> Close(SumShown(shown), SumOf(costs).cost, |shown|)
    ensures forall i :: 0 < i < |rows| ==> rows[i - 1].sum.cost >= rows[i].sum.cost
  {
    var entries := GroupItems(ModelItems(records, costs));
    var sorted := SortBy(entries, CostRank);
    shown, rows := Rounded(sorted), sorted;
    SortIsOrdered(entries, CostRank);
    SortedGroups(ModelItems(records, costs), CostRank);
    ModelCostsAddUp(records, ModelItems(records, costs), |records|);
    ShownCostIsClose(shown, sorted, ModelCostsShown(records, |records|));
    if DistinctIds(records) {
      CostsShownOfDistinct(records, |records|);
    }
    forall i | 0 < i < |rows| ensures rows[i - 1].sum.cost >= rows[i].sum.cost {
      assert CostRank(rows[i - 1]) <= CostRank(rows[i]);
    }
  }

  // ---- The dashboard ----

  datatype Stats = Stats(total: nat, tokens: Tokens, totalCost: real, dailyTokens: seq<Entry>, dailyCost: seq<CostRow>,
                         costByModel: seq<CostRow>, histogram: seq<TrafficSeries.Bin>,
                         requestsOverTime: seq<TrafficSeries.Point>)

  function Durations(records: seq<Exchange>): seq<int> {
    if records == [] then [] else [records[0].durationMs] + Durations(records[1..])
  }

  function Starts(records: seq<Exchange>): seq<int> {
    if records == [] then [] else [records[0].startedAt] + Starts(records[1..])
  }

  method TotalTokens(records: seq<Exchange>) returns (tokens: Tokens)
    ensures tokens == TokenTotal(records, |records|)
  {
    tokens := NO_TOKENS;
    for n := 0 to |records|
      invariant tokens == TokenTotal(records, n)
    {
      if records[n].usage.Some? {
        var u := records[n].usage.value;
        tokens := Tokens(tokens.input + u.input, tokens.output + u.output, tokens.cacheRead + u.cacheRead,
                         tokens.cacheWrite + u.cacheWrite);
      }
    }
  }

  /** The charts of the dashboard agree with its totals. */
  method ComputeDashboardStats(records: seq<Exchange>, dayOf: int -> string, rank: Entry -> real)
      returns (stats: Stats)
    ensures stats.total == |records| && stats.tokens == TokenTotal(records, |records|)
    ensures SumCalls(stats.dailyCost) == stats.total
    ensures && SumOf(stats.dailyTokens).tokens == TokensShown(records, |records|)
            && Close(SumShown(stats.dailyCost), CostsShown(records, |records|), |stats.dailyCost|)
            && Close(SumShown(stats.costByModel), ModelCostsShown(records, |records|), |stats.costByModel|)
    ensures DistinctIds(records) ==>
              && SumOf(stats.dailyTokens).tokens == stats.tokens
              && Close(SumShown(stats.dailyCost), stats.totalCost, |stats.dailyCost|)
              && Close(SumShown(stats.costByModel), stats.totalCost, |stats.costByModel|)
    ensures TrafficSeries.Total(stats.histogram) == |TrafficSeries.Positive(Durations(records))|
    ensures TrafficSeries.Sum(stats.requestsOverTime) == |TrafficSeries.Positive(Starts(records))|
  {
    var costs := BuildCostMap(records);
    var tokens := TotalTokens(records);
    var durations := TrafficSeries.Positive(Durations(records));
    var histogram := TrafficSeries.BuildLatencyHistogram(durations);
    var series := TrafficSeries.BuildTimeSeries(Starts(records));
    var dailyCost, costRows := BuildDailyCost(records, costs, dayOf, rank);
    var dailyTokens := BuildDailyTokens(records, dayOf, rank);
    var byModel, modelRows := BuildCostByModel(records, costs);
    TrafficSeries.AllPositive(Durations(records));
    stats := Stats(|records|, tokens, SumOf(costs).cost, dailyTokens, dailyCost, byModel, histogram, series);
  }
}
