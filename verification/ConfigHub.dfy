/** The in-process cache of gateway configuration, policies and API keys, and its credit ledger. */
module ConfigHub {
  import opened UpgradeTask

  newtype int64 = x: int | -0x8000_0000_0000_0000 <= x < 0x8000_0000_0000_0000

  const TWO_64: int := 0x1_0000_0000_0000_0000

  /** Subtraction of 64-bit integers, wrapping around. */
  function Sub64(a: int64, b: int64): int64 {
    var x := a as int - b as int;
    if x < -0x8000_0000_0000_0000 then (x + TWO_64) as int64
    else if x >= 0x8000_0000_0000_0000 then (x - TWO_64) as int64
    else x as int64
  }

  /** One exported API key; rest stands for the fields the hub only passes on. */
  datatype Item = Item(apiKey: string, credits: int64, rest: Bytes)

  datatype Snapshot = Snapshot(config: Bytes, policies: Bytes, keys: Bytes)

  /** The JSON decoders, and the values decoding starts from. */
  datatype Codec<!Config, !Policy> = Codec(
    config: Bytes -> Option<Config>,
    policies: Bytes -> Option<seq<Policy>>,
    keys: Bytes -> Option<seq<Item>>,
    zero: Config)

  /** Decodes one part; an absent part keeps the zero value. */
  function Part<T>(decode: Bytes -> Option<T>, data: Bytes, zero: T): Option<T> {
    if |data| > 0 then decode(data) else Some(zero)
  }

  /** There is something, and it does not decode. */
  predicate Malformed<T>(decode: Bytes -> Option<T>, data: Bytes) {
    |data| > 0 && decode(data).None?
  }

  /** A snapshot is accepted only if all its parts decode. */
  predicate Decodes<C, P>(codec: Codec<C, P>, snap: Snapshot) {
    && Part(codec.config, snap.config, codec.zero).Some?
    && Part(codec.policies, snap.policies, []).Some?
    && Part(codec.keys, snap.keys, []).Some?
  }

  /** The entry a list of keys stands for: the last one with that key. */
  ghost predicate LastWith(items: seq<Item>, key: string, item: Item) {
    exists i :: 0 <= i < |items| && items[i] == item && item.apiKey == key &&
                forall j | i < j < |items| :: items[j].apiKey != key
  }

  ghost predicate HasKey(items: seq<Item>, key: string) {
    exists i :: 0 <= i < |items| && items[i].apiKey == key
  }

  /** The keys a decoded list stands for: every non-empty key once, with its last entry. */
  ghost predicate Issues(items: seq<Item>, keys: map<string, Item>) {
    && (forall k :: k in keys <==> k != "" && HasKey(items, k))
    && (forall k | k in keys :: LastWith(items, k, keys[k]))
  }

  function KeyMap(items: seq<Item>): map<string, Item> {
    if items == [] then map[]
    else
      var keys, item := KeyMap(items[..|items| - 1]), items[|items| - 1];
      if item.apiKey != "" then keys[item.apiKey := item] else keys
  }

  /** Of several entries for one key the last wins, and entries without a key are dropped. */
  lemma {:induction false} KeyMapIssues(items: seq<Item>)
    ensures Issues(items, KeyMap(items))
  {
    if items != [] {
      KeyMapIssues(items[..|items| - 1]);
      IssueOne(items, |items| - 1, KeyMap(items[..|items| - 1]));
      assert items[..|items|] == items;
    }
  }

  lemma IssueOne(items: seq<Item>, i: nat, keys: map<string, Item>)
    requires i < |items| && Issues(items[..i], keys)
    ensures Issues(items[..i + 1], if items[i].apiKey != "" then keys[items[i].apiKey := items[i]] else keys)
  {
    var before, after := items[..i], items[..i + 1];
    assert after == before + [items[i]];
    forall k ensures HasKey(after, k) <==> HasKey(before, k) || k == items[i].apiKey {
      if HasKey(before, k) {
        var j :| 0 <= j < i && before[j].apiKey == k;
        assert after[j].apiKey == k;
      }
      assert after[i] == items[i];
    }
    forall k, item | k != items[i].apiKey && LastWith(before, k, item) ensures LastWith(after, k, item) {
      var j :| 0 <= j < i && before[j] == item && item.apiKey == k && forall m | j < m < i :: before[m].apiKey != k;
      assert after[j] == item;
    }
    assert after[i] == items[i] && LastWith(after, items[i].apiKey, items[i]);
  }

  // ----- the ledger

  function Deduct(balance: int64, credits: int64): int64 {
    if balance == -1 then -1 else Sub64(balance, credits)
  }

  /** An unmetered balance stays; any other goes down by what is taken, wrapping around once at most. */
  predicate Taken(before: int64, taken: int64, after: int64) {
    if before == -1 then after == -1
    else after as int - (before as int - taken as int) in {0, TWO_64, -TWO_64}
  }

  lemma DeductTakes(before: int64, taken: int64)
    ensures Taken(before, taken, Deduct(before, taken))
  {
  }

  function Balance(credits: int64, deducted: seq<int64>): int64 {
    if deducted == [] then credits
    else Deduct(Balance(credits, deducted[..|deducted| - 1]), deducted[|deducted| - 1])
  }

  /** The balance if no value were special. */
  function Plain(credits: int64, deducted: seq<int64>): int64 {
    if deducted == [] then credits
    else Sub64(Plain(credits, deducted[..|deducted| - 1]), deducted[|deducted| - 1])
  }

  function Sum(deducted: seq<int64>): int {
    if deducted == [] then 0
    else Sum(deducted[..|deducted| - 1]) + deducted[|deducted| - 1] as int
  }

  /** Plain charging conserves credit up to a multiple of 2^64. */
  lemma {:induction false} PlainConserves(credits: int64, deducted: seq<int64>) returns (wraps: int)
    ensures Plain(credits, deducted) as int + Sum(deducted) == credits as int + wraps * TWO_64
  {
    wraps := 0;
    if deducted != [] {
      var before := PlainConserves(credits, deducted[..|deducted| - 1]);
      var a, d := Plain(credits, deducted[..|deducted| - 1]), deducted[|deducted| - 1];
      wraps := before + (Sub64(a, d) as int - (a as int - d as int)) / TWO_64;
    }
  }

  /** The running balance meets the value that means unmetered. */
  ghost predicate Meets(credits: int64, deducted: seq<int64>) {
    exists i :: 0 <= i <= |deducted| && Plain(credits, deducted[..i]) == -1
  }

  lemma MeetsLater(credits: int64, deducted: seq<int64>)
    requires deducted != []
    ensures Meets(credits, deducted) <==>
              Meets(credits, deducted[..|deducted| - 1]) || Plain(credits, deducted) == -1
  {
    var n := |deducted| - 1;
    assert deducted[..n + 1] == deducted;
    if i :| 0 <= i <= n + 1 && Plain(credits, deducted[..i]) == -1 {
      if i <= n {
        assert deducted[..n][..i] == deducted[..i];
      }
    }
    if i :| 0 <= i <= n && Plain(credits, deducted[..n][..i]) == -1 {
      assert deducted[..n][..i] == deducted[..i];
    }
  }

  /** The ledger is exact, plain charging and so conservation, precisely until the running balance
      first meets -1; from then on the key counts as unmetered for good. */
  lemma {:induction false} BalanceExact(credits: int64, deducted: seq<int64>)
    ensures Balance(credits, deducted) == if Meets(credits, deducted) then -1 else Plain(credits, deducted)
  {
    if deducted == [] {
      assert deducted[..0] == deducted;
    } else {
      BalanceExact(credits, deducted[..|deducted| - 1]);
      MeetsLater(credits, deducted);
    }
  }

  lemma BalanceLater(credits: int64, past: seq<int64>, more: int64)
    ensures Balance(credits, past + [more]) == Deduct(Balance(credits, past), more)
  {
    assert (past + [more])[..|past|] == past;
  }

  /** A metered key without credit that is charged one credit becomes unmetered, and every later charge
      is lost: the ledger is off by exactly their sum, modulo 2^64. */
  lemma OverdrawnByOne(more: seq<int64>)
    ensures Balance(0, [1] + more) == -1
    ensures Balance(0, [1] + more) == Plain(0, [1] + more) <==> Sum(more) % TWO_64 == 0
  {
    var charges: seq<int64> := [1] + more;
    assert charges[..1] == [1];
    assert Plain(0, charges[..1]) == -1;
    BalanceExact(0, charges);
    SumAfter(1, more);
    var wraps := PlainConserves(0, charges);
    assert Plain(0, charges) as int == -1 - Sum(more) + wraps * TWO_64;
    Multiples(Sum(more), wraps, Plain(0, charges) as int);
  }

  lemma {:induction false} SumAfter(first: int64, more: seq<int64>)
    ensures Sum([first] + more) == first as int + Sum(more)
  {
    if more == [] {
      assert [first] + more == [first];
      assert Sum([first]) == Sum([first][..0]) + first as int;
    } else {
      var n := |more| - 1;
      SumAfter(first, more[..n]);
      assert ([first] + more)[..|more|] == [first] + more[..n];
    }
  }

  lemma Multiples(sum: int, wraps: int, plain: int)
    requires plain == -1 - sum + wraps * TWO_64 && -TWO_64 < 2 * plain + 1 < TWO_64
    ensures plain == -1 <==> sum % TWO_64 == 0
  {
    if plain == -1 {
      assert sum == wraps * TWO_64;
    }
    if sum % TWO_64 == 0 {
      var q := sum / TWO_64;
      assert plain + 1 == (wraps - q) * TWO_64;
    }
  }

  // ----- the hub

  ghost predicate Holds(entry: KeyItem, item: Item)
    reads entry
  {
    entry.rest == item.rest && entry.credits == item.credits
  }

  /** Every cached key is its own object and carries what was issued less what was taken. */
  ghost predicate Ledger(apiKeys: map<string, KeyItem>, entries: set<KeyItem>, issued: map<string, Item>,
                         deducted: map<string, seq<int64>>)
    reads entries
  {
    && (forall k | k in apiKeys :: apiKeys[k] in entries)
    && apiKeys.Keys == issued.Keys == deducted.Keys
    && (forall k, l | k in apiKeys && l in apiKeys && k != l :: apiKeys[k] != apiKeys[l])
    && (forall k | k in apiKeys ::
          && apiKeys[k].apiKey == k && apiKeys[k].rest == issued[k].rest
          && apiKeys[k].credits == Balance(issued[k].credits, deducted[k]))
  }

  /** All three parts are the decoding of one snapshot. */
  ghost predicate Mirrors<C, P>(codec: Codec<C, P>, last: Option<Snapshot>, config: Option<C>, policies: seq<P>,
                                issued: map<string, Item>)
  {
    match last
    case None => config.None? && policies == [] && issued == map[]
    case Some(snap) =>
      && Decodes(codec, snap)
      && config == Part(codec.config, snap.config, codec.zero)
      && policies == Part(codec.policies, snap.policies, []).value
      && issued == KeyMap(Part(codec.keys, snap.keys, []).value)
  }

  /** What asking the source gives. */
  datatype Loaded = SourceError | NilSnapshot | Got(snap: Snapshot)

  /** One cached key; callers get the object, so they see later deductions. */
  class KeyItem {
    const apiKey: string
    const rest: Bytes
    var credits: int64

    constructor (item: Item)
      ensures apiKey == item.apiKey && rest == item.rest && credits == item.credits
    {
      apiKey, rest, credits := item.apiKey, item.rest, item.credits;
    }

    /** Takes credits off the balance, wrapping around; an unmetered key stays unmetered. */
    method Charge(taken: int64)
      modifies this
      ensures credits == Deduct(old(credits), taken)
    {
      if credits == -1 {
        return;
      }
      credits := Sub64(credits, taken);
    }
  }

  /** The key table of one accepted snapshot. Later entries of a list replace earlier ones. */
  class KeyTable {
    var apiKeys: map<string, KeyItem>

    ghost var entries: set<KeyItem>
    ghost const issued: map<string, Item>          // the keys as accepted
    ghost var deducted: map<string, seq<int64>>    // what was taken from each since

    constructor (items: seq<Item>)
      ensures Valid() && issued == KeyMap(items) && fresh(entries)
      ensures forall k | k in apiKeys :: deducted[k] == []
    {
      issued := KeyMap(items);
      new;
      apiKeys, entries, deducted := map[], {}, map[];
      for i := 0 to |items|
        invariant Ledger(apiKeys, entries, KeyMap(items[..i]), deducted) && fresh(entries)
        invariant forall k | k in deducted :: deducted[k] == []
      {
        var item := items[i];
        assert items[..i + 1][..i] == items[..i];
        if item.apiKey != "" {
          var entry := new KeyItem(item);
          apiKeys := apiKeys[item.apiKey := entry];
          entries, deducted := entries + {entry}, deducted[item.apiKey := []];
        }
      }
      assert items[..|items|] == items;
    }

    ghost predicate Valid()
      reads this, entries
    {
      Ledger(apiKeys, entries, issued, deducted)
    }

    method Charge(key: string, credits: int64) returns (left: int64)
      requires Valid() && key in apiKeys
      modifies `deducted, apiKeys[key]
      ensures Valid() && deducted == old(deducted)[key := old(deducted)[key] + [credits]]
      ensures left == apiKeys[key].credits == Deduct(old(apiKeys[key].credits), credits)
    {
      BalanceLater(issued[key].credits, deducted[key], credits);
      deducted := deducted[key := deducted[key] + [credits]];
      var item := apiKeys[key];
      item.Charge(credits);
      left := item.credits;
    }
  }

  /** The table holds every non-empty key of the list once, with its last entry and all its credits. */
  ghost predicate Issued(table: KeyTable, items: seq<Item>)
    reads table, table.apiKeys.Values
  {
    && (forall k :: k in table.apiKeys <==> k != "" && HasKey(items, k))
    && forall k | k in table.apiKeys ::
         var entry := table.apiKeys[k];
         entry.apiKey == k && LastWith(items, k, Item(k, entry.credits, entry.rest))
  }

  lemma NothingTaken(table: KeyTable, items: seq<Item>)
    requires table.Valid() && table.issued == KeyMap(items)
    requires forall k | k in table.apiKeys :: table.deducted[k] == []
    ensures Issued(table, items)
  {
    KeyMapIssues(items);
    forall k | k in table.apiKeys
      ensures var entry := table.apiKeys[k];
              entry.apiKey == k && LastWith(items, k, Item(k, entry.credits, entry.rest))
    {
      var item := KeyMap(items)[k];
      assert LastWith(items, k, item);
      assert table.apiKeys[k].credits == Balance(item.credits, []) == item.credits;
      assert item == Item(k, table.apiKeys[k].credits, table.apiKeys[k].rest);
    }
  }

  /** Decoding a part fails exactly if there is something malformed. */
  lemma PartIs<T>(decode: Bytes -> Option<T>, data: Bytes, zero: T)
    ensures Part(decode, data, zero).None? <==> Malformed(decode, data)
    ensures !Malformed(decode, data) ==> Part(decode, data, zero) == if |data| > 0 then decode(data) else Some(zero)
  {
  }

  class Hub<C, P> {
    const codec: Codec<C, P>
    var config: Option<C>
    var policies: seq<P>
    var table: KeyTable
    var version: nat  // the 64-bit counter
    var last: Option<Snapshot>

    ghost var accepted: nat  // snapshots accepted so far

    constructor (codec: Codec<C, P>)
      ensures this.codec == codec && Valid() && last.None? && config.None? && table.apiKeys == map[] && accepted == 0
    {
      this.codec, config, policies, version, last, accepted := codec, None, [], 0, None, 0;
      table := new KeyTable([]);
    }

    /** The cache agrees with the last accepted snapshot, and every balance with the ledger. */
    ghost predicate Valid()
      reads this, table, table.entries
    {
      && version == accepted % TWO_64
      && table.Valid()
      && Mirrors(codec, last, config, policies, table.issued)
    }

    /** Takes over a snapshot if every part that is there decodes, each to what its decoder says, an
        absent one to its zero value; an unchanged one keeps the balances, and nothing changes on
        failure. */
    method Refresh(reply: Loaded) returns (ok: bool, reloaded: bool)
      requires Valid()
      modifies this
      ensures Valid()
      ensures ok <==> reply.Got? && !Malformed(codec.config, reply.snap.config) &&
                      !Malformed(codec.policies, reply.snap.policies) && !Malformed(codec.keys, reply.snap.keys)
      ensures reloaded <==> ok && old(last) != Some(reply.snap)
      ensures !reloaded ==> unchanged(this)
      ensures reloaded ==> last == Some(reply.snap) && accepted == old(accepted) + 1
      ensures reloaded ==>
                && config == (if |reply.snap.config| > 0 then codec.config(reply.snap.config) else Some(codec.zero))
                && Some(policies) ==
                   (if |reply.snap.policies| > 0 then codec.policies(reply.snap.policies) else Some([]))
                && Issued(table, if |reply.snap.keys| > 0 then codec.keys(reply.snap.keys).value else [])
      ensures reloaded ==> fresh(table) && forall k | k in table.apiKeys :: table.deducted[k] == []
    {
      if !reply.Got? {
        return false, false;
      }
      var snap := reply.snap;
      PartIs(codec.config, snap.config, codec.zero);
      PartIs(codec.policies, snap.policies, []);
      PartIs(codec.keys, snap.keys, []);
      if last == Some(snap) {
        return true, false;
      }
      var cfg := Part(codec.config, snap.config, codec.zero);
      var pol := Part(codec.policies, snap.policies, []);
      var list := Part(codec.keys, snap.keys, []);
      if cfg.None? || pol.None? || list.None? {
        return false, false;
      }
      Accept(snap, cfg.value, pol.value, list.value);
      return true, true;
    }

    method Accept(snap: Snapshot, cfg: C, pol: seq<P>, list: seq<Item>)
      requires Valid()
      requires Part(codec.config, snap.config, codec.zero) == Some(cfg)
      requires Part(codec.policies, snap.policies, []) == Some(pol) && Part(codec.keys, snap.keys, []) == Some(list)
      modifies this
      ensures Valid() && last == Some(snap) && accepted == old(accepted) + 1
      ensures config == Some(cfg) && policies == pol && fresh(table) && Issued(table, list)
      ensures forall k | k in table.apiKeys :: table.deducted[k] == []
    {
      var renewed := new KeyTable(list);
      NothingTaken(renewed, list);
      config, policies, table := Some(cfg), pol, renewed;
      last := Some(snap);
      version, accepted := (version + 1) % TWO_64, accepted + 1;
    }

    /** The cached entry itself, not a copy: exactly the keys of the accepted snapshot are found. */
    method GetApiKey(key: string) returns (item: KeyItem?)
      requires Valid()
      ensures item != null <==> key in table.apiKeys
      ensures last.None? ==> item == null
      ensures last.Some? ==>
                && !Malformed(codec.keys, last.value.keys)
                && var items := if |last.value.keys| > 0 then codec.keys(last.value.keys).value else [];
                   item != null <==> key != "" && HasKey(items, key)
      ensures item != null ==> item == table.apiKeys[key] && item.apiKey == key
    {
      if last.Some? {
        PartIs(codec.keys, last.value.keys, []);
        KeyMapIssues(Part(codec.keys, last.value.keys, []).value);
      }
      if key == "" || key !in table.apiKeys {
        return null;
      }
      return table.apiKeys[key];
    }

    /** Charges one key; an unmetered key stays unmetered. */
    method DeductCredits(key: string, credits: int64) returns (ok: bool, left: int64)
      requires Valid()
      modifies table`deducted, table.entries
      ensures Valid() && ok == (key in table.apiKeys)
      ensures ok ==> left == table.apiKeys[key].credits
      ensures ok ==> Taken(old(table.apiKeys[key].credits), credits, left)
      ensures ok ==> table.deducted == old(table.deducted)[key := old(table.deducted)[key] + [credits]]
      ensures forall k | k in table.apiKeys && k != key :: table.apiKeys[k].credits == old(table.apiKeys[k].credits)
      ensures !ok ==> table.deducted == old(table.deducted)
    {
      if key !in table.apiKeys {
        return false, 0;
      }
      ghost var before := table.apiKeys[key].credits;
      left := table.Charge(key, credits);
      DeductTakes(before, credits);
      return true, left;
    }
  }
}
