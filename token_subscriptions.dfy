/** The token-transfer subscription table of `useTokenTransferSubscription`
    (shared/hooks/use-balance.ts): a map from lower-cased token address to a
    subscriber count and the balance query key to invalidate on a Transfer
    event, the updaters that subscribe and unsubscribe, the log handler, and
    the conditions under which the event watchers and balance queries run. */
module TokenSubscriptions {
  import opened Wrappers

  /** A react-query key. The table stores it and hands it back; its contents
      mean nothing here. */
  type QueryKey = seq<string>

  datatype Entry = Entry(subscribers: int, queryKey: QueryKey)

  /** `TokenSubscriptionState`: a record keyed by token address. */
  type Table = map<string, Entry>

  /** A Transfer log as `onLogs` sees it: only its emitting address is read. */
  datatype Log = Log(address: string)

  // ---------------------------------------------------------------------
  // Address normalisation
  // ---------------------------------------------------------------------

  function LowerChar(c: char): char {
    if 'A' <= c <= 'Z' then (c as int + 32) as char else c
  }

  /** `String.prototype.toLowerCase` on the ASCII letters of an address. */
  function ToLower(s: string): (r: string)
    ensures |r| == |s|
    ensures forall i :: 0 <= i < |s| ==> r[i] == LowerChar(s[i])
  {
    seq(|s|, i requires 0 <= i < |s| => LowerChar(s[i]))
  }

  predicate IsLower(s: string) {
    ToLower(s) == s
  }

  lemma ToLowerIsLower(s: string)
    ensures IsLower(ToLower(s))
  {
    var t := ToLower(s);
    assert forall i :: 0 <= i < |t| ==> LowerChar(t[i]) == t[i];
    assert ToLower(t) == t;
  }

  // ---------------------------------------------------------------------
  // The two updaters, as written
  // ---------------------------------------------------------------------

  /** The table after `subscribe`'s updater. The count expression parses as
      `existing?.subscribers ?? (0 + 1)`: an absent entry starts at one, a
      present one keeps its count and only takes the new query key. */
  function Subscribed(m: Table, tokenAddress: string, queryKey: QueryKey): (r: Table)
    ensures r.Keys == m.Keys + {ToLower(tokenAddress)}
    ensures r[ToLower(tokenAddress)].queryKey == queryKey
    ensures ToLower(tokenAddress) !in m ==> r[ToLower(tokenAddress)].subscribers == 1
    ensures ToLower(tokenAddress) in m ==>
              r[ToLower(tokenAddress)].subscribers == m[ToLower(tokenAddress)].subscribers
    ensures forall k :: k in m && k != ToLower(tokenAddress) ==> r[k] == m[k]
  {
    var key := ToLower(tokenAddress);
    var existing := if key in m then Some(m[key]) else None;
    m[key := Entry(if existing.Some? then existing.value.subscribers else 0 + 1, queryKey)]
  }

  /** The table after the unsubscribe updater returned by `subscribe`, which
      captured the lower-cased `key`. */
  function Unsubscribed(m: Table, key: string): (r: Table)
    ensures key !in m ==> r == m
    ensures r.Keys <= m.Keys
    ensures key in r <==> key in m && m[key].subscribers > 1
    ensures key in r ==> r[key] == Entry(m[key].subscribers - 1, m[key].queryKey)
    ensures forall k :: k in m && k != key ==> k in r && r[k] == m[k]
  {
    if key !in m then m
    else if m[key].subscribers > 1 then m[key := m[key].(subscribers := m[key].subscribers - 1)]
    else m - {key}
  }

  /** As written, two spellings of an address that differ only in letter case
      share one entry: the second subscribe finds the entry the first one made,
      leaves its count where it was (1 for a fresh token) and only replaces
      the query key. */
  lemma CaseVariantsShareEntry(m: Table, a: string, b: string, q1: QueryKey, q2: QueryKey)
    requires ToLower(a) == ToLower(b)
    ensures var r := Subscribed(Subscribed(m, a, q1), b, q2);
      && r.Keys == m.Keys + {ToLower(a)}
      && r[ToLower(a)] == Entry(if ToLower(a) in m then m[ToLower(a)].subscribers else 1, q2)
  {
  }

  /** What a table reachable through the updaters looks like: every key is
      lower case and every entry has at least one subscriber. */
  predicate WellFormed(m: Table) {
    forall k :: k in m ==> IsLower(k) && m[k].subscribers >= 1
  }

  lemma SubscribedWellFormed(m: Table, tokenAddress: string, queryKey: QueryKey)
    requires WellFormed(m)
    ensures WellFormed(Subscribed(m, tokenAddress, queryKey))
  {
    ToLowerIsLower(tokenAddress);
  }

  lemma UnsubscribedWellFormed(m: Table, key: string)
    requires WellFormed(m)
    ensures WellFormed(Unsubscribed(m, key))
  {
  }

  // ---------------------------------------------------------------------
  // Sequences of updates
  // ---------------------------------------------------------------------

  datatype Op = SubscribeOp(tokenAddress: string, queryKey: QueryKey) | UnsubscribeOp(key: string)

  function Apply(m: Table, op: Op): Table {
    match op
    case SubscribeOp(a, q) => Subscribed(m, a, q)
    case UnsubscribeOp(k) => Unsubscribed(m, k)
  }

  /** The table after the updaters `ops` ran in order. */
  function Run(m: Table, ops: seq<Op>): Table
    decreases |ops|
  {
    if ops == [] then m else Run(Apply(m, ops[0]), ops[1..])
  }

  predicate AllSingle(m: Table) {
    forall k :: k in m ==> m[k].subscribers == 1
  }

  /** As written, no count ever exceeds one: starting from the empty table,
      whatever sequence of subscribes and unsubscribes runs, every entry has
      exactly one subscriber, so the decrementing branch is never taken. */
  lemma {:induction false} CountsStayAtOne(m: Table, ops: seq<Op>)
    requires AllSingle(m)
    ensures AllSingle(Run(m, ops))
    decreases |ops|
  {
    if ops != [] {
      var m' := Apply(m, ops[0]);
      assert AllSingle(m');
      CountsStayAtOne(m', ops[1..]);
    }
  }

  /** The consequence for two components sharing one token: the first
      unsubscribe removes the entry the second still relies on. */
  lemma SharedEntryDroppedEarly(m: Table, tokenAddress: string, q1: QueryKey, q2: QueryKey)
    requires ToLower(tokenAddress) !in m
    ensures ToLower(tokenAddress) !in
              Unsubscribed(Subscribed(Subscribed(m, tokenAddress, q1), tokenAddress, q2), ToLower(tokenAddress))
  {
  }

  /** A subscribe followed by its own unsubscribe restores a table in which the
      token was absent. */
  lemma SubscribeUnsubscribeRestores(m: Table, tokenAddress: string, queryKey: QueryKey)
    requires ToLower(tokenAddress) !in m
    ensures Unsubscribed(Subscribed(m, tokenAddress, queryKey), ToLower(tokenAddress)) == m
  {
    var r := Unsubscribed(Subscribed(m, tokenAddress, queryKey), ToLower(tokenAddress));
    assert r.Keys == m.Keys;
  }

  // ---------------------------------------------------------------------
  // The updater as evidently intended: a reference count
  // ---------------------------------------------------------------------

  /** `subscribe` with the count written `(existing?.subscribers ?? 0) + 1`. */
  function SubscribedCounted(m: Table, tokenAddress: string, queryKey: QueryKey): (r: Table)
    ensures r.Keys == m.Keys + {ToLower(tokenAddress)}
    ensures r[ToLower(tokenAddress)].queryKey == queryKey
    ensures r[ToLower(tokenAddress)].subscribers ==
              (if ToLower(tokenAddress) in m then m[ToLower(tokenAddress)].subscribers else 0) + 1
    ensures forall k :: k in m && k != ToLower(tokenAddress) ==> r[k] == m[k]
  {
    var key := ToLower(tokenAddress);
    var existing := if key in m then Some(m[key]) else None;
    m[key := Entry((if existing.Some? then existing.value.subscribers else 0) + 1, queryKey)]
  }

  lemma SubscribedCountedWellFormed(m: Table, tokenAddress: string, queryKey: QueryKey)
    requires WellFormed(m)
    ensures WellFormed(SubscribedCounted(m, tokenAddress, queryKey))
  {
    ToLowerIsLower(tokenAddress);
  }

  /** With the corrected updater, two spellings of an address that differ
      only in letter case share one entry: the second subscribe counts on the
      entry the first one made, and its query key wins. */
  lemma CaseVariantsShareCountedEntry(m: Table, a: string, b: string, q1: QueryKey, q2: QueryKey)
    requires ToLower(a) == ToLower(b)
    ensures var r := SubscribedCounted(SubscribedCounted(m, a, q1), b, q2);
      && r.Keys == m.Keys + {ToLower(a)}
      && r[ToLower(a)] == Entry((if ToLower(a) in m then m[ToLower(a)].subscribers else 0) + 2, q2)
  {
  }

  function SubscribeTimes(m: Table, tokenAddress: string, queryKey: QueryKey, n: nat): Table
    decreases n
  {
    if n == 0 then m else SubscribedCounted(SubscribeTimes(m, tokenAddress, queryKey, n - 1), tokenAddress, queryKey)
  }

  function UnsubscribeTimes(m: Table, key: string, n: nat): Table
    decreases n
  {
    if n == 0 then m else Unsubscribed(UnsubscribeTimes(m, key, n - 1), key)
  }

  /** With the counted updater, `n` subscribes of an absent token leave its
      entry with count `n`; every other entry is untouched. */
  lemma {:induction false} SubscribeTimesCounts(m: Table, tokenAddress: string, queryKey: QueryKey, n: nat)
    requires n >= 1 && ToLower(tokenAddress) !in m
    ensures SubscribeTimes(m, tokenAddress, queryKey, n) ==
              m[ToLower(tokenAddress) := Entry(n, queryKey)]
    decreases n
  {
    if n > 1 {
      SubscribeTimesCounts(m, tokenAddress, queryKey, n - 1);
    }
  }

  /** Unsubscribing `j` times from an entry with count `c > j` leaves count
      `c - j`. */
  lemma {:induction false} UnsubscribeTimesCounts(m: Table, key: string, c: nat, q: QueryKey, j: nat)
    requires j < c
    ensures UnsubscribeTimes(m[key := Entry(c, q)], key, j) == m[key := Entry(c - j, q)]
    decreases j
  {
    if j > 0 {
      UnsubscribeTimesCounts(m, key, c, q, j - 1);
    }
  }

  /** The reference-counting round trip the corrected updater restores: `n`
      subscribes of an absent token followed by `n` unsubscribes give back the
      original table, and the entry survives every unsubscribe but the last. */
  lemma CountedRoundTrip(m: Table, tokenAddress: string, queryKey: QueryKey, n: nat)
    requires n >= 1 && ToLower(tokenAddress) !in m
    ensures forall j :: 0 <= j < n ==>
              ToLower(tokenAddress) in UnsubscribeTimes(SubscribeTimes(m, tokenAddress, queryKey, n), ToLower(tokenAddress), j)
    ensures UnsubscribeTimes(SubscribeTimes(m, tokenAddress, queryKey, n), ToLower(tokenAddress), n) == m
  {
    var key := ToLower(tokenAddress);
    var full := m[key := Entry(n, queryKey)];
    SubscribeTimesCounts(m, tokenAddress, queryKey, n);
    assert SubscribeTimes(m, tokenAddress, queryKey, n) == full;
    forall j | 0 <= j < n
      ensures key in UnsubscribeTimes(full, key, j)
    {
      UnsubscribeTimesCounts(m, key, n, queryKey, j);
    }
    UnsubscribeTimesCounts(m, key, n, queryKey, n - 1);
    var last := m[key := Entry(1, queryKey)];
    assert UnsubscribeTimes(full, key, n) == Unsubscribed(last, key);
    assert Unsubscribed(last, key).Keys == m.Keys;
    assert Unsubscribed(last, key) == m;
  }

  // ---------------------------------------------------------------------
  // The log handler
  // ---------------------------------------------------------------------

  /** The query key one log invalidates: that of the entry under its
      lower-cased address, if there is one. */
  function Hit(m: Table, log: Log): seq<QueryKey> {
    var key := ToLower(log.address);
    if key in m then [m[key].queryKey] else []
  }

  /** The query keys `onLogs` invalidates for `logs`, in order. */
  function Invalidations(m: Table, logs: seq<Log>): (r: seq<QueryKey>)
    ensures |r| <= |logs|
    decreases |logs|
  {
    if logs == [] then [] else Invalidations(m, logs[..|logs| - 1]) + Hit(m, logs[|logs| - 1])
  }

  /** Invalidation follows log order: the keys for `a + b` are those for `a`
      followed by those for `b`. */
  lemma {:induction false} InvalidationsAppend(m: Table, a: seq<Log>, b: seq<Log>)
    ensures Invalidations(m, a + b) == Invalidations(m, a) + Invalidations(m, b)
    decreases |b|
  {
    if b == [] {
      assert a + b == a;
    } else {
      var b' := b[..|b| - 1];
      assert (a + b)[..|a + b| - 1] == a + b';
      assert (a + b)[|a + b| - 1] == b[|b| - 1];
      InvalidationsAppend(m, a, b');
    }
  }

  /** A single log invalidates exactly the query key of its subscribed token,
      and nothing when its token is not subscribed. */
  lemma InvalidationsOfOne(m: Table, log: Log)
    ensures ToLower(log.address) in m ==> Invalidations(m, [log]) == [m[ToLower(log.address)].queryKey]
    ensures ToLower(log.address) !in m ==> Invalidations(m, [log]) == []
  {
    assert [log][..0] == [];
  }

  /** Logs of tokens nobody subscribed to invalidate nothing. */
  lemma {:induction false} InvalidationsSkipUnsubscribed(m: Table, logs: seq<Log>)
    requires forall i :: 0 <= i < |logs| ==> ToLower(logs[i].address) !in m
    ensures Invalidations(m, logs) == []
    decreases |logs|
  {
    if logs != [] {
      InvalidationsSkipUnsubscribed(m, logs[..|logs| - 1]);
    }
  }

  /** The handler does not see letter case: logs whose addresses agree up to
      case invalidate the same keys. */
  lemma {:induction false} InvalidationsIgnoreCase(m: Table, logs: seq<Log>, logs': seq<Log>)
    requires |logs| == |logs'|
    requires forall i :: 0 <= i < |logs| ==> ToLower(logs[i].address) == ToLower(logs'[i].address)
    ensures Invalidations(m, logs) == Invalidations(m, logs')
    decreases |logs|
  {
    if logs != [] {
      InvalidationsIgnoreCase(m, logs[..|logs| - 1], logs'[..|logs'| - 1]);
    }
  }

  // ---------------------------------------------------------------------
  // When the watchers and balance queries run
  // ---------------------------------------------------------------------

  /** JavaScript truthiness of an optional address. */
  predicate Truthy(address: Option<string>) {
    address.Some? && address.value != ""
  }

  /** `shouldWatch`: a connected address and at least one subscribed token. */
  function ShouldWatch(address: Option<string>, m: Table): (r: bool)
    ensures r ==> Truthy(address) && m != map[]
    ensures Truthy(address) && |m| > 0 ==> r
  {
    Truthy(address) && |m.Keys| > 0
  }

  /** After a subscribe the table is not empty, so watching depends only on
      the address. */
  lemma WatchingAfterSubscribe(address: Option<string>, m: Table, tokenAddress: string, queryKey: QueryKey)
    ensures ShouldWatch(address, Subscribed(m, tokenAddress, queryKey)) <==> Truthy(address)
  {
    assert ToLower(tokenAddress) in Subscribed(m, tokenAddress, queryKey);
  }

  /** The same after a subscribe with the corrected count. */
  lemma WatchingAfterCountedSubscribe(address: Option<string>, m: Table, tokenAddress: string, queryKey: QueryKey)
    ensures ShouldWatch(address, SubscribedCounted(m, tokenAddress, queryKey)) <==> Truthy(address)
  {
    assert ToLower(tokenAddress) in SubscribedCounted(m, tokenAddress, queryKey);
  }

  lemma NotWatchingAfterLastUnsubscribe(address: Option<string>, key: string, e: Entry)
    requires e.subscribers <= 1
    ensures !ShouldWatch(address, Unsubscribed(map[key := e], key))
  {
    assert Unsubscribed(map[key := e], key) == map[];
  }

  /** `mergedAccount = account ?? address`: an explicit account, even an empty
      string, wins over the connected address. */
  function MergedAccount(account: Option<string>, connected: Option<string>): (r: Option<string>)
    ensures account.Some? ==> r == account
    ensures account.None? ==> r == connected
  {
    match account
    case Some(_) => account
    case None => connected
  }

  /** The contract and balance queries are enabled by `!!mergedAccount`. */
  function BalanceQueryEnabled(account: Option<string>, connected: Option<string>): (r: bool)
    ensures r <==> (if account.Some? then account.value != "" else Truthy(connected))
  {
    Truthy(MergedAccount(account, connected))
  }

  // ---------------------------------------------------------------------
  // The hook's state
  // ---------------------------------------------------------------------

  /** The state held by `useTokenTransferSubscription`. Each updater replaces
      the table; `onLogs` reads the current one. */
  class TokenTransferSubscription {
    var subscriptions: Table

    constructor ()
      ensures subscriptions == map[]
    {
      subscriptions := map[];
    }

    /** `subscribe`: applies the subscribe updater as written, whose count
        is `existing?.subscribers ?? (0 + 1)`, and returns the lower-cased key
        that the returned unsubscribe function captured. */
    method Subscribe(tokenAddress: string, queryKey: QueryKey) returns (key: string)
      modifies this
      ensures key == ToLower(tokenAddress)
      ensures subscriptions == Subscribed(old(subscriptions), tokenAddress, queryKey)
    {
      key := ToLower(tokenAddress);
      var existing := if key in subscriptions then Some(subscriptions[key]) else None;
      subscriptions := subscriptions[key := Entry(if existing.Some? then existing.value.subscribers else 0 + 1, queryKey)];
    }

    /** The unsubscribe function returned for `key`. */
    method Unsubscribe(key: string)
      modifies this
      ensures subscriptions == Unsubscribed(old(subscriptions), key)
    {
      if key !in subscriptions {
        return;
      }
      var existing := subscriptions[key];
      if existing.subscribers > 1 {
        subscriptions := subscriptions[key := existing.(subscribers := existing.subscribers - 1)];
      } else {
        subscriptions := subscriptions - {key};
      }
    }

    /** `onLogs`: walks the logs and records, in order, the query key of
        every log whose lower-cased address is subscribed. */
    method OnLogs(logs: seq<Log>) returns (invalidated: seq<QueryKey>)
      ensures invalidated == Invalidations(subscriptions, logs)
    {
      invalidated := [];
      for i := 0 to |logs|
        invariant invalidated == Invalidations(subscriptions, logs[..i])
      {
        assert logs[..i + 1][..i] == logs[..i];
        var key := ToLower(logs[i].address);
        if key !in subscriptions {
          continue;
        }
        invalidated := invalidated + [subscriptions[key].queryKey];
      }
      assert logs[..|logs|] == logs;
    }
  }
}
