/**
 * The offline mailbox of ChatServer1/models/offline_queue.py: one bounded
 * FIFO deque of stored entries per user, with a time to live. Entries are
 * drained on reconnect, previewed without change, swept when expired and
 * cleared per user or all at once, with delivered/expired counters.
 *
 * The per-user dictionary is an insertion-ordered sequence of
 * (user, deque) pairs with distinct users, as a Python dict is; `d[u] = q`
 * is `Put` and `del d[u]` is `Drop(d, [u])`. The time is the parameter
 * `now`, and whether the user is online is an input.
 */
module OfflineMailbox {
  import opened Optional
  import opened Deques
  import opened Ratios

  /** A stored entry: the message (opaque), when it was stored and when it expires. */
  datatype OfflineEntry = OfflineEntry(message: nat, storedAt: real, expiry: real,
                                       deliveryAttempts: nat, isDelivered: bool)

  /** One key of the per-user dictionary with its deque. */
  datatype UserQueue = UserQueue(user: string, entries: seq<OfflineEntry>)

  /** A delivered message: the original and how long it waited. */
  datatype Delivered = Delivered(message: nat, storedDuration: real)

  /** A preview of peek_user_messages: the original, its age and the time left. */
  datatype Preview = Preview(message: nat, storedAge: real, expiresIn: real)

  /** One result of store_message_for_multiple_users. */
  datatype StoreResult = StoreResult(stored: bool, queueSize: nat)

  datatype MailboxStats = MailboxStats(totalStored: nat, totalDelivered: nat, totalExpired: nat,
                                       totalCleanupRuns: nat, usersWithOfflineMessages: nat,
                                       deliverySuccessRate: real)

  // ---------------------------------------------------------------- entries

  /** An entry is live while `now` has not passed its expiry. */
  predicate IsLive(e: OfflineEntry, now: real) {
    now <= e.expiry
  }

  /** The live entries among the first `k` of `q`, in order. */
  function LiveUpTo(q: seq<OfflineEntry>, k: nat, now: real): (r: seq<OfflineEntry>)
    requires k <= |q|
    ensures |r| <= k
  {
    if k == 0 then [] else LiveUpTo(q, k - 1, now) + (if IsLive(q[k - 1], now) then [q[k - 1]] else [])
  }

  /** The number of expired entries among the first `k` of `q`. */
  function ExpiredUpTo(q: seq<OfflineEntry>, k: nat, now: real): nat
    requires k <= |q|
  {
    if k == 0 then 0 else ExpiredUpTo(q, k - 1, now) + (if IsLive(q[k - 1], now) then 0 else 1)
  }

  function Live(q: seq<OfflineEntry>, now: real): seq<OfflineEntry> {
    LiveUpTo(q, |q|, now)
  }

  function Expired(q: seq<OfflineEntry>, now: real): nat {
    ExpiredUpTo(q, |q|, now)
  }

  /**
   * The live entries are exactly the entries of `q` that have not expired,
   * and every entry is either live or counted as expired.
   */
  lemma {:induction false} LiveExactly(q: seq<OfflineEntry>, k: nat, now: real)
    requires k <= |q|
    ensures forall e :: e in LiveUpTo(q, k, now) <==> e in q[..k] && IsLive(e, now)
    ensures |LiveUpTo(q, k, now)| + ExpiredUpTo(q, k, now) == k
  {
    if k > 0 {
      LiveExactly(q, k - 1, now);
      assert q[..k] == q[..k - 1] + [q[k - 1]];
    }
  }

  /** An entry stored at `now`: not yet attempted, not delivered. */
  function NewEntry(message: nat, now: real, expirySeconds: int): (e: OfflineEntry)
    ensures e.expiry - e.storedAt == expirySeconds as real
    ensures e.deliveryAttempts == 0 && !e.isDelivered
  {
    OfflineEntry(message, now, now + expirySeconds as real, 0, false)
  }

  function Delivery(e: OfflineEntry, now: real): Delivered {
    Delivered(e.message, now - e.storedAt)
  }

  /** What deliver_offline_messages hands out for the live entries `live`, in their order. */
  function Deliveries(live: seq<OfflineEntry>, now: real): (r: seq<Delivered>)
    ensures |r| == |live| && forall j :: 0 <= j < |live| ==> r[j] == Delivery(live[j], now)
  {
    seq(|live|, j requires 0 <= j < |live| => Delivery(live[j], now))
  }

  function PreviewOf(e: OfflineEntry, now: real): Preview {
    Preview(e.message, now - e.storedAt, e.expiry - now)
  }

  function Previews(live: seq<OfflineEntry>, now: real): (r: seq<Preview>)
    ensures |r| == |live| && forall j :: 0 <= j < |live| ==> r[j] == PreviewOf(live[j], now)
  {
    seq(|live|, j requires 0 <= j < |live| => PreviewOf(live[j], now))
  }

  /**
   * Once a user's deque is full, storing drops exactly its oldest entry:
   * the rest move up one place and the new entry comes last.
   */
  lemma StoreDropsOldest(q: seq<OfflineEntry>, e: OfflineEntry, limit: nat)
    requires |q| == limit && limit >= 1
    ensures KeepNewest(q + [e], limit) == q[1..] + [e]
  {
    assert (q + [e])[1..] == q[1..] + [e];
  }

  /** Below the bound nothing is dropped. */
  lemma StoreKeepsAll(q: seq<OfflineEntry>, e: OfflineEntry, limit: nat)
    requires |q| < limit
    ensures KeepNewest(q + [e], limit) == q + [e]
  {
  }

  // ------------------------------------------------------------ statistics

  /**
   * delivery_success_rate: the delivered share of everything that left the
   * mailbox by delivery or expiry, as a percentage; 0 when nothing has.
   */
  function DeliveryRate(delivered: nat, expired: nat): (r: real)
    ensures 0.0 <= r <= 100.0
    ensures r == 100.0 <==> delivered > 0 && expired == 0
    ensures r == 0.0 <==> delivered == 0
  {
    if delivered + expired > 0 then Percent(delivered, delivered + expired) else 0.0
  }

  /** The statistics _update_user_stats leaves (the float averages are not modelled). */
  function Refreshed(st: MailboxStats, userCount: nat): MailboxStats {
    st.(usersWithOfflineMessages := userCount,
        deliverySuccessRate := DeliveryRate(st.totalDelivered, st.totalExpired))
  }

  // ------------------------------------------------------ the dictionary

  predicate UniqueUsers(d: seq<UserQueue>) {
    forall i, j :: 0 <= i < j < |d| ==> d[i].user != d[j].user
  }

  /** Every deque respects the bound `limit`. */
  predicate Bounded(d: seq<UserQueue>, limit: int) {
    forall x :: x in d ==> |x.entries| <= limit
  }

  /** The position of `u`'s deque, or -1 when `u` is not a key. */
  function Find(d: seq<UserQueue>, u: string): (r: int)
    ensures -1 <= r < |d|
    ensures r >= 0 ==> d[r].user == u && forall j :: 0 <= j < r ==> d[j].user != u
    ensures r < 0 ==> forall j :: 0 <= j < |d| ==> d[j].user != u
  {
    if |d| == 0 then -1
    else
      var r := Find(d[..|d| - 1], u);
      if r >= 0 then r else if d[|d| - 1].user == u then |d| - 1 else -1
  }

  /** `u in d` */
  predicate Has(d: seq<UserQueue>, u: string) {
    Find(d, u) >= 0
  }

  /** `u`'s deque, or the empty one a defaultdict would create. */
  function EntriesOf(d: seq<UserQueue>, u: string): seq<OfflineEntry> {
    var i := Find(d, u);
    if i >= 0 then d[i].entries else []
  }

  /** `d[u] = q`: replaced in place for a key, appended for a new one. */
  function Put(d: seq<UserQueue>, u: string, q: seq<OfflineEntry>): seq<UserQueue>
  {
    var i := Find(d, u);
    if i >= 0 then d[i := UserQueue(u, q)] else d + [UserQueue(u, q)]
  }

  /** The pairs of `d` whose user is not in `names`, in order. */
  function Drop(d: seq<UserQueue>, names: seq<string>): seq<UserQueue>
  {
    if d == [] then []
    else Drop(d[..|d| - 1], names) + (if d[|d| - 1].user in names then [] else [d[|d| - 1]])
  }

  /** The pairs of `d` with a non-empty deque, in order. */
  function NonEmpty(d: seq<UserQueue>): seq<UserQueue>
  {
    if d == [] then []
    else NonEmpty(d[..|d| - 1]) + (if d[|d| - 1].entries == [] then [] else [d[|d| - 1]])
  }

  /** The users of `d` whose deque is empty, in order. */
  function EmptyNames(d: seq<UserQueue>): seq<string>
  {
    if d == [] then []
    else EmptyNames(d[..|d| - 1]) + (if d[|d| - 1].entries == [] then [d[|d| - 1].user] else [])
  }

  /** Every deque drained into its live entries, users and order kept. */
  function Swept(d: seq<UserQueue>, now: real): seq<UserQueue>
  {
    seq(|d|, j requires 0 <= j < |d| => UserQueue(d[j].user, Live(d[j].entries, now)))
  }

  /** Every deque rebuilt with `maxlen = limit`. */
  function Resized(d: seq<UserQueue>, limit: nat): seq<UserQueue>
  {
    seq(|d|, j requires 0 <= j < |d| => UserQueue(d[j].user, KeepNewest(d[j].entries, limit)))
  }

  /** The number of entries stored over all users. */
  function TotalLength(d: seq<UserQueue>): nat {
    if d == [] then 0 else TotalLength(d[..|d| - 1]) + |d[|d| - 1].entries|
  }

  /** The number of expired entries over all users. */
  function ExpiredTotal(d: seq<UserQueue>, now: real): nat {
    if d == [] then 0 else ExpiredTotal(d[..|d| - 1], now) + Expired(d[|d| - 1].entries, now)
  }

  // ------------------------------------------------- dictionary lemmas

  /** `Drop` keeps exactly the pairs whose user is not listed. */
  lemma {:induction false} DropMembers(d: seq<UserQueue>, names: seq<string>)
    ensures |Drop(d, names)| <= |d|
    ensures forall x :: x in Drop(d, names) <==> x in d && x.user !in names
  {
    if d != [] {
      DropMembers(d[..|d| - 1], names);
      assert d == d[..|d| - 1] + [d[|d| - 1]];
    }
  }

  /** `NonEmpty` keeps exactly the pairs with a non-empty deque. */
  lemma {:induction false} NonEmptyMembers(d: seq<UserQueue>)
    ensures forall x :: x in NonEmpty(d) <==> x in d && x.entries != []
  {
    if d != [] {
      NonEmptyMembers(d[..|d| - 1]);
      assert d == d[..|d| - 1] + [d[|d| - 1]];
    }
  }

  /** `EmptyNames` lists exactly the users whose deque is empty. */
  lemma {:induction false} EmptyNamesMembers(d: seq<UserQueue>)
    ensures forall u :: u in EmptyNames(d) <==> exists j :: 0 <= j < |d| && d[j].user == u && d[j].entries == []
  {
    if d != [] {
      var p := d[..|d| - 1];
      EmptyNamesMembers(p);
      assert forall j :: 0 <= j < |p| ==> p[j] == d[j];
    }
  }

  /** With distinct users, a user's position is the lookup's answer. */
  lemma FindUnique(d: seq<UserQueue>, k: int)
    requires UniqueUsers(d) && 0 <= k < |d|
    ensures Find(d, d[k].user) == k && EntriesOf(d, d[k].user) == d[k].entries
  {
  }

  lemma FindSnoc(d: seq<UserQueue>, x: UserQueue, v: string)
    ensures Find(d + [x], v) == if Find(d, v) >= 0 then Find(d, v) else if x.user == v then |d| else -1
  {
    assert (d + [x])[..|d|] == d;
  }

  lemma {:induction false} FindSameUsers(d: seq<UserQueue>, e: seq<UserQueue>, v: string)
    requires |d| == |e| && forall j :: 0 <= j < |d| ==> d[j].user == e[j].user
    ensures Find(d, v) == Find(e, v)
  {
    if |d| > 0 {
      FindSameUsers(d[..|d| - 1], e[..|e| - 1], v);
    }
  }

  /**
   * `d[u] = q` makes `q` the deque of `u`, adds `u` as the last key when
   * it was not one, and leaves every other user's deque as it was.
   */
  lemma PutSpec(d: seq<UserQueue>, u: string, q: seq<OfflineEntry>)
    ensures forall v :: Has(Put(d, u, q), v) <==> Has(d, v) || v == u
    ensures forall v :: EntriesOf(Put(d, u, q), v) == if v == u then q else EntriesOf(d, v)
    ensures |Put(d, u, q)| == if Has(d, u) then |d| else |d| + 1
    ensures forall x :: x in Put(d, u, q) ==> x in d || x == UserQueue(u, q)
    ensures UniqueUsers(d) ==> UniqueUsers(Put(d, u, q))
  {
    var r := Put(d, u, q);
    var i := Find(d, u);
    if i >= 0 {
      forall v ensures Find(r, v) == Find(d, v) {
        FindSameUsers(r, d, v);
      }
      forall x | x in r ensures x in d || x == UserQueue(u, q) {
        var k :| 0 <= k < |r| && r[k] == x;
        if k != i {
          assert x == d[k];
        }
      }
    } else {
      forall v ensures Find(r, v) == if Find(d, v) >= 0 then Find(d, v) else if u == v then |d| else -1 {
        FindSnoc(d, UserQueue(u, q), v);
      }
    }
  }

  /** A member's user finds that member. */
  lemma EntriesOfMember(d: seq<UserQueue>, x: UserQueue)
    requires UniqueUsers(d) && x in d
    ensures Has(d, x.user) && EntriesOf(d, x.user) == x.entries
  {
    var k :| 0 <= k < |d| && d[k] == x;
    FindUnique(d, k);
  }

  lemma {:induction false} DropUnique(d: seq<UserQueue>, names: seq<string>)
    requires UniqueUsers(d)
    ensures UniqueUsers(Drop(d, names))
  {
    if d != [] {
      var p, x := d[..|d| - 1], d[|d| - 1];
      DropUnique(p, names);
      DropMembers(p, names);
      var t := Drop(p, names);
      if x.user !in names {
        forall i, j | 0 <= i < j < |t + [x]| ensures (t + [x])[i].user != (t + [x])[j].user {
          assert (t + [x])[i] == t[i] && t[i] in p;
          if j == |t| {
            var k :| 0 <= k < |p| && p[k] == t[i];
            assert d[k] == p[k];
          } else {
            assert (t + [x])[j] == t[j];
          }
        }
      }
    }
  }

  /**
   * `del d[u]`: `u` is no longer a key and every other user keeps its
   * deque and its presence.
   */
  lemma DropSpec(d: seq<UserQueue>, u: string)
    requires UniqueUsers(d)
    ensures UniqueUsers(Drop(d, [u]))
    ensures forall v :: Has(Drop(d, [u]), v) <==> Has(d, v) && v != u
    ensures forall v :: EntriesOf(Drop(d, [u]), v) == if v == u then [] else EntriesOf(d, v)
  {
    var r := Drop(d, [u]);
    DropUnique(d, [u]);
    DropMembers(d, [u]);
    forall v ensures (Has(r, v) <==> Has(d, v) && v != u) && EntriesOf(r, v) == if v == u then [] else EntriesOf(d, v) {
      if Has(d, v) && v != u {
        var x := d[Find(d, v)];
        assert x in r;
        EntriesOfMember(r, x);
      } else if Has(r, v) {
        var x := r[Find(r, v)];
        assert x in d;
        EntriesOfMember(d, x);
      }
    }
  }

  /** Deleting the keys one at a time. */
  lemma {:induction false} DropStep(d: seq<UserQueue>, names: seq<string>, n: string)
    ensures Drop(Drop(d, names), [n]) == Drop(d, names + [n])
  {
    if d != [] {
      var p, x := d[..|d| - 1], d[|d| - 1];
      DropStep(p, names, n);
      var t := Drop(p, names);
      assert x.user in names + [n] <==> x.user in names || x.user == n;
      if x.user in names {
        assert Drop(d, names) == t;
      } else {
        assert Drop(d, names) == t + [x];
        assert (t + [x])[..|t|] == t;
        assert Drop(t + [x], [n]) == Drop(t, [n]) + (if x.user in [n] then [] else [x]);
      }
    }
  }

  lemma {:induction false} DropNothing(d: seq<UserQueue>)
    ensures Drop(d, []) == d
  {
    if d != [] {
      DropNothing(d[..|d| - 1]);
    }
  }

  /** Deleting exactly the users whose deque is empty keeps the non-empty ones. */
  lemma {:induction false} DropMatches(d: seq<UserQueue>, names: seq<string>)
    requires forall j :: 0 <= j < |d| ==> (d[j].user in names <==> d[j].entries == [])
    ensures Drop(d, names) == NonEmpty(d)
  {
    if d != [] {
      DropMatches(d[..|d| - 1], names);
    }
  }

  lemma DropEmptied(d: seq<UserQueue>)
    requires UniqueUsers(d)
    ensures Drop(d, EmptyNames(d)) == NonEmpty(d)
  {
    EmptyNamesMembers(d);
    DropMatches(d, EmptyNames(d));
  }

  lemma ExpiredTotalStep(d: seq<UserQueue>, i: int, now: real)
    requires 0 <= i < |d|
    ensures ExpiredTotal(d[..i + 1], now) == ExpiredTotal(d[..i], now) + Expired(d[i].entries, now)
  {
    assert d[..i + 1][..i] == d[..i];
  }

  lemma EmptyNamesStep(d: seq<UserQueue>, i: int)
    requires 0 <= i < |d|
    ensures EmptyNames(d[..i + 1]) == EmptyNames(d[..i]) + (if d[i].entries == [] then [d[i].user] else [])
  {
    assert d[..i + 1][..i] == d[..i];
  }

  /** Sweeping keeps the users, so distinctness, and only shortens deques. */
  lemma SweptValid(d: seq<UserQueue>, limit: int, now: real)
    requires UniqueUsers(d) && Bounded(d, limit)
    ensures UniqueUsers(Swept(d, now)) && Bounded(Swept(d, now), limit)
  {
    var r := Swept(d, now);
    forall x | x in r ensures |x.entries| <= limit {
      var k :| 0 <= k < |r| && r[k] == x;
      assert d[k] in d;
    }
  }

  /** Any resize keeps the users and respects its own bound. */
  lemma ResizedValid(d: seq<UserQueue>, limit: nat)
    requires UniqueUsers(d)
    ensures UniqueUsers(Resized(d, limit)) && Bounded(Resized(d, limit), limit)
  {
    var r := Resized(d, limit);
    forall x | x in r ensures |x.entries| <= limit {
      var k :| 0 <= k < |r| && r[k] == x;
    }
  }

  /** The deque of `u` after one store of `e` under the bound `limit`. */
  function Stored(d: seq<UserQueue>, u: string, e: OfflineEntry, limit: nat): seq<UserQueue> {
    Put(d, u, KeepNewest(EntriesOf(d, u) + [e], limit))
  }

  /** One store of `e` per listed name, in order. */
  function StoredForAll(d: seq<UserQueue>, names: seq<string>, e: OfflineEntry, limit: nat): seq<UserQueue>
  {
    if names == [] then d
    else Stored(StoredForAll(d, names[..|names| - 1], e, limit), names[|names| - 1], e, limit)
  }

  /** The newest entry of the deque `q` is `e`. */
  predicate EndsWith(q: seq<OfflineEntry>, e: OfflineEntry) {
    q != [] && q[|q| - 1] == e
  }

  lemma KeepNewestLast(s: seq<OfflineEntry>, e: OfflineEntry, limit: nat)
    requires limit > 0
    ensures EndsWith(KeepNewest(s + [e], limit), e)
  {
  }

  /** A store for an unlisted user leaves `v`'s deque and presence as they were. */
  lemma {:induction false} StoredForAllKeeps(d: seq<UserQueue>, names: seq<string>, e: OfflineEntry,
                                             limit: nat, v: string)
    requires v !in names
    ensures EntriesOf(StoredForAll(d, names, e, limit), v) == EntriesOf(d, v)
    ensures Has(StoredForAll(d, names, e, limit), v) == Has(d, v)
  {
    if names != [] {
      var init, u := names[..|names| - 1], names[|names| - 1];
      assert names == init + [u];
      var before := StoredForAll(d, init, e, limit);
      StoredForAllKeeps(d, init, e, limit, v);
      PutSpec(before, u, KeepNewest(EntriesOf(before, u) + [e], limit));
    }
  }

  /** Every listed user has a deque afterwards, and when the bound allows any entry it ends with `e`. */
  lemma {:induction false} StoredForAllEnds(d: seq<UserQueue>, names: seq<string>, e: OfflineEntry,
                                            limit: nat, v: string)
    requires v in names
    ensures Has(StoredForAll(d, names, e, limit), v)
    ensures limit > 0 ==> EndsWith(EntriesOf(StoredForAll(d, names, e, limit), v), e)
  {
    var init, u := names[..|names| - 1], names[|names| - 1];
    assert names == init + [u];
    var before := StoredForAll(d, init, e, limit);
    var q := KeepNewest(EntriesOf(before, u) + [e], limit);
    PutSpec(before, u, q);
    if v != u {
      StoredForAllEnds(d, init, e, limit, v);
    } else if limit > 0 {
      KeepNewestLast(EntriesOf(before, u), e, limit);
    }
  }

  lemma {:induction false} StoredForAllUnique(d: seq<UserQueue>, names: seq<string>, e: OfflineEntry, limit: nat)
    requires UniqueUsers(d)
    ensures UniqueUsers(StoredForAll(d, names, e, limit))
  {
    if names != [] {
      var init, u := names[..|names| - 1], names[|names| - 1];
      var before := StoredForAll(d, init, e, limit);
      StoredForAllUnique(d, init, e, limit);
      PutSpec(before, u, KeepNewest(EntriesOf(before, u) + [e], limit));
    }
  }

  /**
   * Storing `e` for every listed name leaves the unlisted users' deques
   * (and their presence) as they were; every listed user then has a deque,
   * and when the bound allows any entry at all that deque ends with `e`.
   */
  lemma StoredForAllSpec(d: seq<UserQueue>, names: seq<string>, e: OfflineEntry, limit: nat)
    ensures forall v :: v !in names ==> EntriesOf(StoredForAll(d, names, e, limit), v) == EntriesOf(d, v)
    ensures forall v :: Has(StoredForAll(d, names, e, limit), v) <==> Has(d, v) || v in names
    ensures limit > 0 ==> forall v :: v in names ==> EndsWith(EntriesOf(StoredForAll(d, names, e, limit), v), e)
  {
    forall v
      ensures (v !in names ==> EntriesOf(StoredForAll(d, names, e, limit), v) == EntriesOf(d, v)) &&
              (Has(StoredForAll(d, names, e, limit), v) <==> Has(d, v) || v in names) &&
              (limit > 0 && v in names ==> EndsWith(EntriesOf(StoredForAll(d, names, e, limit), v), e))
    {
      if v in names {
        StoredForAllEnds(d, names, e, limit, v);
      } else {
        StoredForAllKeeps(d, names, e, limit, v);
      }
    }
  }

  function Max(a: int, b: int): int { if a >= b then a else b }

  /** The popleft loop of _cleanup_expired_messages on one deque. */
  method SplitLive(q: seq<OfflineEntry>, now: real) returns (remaining: seq<OfflineEntry>, expired: nat)
    ensures remaining == Live(q, now) && expired == Expired(q, now)
  {
    var rest := q;
    remaining, expired := [], 0;
    while rest != []
      invariant |rest| <= |q| && rest == q[|q| - |rest|..]
      invariant remaining == LiveUpTo(q, |q| - |rest|, now)
      invariant expired == ExpiredUpTo(q, |q| - |rest|, now)
      decreases |rest|
    {
      var msg := rest[0];
      rest := rest[1..];
      if now <= msg.expiry {
        remaining := remaining + [msg];
      } else {
        expired := expired + 1;
      }
    }
  }

  /**
   * The popleft loop of deliver_offline_messages on one deque: expired
   * entries are counted and dropped, live ones are handed out in order;
   * the deque ends empty.
   */
  method DrainEntries(q: seq<OfflineEntry>, now: real) returns (delivered: seq<Delivered>, expired: nat)
    ensures delivered == Deliveries(Live(q, now), now) && expired == Expired(q, now)
    ensures |delivered| + expired == |q|
  {
    var rest := q;
    delivered, expired := [], 0;
    while rest != []
      invariant |rest| <= |q| && rest == q[|q| - |rest|..]
      invariant delivered == Deliveries(LiveUpTo(q, |q| - |rest|, now), now)
      invariant expired == ExpiredUpTo(q, |q| - |rest|, now)
      decreases |rest|
    {
      var e := rest[0];
      rest := rest[1..];
      if now > e.expiry {
        expired := expired + 1;
      } else {
        delivered := delivered + [Delivery(e, now)];
      }
    }
    LiveExactly(q, |q|, now);
  }

  /**
   * The first loop of _cleanup_expired_messages over the users in order:
   * each deque is replaced by its live entries; returns the new pairs, how
   * many entries expired and which users were left with none.
   */
  method SweepAll(d: seq<UserQueue>, now: real) returns (swept: seq<UserQueue>, total: nat, emptied: seq<string>)
    ensures swept == Swept(d, now)
    ensures total == ExpiredTotal(d, now)
    ensures emptied == EmptyNames(swept)
  {
    ghost var after := Swept(d, now);
    swept, total, emptied := [], 0, [];
    for i := 0 to |d|
      invariant swept == after[..i]
      invariant total == ExpiredTotal(d[..i], now)
      invariant emptied == EmptyNames(after[..i])
    {
      var u := d[i].user;
      var remaining, expired := SplitLive(d[i].entries, now);
      swept := swept + [UserQueue(u, remaining)];
      total := total + expired;
      if remaining == [] {
        emptied := emptied + [u];
      }
      ExpiredTotalStep(d, i, now);
      EmptyNamesStep(after, i);
      assert after[..i + 1] == after[..i] + [after[i]];
    }
    assert d[..|d|] == d;
    assert after[..|d|] == after;
  }

  /**
   * The deques `q` and statistics `st` that store_message_for_multiple_users
   * reaches after the stores for the names `done`, starting from the
   * deques `q0` and the statistics `st0`, under the bound `limit`.
   */
  ghost predicate StoredState(q: seq<UserQueue>, st: MailboxStats, limit: int, q0: seq<UserQueue>,
                              st0: MailboxStats, done: seq<string>, e: OfflineEntry)
  {
    (limit >= 0 ==> q == StoredForAll(q0, done, e, limit)) &&
    (limit < 0 ==> q == q0) &&
    st == (if limit >= 0 && done != [] then Refreshed(st0.(totalStored := st0.totalStored + |done|), |q|) else st0)
  }

  /** Its answers so far: one per name of `done`, each with the size of that user's deque in `q`. */
  ghost predicate StoredResults(results: map<string, StoreResult>, q: seq<UserQueue>, limit: int, done: seq<string>)
  {
    (forall u :: u in results <==> u in done) &&
    (forall u :: u in results ==> results[u].stored == (limit >= 0)) &&
    (forall u :: u in results ==> results[u].queueSize == if limit >= 0 then |EntriesOf(q, u)| else 0)
  }

  /**
   * One more store, for `u`, keeps the deques and statistics in step:
   * either it stored (the bound is not negative) and the deque and the
   * counter moved as store_message_for_user says, or nothing changed.
   */
  lemma StoredStateStep(q: seq<UserQueue>, st: MailboxStats, q': seq<UserQueue>, st': MailboxStats,
                        limit: int, q0: seq<UserQueue>, st0: MailboxStats, done: seq<string>, u: string,
                        e: OfflineEntry)
    requires StoredState(q, st, limit, q0, st0, done, e)
    requires limit >= 0 ==> q' == Stored(q, u, e, limit) && st' == Refreshed(st.(totalStored := st.totalStored + 1), |q'|)
    requires limit < 0 ==> q' == q && st' == st
    ensures StoredState(q', st', limit, q0, st0, done + [u], e)
  {
    assert (done + [u])[..|done|] == done;
    if limit >= 0 {
      assert q' == StoredForAll(q0, done + [u], e, limit);
      var s := st0.(totalStored := st0.totalStored + |done| + 1);
      assert st' == Refreshed(s, |q'|) by {
        assert st'.totalStored == s.totalStored;
        assert st'.totalDelivered == s.totalDelivered && st'.totalExpired == s.totalExpired;
      }
    }
  }

  /** The answer for `u` replaces any earlier one, and the other users' deques did not move. */
  lemma StoredResultsStep(results: map<string, StoreResult>, q: seq<UserQueue>, q': seq<UserQueue>,
                          limit: int, done: seq<string>, u: string)
    requires StoredResults(results, q, limit, done)
    requires limit >= 0 ==> forall v :: v != u ==> EntriesOf(q', v) == EntriesOf(q, v)
    ensures StoredResults(results[u := StoreResult(limit >= 0, if limit >= 0 then |EntriesOf(q', u)| else 0)],
                          q', limit, done + [u])
  {
    var results' := results[u := StoreResult(limit >= 0, if limit >= 0 then |EntriesOf(q', u)| else 0)];
    forall v
      ensures v in results' <==> v in done + [u]
    {
      assert v in done + [u] <==> v in done || v == u;
    }
    forall v | v in results'
      ensures results'[v].queueSize == if limit >= 0 then |EntriesOf(q', v)| else 0
    {
      if v != u {
        assert v in results;
      }
    }
  }

  /**
   * What a registry keeps under a name, as the online check of
   * deliver_offline_messages sees it: a plain dict, with or without an
   * "is_online" key, or a User object, whose `is_online` is an attribute
   * and which has no dict `get`.
   */
  datatype UserRecord = RecordDict(isOnline: Option<bool>) | UserObject(online: bool)

  /**
   * `users.get(username, {}).get('is_online', False)`: the flag, false when
   * the name or the key is missing, and None where the second `get` raises
   * AttributeError because the record is a User object.
   */
  function OnlineLookup(users: map<string, UserRecord>, username: string): (r: Option<bool>)
    ensures r == None <==> username in users && users[username].UserObject?
    ensures r == Some(true) <==> username in users && users[username] == RecordDict(Some(true))
  {
    if username !in users then Some(false)
    else match users[username]
      case RecordDict(flag) => Some(flag == Some(true))
      case UserObject(_) => None
  }

  /** The ChatServer1 UserManager's `users`: every record is a User object. */
  predicate ObjectRegistry(users: map<string, UserRecord>) {
    forall u :: u in users ==> users[u].UserObject?
  }

  class OfflineQueue {
    var maxPerUser: int
    var expirySeconds: int
    var cleanupInterval: int
    /** user_queues, in insertion order */
    var queues: seq<UserQueue>
    var stats: MailboxStats

    /** The keys are distinct and every deque respects the current bound. */
    ghost predicate Valid()
      reads this
    {
      UniqueUsers(queues) && Bounded(queues, maxPerUser)
    }

    constructor (maxPerUser: int, expiryHours: int, cleanupInterval: int)
      ensures Valid()
      ensures this.maxPerUser == maxPerUser && expirySeconds == expiryHours * 3600
      ensures this.cleanupInterval == cleanupInterval
      ensures queues == [] && stats == MailboxStats(0, 0, 0, 0, 0, 0.0)
    {
      this.maxPerUser := maxPerUser;
      expirySeconds := expiryHours * 3600;
      this.cleanupInterval := cleanupInterval;
      queues := [];
      stats := MailboxStats(0, 0, 0, 0, 0, 0.0);
    }

    /** _update_user_stats: the user count and the delivery rate. */
    method UpdateUserStats()
      modifies this
      ensures stats == Refreshed(old(stats), |queues|)
      ensures queues == old(queues) && maxPerUser == old(maxPerUser)
      ensures expirySeconds == old(expirySeconds) && cleanupInterval == old(cleanupInterval)
    {
      stats := Refreshed(stats, |queues|);
    }

    /**
     * store_message_for_user: appends a fresh entry to the user's deque,
     * creating it on first use; a full deque drops its oldest entry. With a
     * negative bound the deque cannot be created and nothing is stored.
     */
    method Store(username: string, message: nat, now: real) returns (ok: bool)
      requires Valid()
      modifies this
      ensures Valid()
      ensures ok == (old(maxPerUser) >= 0)
      ensures maxPerUser == old(maxPerUser) && expirySeconds == old(expirySeconds)
      ensures cleanupInterval == old(cleanupInterval)
      ensures !ok ==> queues == old(queues) && stats == old(stats)
      ensures ok ==> queues == Put(old(queues), username,
                                   KeepNewest(EntriesOf(old(queues), username) + [NewEntry(message, now, expirySeconds)],
                                              maxPerUser))
      ensures ok ==> forall v :: EntriesOf(queues, v) == if v == username then
        KeepNewest(EntriesOf(old(queues), username) + [NewEntry(message, now, expirySeconds)], maxPerUser)
        else EntriesOf(old(queues), v)
      ensures ok ==> stats == Refreshed(old(stats).(totalStored := old(stats).totalStored + 1), |queues|)
    {
      if maxPerUser < 0 {
        return false;
      }
      var limit: nat := maxPerUser;
      var entry := NewEntry(message, now, expirySeconds);
      var q := KeepNewest(EntriesOf(queues, username) + [entry], limit);
      PutSpec(queues, username, q);
      queues := Put(queues, username, q);
      stats := stats.(totalStored := stats.totalStored + 1);
      UpdateUserStats();
      ok := true;
    }

    /** The state after the stores for the names `done`, starting from `q0` and `st0`, with the answers `results`. */
    ghost predicate StoredUpTo(q0: seq<UserQueue>, st0: MailboxStats, done: seq<string>,
                               e: OfflineEntry, results: map<string, StoreResult>)
      reads this
    {
      StoredState(queues, stats, maxPerUser, q0, st0, done, e) && StoredResults(results, queues, maxPerUser, done)
    }

    /** One pass of store_message_for_multiple_users: the store for the name at position `i`. */
    method StoreNext(usernames: seq<string>, i: nat, message: nat, now: real, results: map<string, StoreResult>,
                     ghost q0: seq<UserQueue>, ghost st0: MailboxStats)
      returns (results': map<string, StoreResult>)
      requires i < |usernames|
      requires Valid() && StoredUpTo(q0, st0, usernames[..i], NewEntry(message, now, expirySeconds), results)
      modifies this
      ensures Valid() && maxPerUser == old(maxPerUser) && expirySeconds == old(expirySeconds)
      ensures cleanupInterval == old(cleanupInterval)
      ensures StoredUpTo(q0, st0, usernames[..i + 1], NewEntry(message, now, expirySeconds), results')
    {
      ghost var before, statsBefore := queues, stats;
      var u := usernames[i];
      var ok := Store(u, message, now);
      results' := results[u := StoreResult(ok, if ok then |EntriesOf(queues, u)| else 0)];
      assert usernames[..i + 1] == usernames[..i] + [u];
      StoredStateStep(before, statsBefore, queues, stats, maxPerUser, q0, st0, usernames[..i], u,
                      NewEntry(message, now, expirySeconds));
      StoredResultsStep(results, before, queues, maxPerUser, usernames[..i], u);
    }

    /**
     * store_message_for_multiple_users: one store per listed name, in
     * order; the result for a name is its last store, with the size of its
     * deque.
     */
    method StoreMultiple(usernames: seq<string>, message: nat, now: real)
      returns (results: map<string, StoreResult>)
      requires Valid()
      modifies this
      ensures Valid()
      ensures maxPerUser == old(maxPerUser) && expirySeconds == old(expirySeconds)
      ensures cleanupInterval == old(cleanupInterval)
      ensures maxPerUser >= 0 ==>
        queues == StoredForAll(old(queues), usernames, NewEntry(message, now, expirySeconds), maxPerUser)
      ensures maxPerUser < 0 ==> queues == old(queues)
      ensures maxPerUser >= 0 && usernames != [] ==>
        stats == Refreshed(old(stats).(totalStored := old(stats).totalStored + |usernames|), |queues|)
      ensures maxPerUser < 0 || usernames == [] ==> stats == old(stats)
      ensures forall u :: u in results <==> u in usernames
      ensures forall u :: u in results ==> results[u].stored == (maxPerUser >= 0)
      ensures forall u :: u in results ==>
        results[u].queueSize == if maxPerUser >= 0 then |EntriesOf(queues, u)| else 0
    {
      results := StoreEach(usernames, message, now, queues, stats);
    }

    /** The loop of store_message_for_multiple_users: one store per name, in order. */
    method StoreEach(usernames: seq<string>, message: nat, now: real, ghost q0: seq<UserQueue>, ghost st0: MailboxStats)
      returns (results: map<string, StoreResult>)
      requires Valid() && queues == q0 && stats == st0
      modifies this
      ensures Valid() && maxPerUser == old(maxPerUser) && expirySeconds == old(expirySeconds)
      ensures cleanupInterval == old(cleanupInterval)
      ensures StoredUpTo(q0, st0, usernames, NewEntry(message, now, expirySeconds), results)
    {
      results := map[];
      var i := 0;
      assert usernames[..0] == [];
      while i < |usernames|
        invariant 0 <= i <= |usernames|
        invariant Valid() && maxPerUser == old(maxPerUser) && expirySeconds == old(expirySeconds)
        invariant cleanupInterval == old(cleanupInterval)
        invariant StoredUpTo(q0, st0, usernames[..i], NewEntry(message, now, expirySeconds), results)
      {
        results := StoreNext(usernames, i, message, now, results, q0, st0);
        i := i + 1;
      }
      assert usernames[..i] == usernames;
    }

    /**
     * deliver_offline_messages: with no entries, or the user not online,
     * nothing happens. Otherwise the deque is drained from the front: the
     * expired entries are counted and dropped, the live ones handed out in
     * order, and the user keeps an empty deque. The callback gets the
     * delivered list when it is not empty.
     */
    method Deliver(username: string, isOnline: bool, hasCallback: bool, now: real)
      returns (delivered: seq<Delivered>, callbackArg: Option<seq<Delivered>>)
      requires Valid()
      modifies this
      ensures Valid()
      ensures maxPerUser == old(maxPerUser) && expirySeconds == old(expirySeconds)
      ensures EntriesOf(old(queues), username) == [] || !isOnline ==>
        delivered == [] && callbackArg == None && queues == old(queues) && stats == old(stats)
      ensures EntriesOf(old(queues), username) != [] && isOnline ==>
        delivered == Deliveries(Live(EntriesOf(old(queues), username), now), now) &&
        queues == Put(old(queues), username, []) &&
        stats == Refreshed(old(stats).(totalDelivered := old(stats).totalDelivered + |delivered|,
                                       totalExpired := old(stats).totalExpired +
                                                       Expired(EntriesOf(old(queues), username), now)), |queues|) &&
        callbackArg == (if hasCallback && delivered != [] then Some(delivered) else None)
    {
      delivered, callbackArg := [], None;
      var i := Find(queues, username);
      if i < 0 || queues[i].entries == [] || !isOnline {
        return;
      }
      var expired;
      delivered, expired := DrainEntries(queues[i].entries, now);
      stats := stats.(totalDelivered := stats.totalDelivered + |delivered|,
                      totalExpired := stats.totalExpired + expired);
      assert queues[i] in queues;
      queues := queues[i := UserQueue(username, [])];
      UpdateUserStats();
      if hasCallback && delivered != [] {
        callbackArg := Some(delivered);
      }
    }

    /**
     * deliver_offline_messages as written: the online check reads the
     * registry through `OnlineLookup`, and the AttributeError it raises on
     * a User object is caught by the method's own handler, which returns
     * an empty list. With the ChatServer1 registry, whose records are all
     * User objects, nothing is ever delivered, even to a user whose
     * `is_online` is set and whose entries are live.
     */
    method DeliverAsWritten(username: string, users: map<string, UserRecord>, hasCallback: bool, now: real)
      returns (delivered: seq<Delivered>, callbackArg: Option<seq<Delivered>>)
      requires Valid()
      modifies this
      ensures Valid()
      ensures maxPerUser == old(maxPerUser) && expirySeconds == old(expirySeconds)
      ensures ObjectRegistry(users) ==>
        delivered == [] && callbackArg == None && queues == old(queues) && stats == old(stats)
      ensures OnlineLookup(users, username) != Some(true) ==>
        delivered == [] && callbackArg == None && queues == old(queues) && stats == old(stats)
      ensures OnlineLookup(users, username) == Some(true) && EntriesOf(old(queues), username) != [] ==>
        delivered == Deliveries(Live(EntriesOf(old(queues), username), now), now) &&
        queues == Put(old(queues), username, [])
    {
      delivered, callbackArg := [], None;
      var i := Find(queues, username);
      if i < 0 || queues[i].entries == [] {
        return;
      }
      var online := OnlineLookup(users, username);
      if online == None {
        return;
      }
      delivered, callbackArg := Deliver(username, online.value, hasCallback, now);
    }

    /** get_offline_message_count (the definition that takes effect): the live entries of the user. */
    method GetOfflineMessageCount(username: string, now: real) returns (count: nat)
      ensures count == |Live(EntriesOf(queues, username), now)|
    {
      var k := Find(queues, username);
      if k < 0 {
        return 0;
      }
      var q := queues[k].entries;
      count := 0;
      var i := 0;
      while i < |q|
        invariant 0 <= i <= |q| && count == |LiveUpTo(q, i, now)|
      {
        if now <= q[i].expiry {
          count := count + 1;
        }
        i := i + 1;
      }
    }

    /**
     * peek_user_messages: previews of the live entries among the first
     * `limit` positions (Python slicing, so a negative limit counts from
     * the end), in order, changing nothing.
     */
    method Peek(username: string, limit: int, now: real) returns (previews: seq<Preview>)
      ensures previews == Previews(Live(PyPrefix(EntriesOf(queues, username), limit), now), now)
    {
      var k := Find(queues, username);
      if k < 0 {
        return [];
      }
      var window := PyPrefix(queues[k].entries, limit);
      previews := [];
      var i := 0;
      while i < |window|
        invariant 0 <= i <= |window| && previews == Previews(LiveUpTo(window, i, now), now)
      {
        if now <= window[i].expiry {
          previews := previews + [PreviewOf(window[i], now)];
        }
        i := i + 1;
      }
    }

    /** clear_user_messages: drops the user's deque, expired entries included, and returns its length. */
    method ClearUser(username: string) returns (count: nat)
      requires Valid()
      modifies this
      ensures Valid()
      ensures maxPerUser == old(maxPerUser)
      ensures count == |EntriesOf(old(queues), username)|
      ensures !Has(old(queues), username) ==> queues == old(queues) && stats == old(stats)
      ensures Has(old(queues), username) ==>
        queues == Drop(old(queues), [username]) && stats == Refreshed(old(stats), |queues|)
    {
      var k := Find(queues, username);
      if k < 0 {
        return 0;
      }
      count := |queues[k].entries|;
      DropSpec(queues, username);
      DropMembers(queues, [username]);
      queues := Drop(queues, [username]);
      UpdateUserStats();
    }

    /**
     * _cleanup_expired_messages: each user's deque keeps its live entries
     * in order; the users left with none are then removed; when anything
     * expired, the counters and the run count go up.
     */
    method CleanupExpired(now: real)
      requires Valid()
      modifies this
      ensures Valid()
      ensures maxPerUser == old(maxPerUser)
      ensures queues == NonEmpty(Swept(old(queues), now))
      ensures var total := ExpiredTotal(old(queues), now);
        stats == if total > 0 then
          Refreshed(old(stats).(totalExpired := old(stats).totalExpired + total,
                                totalCleanupRuns := old(stats).totalCleanupRuns + 1), |queues|)
        else old(stats)
    {
      var total, emptied := SweepQueues(now);
      DropEmptied(queues);
      DropUsers(emptied);
      if total > 0 {
        stats := stats.(totalExpired := stats.totalExpired + total,
                        totalCleanupRuns := stats.totalCleanupRuns + 1);
        UpdateUserStats();
      }
    }

    /**
     * The first pass of _cleanup_expired_messages: every deque, in the
     * users' order, is drained into its live entries; returns how many
     * expired and which users were left with none.
     */
    method SweepQueues(now: real) returns (total: nat, emptied: seq<string>)
      requires Valid()
      modifies this
      ensures Valid()
      ensures stats == old(stats) && maxPerUser == old(maxPerUser)
      ensures queues == Swept(old(queues), now)
      ensures total == ExpiredTotal(old(queues), now)
      ensures emptied == EmptyNames(queues)
    {
      var swept;
      swept, total, emptied := SweepAll(queues, now);
      SweptValid(queues, maxPerUser, now);
      queues := swept;
    }

    /** The second pass of _cleanup_expired_messages: the listed users are deleted one by one. */
    method DropUsers(emptied: seq<string>)
      requires Valid()
      modifies this
      ensures Valid()
      ensures stats == old(stats) && maxPerUser == old(maxPerUser)
      ensures queues == Drop(old(queues), emptied)
    {
      ghost var before := queues;
      DropNothing(queues);
      var k := 0;
      while k < |emptied|
        invariant 0 <= k <= |emptied|
        invariant queues == Drop(before, emptied[..k])
        invariant stats == old(stats) && maxPerUser == old(maxPerUser)
      {
        DropStep(before, emptied[..k], emptied[k]);
        assert emptied[..k + 1] == emptied[..k] + [emptied[k]];
        queues := Drop(queues, [emptied[k]]);
        k := k + 1;
      }
      assert emptied[..k] == emptied;
      DropUnique(before, emptied);
      DropMembers(before, emptied);
    }

    /**
     * clear_all_messages: returns how many entries and users there were,
     * and empties the mailbox; the cumulative counters stay.
     */
    method ClearAll() returns (messagesCleared: nat, usersAffected: nat)
      requires Valid()
      modifies this
      ensures Valid()
      ensures messagesCleared == TotalLength(old(queues)) && usersAffected == |old(queues)|
      ensures queues == [] && stats == old(stats).(usersWithOfflineMessages := 0)
      ensures maxPerUser == old(maxPerUser)
    {
      messagesCleared := TotalLength(queues);
      usersAffected := |queues|;
      queues := [];
      stats := stats.(usersWithOfflineMessages := 0);
    }

    /**
     * update_config: the bound becomes at least 10 and every deque is
     * rebuilt under it, keeping its newest entries; the expiry becomes at
     * least one hour and the sweep interval at least 60 seconds.
     */
    method UpdateConfig(newMax: Option<int>, expiryHours: Option<int>, interval: Option<int>)
      requires Valid()
      modifies this
      ensures Valid()
      ensures maxPerUser == if newMax.Some? then Max(10, newMax.value) else old(maxPerUser)
      ensures queues == if newMax.Some? then Resized(old(queues), Max(10, newMax.value)) else old(queues)
      ensures expirySeconds == if expiryHours.Some? then Max(1, expiryHours.value) * 3600 else old(expirySeconds)
      ensures cleanupInterval == if interval.Some? then Max(60, interval.value) else old(cleanupInterval)
      ensures stats == old(stats)
    {
      if newMax.Some? {
        var limit: nat := Max(10, newMax.value);
        maxPerUser := limit;
        ghost var before := queues;
        ghost var after := Resized(before, limit);
        var i := 0;
        while i < |queues|
          invariant 0 <= i <= |queues| == |before| && maxPerUser == limit && stats == old(stats)
          invariant expirySeconds == old(expirySeconds) && cleanupInterval == old(cleanupInterval)
          invariant forall j :: 0 <= j < |before| ==> queues[j] == if j < i then after[j] else before[j]
        {
          queues := queues[i := UserQueue(queues[i].user, KeepNewest(queues[i].entries, limit))];
          i := i + 1;
        }
        assert queues == after;
        ResizedValid(before, limit);
      }
      if expiryHours.Some? {
        expirySeconds := Max(1, expiryHours.value) * 3600;
      }
      if interval.Some? {
        cleanupInterval := Max(60, interval.value);
      }
    }

    /**
     * handle_user_online: None when the user has no live entries;
     * otherwise the delivery's result, which is empty when the user is not
     * online.
     */
    method HandleUserOnline(username: string, isOnline: bool, hasCallback: bool, now: real)
      returns (summary: Option<seq<Delivered>>, callbackArg: Option<seq<Delivered>>)
      requires Valid()
      modifies this
      ensures Valid()
      ensures summary == None <==> Live(EntriesOf(old(queues), username), now) == []
      ensures summary == None ==> queues == old(queues) && stats == old(stats) && callbackArg == None
      ensures maxPerUser == old(maxPerUser) && expirySeconds == old(expirySeconds)
      ensures summary.Some? && isOnline ==>
        summary.value == Deliveries(Live(EntriesOf(old(queues), username), now), now) &&
        queues == Put(old(queues), username, []) &&
        stats == Refreshed(old(stats).(totalDelivered := old(stats).totalDelivered + |summary.value|,
                                       totalExpired := old(stats).totalExpired +
                                                       Expired(EntriesOf(old(queues), username), now)), |queues|) &&
        callbackArg == (if hasCallback then Some(summary.value) else None)
      ensures summary.Some? && !isOnline ==>
        summary.value == [] && queues == old(queues) && stats == old(stats) && callbackArg == None
    {
      var count := GetOfflineMessageCount(username, now);
      if count == 0 {
        return None, None;
      }
      var delivered;
      delivered, callbackArg := Deliver(username, isOnline, hasCallback, now);
      summary := Some(delivered);
    }
  }
}
