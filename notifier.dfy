/**
  One sweep of the price checker (`check_prices` in notifier.py): for every
  chat of a registry snapshot, look up the price of each subscribed symbol,
  collect the subscriptions whose range holds the price, and message the
  chat. The `while True` around the sweep, the 60-second sleep and the task
  that runs it are not modelled.
 */
module Notifier {
  import opened Optional
  import PyDict
  import Decimal
  import Api
  import Store

  /** What one sweep sends: the summary line, then one line per matching subscription. */
  datatype Message =
    | Summary(chat: int)
    | Detail(chat: int, symbol: string, minimal: real, maximal: real)

  /** An entry of the `notifications` list: (symbol, minimal, maximal). */
  datatype Match = Match(symbol: string, minimal: real, maximal: real)

  /**
    The price `get_price` returns, as Python compares it with a float: a
    number, or a boolean (True counts as 1). None stands for every other
    outcome (None, text, a list or dict, or an exception), on which
    `minimal <= price` raises.
   */
  function PriceOf(market: Api.Market, symbol: string): Option<real>
  {
    match Api.GetPrice(market(symbol), symbol)
    case Found(v) =>
      if v.JNum? then Some(v.n)
      else if v.JBool? then Some(if v.b then 1.0 else 0.0)
      else None
    case _ => None
  }

  /** notifier.py:40: both ends are inclusive. */
  predicate InRange(minimal: real, price: real, maximal: real)
  {
    minimal <= price <= maximal
  }

  /**
    The loop over one chat's dict (notifier.py:37-41): the matches collected,
    or None when the loop raised, on an entry that is not a pair of bounds or
    on a price that cannot be compared.
   */
  function Scan(entries: Store.Record, market: Api.Market): Option<seq<Match>>
    decreases |entries|
  {
    if entries == [] then Some([])
    else match Scan(entries[..|entries| - 1], market)
      case None => None
      case Some(ms) =>
        var (symbol, v) := entries[|entries| - 1];
        if !v.Bounds? then None
        else match PriceOf(market, symbol)
          case None => None
          case Some(p) =>
            if InRange(v.minimal, p, v.maximal) then Some(ms + [Match(symbol, v.minimal, v.maximal)])
            else Some(ms)
  }

  /** One detail message per match, in order (notifier.py:47-57). */
  function Details(chat: int, ms: seq<Match>): seq<Message>
    decreases |ms|
  {
    if ms == [] then []
    else
      var m := ms[|ms| - 1];
      Details(chat, ms[..|ms| - 1]) + [Detail(chat, m.symbol, m.minimal, m.maximal)]
  }

  /** Everything one chat is sent (notifier.py:42-57). */
  function Notifications(chat: int, ms: seq<Match>): seq<Message>
  {
    (if |ms| > 0 then [Summary(chat)] else []) + Details(chat, ms)
  }

  /** The messages sent during a sweep, and whether it ran to its end without raising. */
  datatype SweepResult = SweepResult(outbox: seq<Message>, completed: bool)

  /**
    The sweep over the registry keys `snapshot` (notifier.py:28-57). An id
    that `int()` refuses, or a chat whose loop raises, ends the sweep: what
    was sent before stays sent, and that chat gets nothing.
   */
  function SweepSpec(data: Store.Data, snapshot: seq<string>, market: Api.Market): SweepResult
    decreases |snapshot|
  {
    if snapshot == [] then SweepResult([], true)
    else
      var prev := SweepSpec(data, snapshot[..|snapshot| - 1], market);
      if !prev.completed then prev
      else match Decimal.ParseInt(snapshot[|snapshot| - 1])
        case None => SweepResult(prev.outbox, false)
        case Some(chat) =>
          match Scan(Store.Subscriptions(data, chat), market)
          case None => SweepResult(prev.outbox, false)
          case Some(ms) => SweepResult(prev.outbox + Notifications(chat, ms), true)
  }

  /** The inner loop of the sweep over one chat's dict (notifier.py:36-41). */
  method CollectMatches(chatData: Store.Record, market: Api.Market) returns (found: Option<seq<Match>>)
    ensures found == Scan(chatData, market)
  {
    var notifications: seq<Match> := [];
    var crashed := false;
    var j := 0;
    while j < |chatData| && !crashed
      invariant 0 <= j <= |chatData|
      invariant (if crashed then None else Some(notifications)) == Scan(chatData[..j], market)
    {
      assert chatData[..j + 1][..j] == chatData[..j];
      var (symbol, v) := chatData[j];
      if !v.Bounds? {
        crashed := true;
      } else {
        var price := PriceOf(market, symbol);
        if price.None? {
          crashed := true;
        } else if v.minimal <= price.value <= v.maximal {
          notifications := notifications + [Match(symbol, v.minimal, v.maximal)];
        }
      }
      j := j + 1;
    }
    if crashed {
      ScanCrashSticks(chatData, j, market);
      found := None;
    } else {
      assert chatData[..j] == chatData;
      found := Some(notifications);
    }
  }

  /** The messages sent to one chat (notifier.py:42-57): a summary if anything matched, then each match. */
  method SendNotifications(chat: int, notifications: seq<Match>) returns (sent: seq<Message>)
    ensures sent == Notifications(chat, notifications)
  {
    sent := [];
    if |notifications| > 0 {
      sent := sent + [Summary(chat)];
    }
    var k := 0;
    while k < |notifications|
      invariant 0 <= k <= |notifications|
      invariant sent == (if |notifications| > 0 then [Summary(chat)] else []) + Details(chat, notifications[..k])
    {
      assert notifications[..k + 1][..k] == notifications[..k];
      var m := notifications[k];
      sent := sent + [Detail(chat, m.symbol, m.minimal, m.maximal)];
      k := k + 1;
    }
    assert notifications[..k] == notifications;
  }

  /**
    One sweep, as the outer loop of `check_prices`. It only reads the
    storage. `snapshot` is the registry's key list, read once before the
    first sweep (notifier.py:25-26) and never again.
   */
  method Sweep(store: Store.Storage, snapshot: seq<string>, market: Api.Market)
    returns (outbox: seq<Message>, completed: bool)
    ensures SweepResult(outbox, completed) == SweepSpec(store.data, snapshot, market)
  {
    outbox, completed := [], true;
    var i := 0;
    while i < |snapshot| && completed
      invariant 0 <= i <= |snapshot|
      invariant SweepResult(outbox, completed) == SweepSpec(store.data, snapshot[..i], market)
    {
      assert snapshot[..i + 1][..i] == snapshot[..i];
      var parsed := Decimal.ParseInt(snapshot[i]);
      if parsed.None? {
        completed := false;
      } else {
        var chat := parsed.value;
        var chatData := store.GetData(Store.ChatKey(chat));
        var found := CollectMatches(chatData, market);
        if found.None? {
          completed := false;
        } else {
          var sent := SendNotifications(chat, found.value);
          outbox := outbox + sent;
        }
      }
      i := i + 1;
    }
    if !completed {
      SweepCrashSticks(store.data, snapshot, i, market);
    } else {
      assert snapshot[..i] == snapshot;
    }
  }

  /** Once the loop over a dict has raised, the later entries change nothing. */
  lemma {:induction false} ScanCrashSticks(entries: Store.Record, n: nat, market: Api.Market)
    requires n <= |entries|
    requires Scan(entries[..n], market).None?
    ensures Scan(entries, market).None?
    decreases |entries| - n
  {
    if n < |entries| {
      assert entries[..n + 1][..n] == entries[..n];
      ScanCrashSticks(entries, n + 1, market);
    } else {
      assert entries[..n] == entries;
    }
  }

  /** Once the sweep has raised, the later chats of the snapshot are not visited. */
  lemma {:induction false} SweepCrashSticks(data: Store.Data, snapshot: seq<string>, n: nat, market: Api.Market)
    requires n <= |snapshot|
    requires !SweepSpec(data, snapshot[..n], market).completed
    ensures SweepSpec(data, snapshot, market) == SweepSpec(data, snapshot[..n], market)
    decreases |snapshot| - n
  {
    if n < |snapshot| {
      assert snapshot[..n + 1][..n] == snapshot[..n];
      SweepCrashSticks(data, snapshot, n + 1, market);
    } else {
      assert snapshot[..n] == snapshot;
    }
  }

  /**
    The loop over a dict runs to its end exactly when every entry holds
    bounds and every symbol has a comparable price; one unknown symbol is
    enough to abort it.
   */
  lemma {:induction false} ScanSucceedsIff(entries: Store.Record, market: Api.Market)
    ensures Scan(entries, market).Some? <==>
      forall i :: 0 <= i < |entries| ==> entries[i].1.Bounds? && PriceOf(market, entries[i].0).Some?
    decreases |entries|
  {
    if entries != [] {
      var init := entries[..|entries| - 1];
      ScanSucceedsIff(init, market);
      assert forall i :: 0 <= i < |init| ==> init[i] == entries[i];
    }
  }

  /**
    A subscription is collected exactly when its symbol's price lies in its
    range, both ends included.
   */
  lemma {:induction false} ScanCollectsInRange(entries: Store.Record, market: Api.Market, ms: seq<Match>, symbol: string, minimal: real, maximal: real)
    requires Scan(entries, market) == Some(ms)
    ensures Match(symbol, minimal, maximal) in ms <==>
      (symbol, Store.Bounds(minimal, maximal)) in entries &&
      PriceOf(market, symbol).Some? && InRange(minimal, PriceOf(market, symbol).value, maximal)
    decreases |entries|
  {
    if entries != [] {
      var init := entries[..|entries| - 1];
      var prev := Scan(init, market).value;
      ScanCollectsInRange(init, market, prev, symbol, minimal, maximal);
      assert entries == init + [entries[|entries| - 1]];
      ScanSucceedsIff(entries, market);
    }
  }

  /** `xs` is `ys` with some elements left out: the same elements in the same order. */
  ghost predicate Subsequence<T>(xs: seq<T>, ys: seq<T>)
    decreases |ys|
  {
    if xs == [] then true
    else if ys == [] then false
    else if xs[|xs| - 1] == ys[|ys| - 1] then Subsequence(xs[..|xs| - 1], ys[..|ys| - 1])
    else Subsequence(xs, ys[..|ys| - 1])
  }

  /** A match as the dict entry it came from. */
  function AsEntries(ms: seq<Match>): Store.Record
    decreases |ms|
  {
    if ms == [] then []
    else AsEntries(ms[..|ms| - 1]) + [(ms[|ms| - 1].symbol, Store.Bounds(ms[|ms| - 1].minimal, ms[|ms| - 1].maximal))]
  }

  /** A subsequence of `ys` is one of every extension of `ys`. */
  lemma {:induction false} SubsequenceOfLonger<T>(xs: seq<T>, ys: seq<T>, y: T)
    requires Subsequence(xs, ys)
    ensures Subsequence(xs, ys + [y])
    decreases |ys|, 1
  {
    if xs != [] {
      assert (ys + [y])[..|ys|] == ys;
      if xs[|xs| - 1] == y {
        SubsequenceDropLast(xs, ys);
      }
    }
  }

  /** A subsequence of `ys` stays one when its last element is dropped. */
  lemma {:induction false} SubsequenceDropLast<T>(xs: seq<T>, ys: seq<T>)
    requires xs != [] && Subsequence(xs, ys)
    ensures Subsequence(xs[..|xs| - 1], ys)
    decreases |ys|, 0
  {
    assert ys[..|ys| - 1] + [ys[|ys| - 1]] == ys;
    if xs[|xs| - 1] == ys[|ys| - 1] {
      SubsequenceOfLonger(xs[..|xs| - 1], ys[..|ys| - 1], ys[|ys| - 1]);
    } else {
      SubsequenceDropLast(xs, ys[..|ys| - 1]);
      SubsequenceOfLonger(xs[..|xs| - 1], ys[..|ys| - 1], ys[|ys| - 1]);
    }
  }

  /** The matches keep the iteration order of the chat's dict. */
  lemma {:induction false} ScanKeepsOrder(entries: Store.Record, market: Api.Market)
    requires Scan(entries, market).Some?
    ensures Subsequence(AsEntries(Scan(entries, market).value), entries)
    decreases |entries|
  {
    if entries != [] {
      var init := entries[..|entries| - 1];
      var last := entries[|entries| - 1];
      var prev := Scan(init, market).value;
      ScanKeepsOrder(init, market);
      assert entries == init + [last];
      var ms := Scan(entries, market).value;
      if ms == prev {
        SubsequenceOfLonger(AsEntries(prev), init, last);
      } else {
        assert ms == prev + [Match(last.0, last.1.minimal, last.1.maximal)];
        assert ms[..|ms| - 1] == prev;
        var xs := AsEntries(ms);
        assert xs[..|xs| - 1] == AsEntries(prev);
      }
    }
  }

  /**
    The loop over a dict consults the market only for the dict's own
    symbols; in particular an empty dict triggers no price lookup.
   */
  lemma {:induction false} ScanReadsOwnSymbols(entries: Store.Record, m1: Api.Market, m2: Api.Market)
    requires forall s :: s in PyDict.Keys(entries) ==> m1(s) == m2(s)
    ensures Scan(entries, m1) == Scan(entries, m2)
    decreases |entries|
  {
    if entries != [] {
      var init := entries[..|entries| - 1];
      forall s | s in PyDict.Keys(init)
        ensures m1(s) == m2(s)
      {
        KeysOfPrefix(entries, s);
      }
      ScanReadsOwnSymbols(init, m1, m2);
      KeysOfPrefix(entries, entries[|entries| - 1].0);
    }
  }

  /** The keys of a dict's prefix, and its last key, are keys of the dict. */
  lemma {:induction false} KeysOfPrefix(entries: Store.Record, s: string)
    requires entries != []
    ensures s in PyDict.Keys(entries[..|entries| - 1]) ==> s in PyDict.Keys(entries)
    ensures s == entries[|entries| - 1].0 ==> s in PyDict.Keys(entries)
  {
    var init := entries[..|entries| - 1];
    PyDict.KeysMatchGet(init, s);
    PyDict.KeysMatchGet(entries, s);
    if s in PyDict.Keys(init) {
      PyDict.GetIsEntry(init, s);
      SomeEntryHasKey(entries, (s, PyDict.Get(init, s).value));
    }
    if s == entries[|entries| - 1].0 {
      SomeEntryHasKey(entries, entries[|entries| - 1]);
    }
  }

  /** A dict maps the key of each of its entries. */
  lemma {:induction false} SomeEntryHasKey(d: Store.Record, e: (string, Store.Value))
    requires e in d
    ensures PyDict.Get(d, e.0).Some?
  {
    if d[0] != e && d[0].0 != e.0 {
      SomeEntryHasKey(d[1..], e);
    }
  }

  /** How many summary messages a list holds. */
  function CountSummaries(msgs: seq<Message>): nat
    decreases |msgs|
  {
    if msgs == [] then 0
    else CountSummaries(msgs[..|msgs| - 1]) + (if msgs[|msgs| - 1].Summary? then 1 else 0)
  }

  lemma {:induction false} CountSummariesAppend(a: seq<Message>, b: seq<Message>)
    ensures CountSummaries(a + b) == CountSummaries(a) + CountSummaries(b)
    decreases |b|
  {
    if b == [] {
      assert a + b == a;
    } else {
      assert (a + b)[..|a + b| - 1] == a + b[..|b| - 1];
      CountSummariesAppend(a, b[..|b| - 1]);
    }
  }

  lemma {:induction false} DetailsShape(chat: int, ms: seq<Match>)
    ensures |Details(chat, ms)| == |ms|
    ensures CountSummaries(Details(chat, ms)) == 0
    ensures forall i :: 0 <= i < |ms| ==>
      Details(chat, ms)[i] == Detail(chat, ms[i].symbol, ms[i].minimal, ms[i].maximal)
    decreases |ms|
  {
    if ms != [] {
      DetailsShape(chat, ms[..|ms| - 1]);
      var d := Details(chat, ms);
      assert d[..|d| - 1] == Details(chat, ms[..|ms| - 1]);
    }
  }

  /**
    A chat is sent exactly one summary when it has at least one match and
    none otherwise; the summary comes first, then one detail per match with
    its symbol and bounds, in the order collected.
   */
  lemma NotificationsShape(chat: int, ms: seq<Match>)
    ensures CountSummaries(Notifications(chat, ms)) == if ms == [] then 0 else 1
    ensures ms == [] <==> Notifications(chat, ms) == []
    ensures ms != [] ==> Notifications(chat, ms)[0] == Summary(chat)
    ensures ms != [] ==> (|Notifications(chat, ms)| == |ms| + 1 &&
      forall i :: 0 <= i < |ms| ==>
        Notifications(chat, ms)[i + 1] == Detail(chat, ms[i].symbol, ms[i].minimal, ms[i].maximal))
  {
    DetailsShape(chat, ms);
    CountSummariesAppend(if |ms| > 0 then [Summary(chat)] else [], Details(chat, ms));
    assert CountSummaries([Summary(chat)]) == 1 by {
      assert [Summary(chat)][..0] == [];
    }
  }

  /** The messages of a list addressed to `chat`, in order. */
  function MessagesTo(msgs: seq<Message>, chat: int): seq<Message>
    decreases |msgs|
  {
    if msgs == [] then []
    else MessagesTo(msgs[..|msgs| - 1], chat) + (if msgs[|msgs| - 1].chat == chat then [msgs[|msgs| - 1]] else [])
  }

  lemma {:induction false} MessagesToAppend(a: seq<Message>, b: seq<Message>, chat: int)
    ensures MessagesTo(a + b, chat) == MessagesTo(a, chat) + MessagesTo(b, chat)
    decreases |b|
  {
    if b == [] {
      assert a + b == a;
    } else {
      assert (a + b)[..|a + b| - 1] == a + b[..|b| - 1];
      MessagesToAppend(a, b[..|b| - 1], chat);
    }
  }

  lemma {:induction false} DetailsAddressed(to: int, ms: seq<Match>, chat: int)
    ensures MessagesTo(Details(to, ms), chat) == if to == chat then Details(to, ms) else []
    decreases |ms|
  {
    if ms != [] {
      var d := Details(to, ms);
      assert d[..|d| - 1] == Details(to, ms[..|ms| - 1]);
      DetailsAddressed(to, ms[..|ms| - 1], chat);
    }
  }

  /** Every message for a chat is addressed to it. */
  lemma NotificationsAddressed(to: int, ms: seq<Match>, chat: int)
    ensures MessagesTo(Notifications(to, ms), chat) == if to == chat then Notifications(to, ms) else []
  {
    var head: seq<Message> := if |ms| > 0 then [Summary(to)] else [];
    MessagesToAppend(head, Details(to, ms), chat);
    DetailsAddressed(to, ms, chat);
    assert MessagesTo(head, chat) == if to == chat then head else [] by {
      if head != [] {
        assert head[..0] == [];
      }
    }
  }

  /** Snapshot keys that are decimal ids, each listed once, as the registry's are. */
  predicate WellFormedSnapshot(snapshot: seq<string>)
  {
    (forall i :: 0 <= i < |snapshot| ==> Decimal.Canonical(snapshot[i])) &&
    (forall i, j :: 0 <= i < j < |snapshot| ==> snapshot[i] != snapshot[j])
  }

  /** One step of a completed sweep: the chat visited last, and what it was sent. */
  lemma SweepStep(data: Store.Data, snapshot: seq<string>, market: Api.Market, n: nat)
    requires 0 < n <= |snapshot|
    requires SweepSpec(data, snapshot[..n], market).completed
    ensures SweepSpec(data, snapshot[..n - 1], market).completed
    ensures Decimal.ParseInt(snapshot[n - 1]).Some?
    ensures Scan(Store.Subscriptions(data, Decimal.ParseInt(snapshot[n - 1]).value), market).Some?
    ensures SweepSpec(data, snapshot[..n], market).outbox ==
      SweepSpec(data, snapshot[..n - 1], market).outbox +
      Notifications(Decimal.ParseInt(snapshot[n - 1]).value,
        Scan(Store.Subscriptions(data, Decimal.ParseInt(snapshot[n - 1]).value), market).value)
  {
    var s := snapshot[..n];
    assert s[..|s| - 1] == snapshot[..n - 1];
    assert s[|s| - 1] == snapshot[n - 1];
  }

  /** The ids in a prefix of a well-formed snapshot: the last one is new. */
  lemma PrefixMembership(snapshot: seq<string>, n: nat, id: string)
    requires 0 < n <= |snapshot| && WellFormedSnapshot(snapshot)
    ensures id in snapshot[..n] <==> id in snapshot[..n - 1] || snapshot[n - 1] == id
    ensures snapshot[n - 1] == id ==> id !in snapshot[..n - 1]
  {
    assert snapshot[..n] == snapshot[..n - 1] + [snapshot[n - 1]];
    if snapshot[n - 1] == id {
      forall i | 0 <= i < n - 1
        ensures snapshot[i] != id
      {
        assert snapshot[i] != snapshot[n - 1];
      }
      assert forall i :: 0 <= i < n - 1 ==> snapshot[..n - 1][i] == snapshot[i];
    }
  }

  /** A canonical id denotes `chat` exactly when it is `str(chat)`. */
  lemma CanonicalDenotes(s: string, chat: int)
    requires Decimal.Canonical(s)
    ensures Decimal.ParseInt(s).value == chat <==> s == Decimal.IntToString(chat)
  {
    Decimal.IntRoundTrip(chat);
  }

  /** The sweep over a prefix of the snapshot, for the induction below. */
  lemma {:induction false} SweepPrefixDelivers(data: Store.Data, snapshot: seq<string>, market: Api.Market, chat: int, n: nat)
    requires n <= |snapshot| && WellFormedSnapshot(snapshot)
    requires SweepSpec(data, snapshot[..n], market).completed
    ensures Decimal.IntToString(chat) in snapshot[..n] ==> Scan(Store.Subscriptions(data, chat), market).Some?
    ensures MessagesTo(SweepSpec(data, snapshot[..n], market).outbox, chat) ==
      if Decimal.IntToString(chat) in snapshot[..n]
      then Notifications(chat, Scan(Store.Subscriptions(data, chat), market).value)
      else []
  {
    var id := Decimal.IntToString(chat);
    if n == 0 {
      assert snapshot[..n] == [];
    } else {
      SweepStep(data, snapshot, market, n);
      SweepPrefixDelivers(data, snapshot, market, chat, n - 1);
      var prev := SweepSpec(data, snapshot[..n - 1], market).outbox;
      var c := Decimal.ParseInt(snapshot[n - 1]).value;
      var ms := Scan(Store.Subscriptions(data, c), market).value;
      MessagesToAppend(prev, Notifications(c, ms), chat);
      NotificationsAddressed(c, ms, chat);
      PrefixMembership(snapshot, n, id);
      CanonicalDenotes(snapshot[n - 1], chat);
    }
  }

  /**
    A completed sweep over a well-formed snapshot sends each listed chat
    exactly its own notifications, and nothing to a chat the snapshot does
    not list, however its subscriptions look.
   */
  lemma SweepDelivers(data: Store.Data, snapshot: seq<string>, market: Api.Market, chat: int)
    requires WellFormedSnapshot(snapshot)
    requires SweepSpec(data, snapshot, market).completed
    ensures Decimal.IntToString(chat) in snapshot ==> Scan(Store.Subscriptions(data, chat), market).Some?
    ensures MessagesTo(SweepSpec(data, snapshot, market).outbox, chat) ==
      if Decimal.IntToString(chat) in snapshot
      then Notifications(chat, Scan(Store.Subscriptions(data, chat), market).value)
      else []
  {
    assert snapshot[..|snapshot|] == snapshot;
    SweepPrefixDelivers(data, snapshot, market, chat, |snapshot|);
  }

  /**
    The registry is a well-formed snapshot: `int()` of each key gives back a
    chat id whose `str` is that key, and no chat is listed twice.
   */
  lemma RegistryIsWellFormedSnapshot(data: Store.Data)
    requires Store.Wf(data)
    ensures WellFormedSnapshot(Store.Registry(data))
  {
    var r := Store.Load(data, Store.GlobalKey);
    var ks := Store.Registry(data);
    PyDict.KeysLength(r);
    forall i | 0 <= i < |ks|
      ensures Decimal.Canonical(ks[i])
    {
      PyDict.KeysAt(r, i);
      assert r[i] in r;
    }
    forall i, j | 0 <= i < j < |ks|
      ensures ks[i] != ks[j]
    {
      PyDict.KeysDistinct(r, i, j);
    }
  }
}
