/**
  The subscription store of bot.py: one key-value storage holding a global
  registry of subscribed chats and, per chat, a dict from symbol to the
  subscribed (minimum, maximum) bounds.
 */
module Store {
  import opened Optional
  import PyDict
  import Decimal

  /** aiogram's StorageKey; the bot id is the same for every key and is left out. */
  datatype StorageKey = StorageKey(chat: int, user: int)

  /** bot.py:45-49: the registry's key. */
  const GlobalKey := StorageKey(0, 0)

  /** bot.py:225-229: a chat's own key. */
  function ChatKey(chat: int): StorageKey
  {
    StorageKey(chat, chat)
  }

  /** A stored dict value: the registry's `True` marker, or a subscription's bounds. */
  datatype Value = Marker | Bounds(minimal: real, maximal: real)

  /** The dict stored under one key. */
  type Record = PyDict.Dict<Value>

  /** The whole storage. */
  type Data = map<StorageKey, Record>

  /** `storage.get_data(key)`: an absent key reads as an empty dict. */
  function Load(data: Data, key: StorageKey): Record
  {
    if key in data then data[key] else []
  }

  /** The registry's keys, `str(chat_id)` of each subscribed chat, in insertion order. */
  function Registry(data: Data): seq<string>
  {
    PyDict.Keys(Load(data, GlobalKey))
  }

  /** A chat's subscriptions: symbol to bounds. */
  function Subscriptions(data: Data, chat: int): Record
  {
    Load(data, ChatKey(chat))
  }

  /** The registry maps decimal chat ids to the marker. */
  predicate RegistryWf(r: Record)
  {
    PyDict.DistinctKeys(r) && forall e :: e in r ==> e.1 == Marker && Decimal.Canonical(e.0)
  }

  /** A chat's dict maps symbols to bounds. */
  predicate SubscriptionsWf(r: Record)
  {
    PyDict.DistinctKeys(r) && forall e :: e in r ==> e.1.Bounds?
  }

  /** The shape every write of bot.py keeps. */
  predicate Wf(data: Data)
  {
    RegistryWf(Load(data, GlobalKey)) &&
    forall k :: k in data && k != GlobalKey ==> SubscriptionsWf(data[k])
  }

  /** Every stored subscription has bounds 0 <= minimum <= maximum. */
  predicate AscendingRanges(data: Data)
  {
    forall k, e :: k in data && k != GlobalKey && e in data[k] && e.1.Bounds? ==>
      0.0 <= e.1.minimal <= e.1.maximal
  }

  /** bot.py:220-223: the registry after `send_data` registers `chat`. */
  function Register(data: Data, chat: int): (r: Data)
    requires chat != 0
    ensures Decimal.IntToString(chat) in Registry(r)
    ensures Decimal.IntToString(chat) in Registry(data) ==> r == data
    ensures Registry(r) == Registry(data) || Registry(r) == Registry(data) + [Decimal.IntToString(chat)]
    ensures r - {GlobalKey} == data - {GlobalKey}
    ensures Wf(data) ==> Wf(r)
  {
    var registry := Load(data, GlobalKey);
    var id := Decimal.IntToString(chat);
    PyDict.KeysMatchGet(registry, id);
    PyDict.KeysMatchGet(PyDict.Put(registry, id, Marker), id);
    Decimal.IntToStringIsCanonical(chat);
    if PyDict.Get(registry, id).Some? then data
    else data[GlobalKey := PyDict.Put(registry, id, Marker)]
  }

  /** bot.py:230-232: the chat's dict after `send_data` stores the symbol's bounds. */
  function SetBounds(data: Data, chat: int, symbol: string, minimal: real, maximal: real): (r: Data)
    requires chat != 0
    ensures PyDict.Get(Subscriptions(r, chat), symbol) == Some(Bounds(minimal, maximal))
    ensures forall s :: s != symbol ==>
      PyDict.Get(Subscriptions(r, chat), s) == PyDict.Get(Subscriptions(data, chat), s)
    ensures Load(r, GlobalKey) == Load(data, GlobalKey)
    ensures r - {ChatKey(chat)} == data - {ChatKey(chat)}
    ensures Wf(data) ==> Wf(r)
  {
    data[ChatKey(chat) := PyDict.Put(Subscriptions(data, chat), symbol, Bounds(minimal, maximal))]
  }

  /**
    The storage after `send_data(chat, symbol, minimal, maximal)`: the chat
    is added to the registry unless it is already there, and the symbol's
    bounds are set in the chat's dict, replacing earlier ones.
    Chat id 0 is excluded: its key would be the registry's own.
   */
  function Subscribe(data: Data, chat: int, symbol: string, minimal: real, maximal: real): (r: Data)
    requires chat != 0
    ensures Decimal.IntToString(chat) in Registry(r)
    ensures Decimal.IntToString(chat) in Registry(data) ==> Load(r, GlobalKey) == Load(data, GlobalKey)
    ensures Registry(r) == Registry(data) || Registry(r) == Registry(data) + [Decimal.IntToString(chat)]
    ensures PyDict.Get(Subscriptions(r, chat), symbol) == Some(Bounds(minimal, maximal))
    ensures forall s :: s != symbol ==>
      PyDict.Get(Subscriptions(r, chat), s) == PyDict.Get(Subscriptions(data, chat), s)
    ensures r - {GlobalKey, ChatKey(chat)} == data - {GlobalKey, ChatKey(chat)}
    ensures Wf(data) ==> Wf(r)
  {
    var registered := Register(data, chat);
    assert Subscriptions(registered, chat) == Subscriptions(data, chat) by {
      assert ChatKey(chat) in registered - {GlobalKey} <==> ChatKey(chat) in data - {GlobalKey};
    }
    SetBounds(registered, chat, symbol, minimal, maximal)
  }

  /**
    The storage after `update_data(chat, symbol)`: "ALL" empties the chat's
    dict (writing it even when the chat had none), a present symbol is
    removed, and an absent one leaves the storage as it was.
   */
  function Mute(data: Data, chat: int, symbol: string): (r: Data)
    requires chat != 0
    ensures Load(r, GlobalKey) == Load(data, GlobalKey)
    ensures symbol == "ALL" ==> ChatKey(chat) in r && Subscriptions(r, chat) == []
    ensures symbol != "ALL" ==> PyDict.Get(Subscriptions(r, chat), symbol) == None
    ensures symbol != "ALL" ==> forall s :: s != symbol ==>
      PyDict.Get(Subscriptions(r, chat), s) == PyDict.Get(Subscriptions(data, chat), s)
    ensures symbol != "ALL" && PyDict.Get(Subscriptions(data, chat), symbol).None? ==> r == data
    ensures r - {ChatKey(chat)} == data - {ChatKey(chat)}
    ensures Wf(data) ==> Wf(r)
  {
    if symbol == "ALL" then data[ChatKey(chat) := []]
    else if PyDict.Get(Subscriptions(data, chat), symbol).Some? then
      data[ChatKey(chat) := PyDict.Remove(Subscriptions(data, chat), symbol)]
    else data
  }

  /** Subscribing twice to one symbol keeps one entry, with the latest bounds. */
  lemma SubscribeLastWins(data: Data, chat: int, symbol: string, a: real, b: real, c: real, d: real)
    requires chat != 0
    ensures Subscribe(Subscribe(data, chat, symbol, a, b), chat, symbol, c, d) == Subscribe(data, chat, symbol, c, d)
  {
    var registered := Register(data, chat);
    var once := SetBounds(registered, chat, symbol, a, b);
    assert Register(once, chat) == once;
    PyDict.PutPut(Subscriptions(registered, chat), symbol, Bounds(a, b), Bounds(c, d));
  }

  /** Subscribing is idempotent. */
  lemma SubscribeIdempotent(data: Data, chat: int, symbol: string, a: real, b: real)
    requires chat != 0
    ensures Subscribe(Subscribe(data, chat, symbol, a, b), chat, symbol, a, b) == Subscribe(data, chat, symbol, a, b)
  {
    SubscribeLastWins(data, chat, symbol, a, b, a, b);
  }

  /** Muting is idempotent, for "ALL" and for a single symbol. */
  lemma MuteIdempotent(data: Data, chat: int, symbol: string)
    requires chat != 0
    ensures Mute(Mute(data, chat, symbol), chat, symbol) == Mute(data, chat, symbol)
  {
  }

  /** A subscription made with validated bounds keeps every stored range ascending. */
  lemma SubscribeKeepsAscending(data: Data, chat: int, symbol: string, minimal: real, maximal: real)
    requires chat != 0 && AscendingRanges(data)
    requires 0.0 <= minimal <= maximal
    ensures AscendingRanges(Subscribe(data, chat, symbol, minimal, maximal))
  {
    var r := Subscribe(data, chat, symbol, minimal, maximal);
    forall k: StorageKey, e: (string, Value) | k in r && k != GlobalKey && e in r[k] && e.1.Bounds?
      ensures 0.0 <= e.1.minimal <= e.1.maximal
    {
      if k != ChatKey(chat) {
        assert k in r - {GlobalKey, ChatKey(chat)};
      }
    }
  }

  /** Muting only removes subscriptions, so every stored range stays ascending. */
  lemma MuteKeepsAscending(data: Data, chat: int, symbol: string)
    requires chat != 0 && AscendingRanges(data)
    ensures AscendingRanges(Mute(data, chat, symbol))
  {
    var r := Mute(data, chat, symbol);
    forall k: StorageKey, e: (string, Value) | k in r && k != GlobalKey && e in r[k] && e.1.Bounds?
      ensures 0.0 <= e.1.minimal <= e.1.maximal
    {
      if k != ChatKey(chat) {
        assert k in r - {ChatKey(chat)};
      }
    }
  }

  /** The registry never loses a chat, whichever of the two writes happens. */
  lemma RegistryNeverShrinks(data: Data, chat: int, symbol: string, minimal: real, maximal: real, k: string)
    requires chat != 0 && k in Registry(data)
    ensures k in Registry(Subscribe(data, chat, symbol, minimal, maximal))
    ensures k in Registry(Mute(data, chat, symbol))
  {
  }

  /**
    The storage as a mutable object: `data` is what Redis holds. Each method
    is one handler's read-modify-write, loading a whole dict, changing it and
    writing it back.
   */
  class Storage {
    var data: Data

    ghost predicate Valid()
      reads this
    {
      Wf(data)
    }

    /** An empty storage. */
    constructor ()
      ensures Valid() && data == map[]
    {
      data := map[];
    }

    /** `storage.get_data(key)`. */
    function GetData(key: StorageKey): Record
      reads this
    {
      Load(data, key)
    }

    /** `storage.set_data(key, record)`, and `update_data` when the record already holds every stored key. */
    method SetData(key: StorageKey, record: Record)
      modifies this
      ensures data == old(data)[key := record]
    {
      data := data[key := record];
    }

    /** bot.py:219-232, `send_data`. */
    method SendData(chat: int, symbol: string, minimal: real, maximal: real)
      requires Valid() && chat != 0
      modifies this
      ensures Valid()
      ensures data == Subscribe(old(data), chat, symbol, minimal, maximal)
    {
      var registry := GetData(GlobalKey);
      var id := Decimal.IntToString(chat);
      if PyDict.Get(registry, id).None? {
        registry := PyDict.Put(registry, id, Marker);
        SetData(GlobalKey, registry);
      }
      var subscriptions := GetData(ChatKey(chat));
      subscriptions := PyDict.Put(subscriptions, symbol, Bounds(minimal, maximal));
      SetData(ChatKey(chat), subscriptions);
      assert data == Subscribe(old(data), chat, symbol, minimal, maximal);
    }

    /** bot.py:267-279, `update_data`. */
    method UpdateData(chat: int, symbol: string)
      requires Valid() && chat != 0
      modifies this
      ensures Valid()
      ensures data == Mute(old(data), chat, symbol)
    {
      var subscriptions := GetData(ChatKey(chat));
      if symbol == "ALL" {
        SetData(ChatKey(chat), []);
      } else if PyDict.Get(subscriptions, symbol).Some? {
        subscriptions := PyDict.Remove(subscriptions, symbol);
        SetData(ChatKey(chat), subscriptions);
      }
      assert data == Mute(old(data), chat, symbol);
    }

    /** notifier.py:25-26: the registry's keys, read once. */
    method RegisteredChats() returns (ids: seq<string>)
      ensures ids == Registry(data)
    {
      ids := PyDict.Keys(GetData(GlobalKey));
    }
  }
}
