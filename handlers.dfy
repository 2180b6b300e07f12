/**
  The two bot commands that write the subscription store, `/notify` and
  `/mute` (bot.py). Each handler is a sequence of guards, ending either in
  a reply or in one store write. The text of the replies, the `/start`,
  `/name`, `/symbol` and `/price` commands and the Telegram plumbing are
  not modelled.
 */
module Handlers {
  import opened Optional
  import Api
  import Bounds
  import Store

  /** `str.upper` on the ASCII letters users type in a symbol. */
  function Upper(s: string): (u: string)
    ensures |u| == |s|
    ensures forall i :: 0 <= i < |s| ==> ('a' <= s[i] <= 'z' ==> u[i] as int == s[i] as int - 32)
    ensures forall i :: 0 <= i < |s| ==> (!('a' <= s[i] <= 'z') ==> u[i] == s[i])
  {
    seq(|s|, i requires 0 <= i < |s| => if 'a' <= s[i] <= 'z' then (s[i] as int - 32) as char else s[i])
  }

  /** The reply a handler ends with. */
  datatype Reply =
    | Usage                               // wrong number of words
    | NoSuchCurrency(symbol: string)      // the market knows no such symbol
    | Refused(error: Bounds.BoundsError)  // `validate_range` refused the bounds
    | Enabled                             // the subscription was stored
    | Disabled                            // the mute was applied
    | Raised                              // an exception escaped the handler: nothing is answered

  /** What a handler does: answer without writing, or make one store write. */
  datatype Decision =
    | Answer(reply: Reply)
    | Subscribe(symbol: string, minimal: real, maximal: real)
    | Unsubscribe(symbol: string)

  /** "Currency does not exist": `get_price`/`get_name` gave None (a falsy value reads the same). */
  predicate Unknown(o: Api.Outcome)
  {
    o.NotFound? || (o.Found? && !Api.Truthy(o.value))
  }

  /**
    bot.py:147-177, `notify_handler` up to its store write: the word count,
    then the symbol's price, then the bounds, in that order. With a single
    bound token `validate_range` pops it out of the list (bot.py:190), so the
    unpacking at bot.py:176 finds nothing and raises: a point target is never
    stored.
   */
  function NotifyDecision(words: seq<string>, market: Api.Market, float: string -> Option<real>): (d: Decision)
    ensures |words| != 3 && |words| != 4 ==> d == Answer(Usage)
    ensures d.Subscribe? <==>
      |words| == 4 &&
      Api.GetPrice(market(Upper(words[1])), Upper(words[1])).Found? &&
      Bounds.ValidateRange(float, words[2..]).Ok?
    ensures d.Subscribe? ==>
      d.symbol == Upper(words[1]) &&
      Bounds.Range(d.minimal, d.maximal) == Bounds.ValidateRange(float, words[2..]).range &&
      0.0 <= d.minimal <= d.maximal
    ensures (|words| == 3 && Api.GetPrice(market(Upper(words[1])), Upper(words[1])).Found? &&
             Bounds.ValidateRange(float, words[2..]).Ok?) ==> d == Answer(Raised)
    ensures (|words| == 3 || |words| == 4) && Unknown(Api.GetPrice(market(Upper(words[1])), Upper(words[1]))) ==>
      d == Answer(NoSuchCurrency(Upper(words[1])))
    ensures (|words| == 3 || |words| == 4) && Api.GetPrice(market(Upper(words[1])), Upper(words[1])).Fault? ==>
      d == Answer(Raised)
    ensures ((|words| == 3 || |words| == 4) && Api.GetPrice(market(Upper(words[1])), Upper(words[1])).Found? &&
             Bounds.ValidateRange(float, words[2..]).Err?) ==>
      d == Answer(Refused(Bounds.ValidateRange(float, words[2..]).error))
    ensures d.Answer? && d.reply.Refused? ==>
      (|words| == 3 || |words| == 4) &&
      Api.GetPrice(market(Upper(words[1])), Upper(words[1])).Found? &&
      Bounds.ValidateRange(float, words[2..]) == Bounds.Err(d.reply.error)
  {
    if |words| != 3 && |words| != 4 then Answer(Usage)
    else
      var symbol := Upper(words[1]);
      var price := Api.GetPrice(market(symbol), symbol);
      assert price.Found? ==> Api.Truthy(price.value) by {
        if price.Found? { Api.ExtractFindsTruthy(market(symbol), Api.PricePath(symbol)); }
      }
      if price.Fault? then Answer(Raised)
      else if Unknown(price) then Answer(NoSuchCurrency(symbol))
      else
        var priceRange := words[2..];
        match Bounds.ValidateRange(float, priceRange)
        case Err(e) => Answer(Refused(e))
        case Ok(_) =>
          var left := if |priceRange| == 1 then [] else priceRange;
          if |left| != 2 then Answer(Raised)
          else Subscribe(symbol, float(left[0]).value, float(left[1]).value)
  }

  /**
    bot.py:235-256, `mute_handler` up to its store write: the word count,
    then the symbol's name. "ALL" goes through the same name lookup, so it
    reaches the store only when the market knows a currency called ALL.
   */
  function MuteDecision(words: seq<string>, market: Api.Market): (d: Decision)
    ensures |words| != 2 ==> d == Answer(Usage)
    ensures d.Unsubscribe? <==> |words| == 2 && Api.GetName(market(Upper(words[1])), Upper(words[1])).Found?
    ensures d.Unsubscribe? ==> d.symbol == Upper(words[1])
    ensures |words| == 2 && Unknown(Api.GetName(market(Upper(words[1])), Upper(words[1]))) ==>
      d == Answer(NoSuchCurrency(Upper(words[1])))
    ensures |words| == 2 && Api.GetName(market(Upper(words[1])), Upper(words[1])).Fault? ==> d == Answer(Raised)
    ensures !d.Subscribe?
  {
    if |words| != 2 then Answer(Usage)
    else
      var symbol := Upper(words[1]);
      var name := Api.GetName(market(symbol), symbol);
      assert name.Found? ==> Api.Truthy(name.value) by {
        if name.Found? { Api.ExtractFindsTruthy(market(symbol), Api.NamePath(symbol)); }
      }
      if name.Fault? then Answer(Raised)
      else if Unknown(name) then Answer(NoSuchCurrency(symbol))
      else Unsubscribe(symbol)
  }

  /**
    `notify_handler`: the guards in the source's order, then `send_data`.
    The store changes only when the decision is a subscription, and every
    stored range stays ascending.
   */
  method NotifyHandler(store: Store.Storage, chat: int, words: seq<string>, market: Api.Market, float: string -> Option<real>)
    returns (reply: Reply)
    requires store.Valid() && chat != 0
    modifies store
    ensures store.Valid()
    ensures NotifyDecision(words, market, float).Answer? ==>
      reply == NotifyDecision(words, market, float).reply && store.data == old(store.data)
    ensures NotifyDecision(words, market, float).Subscribe? ==>
      var d := NotifyDecision(words, market, float);
      reply == Enabled && store.data == Store.Subscribe(old(store.data), chat, d.symbol, d.minimal, d.maximal)
    ensures Store.AscendingRanges(old(store.data)) ==> Store.AscendingRanges(store.data)
  {
    if |words| != 3 && |words| != 4 {
      return Usage;
    }
    var symbol := Upper(words[1]);
    var price := Api.ExtractValue(market(symbol), Api.PricePath(symbol));
    if price.Fault? {
      return Raised;
    }
    if Unknown(price) {
      return NoSuchCurrency(symbol);
    }
    var priceRange := words[2..];
    var checked := Bounds.ValidateRange(float, priceRange);
    if checked.Err? {
      return Refused(checked.error);
    }
    if |priceRange| == 1 {
      priceRange := [];
    }
    if |priceRange| != 2 {
      return Raised;
    }
    var minimal, maximal := float(priceRange[0]).value, float(priceRange[1]).value;
    if Store.AscendingRanges(store.data) {
      Store.SubscribeKeepsAscending(store.data, chat, symbol, minimal, maximal);
    }
    store.SendData(chat, symbol, minimal, maximal);
    reply := Enabled;
  }

  /** `mute_handler`: the guards in the source's order, then `update_data`. */
  method MuteHandler(store: Store.Storage, chat: int, words: seq<string>, market: Api.Market)
    returns (reply: Reply)
    requires store.Valid() && chat != 0
    modifies store
    ensures store.Valid()
    ensures MuteDecision(words, market).Answer? ==>
      reply == MuteDecision(words, market).reply && store.data == old(store.data)
    ensures MuteDecision(words, market).Unsubscribe? ==>
      reply == Disabled && store.data == Store.Mute(old(store.data), chat, MuteDecision(words, market).symbol)
    ensures Store.Registry(store.data) == Store.Registry(old(store.data))
    ensures Store.AscendingRanges(old(store.data)) ==> Store.AscendingRanges(store.data)
  {
    if |words| != 2 {
      return Usage;
    }
    var symbol := Upper(words[1]);
    var name := Api.ExtractValue(market(symbol), Api.NamePath(symbol));
    if name.Fault? {
      return Raised;
    }
    if Unknown(name) {
      return NoSuchCurrency(symbol);
    }
    if Store.AscendingRanges(store.data) {
      Store.MuteKeepsAscending(store.data, chat, symbol);
    }
    store.UpdateData(chat, symbol);
    reply := Disabled;
  }
}
