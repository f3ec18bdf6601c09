/** The stream hub: quotes throttled for each symbol, messages fanned out to bounded channels
    (services/api/internal/stream/hub.go). */
module Hub {
  import opened Common

  type Payload = string

  datatype Kind = Market | Account | OtherKind

  /** A buffered channel and what its subscriber has taken from it. */
  datatype Channel = Channel(capacity: nat, queue: seq<Payload>, taken: seq<Payload>)

  /** `last` holds the clock reading of the last accepted quote of each symbol. */
  datatype State = State(enabled: bool, throttle: int, market: set<nat>, account: set<nat>, last: map<string, int>,
        channels: map<nat, Channel>)

  predicate IsSpace(c: char) {
    var n := c as int;
    || 0x09 <= n <= 0x0D || n == 0x20 || n == 0x85 || n == 0xA0 || n == 0x1680 || 0x2000 <= n <= 0x200A
    || n == 0x2028 || n == 0x2029 || n == 0x202F || n == 0x205F || n == 0x3000
  }

  function TrimSpace(s: string): string
    decreases |s|
  {
    if s == "" then s
    else if IsSpace(s[0]) then TrimSpace(s[1..])
    else if IsSpace(s[|s| - 1]) then TrimSpace(s[..|s| - 1])
    else s
  }

  /* ------------------------------------------------------------------ operations on values */

  predicate Full(c: Channel) {
    |c.queue| >= c.capacity
  }

  function Offered(c: Channel, msg: Payload): Channel {
    if Full(c) then c else c.(queue := c.queue + [msg])
  }

  function FanOut(channels: map<nat, Channel>, subs: set<nat>, msg: Payload): map<nat, Channel> {
    map c | c in channels :: if c in subs then Offered(channels[c], msg) else channels[c]
  }

  predicate AcceptsQuote(s: State, symbol: string, payload: Payload, now: int) {
    && s.enabled
    && TrimSpace(symbol) != ""
    && payload != ""
    && (TrimSpace(symbol) in s.last ==> now - s.last[TrimSpace(symbol)] >= s.throttle)
  }

  predicate AcceptsAccount(s: State, payload: Payload) {
    s.enabled && payload != ""
  }

  datatype Action =
    | Subscribe(kind: Kind, channel: nat)
    | Unsubscribe(kind: Kind, channel: nat)
    | Quote(symbol: string, payload: Payload, now: int)
    | Trade(payload: Payload)
    | Take(channel: nat)

  function Do(s: State, a: Action): State {
    match a
    case Subscribe(kind, c) =>
      if c !in s.channels then s
      else if kind.Market? then s.(market := s.market + {c})
      else if kind.Account? then s.(account := s.account + {c})
      else s
    case Unsubscribe(kind, c) =>
      if kind.Market? then s.(market := s.market - {c})
      else if kind.Account? then s.(account := s.account - {c})
      else s
    case Quote(symbol, payload, now) =>
      if AcceptsQuote(s, symbol, payload, now) then
        s.(last := s.last[TrimSpace(symbol) := now], channels := FanOut(s.channels, s.market, payload))
      else s
    case Trade(payload) =>
      if AcceptsAccount(s, payload) then s.(channels := FanOut(s.channels, s.account, payload)) else s
    case Take(c) =>
      if c in s.channels && s.channels[c].queue != [] then
        var ch := s.channels[c];
        s.(channels := s.channels[c := ch.(queue := ch.queue[1..], taken := ch.taken + [ch.queue[0]])])
      else s
  }

  function Run(s: State, actions: seq<Action>): State {
    if actions == [] then s else Do(Run(s, actions[..|actions| - 1]), actions[|actions| - 1])
  }

  /* ------------------------------------------------------------------ the hub itself */

  class StreamHub {
    const enabled: bool
    const throttle: int
    var marketSubs: set<nat>
    var accountSubs: set<nat>
    var lastPublish: map<string, int>
    var channels: map<nat, Channel>

    function View(): State
      reads this
    {
      State(enabled, throttle, marketSubs, accountSubs, lastPublish, channels)
    }

    predicate Valid()
      reads this
    {
      marketSubs <= channels.Keys && accountSubs <= channels.Keys
    }

    /** Streaming needs both credentials. */
    constructor (streamEnabled: bool, apiKey: string, apiSecret: string, throttle: int)
      ensures Valid()
      ensures View() == State(streamEnabled && TrimSpace(apiKey) != "" && TrimSpace(apiSecret) != "",
            throttle, {}, {}, map[], map[])
    {
      enabled := streamEnabled && TrimSpace(apiKey) != "" && TrimSpace(apiSecret) != "";
      this.throttle := throttle;
      marketSubs, accountSubs, lastPublish, channels := {}, {}, map[], map[];
    }

    /** A client opens its own buffered channel before it subscribes. */
    method Open(c: nat, capacity: nat)
      requires Valid() && c !in channels
      modifies this`channels
      ensures Valid() && channels == old(channels)[c := Channel(capacity, [], [])]
    {
      channels := channels[c := Channel(capacity, [], [])];
    }

    /** A client takes the oldest message waiting for it, if there is one. */
    method Receive(c: nat) returns (msg: Option<Payload>)
      requires Valid() && c in channels
      modifies this`channels
      ensures Valid() && View() == Do(old(View()), Take(c))
      ensures msg == if old(channels[c].queue) == [] then None else Some(old(channels[c].queue[0]))
    {
      var ch := channels[c];
      if ch.queue == [] {
        return None;
      }
      channels := channels[c := ch.(queue := ch.queue[1..], taken := ch.taken + [ch.queue[0]])];
      msg := Some(ch.queue[0]);
    }

    method AddSubscriber(kind: Kind, c: nat)
      requires Valid() && c in channels
      modifies this`marketSubs, this`accountSubs
      ensures Valid() && View() == Do(old(View()), Subscribe(kind, c))
    {
      match kind {
        case Market => marketSubs := marketSubs + {c};
        case Account => accountSubs := accountSubs + {c};
        case OtherKind =>
      }
    }

    method RemoveSubscriber(kind: Kind, c: nat)
      requires Valid()
      modifies this`marketSubs, this`accountSubs
      ensures Valid() && View() == Do(old(View()), Unsubscribe(kind, c))
    {
      match kind {
        case Market => marketSubs := marketSubs - {c};
        case Account => accountSubs := accountSubs - {c};
        case OtherKind =>
      }
    }

    /** Sends without blocking to every subscriber, in no particular order. */
    method Send(subs: set<nat>, msg: Payload)
      requires subs <= channels.Keys
      modifies this`channels
      ensures channels == FanOut(old(channels), subs, msg)
    {
      var left := subs;
      while left != {}
        invariant left <= subs
        invariant channels == FanOut(old(channels), subs - left, msg)
        decreases |left|
      {
        var c :| c in left;
        if |channels[c].queue| < channels[c].capacity {
          channels := channels[c := channels[c].(queue := channels[c].queue + [msg])];
        }
        left := left - {c};
      }
    }

    method PublishQuote(symbol: string, payload: Payload, now: int)
      requires Valid()
      modifies this`lastPublish, this`channels
      ensures Valid() && View() == Do(old(View()), Quote(symbol, payload, now))
    {
      if !enabled {
        return;
      }
      var key := TrimSpace(symbol);
      if key == "" || payload == "" {
        return;
      }
      if key in lastPublish && now - lastPublish[key] < throttle {
        return;
      }
      lastPublish := lastPublish[key := now];
      Send(marketSubs, payload);
    }

    method PublishAccount(payload: Payload)
      requires Valid()
      modifies this`channels
      ensures Valid() && View() == Do(old(View()), Trade(payload))
    {
      if !enabled || payload == "" {
        return;
      }
      Send(accountSubs, payload);
    }
  }

  /* ------------------------------------------------------------------ throttling */

  /** Action `i` is a quote of the symbol that was accepted. */
  predicate AcceptedAt(s: State, actions: seq<Action>, i: nat, symbol: string)
    requires i < |actions|
  {
    var a := actions[i];
    a.Quote? && TrimSpace(a.symbol) == symbol && AcceptsQuote(Run(s, actions[..i]), a.symbol, a.payload, a.now)
  }

  lemma DoKeepsSettings(s: State, a: Action)
    ensures Do(s, a).throttle == s.throttle && Do(s, a).enabled == s.enabled
    ensures Do(s, a).channels.Keys == s.channels.Keys
  {
    hide FanOut, TrimSpace;
    if a.Quote? {
      FanOutKeys(s.channels, s.market, a.payload);
    } else if a.Trade? {
      FanOutKeys(s.channels, s.account, a.payload);
    }
  }

  lemma FanOutKeys(channels: map<nat, Channel>, subs: set<nat>, msg: Payload)
    ensures FanOut(channels, subs, msg).Keys == channels.Keys
  {
  }

  lemma {:induction false} RunKeepsSettings(s: State, actions: seq<Action>)
    ensures Run(s, actions).throttle == s.throttle && Run(s, actions).enabled == s.enabled
    ensures Run(s, actions).channels.Keys == s.channels.Keys
  {
    if actions != [] {
      RunKeepsSettings(s, actions[..|actions| - 1]);
      DoKeepsSettings(Run(s, actions[..|actions| - 1]), actions[|actions| - 1]);
    }
  }

  /** The clock reading kept for a symbol is that of its last accepted quote, and is no earlier than any. */
  lemma {:induction false} LastIsLatest(s: State, actions: seq<Action>, i: nat, symbol: string)
    requires i < |actions| && s.throttle >= 0 && AcceptedAt(s, actions, i, symbol)
    ensures var t := Run(s, actions); symbol in t.last && t.last[symbol] >= actions[i].now
    decreases |actions|
  {
    var before := actions[..|actions| - 1];
    assert before[..i] == actions[..i];
    RunKeepsSettings(s, before);
    if i < |before| {
      assert before[i] == actions[i];
      LastIsLatest(s, before, i, symbol);
    }
    hide TrimSpace, FanOut;
  }

  /** For any clock readings, monotone or not, any two accepted quotes of one symbol are at least the throttle apart,
      the later one having the later reading. */
  lemma QuotesAreApart(s: State, actions: seq<Action>, i: nat, j: nat, symbol: string)
    requires i < j < |actions| && s.throttle >= 0
    requires AcceptedAt(s, actions, i, symbol) && AcceptedAt(s, actions, j, symbol)
    ensures actions[j].now - actions[i].now >= s.throttle
  {
    var before := actions[..j];
    assert before[..i] == actions[..i] && before[i] == actions[i];
    LastIsLatest(s, before, i, symbol);
    RunKeepsSettings(s, before);
    hide TrimSpace, Run;
  }

  /** The reading kept for a symbol is that of some accepted quote of it. */
  lemma {:induction false} LastWasAccepted(s: State, actions: seq<Action>, symbol: string) returns (i: nat)
    requires symbol !in s.last && symbol in Run(s, actions).last
    ensures i < |actions| && AcceptedAt(s, actions, i, symbol) && Run(s, actions).last[symbol] == actions[i].now
  {
    var n := |actions| - 1;
    var before := actions[..n];
    if AcceptedAt(s, actions, n, symbol) {
      i := n;
    } else {
      hide TrimSpace, FanOut;
      i := LastWasAccepted(s, before, symbol);
      assert before[..i] == actions[..i] && before[i] == actions[i];
    }
  }

  /** A quote is accepted exactly when the hub is enabled, it has a symbol and a payload, and every accepted quote of
      the symbol before it is at least the throttle ago: once the throttle has passed nothing holds it up. */
  lemma QuoteAcceptedIff(s: State, actions: seq<Action>, j: nat, symbol: string)
    requires j < |actions| && s.throttle >= 0 && symbol !in s.last
    ensures AcceptedAt(s, actions, j, symbol) <==>
              && actions[j].Quote? && TrimSpace(actions[j].symbol) == symbol
              && s.enabled && symbol != "" && actions[j].payload != ""
              && forall i :: 0 <= i < j && AcceptedAt(s, actions, i, symbol) ==>
                    actions[j].now - actions[i].now >= s.throttle
  {
    var before := actions[..j];
    RunKeepsSettings(s, before);
    if AcceptedAt(s, actions, j, symbol) {
      forall i | 0 <= i < j && AcceptedAt(s, actions, i, symbol) ensures actions[j].now - actions[i].now >= s.throttle {
        QuotesAreApart(s, actions, i, j, symbol);
      }
    } else if symbol in Run(s, before).last {
      var i := LastWasAccepted(s, before, symbol);
      assert before[..i] == actions[..i] && before[i] == actions[i];
      assert AcceptedAt(s, actions, i, symbol);
    }
    hide TrimSpace, Run;
  }

  /** A symbol is what is left when the white space around it is cut off. */
  lemma {:induction false} TrimmedAround(s: string) returns (from: nat, to: nat)
    ensures from <= to <= |s| && TrimSpace(s) == s[from..to]
    ensures forall i :: 0 <= i < from || to <= i < |s| ==> IsSpace(s[i])
    ensures from < to ==> !IsSpace(s[from]) && !IsSpace(s[to - 1])
    decreases |s|
  {
    hide IsSpace;
    if s == "" {
      from, to := 0, 0;
    } else if IsSpace(s[0]) {
      var a, b := TrimmedAround(s[1..]);
      from, to := a + 1, b + 1;
      assert s[1..][a..b] == s[from..to];
      assert forall i :: 1 <= i < |s| ==> s[i] == s[1..][i - 1];
    } else if IsSpace(s[|s| - 1]) {
      from, to := TrimmedAround(s[..|s| - 1]);
      assert s[..|s| - 1][from..to] == s[from..to];
      assert forall i :: 0 <= i < |s| - 1 ==> s[i] == s[..|s| - 1][i];
    } else {
      from, to := 0, |s|;
    }
  }

  /* ------------------------------------------------------------------ what a subscriber gets */

  /** A message published while a channel was subscribed to its kind, and whether the channel was full just then. */
  datatype Offer = Offer(msg: Payload, full: bool)

  /** The message an action publishes to a channel, if any. */
  function OfferTo(s: State, a: Action, c: nat): seq<Offer>
    requires c in s.channels
  {
    var full := |s.channels[c].queue| >= s.channels[c].capacity;
    match a
    case Quote(symbol, payload, now) =>
      if AcceptsQuote(s, symbol, payload, now) && c in s.market then [Offer(payload, full)] else []
    case Trade(payload) =>
      if AcceptsAccount(s, payload) && c in s.account then [Offer(payload, full)] else []
    case _ => []
  }

  function Offers(s: State, actions: seq<Action>, c: nat): seq<Offer>
    requires c in s.channels
  {
    if actions == [] then []
    else
      var before := actions[..|actions| - 1];
      RunKeepsSettings(s, before);
      Offers(s, before, c) + OfferTo(Run(s, before), actions[|actions| - 1], c)
  }

  function NotFull(offers: seq<Offer>): seq<Payload> {
    if offers == [] then []
    else
      var o := offers[|offers| - 1];
      NotFull(offers[..|offers| - 1]) + (if o.full then [] else [o.msg])
  }

  /** Everything that ever got into a channel. */
  function History(c: Channel): seq<Payload> {
    c.taken + c.queue
  }

  lemma OfferedHistory(c: Channel, msg: Payload)
    ensures History(Offered(c, msg)) == History(c) + (if Full(c) then [] else [msg])
  {
  }

  lemma TakenHistory(c: Channel)
    requires c.queue != []
    ensures History(c.(queue := c.queue[1..], taken := c.taken + [c.queue[0]])) == History(c)
  {
    assert c.taken + [c.queue[0]] + c.queue[1..] == c.taken + ([c.queue[0]] + c.queue[1..]);
  }

  lemma SingleOffer(o: Offer)
    ensures NotFull([o]) == (if o.full then [] else [o.msg])
  {
    assert [o][..0] == [] && NotFull([]) == [];
  }

  lemma DoDelivers(s: State, a: Action, c: nat)
    requires c in s.channels && |s.channels[c].queue| <= s.channels[c].capacity
    ensures c in Do(s, a).channels
    ensures var before, after := s.channels[c], Do(s, a).channels[c];
            && after.capacity == before.capacity && |after.queue| <= after.capacity
            && History(after) == History(before) + NotFull(OfferTo(s, a, c))
  {
    hide TrimSpace, History, NotFull;
    var before := s.channels[c];
    assert NotFull([]) == [] by { NothingOffered(); }
    assert History(before) + [] == History(before);
    match a {
      case Quote(_, payload, _) =>
        OfferedHistory(before, payload);
        SingleOffer(Offer(payload, Full(before)));
      case Trade(payload) =>
        OfferedHistory(before, payload);
        SingleOffer(Offer(payload, Full(before)));
      case Take(_) =>
        if before.queue != [] {
          TakenHistory(before);
        }
      case _ =>
    }
  }

  lemma NothingOffered()
    ensures NotFull([]) == []
  {
  }

  lemma {:induction false} NotFullConcat(a: seq<Offer>, b: seq<Offer>)
    ensures NotFull(a + b) == NotFull(a) + NotFull(b)
    decreases |b|
  {
    if b == [] {
      assert a + b == a;
    } else {
      assert (a + b)[..|a + b| - 1] == a + b[..|b| - 1];
      NotFullConcat(a, b[..|b| - 1]);
    }
  }

  lemma LastAction(s: State, actions: seq<Action>, c: nat)
    requires actions != [] && c in s.channels
    ensures var before := actions[..|actions| - 1];
            && Run(s, actions) == Do(Run(s, before), actions[|actions| - 1])
            && c in Run(s, before).channels
            && Offers(s, actions, c) == Offers(s, before, c) + OfferTo(Run(s, before), actions[|actions| - 1], c)
  {
    hide Do, OfferTo;
    RunKeepsSettings(s, actions[..|actions| - 1]);
  }

  predicate HasRoom(c: Channel) {
    |c.queue| <= c.capacity
  }

  /** A subscriber receives, in order and once each, exactly the accepted messages of the kinds it was subscribed to
      when they were published, save those that found its buffer full. */
  lemma {:induction false} SubscriberGets(s: State, actions: seq<Action>, c: nat)
    requires c in s.channels && HasRoom(s.channels[c])
    ensures c in Run(s, actions).channels && HasRoom(Run(s, actions).channels[c])
    ensures History(Run(s, actions).channels[c]) == History(s.channels[c]) + NotFull(Offers(s, actions, c))
    decreases |actions|
  {
    if actions == [] {
      assert History(s.channels[c]) + [] == History(s.channels[c]);
    } else {
      var before := actions[..|actions| - 1];
      SubscriberGets(s, before, c);
      LastAction(s, actions, c);
      var t := Run(s, before);
      var a := actions[|actions| - 1];
      hide Run, Do, Offers, OfferTo, NotFull, History;
      DoDelivers(t, a, c);
      NotFullConcat(Offers(s, before, c), OfferTo(t, a, c));
      Regroup(History(s.channels[c]), NotFull(Offers(s, before, c)), NotFull(OfferTo(t, a, c)));
    }
  }

  lemma Regroup(a: seq<Payload>, b: seq<Payload>, c: seq<Payload>)
    ensures (a + b) + c == a + (b + c)
  {
  }
}
