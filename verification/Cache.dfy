/** The broker cache: account and positions kept for a while, dropped by a successful order
    (services/api/internal/broker/cache.go). */
module Cache {
  import opened Common

  type Account = real
  type Positions = seq<(string, real)>

  /** What the inner client did, with the clock reading taken once its reply was in. */
  datatype Event =
    | GotAccount(account: Account, at: int)
    | GotPositions(positions: Positions, at: int)
    | Ordered(ok: bool)
    | Failed

  datatype State = State(account: Option<Account>, accountExpiry: int, positions: Positions, posExpiry: int,
        posOk: bool, log: seq<Event>)

  /** One call with its clock readings, before and after asking the inner client, and the inner client's reply. */
  datatype Call =
    | GetAccount(now: int, after: int, account: Option<Account>)
    | ListPositions(now: int, after: int, positions: Option<Positions>)
    | SubmitOrder(ok: bool)

  const COLD := State(None, 0, [], 0, false, [])

  predicate AccountHit(s: State, now: int) {
    s.account.Some? && now < s.accountExpiry
  }

  predicate PositionsHit(s: State, now: int) {
    s.posOk && now < s.posExpiry
  }

  function Do(s: State, ttl: int, c: Call): State {
    match c
    case GetAccount(now, after, reply) =>
      if AccountHit(s, now) then s
      else if reply.None? then s.(log := s.log + [Failed])
      else s.(account := reply, accountExpiry := after + ttl, log := s.log + [GotAccount(reply.value, after)])
    case ListPositions(now, after, reply) =>
      if PositionsHit(s, now) then s
      else if reply.None? then s.(log := s.log + [Failed])
      else s.(positions := reply.value, posExpiry := after + ttl, posOk := true,
            log := s.log + [GotPositions(reply.value, after)])
    case SubmitOrder(ok) =>
      if ok then COLD.(log := s.log + [Ordered(true)]) else s.(log := s.log + [Ordered(false)])
  }

  function Run(ttl: int, calls: seq<Call>): State {
    if calls == [] then COLD else Do(Run(ttl, calls[..|calls| - 1]), ttl, calls[|calls| - 1])
  }

  /** What a call returns for the account; None is an error. */
  function AccountReturned(s: State, c: Call): Option<Account>
    requires c.GetAccount?
  {
    if AccountHit(s, c.now) then s.account else c.account
  }

  function PositionsReturned(s: State, c: Call): Option<Positions>
    requires c.ListPositions?
  {
    if PositionsHit(s, c.now) then Some(s.positions) else c.positions
  }

  class CachedClient {
    const ttl: int
    var account: Option<Account>
    var accountExpiry: int
    var positions: Positions
    var posExpiry: int
    var posOk: bool
    ghost var log: seq<Event>

    ghost function View(): State
      reads this
    {
      State(account, accountExpiry, positions, posExpiry, posOk, log)
    }

    constructor (ttl: int)
      ensures this.ttl == ttl && View() == COLD
    {
      this.ttl := ttl;
      account, accountExpiry, positions, posExpiry, posOk, log := None, 0, [], 0, false, [];
    }

    method ReadAccount(now: int, after: int, reply: Option<Account>) returns (r: Option<Account>)
      modifies this
      ensures View() == Do(old(View()), ttl, GetAccount(now, after, reply))
      ensures r == AccountReturned(old(View()), GetAccount(now, after, reply))
      ensures r.None? ==> View().(log := old(log)) == old(View())
    {
      if account.Some? && now < accountExpiry {
        return account;
      }
      if reply.None? {
        log := log + [Failed];
        return None;
      }
      account := reply;
      accountExpiry := after + ttl;
      log := log + [GotAccount(reply.value, after)];
      r := reply;
    }

    method ReadPositions(now: int, after: int, reply: Option<Positions>) returns (r: Option<Positions>)
      modifies this
      ensures View() == Do(old(View()), ttl, ListPositions(now, after, reply))
      ensures r == PositionsReturned(old(View()), ListPositions(now, after, reply))
      ensures r.None? ==> View().(log := old(log)) == old(View())
    {
      if posOk && now < posExpiry {
        return Some(positions);
      }
      if reply.None? {
        log := log + [Failed];
        return None;
      }
      positions := reply.value;
      posExpiry := after + ttl;
      posOk := true;
      log := log + [GotPositions(reply.value, after)];
      r := reply;
    }

    method Submit(ok: bool)
      modifies this
      ensures View() == Do(old(View()), ttl, SubmitOrder(ok))
    {
      log := log + [Ordered(ok)];
      if ok {
        Invalidate();
      }
    }

    method Invalidate()
      modifies this`account, this`accountExpiry, this`positions, this`posExpiry, this`posOk
      ensures View() == COLD.(log := log)
    {
      account, accountExpiry, positions, posExpiry, posOk := None, 0, [], 0, false;
    }
  }

  /* ------------------------------------------------------------------ what a caller may rely on */

  /** No order has succeeded since entry `i` of the log. */
  predicate NoOrderSince(log: seq<Event>, i: nat) {
    forall k :: i <= k < |log| ==> log[k] != Ordered(true)
  }

  /** The inner client returned this account at `at`, and no order has succeeded since. */
  predicate AccountSince(log: seq<Event>, account: Account, at: int) {
    exists i :: 0 <= i < |log| && log[i] == GotAccount(account, at) && NoOrderSince(log, i)
  }

  predicate PositionsSince(log: seq<Event>, positions: Positions, at: int) {
    exists i :: 0 <= i < |log| && log[i] == GotPositions(positions, at) && NoOrderSince(log, i)
  }

  /** What is cached was fetched one time to live before it expires. */
  predicate Backed(s: State, ttl: int) {
    && (s.account.Some? ==> AccountSince(s.log, s.account.value, s.accountExpiry - ttl))
    && (s.posOk ==> PositionsSince(s.log, s.positions, s.posExpiry - ttl))
  }

  lemma SinceStays(log: seq<Event>, e: Event, account: Account, positions: Positions, at: int)
    requires e != Ordered(true)
    ensures AccountSince(log, account, at) ==> AccountSince(log + [e], account, at)
    ensures PositionsSince(log, positions, at) ==> PositionsSince(log + [e], positions, at)
  {
    if AccountSince(log, account, at) {
      var i :| 0 <= i < |log| && log[i] == GotAccount(account, at) && NoOrderSince(log, i);
      assert (log + [e])[i] == log[i] && NoOrderSince(log + [e], i);
    }
    if PositionsSince(log, positions, at) {
      var i :| 0 <= i < |log| && log[i] == GotPositions(positions, at) && NoOrderSince(log, i);
      assert (log + [e])[i] == log[i] && NoOrderSince(log + [e], i);
    }
  }

  lemma JustGot(log: seq<Event>, e: Event)
    requires e != Ordered(true)
    ensures e.GotAccount? ==> AccountSince(log + [e], e.account, e.at)
    ensures e.GotPositions? ==> PositionsSince(log + [e], e.positions, e.at)
  {
    assert (log + [e])[|log|] == e && NoOrderSince(log + [e], |log|);
  }

  lemma DoKeepsBacked(s: State, ttl: int, c: Call)
    requires Backed(s, ttl)
    ensures Backed(Do(s, ttl, c), ttl)
  {
    var after := Do(s, ttl, c);
    if after.log != s.log && c != SubmitOrder(true) {
      var e := after.log[|s.log|];
      assert after.log == s.log + [e];
      JustGot(s.log, e);
      SinceStays(s.log, e, s.account.GetOr(0.0), [], s.accountExpiry - ttl);
      SinceStays(s.log, e, 0.0, s.positions, s.posExpiry - ttl);
    }
    hide AccountSince, PositionsSince;
  }

  lemma {:induction false} RunKeepsBacked(ttl: int, calls: seq<Call>)
    ensures Backed(Run(ttl, calls), ttl)
  {
    if calls != [] {
      RunKeepsBacked(ttl, calls[..|calls| - 1]);
      DoKeepsBacked(Run(ttl, calls[..|calls| - 1]), ttl, calls[|calls| - 1]);
    }
  }

  /** The clock readings of calls, in the order they are taken. */
  predicate ClockGoesOn(calls: seq<Call>) {
    && (forall i :: 0 <= i < |calls| && !calls[i].SubmitOrder? ==> calls[i].now <= calls[i].after)
    && (forall i, j :: 0 <= i < j < |calls| && !calls[i].SubmitOrder? && !calls[j].SubmitOrder? ==>
          calls[i].after <= calls[j].now)
  }

  lemma {:induction false} FetchedBefore(ttl: int, calls: seq<Call>, now: int, k: nat)
    requires k < |Run(ttl, calls).log|
    requires ClockGoesOn(calls) && forall i :: 0 <= i < |calls| && !calls[i].SubmitOrder? ==> calls[i].after <= now
    ensures var e := Run(ttl, calls).log[k]; e.GotAccount? || e.GotPositions? ==> e.at <= now
  {
    if calls != [] {
      var before := calls[..|calls| - 1];
      if k < |Run(ttl, before).log| {
        FetchedBefore(ttl, before, now, k);
      }
    }
  }

  /** Over any serial calls with a clock that does not go back, an account that is returned was returned by the inner
      client in this very call, or less than the time to live ago and after the last successful order. */
  lemma AccountIsCurrent(ttl: int, calls: seq<Call>, c: Call)
    requires c.GetAccount? && ClockGoesOn(calls + [c])
    requires AccountReturned(Run(ttl, calls), c).Some?
    ensures var v := AccountReturned(Run(ttl, calls), c).value;
            || Do(Run(ttl, calls), ttl, c).log == Run(ttl, calls).log + [GotAccount(v, c.after)]
            || exists at :: at <= c.now < at + ttl && AccountSince(Run(ttl, calls).log, v, at)
  {
    var s := Run(ttl, calls);
    RunKeepsBacked(ttl, calls);
    if AccountHit(s, c.now) {
      var at := s.accountExpiry - ttl;
      var k :| 0 <= k < |s.log| && s.log[k] == GotAccount(s.account.value, at) && NoOrderSince(s.log, k);
      Earlier(calls, c);
      FetchedBefore(ttl, calls, c.now, k);
    }
  }

  /** The same for positions. */
  lemma PositionsAreCurrent(ttl: int, calls: seq<Call>, c: Call)
    requires c.ListPositions? && ClockGoesOn(calls + [c])
    requires PositionsReturned(Run(ttl, calls), c).Some?
    ensures var v := PositionsReturned(Run(ttl, calls), c).value;
            || Do(Run(ttl, calls), ttl, c).log == Run(ttl, calls).log + [GotPositions(v, c.after)]
            || exists at :: at <= c.now < at + ttl && PositionsSince(Run(ttl, calls).log, v, at)
  {
    var s := Run(ttl, calls);
    RunKeepsBacked(ttl, calls);
    if PositionsHit(s, c.now) {
      var at := s.posExpiry - ttl;
      var k :| 0 <= k < |s.log| && s.log[k] == GotPositions(s.positions, at) && NoOrderSince(s.log, k);
      Earlier(calls, c);
      FetchedBefore(ttl, calls, c.now, k);
    }
  }

  lemma Earlier(calls: seq<Call>, c: Call)
    requires ClockGoesOn(calls + [c]) && !c.SubmitOrder?
    ensures ClockGoesOn(calls) && forall i :: 0 <= i < |calls| && !calls[i].SubmitOrder? ==> calls[i].after <= c.now
  {
    var all := calls + [c];
    assert all[|calls|] == c;
    assert forall i :: 0 <= i < |calls| ==> all[i] == calls[i];
  }

  /* ------------------------------------------------------------------ what the inner client is spared */

  /** Entry `i` is the last account fetched, and no order has succeeded since. */
  predicate LastAccount(log: seq<Event>, i: nat) {
    i < |log| && log[i].GotAccount? && NoOrderSince(log, i) && forall k :: i < k < |log| ==> !log[k].GotAccount?
  }

  predicate LastPositions(log: seq<Event>, i: nat) {
    i < |log| && log[i].GotPositions? && NoOrderSince(log, i) && forall k :: i < k < |log| ==> !log[k].GotPositions?
  }

  lemma LastBefore(s: State, ttl: int, c: Call, i: nat)
    requires i < |s.log|
    ensures LastAccount(Do(s, ttl, c).log, i) ==> LastAccount(s.log, i)
    ensures LastPositions(Do(s, ttl, c).log, i) ==> LastPositions(s.log, i)
  {
    var log := Do(s, ttl, c).log;
    assert |s.log| <= |log| && forall k :: 0 <= k < |s.log| ==> log[k] == s.log[k];
  }

  /** The last account fetched is kept, for the time to live after it was fetched; likewise positions. */
  lemma {:induction false} LastIsKept(ttl: int, calls: seq<Call>, i: nat)
    ensures var s := Run(ttl, calls);
            && (LastAccount(s.log, i) ==> s.account == Some(s.log[i].account) && s.accountExpiry == s.log[i].at + ttl)
            && (LastPositions(s.log, i) ==>
                  s.posOk && s.positions == s.log[i].positions && s.posExpiry == s.log[i].at + ttl)
  {
    if calls != [] {
      var before, c := Run(ttl, calls[..|calls| - 1]), calls[|calls| - 1];
      var s := Do(before, ttl, c);
      LastIsKept(ttl, calls[..|calls| - 1], i);
      if i < |before.log| {
        LastBefore(before, ttl, c, i);
        if |s.log| > |before.log| {
          assert LastAccount(s.log, i) ==> s.log[|before.log|] != Ordered(true) && !s.log[|before.log|].GotAccount?;
          assert LastPositions(s.log, i) ==> s.log[|before.log|] != Ordered(true) && !s.log[|before.log|].GotPositions?;
        }
      }
    }
  }

  /** An account fetched less than the time to live ago, with no order since, is returned without asking the inner
      client. */
  lemma FreshAccountIsReturned(ttl: int, calls: seq<Call>, c: Call, i: nat)
    requires c.GetAccount? && LastAccount(Run(ttl, calls).log, i) && c.now < Run(ttl, calls).log[i].at + ttl
    ensures AccountReturned(Run(ttl, calls), c) == Some(Run(ttl, calls).log[i].account)
    ensures Do(Run(ttl, calls), ttl, c) == Run(ttl, calls)
  {
    LastIsKept(ttl, calls, i);
    hide Run, LastAccount;
  }

  /** Likewise positions. */
  lemma FreshPositionsAreReturned(ttl: int, calls: seq<Call>, c: Call, i: nat)
    requires c.ListPositions? && LastPositions(Run(ttl, calls).log, i) && c.now < Run(ttl, calls).log[i].at + ttl
    ensures PositionsReturned(Run(ttl, calls), c) == Some(Run(ttl, calls).log[i].positions)
    ensures Do(Run(ttl, calls), ttl, c) == Run(ttl, calls)
  {
    LastIsKept(ttl, calls, i);
    hide Run, LastPositions;
  }

  /** A stale or missing account is fetched: the inner client's reply is what is returned.  Likewise positions. */
  lemma StaleIsFetched(ttl: int, calls: seq<Call>, c: Call)
    ensures c.GetAccount?
            && (forall i: nat :: LastAccount(Run(ttl, calls).log, i) ==> Run(ttl, calls).log[i].at + ttl <= c.now) ==>
              AccountReturned(Run(ttl, calls), c) == c.account
    ensures c.ListPositions?
            && (forall i: nat :: LastPositions(Run(ttl, calls).log, i) ==> Run(ttl, calls).log[i].at + ttl <= c.now) ==>
              PositionsReturned(Run(ttl, calls), c) == c.positions
  {
    var s := Run(ttl, calls);
    if c.GetAccount? && AccountHit(s, c.now) {
      var i := KeptWasLast(ttl, calls, true);
      LastIsKept(ttl, calls, i);
    }
    if c.ListPositions? && PositionsHit(s, c.now) {
      var i := KeptWasLast(ttl, calls, false);
      LastIsKept(ttl, calls, i);
    }
    hide Run, LastAccount, LastPositions;
  }

  /** What is kept was the last fetched of its kind. */
  lemma {:induction false} KeptWasLast(ttl: int, calls: seq<Call>, account: bool) returns (i: nat)
    requires if account then Run(ttl, calls).account.Some? else Run(ttl, calls).posOk
    ensures if account then LastAccount(Run(ttl, calls).log, i) else LastPositions(Run(ttl, calls).log, i)
  {
    var before, c := Run(ttl, calls[..|calls| - 1]), calls[|calls| - 1];
    var s := Do(before, ttl, c);
    var n := |before.log|;
    if |s.log| > n && (if account then s.log[n].GotAccount? else s.log[n].GotPositions?) {
      i := |before.log|;
    } else {
      i := KeptWasLast(ttl, calls[..|calls| - 1], account);
      assert forall k :: 0 <= k < |before.log| ==> s.log[k] == before.log[k];
    }
  }
}
