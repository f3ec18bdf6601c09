/** The run lock: one shared key with an expiry, set if absent and deleted without looking at who set it
    (services/api/internal/workflow/lock.go). */
module Lock {
  /** When the key lapses, if it is set. */
  datatype Key = Absent | Until(time: nat) | Forever

  predicate Live(key: Key, now: nat) {
    match key
    case Absent => false
    case Until(time) => now < time
    case Forever => true
  }

  /** A time to live of zero means none. */
  function KeySetAt(time: nat, ttl: nat): Key {
    if ttl == 0 then Forever else Until(time + ttl)
  }

  /** SET NX with a time to live. */
  function SetIfAbsent(key: Key, now: nat, ttl: nat): (Key, bool) {
    if Live(key, now) then (key, false) else (KeySetAt(now, ttl), true)
  }

  class Store {
    var key: Key
    var now: nat

    constructor ()
      ensures key == Absent && now == 0
    {
      key, now := Absent, 0;
    }

    method Acquire(ttl: nat) returns (ok: bool)
      modifies this`key
      ensures (key, ok) == SetIfAbsent(old(key), now, ttl)
      ensures ok <==> !Live(old(key), now)
      ensures Live(key, now)
      ensures !ok ==> key == old(key)
    {
      ok := !Live(key, now);
      if ok {
        key := KeySetAt(now, ttl);
      }
    }

    method Elapse(seconds: nat)
      modifies this`now
      ensures now == old(now) + seconds
    {
      now := now + seconds;
    }

    method Unlock()
      modifies this`key
      ensures key == Absent
    {
      key := Absent;
    }
  }

  /* ------------------------------------------------------------------ many processes */

  /** `inside` maps each process in the locked section to the time it entered. */
  datatype State = State(key: Key, now: nat, inside: map<nat, nat>)

  datatype Action = Enter(p: nat) | Leave(p: nat) | Pass(seconds: nat)

  function Do(s: State, ttl: nat, a: Action): State {
    match a
    case Enter(p) =>
      var (key, ok) := SetIfAbsent(s.key, s.now, ttl);
      if p in s.inside || !ok then s else s.(key := key, inside := s.inside[p := s.now])
    case Leave(p) => if p in s.inside then s.(key := Absent, inside := s.inside - {p}) else s
    case Pass(d) => s.(now := s.now + d)
  }

  function Run(s: State, ttl: nat, actions: seq<Action>): State {
    if actions == [] then s else Do(Run(s, ttl, actions[..|actions| - 1]), ttl, actions[|actions| - 1])
  }

  const START := State(Absent, 0, map[])

  /** Nobody inside has been there for its time to live. */
  predicate OnTime(s: State, ttl: nat) {
    forall p :: p in s.inside ==> ttl == 0 || s.now < s.inside[p] + ttl
  }

  /** At every moment of the run everybody inside is on time. */
  predicate AlwaysOnTime(ttl: nat, actions: seq<Action>) {
    forall n :: 0 <= n <= |actions| ==> OnTime(Run(START, ttl, actions[..n]), ttl)
  }

  /** Whoever is inside set the key that is there now. */
  predicate Owned(s: State, ttl: nat) {
    forall p :: p in s.inside ==> s.key == KeySetAt(s.inside[p], ttl)
  }

  predicate AtMostOne(s: State) {
    forall p, q :: p in s.inside && q in s.inside ==> p == q
  }

  lemma {:induction false} OnTimeMeansOwned(ttl: nat, actions: seq<Action>)
    requires AlwaysOnTime(ttl, actions)
    ensures var s := Run(START, ttl, actions); Owned(s, ttl) && AtMostOne(s)
  {
    if actions != [] {
      var before := actions[..|actions| - 1];
      forall n | 0 <= n <= |before| ensures OnTime(Run(START, ttl, before[..n]), ttl) {
        assert before[..n] == actions[..n];
      }
      OnTimeMeansOwned(ttl, before);
      assert before[..|before|] == before;
    }
  }

  /** With any number of processes entering, leaving and being delayed in any order: if at every moment everybody inside
      is within its time to live, at most one process is inside. */
  lemma LockExcludes(ttl: nat, actions: seq<Action>, n: nat)
    requires AlwaysOnTime(ttl, actions) && n <= |actions|
    ensures AtMostOne(Run(START, ttl, actions[..n]))
  {
    forall m | 0 <= m <= n ensures OnTime(Run(START, ttl, actions[..n][..m]), ttl) {
      assert actions[..n][..m] == actions[..m];
    }
    OnTimeMeansOwned(ttl, actions[..n]);
  }

  /** While one process is inside on its own key, another gets in exactly when the first has overrun. */
  lemma SecondEntersIffOverrun(s: State, ttl: nat, p: nat, q: nat)
    requires Owned(s, ttl) && p in s.inside && q !in s.inside
    ensures q in Do(s, ttl, Enter(q)).inside <==> ttl > 0 && s.now >= s.inside[p] + ttl
    ensures q in Do(s, ttl, Enter(q)).inside ==> !AtMostOne(Do(s, ttl, Enter(q)))
  {
    var t := Do(s, ttl, Enter(q));
    assert p in t.inside;
  }

  /** One overrun is enough to break exclusion for those who are on time: the late process deletes the key of the one
      that replaced it, and a third gets in beside that one. */
  lemma LateReleaseFreesAnother(ttl: nat)
    requires ttl > 0
    ensures var s := Run(START, ttl, [Enter(1), Pass(ttl), Enter(2), Leave(1), Enter(3)]);
            OnTime(s, ttl) && 2 in s.inside && 3 in s.inside
  {
    var all := [Enter(1), Pass(ttl), Enter(2), Leave(1), Enter(3)];
    assert all[..4] == [Enter(1), Pass(ttl), Enter(2), Leave(1)];
    assert all[..4][..3] == [Enter(1), Pass(ttl), Enter(2)];
    assert all[..4][..3][..2] == [Enter(1), Pass(ttl)];
    assert all[..4][..3][..2][..1] == [Enter(1)];
    assert [Enter(1)][..0] == [];
    assert Run(START, ttl, [Enter(1)]) == State(Until(ttl), 0, map[1 := 0]);
    assert Run(START, ttl, [Enter(1), Pass(ttl)]) == State(Until(ttl), ttl, map[1 := 0]);
    assert Run(START, ttl, [Enter(1), Pass(ttl), Enter(2)]) == State(Until(ttl + ttl), ttl, map[1 := 0, 2 := ttl]);
    assert map[1 := 0, 2 := ttl] - {1} == map[2 := ttl];
    assert Run(START, ttl, [Enter(1), Pass(ttl), Enter(2), Leave(1)]) == State(Absent, ttl, map[2 := ttl]);
  }
}
