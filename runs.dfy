/**
 * Any sequence of page actions, applied one after another to the shared
 * state, with a clock that never goes backwards. What holds along every such
 * run: the lockout counters stay consistent (a lockout only holds with three
 * failures on record and ends at most 30 seconds after the last action),
 * accounts are never changed once created, and stored entries keep their
 * keys and their order.
 */
module Runs {
  import opened Wrappers
  import opened Records
  import opened Guard
  import opened Vault

  /** One action on one of the pages. */
  datatype Op =
    | DoStore(title: string, userData: string, passkey: string, token: string)
    | DoRetrieve(selected: string, passkey: string, now: int)
    | DoLogin(username: string, password: string, now: int)
    | DoSignUp(username: string, password: string, confirm: string)

  function Apply(e: Engine, s: State, op: Op): (s': State)
    requires KeysDistinct(s.storedData)
    ensures KeysDistinct(s'.storedData)
  {
    match op
    case DoStore(title, userData, passkey, token) => Store(e, s, title, userData, passkey, token).state
    case DoRetrieve(selected, passkey, now) => RetrievePage(e, s, selected, passkey, now).state
    case DoLogin(username, password, now) => Login(e, s, username, password, now).state
    case DoSignUp(username, password, confirm) => SignUp(e, s, username, password, confirm).state
  }

  /** The clock after `op`, when it was `t` before. */
  function ClockAfter(op: Op, t: int): int {
    if op.DoRetrieve? || op.DoLogin? then op.now else t
  }

  /** The actions read a clock that never goes backwards, starting from `t`. */
  predicate InOrder(ops: seq<Op>, t: int) {
    ops == [] || (t <= ClockAfter(ops[0], t) && InOrder(ops[1..], ClockAfter(ops[0], t)))
  }

  function LastClock(ops: seq<Op>, t: int): int {
    if ops == [] then t else LastClock(ops[1..], ClockAfter(ops[0], t))
  }

  function Run(e: Engine, s: State, ops: seq<Op>): (s': State)
    requires KeysDistinct(s.storedData)
    ensures KeysDistinct(s'.storedData)
    decreases |ops|
  {
    if ops == [] then s else Run(e, Apply(e, s, ops[0]), ops[1..])
  }

  /** `decrypt_data` keeps the counters consistent with the clock. */
  lemma RetrieveKeepsConsistent(e: Engine, s: State, token: string, passkey: string, now: int, t: int)
    requires Consistent(s.guard, t) && t <= now
    ensures Consistent(Retrieve(e, s, token, passkey, now).state.guard, now)
  {
    ConsistentLater(s.guard, t, now);
  }

  /** The Retrieve page keeps the counters consistent with the clock. */
  lemma PageKeepsConsistent(e: Engine, s: State, selected: string, passkey: string, now: int, t: int)
    requires Consistent(s.guard, t) && t <= now
    ensures Consistent(RetrievePage(e, s, selected, passkey, now).state.guard, now)
  {
    ConsistentLater(s.guard, t, now);
    if !IsLocked(s.guard, now) && s.storedData != [] {
      var key := Selection.SelectKey(s.storedData, selected);
      if key.Some? && key.value != [] && passkey != [] {
        RetrieveKeepsConsistent(e, s, key.value, passkey, now, t);
      }
    }
  }

  /** A login keeps the counters consistent with the clock. */
  lemma LoginKeepsConsistent(e: Engine, s: State, username: string, password: string, now: int, t: int)
    requires Consistent(s.guard, t) && t <= now
    ensures Consistent(Login(e, s, username, password, now).state.guard, now)
  {
    ConsistentLater(s.guard, t, now);
  }

  /** One action keeps the counters consistent with the clock. */
  lemma ApplyKeepsConsistent(e: Engine, s: State, op: Op, t: int)
    requires KeysDistinct(s.storedData)
    requires Consistent(s.guard, t) && t <= ClockAfter(op, t)
    ensures Consistent(Apply(e, s, op).guard, ClockAfter(op, t))
  {
    match op
    case DoRetrieve(selected, passkey, now) => PageKeepsConsistent(e, s, selected, passkey, now, t);
    case DoLogin(username, password, now) => LoginKeepsConsistent(e, s, username, password, now, t);
    case DoStore(title, userData, passkey, token) =>
    case DoSignUp(username, password, confirm) =>
  }

  /** Along any run with a clock that never goes backwards, the gate is
      closed only while three failures are on record, and every lockout ends
      within 30 seconds of the last action. */
  lemma {:induction false} RunKeepsConsistent(e: Engine, s: State, ops: seq<Op>, t: int)
    requires KeysDistinct(s.storedData)
    requires Consistent(s.guard, t) && InOrder(ops, t)
    ensures Consistent(Run(e, s, ops).guard, LastClock(ops, t))
    decreases |ops|
  {
    if ops != [] {
      ApplyKeepsConsistent(e, s, ops[0], t);
      RunKeepsConsistent(e, Apply(e, s, ops[0]), ops[1..], ClockAfter(ops[0], t));
    }
  }

  /** Along any run, an account, once present, keeps its password hash. */
  lemma {:induction false} RunKeepsAccounts(e: Engine, s: State, ops: seq<Op>, u: string)
    requires KeysDistinct(s.storedData)
    requires u in s.users
    ensures u in Run(e, s, ops).users && Run(e, s, ops).users[u] == s.users[u]
    decreases |ops|
  {
    if ops != [] {
      RunKeepsAccounts(e, Apply(e, s, ops[0]), ops[1..], u);
    }
  }

  /** Along any run, entries are never removed or reordered: the keys at the
      start are a prefix of the keys at the end. */
  lemma {:induction false} RunKeepsEntries(e: Engine, s: State, ops: seq<Op>)
    requires KeysDistinct(s.storedData)
    ensures Keys(s.storedData) <= Keys(Run(e, s, ops).storedData)
    decreases |ops|
  {
    if ops != [] {
      RunKeepsEntries(e, Apply(e, s, ops[0]), ops[1..]);
    }
  }
}
