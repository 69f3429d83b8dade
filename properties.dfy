/**
 * Properties of the vault that span several operations: the three-strikes
 * lockout, its expiry, its reset by a success, and storing then retrieving.
 */
module Properties {
  import opened Wrappers
  import opened Records
  import opened Guard
  import opened Vault

  /** Three wrong passkeys in a row, starting from a clean counter, lock the
      vault: for the next 30 seconds every retrieval, even with the right
      passkey, is refused without being counted; from then on the right
      passkey decrypts again. */
  lemma ThreeStrikes(e: Engine, s: State, token: string, wrong: string, right: string,
                     t1: int, t2: int, t3: int, t4: int)
    requires s.guard.failedAttempts == 0 && !IsLocked(s.guard, t1)
    requires t1 <= t2 <= t3 <= t4
    requires !PasskeyMatches(e, s.storedData, token, wrong)
    ensures var s1 := Retrieve(e, s, token, wrong, t1).state;
            var s2 := Retrieve(e, s1, token, wrong, t2).state;
            var r3 := Retrieve(e, s2, token, wrong, t3);
            && r3.out == Failed
            && r3.state.guard == Lockout(THRESHOLD, Some(t3 + LOCKOUT_DURATION))
            && AttemptsLeft(r3.state.guard.failedAttempts) == 0
            && (t4 < t3 + LOCKOUT_DURATION ==>
                  Retrieve(e, r3.state, token, right, t4) == Step(r3.state, Locked))
            && (t4 >= t3 + LOCKOUT_DURATION && PasskeyMatches(e, s.storedData, token, right)
                && e.fernetDecrypt(token).Some? ==>
                  Retrieve(e, r3.state, token, right, t4).out == Decrypted(e.fernetDecrypt(token).value))
  {
    var r1 := Retrieve(e, s, token, wrong, t1);
    assert r1.state.guard == Lockout(1, s.guard.lockoutUntil);
    var r2 := Retrieve(e, r1.state, token, wrong, t2);
    assert r2.state.guard == Lockout(2, s.guard.lockoutUntil);
  }

  /** After a successful retrieval the counter is back to zero, so no single
      attempt that follows, right or wrong, can close the gate. */
  lemma SuccessResets(e: Engine, s: State, token: string, passkey: string, t1: int,
                      token2: string, passkey2: string, t2: int, t: int)
    requires Retrieve(e, s, token, passkey, t1).out.Decrypted?
    requires t1 <= t2 <= t
    ensures var s1 := Retrieve(e, s, token, passkey, t1).state;
            && s1.guard.failedAttempts == 0
            && !IsLocked(Retrieve(e, s1, token2, passkey2, t2).state.guard, t)
  {
  }

  /** A lockout that has run out is not cleared and the counter keeps its
      value, so the very next failure locks the vault again at once. */
  lemma RelockAfterExpiry(e: Engine, s: State, token: string, passkey: string, now: int, t: int)
    requires s.guard.failedAttempts >= THRESHOLD && !IsLocked(s.guard, now)
    requires !PasskeyMatches(e, s.storedData, token, passkey)
    requires now <= t < now + LOCKOUT_DURATION
    ensures IsLocked(Retrieve(e, s, token, passkey, now).state.guard, t)
  {
  }

  /** Storing a note and then asking for it: a wrong passkey is counted and
      leaves two attempts, the right one returns the note and clears the
      counter. `token` is the Fernet encryption of the note, so Fernet
      decrypts it back to the note. */
  lemma StoreThenRetrieve(e: Engine, s: State, title: string, note: string, passkey: string,
                          token: string, wrong: string, now: int)
    requires KeysDistinct(s.storedData)
    requires title != [] && note != [] && passkey != []
    requires e.fernetDecrypt(token) == Some(note)
    requires e.hashPasskey(wrong) != e.hashPasskey(passkey)
    requires s.guard.failedAttempts == 0 && !IsLocked(s.guard, now)
    ensures var stored := Store(e, s, title, note, passkey, token);
            var bad := Retrieve(e, stored.state, token, wrong, now);
            var good := Retrieve(e, bad.state, token, passkey, now);
            && stored.out == Stored
            && bad.out == Failed && AttemptsLeft(bad.state.guard.failedAttempts) == 2
            && good.out == Decrypted(note) && good.state.guard.failedAttempts == 0
            && good.state.storedData == stored.state.storedData
  {
    var stored := Store(e, s, title, note, passkey, token);
    assert Lookup(stored.state.storedData, token) == Some(Record(title, token, e.hashPasskey(passkey)));
  }
}
