/**
 * The Retrieve page as written tells the lockout apart from a plaintext by
 * comparing the value `decrypt_data` returns with the string "LOCKED"
 * (app.py:133, 220-222). A note whose text is exactly "LOCKED" is therefore
 * reported as a lockout, and when no lockout is recorded (none ever started,
 * or a successful login cleared it) the page then subtracts the clock from
 * `None`, which raises TypeError. The rest of the
 * model reports outcomes by their kind instead (Vault.OutcomeView).
 */
module Findings {
  import opened Wrappers
  import opened Records
  import opened Guard
  import opened Vault

  /** The Python value `decrypt_data` returns for an outcome. */
  function Returned(o: RetrieveOutcome): (v: Option<string>)
    ensures v.None? <==> o == Failed
    ensures o == Locked ==> v == Some("LOCKED")
    ensures o.Decrypted? ==> v == Some(o.text)
  {
    match o
    case Locked => Some("LOCKED")
    case Decrypted(text) => Some(text)
    case Failed => None
  }

  /** What the page, as written, does with a returned value. */
  datatype PageAsWritten = Wait | TypeErrorRaised | Text(text: string) | Incorrect(attemptsLeft: nat)

  /** app.py:220-229 as written: `result == "LOCKED"` first (and, in that
      branch, `lockout_until - now`), then any other string, then None. */
  function ViewAsWritten(ret: Option<string>, g: Lockout): (v: PageAsWritten)
    ensures v.Text? ==> ret == Some(v.text) && v.text != "LOCKED"
    ensures ret == Some("LOCKED") ==> v == Wait || v == TypeErrorRaised
    ensures ret == Some("LOCKED") ==> (v == TypeErrorRaised <==> g.lockoutUntil.None?)
    ensures ret.Some? && ret.value != "LOCKED" ==> v == Text(ret.value)
    ensures ret.None? ==> v == Incorrect(AttemptsLeft(g.failedAttempts))
  {
    if ret == Some("LOCKED") then
      if g.lockoutUntil.None? then TypeErrorRaised else Wait
    else if ret.Some? then Text(ret.value)
    else Incorrect(AttemptsLeft(g.failedAttempts))
  }

  /** Distinct outcomes collapse to one returned value. */
  lemma ReturnedNotInjective()
    ensures Returned(Locked) == Returned(Decrypted("LOCKED"))
  {
  }

  /** Retrieving a note whose text is "LOCKED" with its right passkey
      succeeds, yet the page as written never shows it, and crashes when
      no lockout is recorded; the kind-based view shows it. */
  lemma LockedNoteMisread(e: Engine, s: State, token: string, passkey: string, now: int)
    requires !IsLocked(s.guard, now) && PasskeyMatches(e, s.storedData, token, passkey)
    requires e.fernetDecrypt(token) == Some("LOCKED")
    ensures var d := Retrieve(e, s, token, passkey, now);
            && d.out == Decrypted("LOCKED")
            && ViewAsWritten(Returned(d.out), d.state.guard) != Text("LOCKED")
            && (s.guard.lockoutUntil.None? ==>
                  ViewAsWritten(Returned(d.out), d.state.guard) == TypeErrorRaised)
            && OutcomeView(d.out, d.state.guard) == ShowText("LOCKED")
  {
  }
}
