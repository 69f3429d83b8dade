/**
 * The vault's operations on its whole state (app.py:64-66, 90, 125-149,
 * 188-199, 204-229, 237-258, 268-279), as functions from the state before an
 * operation to the state after it and what the page reports. The methods of
 * App.SecureVault perform the same operations in place.
 */
module Vault {
  import opened Wrappers
  import opened Records
  import opened Guard
  import Selection

  /** The library calls the core relies on: `hash_passkey` (PBKDF2 with a
      fixed salt, deterministic) and Fernet decryption under the single global
      key, which yields None where Fernet raises InvalidToken. Fernet
      encryption draws a fresh IV and timestamp on every call, so the token it
      returns is an input of Store rather than a function of the plaintext. */
  datatype Engine = Engine(hashPasskey: string -> string, fernetDecrypt: string -> Option<string>)

  /** The module globals: `stored_data`, `users` and the two counters. */
  datatype State = State(storedData: seq<Entry>, users: map<string, string>, guard: Lockout)

  /** The state after an operation, and what the operation reports. */
  datatype Step<+O> = Step(state: State, out: O)

  /** What `decrypt_data` reports: the lockout, the plaintext, or a failure. */
  datatype RetrieveOutcome = Locked | Decrypted(text: string) | Failed

  datatype StoreOutcome = Stored | StoreMissingFields

  datatype SignUpOutcome = Created | SignUpMissingFields | PasswordMismatch | UsernameTaken

  datatype LoginOutcome = Granted | LoginLocked | WrongPassword | UnknownUser

  /** What the Retrieve page shows. */
  datatype RetrieveView =
    | PageLocked                       // the gate at the top of the page
    | NoEntries                        // `stored_data` is empty
    | MissingInput                     // no entry selected or empty passkey
    | ShowText(text: string)           // decryption succeeded
    | WaitMessage                      // decrypt_data itself reported the lockout
    | IncorrectPasskey(attemptsLeft: nat)

  /** The token is stored and its record holds the hash of `passkey`. */
  predicate PasskeyMatches(e: Engine, storedData: seq<Entry>, token: string, passkey: string): (matches: bool)
    ensures token !in Keys(storedData) ==> !matches
    ensures matches ==> exists i :: 0 <= i < |storedData| && storedData[i].key == token
                                    && storedData[i].value.passkey == e.hashPasskey(passkey)
  {
    var r := Lookup(storedData, token);
    r.Some? && r.value.passkey == e.hashPasskey(passkey)
  }

  /** For a stored entry, the passkey matches exactly when the entry's
      record holds `hash_passkey(passkey)`. */
  lemma PasskeyMatchesAt(e: Engine, storedData: seq<Entry>, i: nat, passkey: string)
    requires KeysDistinct(storedData) && i < |storedData|
    ensures PasskeyMatches(e, storedData, storedData[i].key, passkey)
            <==> storedData[i].value.passkey == e.hashPasskey(passkey)
  {
    LookupAt(storedData, i);
  }

  /** `decrypt_data(token, passkey)` at time `now`. */
  function Retrieve(e: Engine, s: State, token: string, passkey: string, now: int): (r: Step<RetrieveOutcome>)
    // it never touches the records or the accounts
    ensures r.state.storedData == s.storedData && r.state.users == s.users
    // the lockout gate comes first and changes nothing
    ensures r.out == Locked <==> IsLocked(s.guard, now)
    ensures r.out == Locked ==> r.state == s
    // success: matching hash and a token Fernet accepts; the counter is reset,
    // the recorded lockout end is left alone
    ensures r.out.Decrypted? <==>
              !IsLocked(s.guard, now) && PasskeyMatches(e, s.storedData, token, passkey)
              && e.fernetDecrypt(token).Some?
    ensures r.out.Decrypted? ==>
              && Some(r.out.text) == e.fernetDecrypt(token)
              && r.state.guard == Lockout(0, s.guard.lockoutUntil)
    // a matching hash over a token Fernet rejects: a failure that is not counted
    ensures (!IsLocked(s.guard, now) && PasskeyMatches(e, s.storedData, token, passkey)
             && e.fernetDecrypt(token).None?) ==> r == Step(s, Failed)
    // unknown token or wrong passkey: counted, and from the third one on a
    // 30-second lockout starts now
    ensures !IsLocked(s.guard, now) && !PasskeyMatches(e, s.storedData, token, passkey) ==>
              && r.out == Failed
              && r.state.guard.failedAttempts == s.guard.failedAttempts + 1
              && (r.state.guard.failedAttempts >= THRESHOLD ==>
                    r.state.guard.lockoutUntil == Some(now + LOCKOUT_DURATION))
              && (r.state.guard.failedAttempts < THRESHOLD ==>
                    r.state.guard.lockoutUntil == s.guard.lockoutUntil)
  {
    if IsLocked(s.guard, now) then Step(s, Locked)
    else if PasskeyMatches(e, s.storedData, token, passkey) then
      match e.fernetDecrypt(token)
      case Some(text) => Step(s.(guard := s.guard.(failedAttempts := 0)), Decrypted(text))
      case None => Step(s, Failed)
    else
      var failed := s.guard.failedAttempts + 1;
      var until := if failed >= THRESHOLD then Some(now + LOCKOUT_DURATION) else s.guard.lockoutUntil;
      Step(s.(guard := Lockout(failed, until)), Failed)
  }

  /** The "Store Data" button. `token` is what `encrypt_data(userData, passkey)`
      returned; `encrypt_data` ignores the passkey, so the passkey is only
      kept as a hash that gates retrieval. */
  function Store(e: Engine, s: State, title: string, userData: string, passkey: string, token: string): (r: Step<StoreOutcome>)
    requires KeysDistinct(s.storedData)
    ensures r.state.users == s.users && r.state.guard == s.guard
    ensures r.out == Stored <==> title != [] && userData != [] && passkey != []
    ensures r.out != Stored ==> r.state == s
    ensures KeysDistinct(r.state.storedData)
    ensures r.out == Stored ==>
              && Lookup(r.state.storedData, token) == Some(Record(title, token, e.hashPasskey(passkey)))
              && Keys(r.state.storedData) ==
                   if token in Keys(s.storedData) then Keys(s.storedData) else Keys(s.storedData) + [token]
    ensures r.out == Stored ==>
              forall k :: k != token ==> Lookup(r.state.storedData, k) == Lookup(s.storedData, k)
  {
    if title != [] && userData != [] && passkey != [] then
      var rec := Record(title, token, e.hashPasskey(passkey));
      var data := Put(s.storedData, token, rec);
      LookupPut(s.storedData, token, rec, token);
      forall k | k != token ensures Lookup(data, k) == Lookup(s.storedData, k) {
        LookupPut(s.storedData, token, rec, k);
      }
      Step(s.(storedData := data), Stored)
    else
      Step(s, StoreMissingFields)
  }

  /** The "Sign Up" button: all fields present, passwords equal, name free. */
  function SignUp(e: Engine, s: State, username: string, password: string, confirm: string): (r: Step<SignUpOutcome>)
    ensures r.state.storedData == s.storedData && r.state.guard == s.guard
    // the checks, in the order the page makes them
    ensures username == [] || password == [] || confirm == [] ==> r.out == SignUpMissingFields
    ensures username != [] && password != [] && confirm != [] && password != confirm ==>
              r.out == PasswordMismatch
    ensures (username != [] && password != [] && confirm != [] && password == confirm
             && username in s.users) ==> r.out == UsernameTaken
    ensures r.out == Created <==>
              username != [] && password != [] && confirm != [] && password == confirm
              && username !in s.users
    ensures r.out == Created ==> r.state.users == s.users[username := e.hashPasskey(password)]
    ensures r.out != Created ==> r.state == s
    // an existing account is never overwritten
    ensures forall u :: u in s.users ==> u in r.state.users && r.state.users[u] == s.users[u]
  {
    if username != [] && password != [] && confirm != [] then
      if password != confirm then Step(s, PasswordMismatch)
      else if username in s.users then Step(s, UsernameTaken)
      else Step(s.(users := s.users[username := e.hashPasskey(password)]), Created)
    else
      Step(s, SignUpMissingFields)
  }

  /** The "Login" page and button at time `now`. */
  function Login(e: Engine, s: State, username: string, password: string, now: int): (r: Step<LoginOutcome>)
    ensures r.state.storedData == s.storedData && r.state.users == s.users
    ensures r.out == LoginLocked <==> IsLocked(s.guard, now)
    ensures r.out == UnknownUser <==> !IsLocked(s.guard, now) && username !in s.users
    ensures r.out == LoginLocked || r.out == UnknownUser ==> r.state == s
    ensures r.out == Granted <==>
              !IsLocked(s.guard, now) && username in s.users && s.users[username] == e.hashPasskey(password)
    // a correct password clears both counters
    ensures r.out == Granted ==> r.state.guard == Lockout(0, None)
    // a wrong password is counted but never starts a lockout
    ensures r.out == WrongPassword ==>
              r.state.guard == Lockout(s.guard.failedAttempts + 1, s.guard.lockoutUntil)
    ensures forall t :: IsLocked(r.state.guard, t) ==> IsLocked(s.guard, t)
  {
    if IsLocked(s.guard, now) then Step(s, LoginLocked)
    else if username in s.users then
      if e.hashPasskey(password) == s.users[username] then Step(s.(guard := Lockout(0, None)), Granted)
      else Step(s.(guard := s.guard.(failedAttempts := s.guard.failedAttempts + 1)), WrongPassword)
    else
      Step(s, UnknownUser)
  }

  /** How the Retrieve page reports what `decrypt_data` did, told apart by
      the kind of outcome (not by comparing the returned text with "LOCKED"). */
  function OutcomeView(o: RetrieveOutcome, g: Lockout): (v: RetrieveView)
    ensures v == WaitMessage <==> o == Locked
    ensures v.ShowText? <==> o.Decrypted?
    ensures o.Decrypted? ==> v == ShowText(o.text)
    ensures o == Failed ==> v == IncorrectPasskey(AttemptsLeft(g.failedAttempts))
  {
    match o
    case Locked => WaitMessage
    case Decrypted(text) => ShowText(text)
    case Failed => IncorrectPasskey(AttemptsLeft(g.failedAttempts))
  }

  /** The Retrieve page at time `now` with label `selected` picked and
      `passkey` typed, after the Decrypt button is pressed. */
  function RetrievePage(e: Engine, s: State, selected: string, passkey: string, now: int): (r: Step<RetrieveView>)
    ensures r.state.storedData == s.storedData && r.state.users == s.users
    ensures IsLocked(s.guard, now) ==> r == Step(s, PageLocked)
    ensures !IsLocked(s.guard, now) && s.storedData == [] ==> r == Step(s, NoEntries)
    ensures r.out == MissingInput ==> r.state == s
    // no entry shown as `selected`, an empty key or an empty passkey:
    // "Missing data or passkey", nothing changes
    ensures (!IsLocked(s.guard, now) && s.storedData != []
             && (Selection.SelectKey(s.storedData, selected).None?
                 || Selection.SelectKey(s.storedData, selected).value == [] || passkey == [])) ==>
              r == Step(s, MissingInput)
    // the page checks the gate first, so decrypt_data never reports the lockout
    ensures r.out != WaitMessage
    ensures r.out.ShowText? ==>
              exists i :: 0 <= i < |s.storedData| && Selection.EntryLabel(s.storedData[i]) == selected
                          && Some(r.out.text) == e.fernetDecrypt(s.storedData[i].key)
    ensures (!IsLocked(s.guard, now) && s.storedData != [] && passkey != []
             && Selection.SelectKey(s.storedData, selected).Some?
             && Selection.SelectKey(s.storedData, selected).value != []) ==>
              var d := Retrieve(e, s, Selection.SelectKey(s.storedData, selected).value, passkey, now);
              r == Step(d.state, OutcomeView(d.out, d.state.guard))
  {
    if IsLocked(s.guard, now) then Step(s, PageLocked)
    else if s.storedData == [] then Step(s, NoEntries)
    else
      var key := Selection.SelectKey(s.storedData, selected);
      if key.None? || key.value == [] || passkey == [] then Step(s, MissingInput)
      else
        var d := Retrieve(e, s, key.value, passkey, now);
        Step(d.state, OutcomeView(d.out, d.state.guard))
  }
}
