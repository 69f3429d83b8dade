# Secure vault: access control and stores

A Dafny model of the core of a small personal vault (a Streamlit app,
`app.py`). The vault keeps secret notes under a passkey and keeps user
accounts. Its core is a small state machine over four module globals:

- `stored_data`: the records, each keyed by its own Fernet ciphertext token and
  holding `{title, encrypted_text, passkey-hash}`;
- `users`: username to password hash;
- `failed_attempts` and `lockout_until`: one failure counter and one lockout
  end, shared by record retrieval and login.

The model has these parts:

- `Records`: the insertion-ordered dict `stored_data`. It covers lookup and
  assignment (`Put`, which keeps a key's place when it is overwritten).
- `Guard`: the lockout counters, the gate test `now < lockout_until`, the
  attempts-left display and the consistency invariant.
- `Selection`: the Retrieve page's label list and the mapping from a chosen
  label back to a key.
- `Vault`: every operation as a function from state to `(state, outcome)`.
  It covers `decrypt_data` (`Retrieve`), the Store, Sign Up and Login buttons
  and the Retrieve page.
- `App.SecureVault`: the globals as fields of one object. Its methods update
  them in place and are proved equal to the `Vault` functions.
- `Properties`: scenario lemmas that span several operations.
- `Runs`: invariants over any sequence of page actions.
- `Findings`: the "LOCKED" sentinel issue described below.

External calls are parameters:

- `hash_passkey` (PBKDF2) and Fernet decryption are function-valued fields of
  `Vault.Engine`. Decryption returns `None` where Fernet raises `InvalidToken`.
- Fernet encryption picks a fresh IV and timestamp on every call. Its output
  token is therefore an input of Store.
- `datetime.now()` is an integer `now`, in seconds.

The model keeps these behaviours of `app.py` as written:

- A matching passkey whose token Fernet rejects returns a failure but is not
  counted.
- A login with an unknown username changes nothing.
- A wrong login password is counted but never sets `lockout_until`.
- Store and Sign Up are not gated by the lockout.
- An expired lockout is not cleared. The counter keeps its value, so the next
  failed retrieval locks the vault again at once.

## Model

| member | source | states |
|---|---|---|
| `Records.Keys` | app.py:209 | the dict's keys, one per entry, in insertion order |
| `Records.Lookup` | app.py:136-137 | absent exactly when the key is not among the keys; when present, the value of an entry with that key |
| `Records.IndexOf` | app.py:191 | the position of the first entry with the key, or the end of the dict when the key is absent |
| `Records.Put` | app.py:191-195 | `stored_data[k] = v`: the key keeps its place when present and is appended otherwise; every other entry keeps its position and value; keys stay distinct |
| `Records.LookupPut` | app.py:191-195 | after assignment, `k` gives `v` and every other key gives what it gave before |
| `Records.LookupAt` | app.py:136-137 | with distinct keys, each entry's key looks up that entry's value |
| `Selection.KeyPrefix` | app.py:209 | `k[:10]` is a prefix of `k` of length `min(10, len(k))` |
| `Selection.EntryLabel` | app.py:209 | the label `"{title} - {key[:10]}..."` of one entry: it starts with the title, and its length is the title's plus the key prefix's plus six |
| `Selection.SameTitleLabels` | app.py:209-212 | two entries with the same title get the same label exactly when their keys agree on the first ten characters |
| `Selection.ShadowedEntry` | app.py:209-214 | an entry sharing the title and the first ten key characters with an earlier entry is never selected by its own label |
| `Selection.Options` | app.py:209 | one label `"{title} - {key[:10]}..."` per entry, in insertion order |
| `Selection.FirstShownAs` | app.py:211-214 | the index of the first entry whose label equals the choice; no earlier entry has that label |
| `Selection.SelectKey` | app.py:211-214 | `None` exactly when no option equals the choice; otherwise the key of the first entry in insertion order whose label equals it |
| `Selection.SelectOwnLabel` | app.py:209-214 | picking entry i's label yields entry i's key if and only if no earlier entry shows the same label |
| `Selection.LabelCollision` | app.py:209-214 | two same-titled entries whose tokens share ten leading characters: the later one's label leads to the earlier key |
| `Guard.IsLocked` | app.py:132 | the gate `lockout_until and now < lockout_until`: closed exactly while a lockout end is recorded and not yet reached (also at app.py:204 and 237) |
| `Guard.AttemptsLeft` | app.py:228 | `max(0, 3 - failed_attempts)`: at most 3, zero exactly when at least 3 failures are recorded |
| `Guard.ConsistentLater` | app.py:132 | counter consistency is kept as the clock advances (lazy expiry) |
| `Guard.LockoutBounded` | app.py:146-148 | in a consistent state the gate opens within 30 s; while it is closed, attempts-left is 0 |
| `Vault.PasskeyMatches` | app.py:136-138 | never true for an absent token; when true, an entry with that key holds `hash_passkey(passkey)` |
| `Vault.PasskeyMatchesAt` | app.py:136-138 | for a stored entry, the passkey matches exactly when its record holds `hash_passkey(passkey)` |
| `Vault.Retrieve` | app.py:125-149 | `decrypt_data`. While locked: `Locked`, state unchanged. Decrypted exactly when unlocked, the hash matches and Fernet accepts; the counter is then 0 and the lockout end is kept. A rejected token fails uncounted. A missing token or wrong hash adds exactly 1, and at 3 or more sets the lockout end to now+30. Records and users are never changed |
| `Vault.Store` | app.py:187-199 | stored exactly when title, data and passkey are all non-empty. The token then maps to `{title, token, hash(passkey)}`; every other key is unchanged; keys grow by at most the token. Otherwise nothing changes |
| `Vault.SignUp` | app.py:267-279 | checks in order: empty field, password mismatch, name taken. Creates the account with `hash(password)` only when all three pass; every rejection leaves state unchanged; existing accounts are never overwritten |
| `Vault.Login` | app.py:235-258 | refused exactly while locked. A correct password clears the counter and the lockout. A wrong password adds 1 and keeps the lockout end. An unknown user changes nothing. Login never closes the gate |
| `Vault.OutcomeView` | app.py:220-229 | reports by outcome kind: the wait message exactly for the lockout, the text exactly for a decryption, attempts-left for a failure |
| `Vault.RetrievePage` | app.py:201-233 | gate first, then empty store. Then "missing data or passkey", with nothing changed, when no entry carries the chosen label, its key is empty or the passkey is empty. Otherwise `decrypt_data` runs on the selected key and its outcome is shown by kind (`Vault.OutcomeView`, the corrected view of the Findings row). Because the page has already passed the gate, `decrypt_data`'s own lockout never reaches it. Any text shown is the decryption of an entry carrying the chosen label |
| `Properties.ThreeStrikes` | app.py:132-148 | three wrong passkeys from a clean counter lock for 30 s. In that window even the right passkey is refused without being counted; afterwards it decrypts |
| `Properties.SuccessResets` | app.py:139-148 | after a success the counter is 0, so no single following attempt can close the gate |
| `Properties.RelockAfterExpiry` | app.py:132-148 | with 3 or more failures on record and the lockout expired, one more failure locks for the next 30 s |
| `Properties.StoreThenRetrieve` | app.py:121-149 | store a note, then a wrong passkey fails with 2 attempts left, then the right one returns the note and zeroes the counter |
| `Runs.Apply` | app.py:181-279 | each page action keeps the record keys distinct |
| `Runs.Run` | app.py:64-66 | a sequence of page actions keeps the record keys distinct |
| `Runs.RetrieveKeepsConsistent` | app.py:132-148 | `decrypt_data` at a later time keeps the counters consistent with the clock |
| `Runs.PageKeepsConsistent` | app.py:204-229 | the Retrieve page at a later time keeps the counters consistent with the clock |
| `Runs.LoginKeepsConsistent` | app.py:237-258 | a login at a later time keeps the counters consistent with the clock |
| `Runs.ApplyKeepsConsistent` | app.py:132-148 | every page action keeps the counters consistent with a non-decreasing clock |
| `Runs.RunKeepsConsistent` | app.py:65-66 | along any run with a non-decreasing clock: locked only with 3 or more failures recorded, and every lockout ends within 30 s of the last action |
| `Runs.RunKeepsAccounts` | app.py:271-275 | along any run, an existing account keeps its password hash |
| `Runs.RunKeepsEntries` | app.py:191 | along any run, the starting record keys are a prefix of the final keys |
| `App.SecureVault.constructor` | app.py:64-108 | the loaded dicts with the counters at 0 and no lockout |
| `App.SecureVault.DecryptData` | app.py:125-149 | updates the fields in place exactly as `Vault.Retrieve` and returns its outcome |
| `App.SecureVault.StoreData` | app.py:187-199 | updates `stored_data` in place exactly as `Vault.Store`; keys stay distinct |
| `App.SecureVault.SignUp` | app.py:267-279 | updates `users` in place exactly as `Vault.SignUp` |
| `App.SecureVault.Login` | app.py:235-258 | updates the counters in place exactly as `Vault.Login` |
| `App.SecureVault.RetrievePage` | app.py:201-233 | the Retrieve page in place, exactly as `Vault.RetrievePage` (outcome shown by kind, the corrected view) |
| `Findings.Returned` | app.py:125-149 | the Python value `decrypt_data` returns: `"LOCKED"` for the lockout, the plaintext for a decryption, `None` exactly for a failure |
| `Findings.ViewAsWritten` | app.py:220-229 | the page as written. "LOCKED" gives the wait message, or the TypeError exactly when `lockout_until` is None. Any other string is shown as text. None gives `max(0, 3 - failed_attempts)` attempts left |
| `Findings.ReturnedNotInjective` | app.py:133-142 | the lockout and a decrypted "LOCKED" note return the same value |
| `Findings.LockedNoteMisread` | app.py:220-222 | a "LOCKED" note retrieved with its right passkey is decrypted but never shown by the page as written; with no lockout recorded, the page raises TypeError; `Vault.OutcomeView` shows it |

## Findings

| source | as written | input that shows it | evidently intended | confidence | as-written member | corrected member |
|---|---|---|---|---|---|---|
| app.py:133, 220-222 | the page separates a lockout from a plaintext by testing `result == "LOCKED"`, and in that branch computes `lockout_until - datetime.now()` | store a note whose text is `LOCKED`, then retrieve it with its passkey while no lockout is recorded | show the decrypted note | high (not executed) | `Findings.LockedNoteMisread` | `Vault.OutcomeView` |

## Left out

- Streamlit rendering: page setup, background image, titles, menus, widgets, messages, the displayed countdown and download buttons. These are presentation only.
- `session_state` navigation and `st.rerun` after a login. These are UI control flow.
- Streamlit re-running the module on each interaction, which resets the globals. The model keeps the state across actions, as the functions assume.
- File persistence (`load_key`, `load_data`, `save_data`, `load_users`, `save_users`). This is I/O. The constructor takes the loaded dicts, and each save is a no-op.
- PBKDF2 and Fernet internals. These are foreign library calls and stay opaque: no round trip, no collision resistance and no token format is proved. `StoreThenRetrieve` takes the Fernet round trip for one token as a hypothesis.
- `encrypt_data` has no member of its own. It ignores its passkey and returns a fresh random token, so Store takes that token as an input.
- `Vault.RetrievePage`, `App.SecureVault.RetrievePage`: report `decrypt_data`'s outcome by its kind, the corrected view of the Findings row. The page as written is `Findings.ViewAsWritten(Findings.Returned(..))`. It shows the wait message, or raises TypeError when no lockout is recorded, for a decrypted note whose text is "LOCKED". The corrected page shows that note.
- Time is whole seconds read once per action. `decrypt_data` reads the clock twice, at lines 132 and 148; the model uses one `now` for both reads.
- The "Too many failed attempts!" warning after a login (app.py:259-260) is a message only and changes no state.
