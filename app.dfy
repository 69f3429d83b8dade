/**
 * The running app: the module globals of app.py (64-66, 90) as the fields of
 * one object, and the page actions as methods that update them in place.
 * Each method is proved to do exactly what the matching function of module
 * Vault says.
 */
module App {
  import opened Wrappers
  import opened Records
  import opened Guard
  import Vault
  import Selection

  class SecureVault {
    /** `hash_passkey` and the Fernet `cipher` built from the loaded key. */
    const engine: Vault.Engine
    /** `stored_data`: ciphertext token -> record, in insertion order. */
    var storedData: seq<Entry>
    /** `users`: username -> password hash. */
    var users: map<string, string>
    var failedAttempts: nat
    var lockoutUntil: Option<int>

    /** The fields, as one value. */
    function State(): Vault.State
      reads this
    {
      Vault.State(storedData, users, Lockout(failedAttempts, lockoutUntil))
    }

    ghost predicate Valid()
      reads this
    {
      KeysDistinct(storedData)
    }

    /** Start-up: the dicts `load_data` and `load_users` read, and clean
        counters (`failed_attempts = 0`, `lockout_until = None`). */
    constructor (engine: Vault.Engine, loadedData: seq<Entry>, loadedUsers: map<string, string>)
      requires KeysDistinct(loadedData)
      ensures Valid()
      ensures this.engine == engine
      ensures State() == Vault.State(loadedData, loadedUsers, Lockout(0, None))
    {
      this.engine := engine;
      storedData := loadedData;
      users := loadedUsers;
      failedAttempts := 0;
      lockoutUntil := None;
    }

    /** `decrypt_data(token, passkey)` at time `now`. */
    method DecryptData(token: string, passkey: string, now: int) returns (result: Vault.RetrieveOutcome)
      requires Valid()
      modifies this
      ensures Valid()
      ensures Vault.Step(State(), result) == Vault.Retrieve(engine, old(State()), token, passkey, now)
    {
      if lockoutUntil.Some? && now < lockoutUntil.value {
        return Vault.Locked;
      }
      var hashed := engine.hashPasskey(passkey);
      var rec := Lookup(storedData, token);
      if rec.Some? && rec.value.passkey == hashed {
        var decrypted := engine.fernetDecrypt(token);
        if decrypted.Some? {
          failedAttempts := 0;
          return Vault.Decrypted(decrypted.value);
        }
        return Vault.Failed;
      }
      failedAttempts := failedAttempts + 1;
      if failedAttempts >= THRESHOLD {
        lockoutUntil := Some(now + LOCKOUT_DURATION);
      }
      return Vault.Failed;
    }

    /** The "Encrypt & Save" button; `token` is the Fernet token produced
        for `userData`. */
    method StoreData(title: string, userData: string, passkey: string, token: string)
      returns (outcome: Vault.StoreOutcome)
      requires Valid()
      modifies this
      ensures Valid()
      ensures Vault.Step(State(), outcome) == Vault.Store(engine, old(State()), title, userData, passkey, token)
    {
      if title != [] && userData != [] && passkey != [] {
        var hashed := engine.hashPasskey(passkey);
        storedData := Put(storedData, token, Record(title, token, hashed));
        outcome := Vault.Stored;
      } else {
        outcome := Vault.StoreMissingFields;
      }
    }

    /** The "Sign Up" button. */
    method SignUp(username: string, password: string, confirm: string) returns (outcome: Vault.SignUpOutcome)
      requires Valid()
      modifies this
      ensures Valid()
      ensures Vault.Step(State(), outcome) == Vault.SignUp(engine, old(State()), username, password, confirm)
    {
      if username != [] && password != [] && confirm != [] {
        if password != confirm {
          outcome := Vault.PasswordMismatch;
        } else if username in users {
          outcome := Vault.UsernameTaken;
        } else {
          users := users[username := engine.hashPasskey(password)];
          outcome := Vault.Created;
        }
      } else {
        outcome := Vault.SignUpMissingFields;
      }
    }

    /** The Login page and its button at time `now`. */
    method Login(username: string, password: string, now: int) returns (outcome: Vault.LoginOutcome)
      requires Valid()
      modifies this
      ensures Valid()
      ensures Vault.Step(State(), outcome) == Vault.Login(engine, old(State()), username, password, now)
    {
      if lockoutUntil.Some? && now < lockoutUntil.value {
        return Vault.LoginLocked;
      }
      if username in users {
        if engine.hashPasskey(password) == users[username] {
          failedAttempts := 0;
          lockoutUntil := None;
          outcome := Vault.Granted;
        } else {
          failedAttempts := failedAttempts + 1;
          outcome := Vault.WrongPassword;
        }
      } else {
        outcome := Vault.UnknownUser;
      }
    }

    /** The Retrieve page at time `now`: label `selected` picked, `passkey`
        typed, Decrypt pressed. */
    method RetrievePage(selected: string, passkey: string, now: int) returns (view: Vault.RetrieveView)
      requires Valid()
      modifies this
      ensures Valid()
      ensures Vault.Step(State(), view) == Vault.RetrievePage(engine, old(State()), selected, passkey, now)
    {
      if lockoutUntil.Some? && now < lockoutUntil.value {
        return Vault.PageLocked;
      }
      if storedData == [] {
        return Vault.NoEntries;
      }
      var key := Selection.SelectKey(storedData, selected);
      if key.None? || key.value == [] || passkey == [] {
        return Vault.MissingInput;
      }
      var result := DecryptData(key.value, passkey, now);
      view := Vault.OutcomeView(result, Lockout(failedAttempts, lockoutUntil));
    }
  }
}
