/**
 * The start-up bootstrap of src/utils/create_admin_user.py: refuse to run
 * without the three ADMIN_* settings, otherwise open a session, create the
 * configured admin unless a user of that name exists, roll back a failed
 * commit, and close the session whatever happened.
 */
module AdminBootstrap {
  import opened Http
  import opened Tables
  import opened Models
  import opened Database
  import opened Credentials

  const AdminUsernameVar: string := "ADMIN_USERNAME"
  const AdminEmailVar: string := "ADMIN_EMAIL"
  const AdminPasswordVar: string := "ADMIN_PASSWORD"
  const MissingSettingsMessage: string :=
    "Missing required environment variables: ADMIN_USERNAME, ADMIN_EMAIL, ADMIN_PASSWORD"

  /** How `create_default_admin` ends: raised, or returned after one of three paths. */
  datatype Bootstrap =
    | EnvironmentError(message: string)
    | AlreadyExists
    | Created
    | RolledBack

  /** `os.getenv(name)` counted as given only when set and non-empty (`all([...])` on strings). */
  predicate Given(env: map<string, string>, name: string) {
    name in env && env[name] != ""
  }

  predicate SettingsComplete(env: map<string, string>) {
    Given(env, AdminUsernameVar) && Given(env, AdminEmailVar) && Given(env, AdminPasswordVar)
  }

  /** The admin row the bootstrap would add. */
  function ConfiguredAdmin(env: map<string, string>, crypto: Crypto): (u: User)
    requires SettingsComplete(env)
    ensures u.username == env[AdminUsernameVar] && u.email == Some(env[AdminEmailVar])
    ensures u.role == ADMIN && u.isActive && u.hashedPassword == crypto.hash(env[AdminPasswordVar])
  {
    NewUser(env[AdminUsernameVar], Some(env[AdminEmailVar]), crypto.hash(env[AdminPasswordVar]), Some(ADMIN))
  }

  /**
   * `create_default_admin`. `commitSucceeds` says whether the insert's commit
   * goes through; when it raises, the rollback leaves the store as it was and
   * the exception is swallowed.
   */
  function BootstrapOutcome(db: Db, env: map<string, string>, crypto: Crypto, commitSucceeds: bool): (o: (Db, Bootstrap))
    ensures !SettingsComplete(env) ==> o == (db, EnvironmentError(MissingSettingsMessage))
    ensures SettingsComplete(env) ==> !o.1.EnvironmentError?
    ensures o.1 == AlreadyExists <==> SettingsComplete(env) && FindUsername(db.users.rows, env[AdminUsernameVar]).Some?
    ensures o.1 == Created <==>
      SettingsComplete(env) && FindUsername(db.users.rows, env[AdminUsernameVar]).None? && commitSucceeds
    ensures o.1 != Created ==> o.0 == db
    ensures o.1 == Created ==>
      && o.0 == db.(users := o.0.users)
      && |o.0.users.rows| == |db.users.rows| + 1
      && o.0.users.rows[..|db.users.rows|] == db.users.rows
      && o.0.users.rows[|db.users.rows|] == Row(db.users.nextId, ConfiguredAdmin(env, crypto))
    ensures DbValid(db) ==> DbValid(o.0)
  {
    if !SettingsComplete(env) then (db, EnvironmentError(MissingSettingsMessage))
    else if FindUsername(db.users.rows, env[AdminUsernameVar]).Some? then (db, AlreadyExists)
    else if !commitSucceeds then (db, RolledBack)
    else
      var admin := ConfiguredAdmin(env, crypto);
      FreshUsernameKeepsUnique(db.users, admin);
      (db.(users := Insert(db.users, admin)), Created)
  }

  /**
   * Whatever the commits in between, running the bootstrap twice with the
   * same settings on a valid store leaves the configured admin there exactly
   * once when either run created it or found it.
   */
  lemma BootstrapIsIdempotent(db: Db, env: map<string, string>, crypto: Crypto, first: bool, second: bool)
    requires DbValid(db) && SettingsComplete(env)
    requires BootstrapOutcome(db, env, crypto, first).1 != RolledBack
    ensures var once := BootstrapOutcome(db, env, crypto, first).0;
      var twice := BootstrapOutcome(once, env, crypto, second);
      && twice == (once, AlreadyExists)
      && CountUsername(twice.0.users.rows, env[AdminUsernameVar]) == 1
  {
    var name := env[AdminUsernameVar];
    var once := BootstrapOutcome(db, env, crypto, first).0;
    var k: nat;
    if BootstrapOutcome(db, env, crypto, first).1 == Created {
      k := |db.users.rows|;
    } else {
      k := FindUsername(db.users.rows, name).value;
    }
    assert once.users.rows[k].fields.username == name;
    UniqueUsernameCount(once.users.rows, name);
  }

  /** The unit of work `get_session()` yields: what was added and not yet committed, and whether it is open. */
  class Session {
    const store: Store
    var isOpen: bool
    var pending: Option<User>

    constructor (store: Store)
      ensures this.store == store && isOpen && pending.None?
    {
      this.store := store;
      isOpen := true;
      pending := None;
    }

    /** `session.add(user)`. */
    method Add(user: User)
      requires isOpen
      modifies this
      ensures isOpen && pending == Some(user)
    {
      pending := Some(user);
    }

    /** `session.commit()`, which either inserts what was added or raises and inserts nothing. */
    method Commit(succeeds: bool) returns (committed: bool)
      requires isOpen
      modifies this, store
      ensures committed == succeeds && isOpen
      ensures succeeds && old(pending).Some? ==>
        store.Snapshot() == old(store.Snapshot()).(users := Insert(old(store.users), old(pending).value)) && pending.None?
      ensures !(succeeds && old(pending).Some?) ==> store.Snapshot() == old(store.Snapshot()) && pending == old(pending)
    {
      committed := succeeds;
      if succeeds && pending.Some? {
        store.users := Insert(store.users, pending.value);
        pending := None;
      }
    }

    /** `session.rollback()`: what was added is forgotten. */
    method Rollback()
      requires isOpen
      modifies this
      ensures isOpen && pending.None?
    {
      pending := None;
    }

    /** `session.close()`. */
    method Close()
      modifies this
      ensures !isOpen && pending.None?
    {
      isOpen := false;
      pending := None;
    }
  }

  /** `create_default_admin` on the store; `session` is the one it opened, if it got that far. */
  method CreateDefaultAdmin(store: Store, env: map<string, string>, crypto: Crypto, commitSucceeds: bool)
    returns (r: Bootstrap, session: Option<Session>)
    modifies store
    ensures var o := BootstrapOutcome(old(store.Snapshot()), env, crypto, commitSucceeds);
      store.Snapshot() == o.0 && r == o.1
    ensures session.None? <==> r.EnvironmentError?
    ensures session.Some? ==> fresh(session.value) && session.value.store == store
    ensures session.Some? ==> !session.value.isOpen && session.value.pending.None?
  {
    if !SettingsComplete(env) {
      return EnvironmentError(MissingSettingsMessage), None;
    }
    var s := new Session(store);
    session := Some(s);
    var existing := FindUsername(store.users.rows, env[AdminUsernameVar]);
    if existing.Some? {
      r := AlreadyExists;
    } else {
      s.Add(ConfiguredAdmin(env, crypto));
      var committed := s.Commit(commitSucceeds);
      if committed {
        r := Created;
      } else {
        s.Rollback();
        r := RolledBack;
      }
    }
    s.Close();
  }
}
