/**
 * `POST /admin/create-admin` (src/controllers/routes/admin.py): the `role`
 * column gate comes first, then a lookup by username only, then the insert
 * of an ADMIN user.
 */
module AdminRoutes {
  import opened Http
  import opened Tables
  import opened Models
  import opened Database
  import opened Gates
  import opened Credentials
  import opened UserRoutes

  const CreatedStatus: int := 201
  const AdminExists: HttpError := HttpError(BadRequest, "Username or email already exists")

  /** The response: its status code and its JSON body. */
  datatype AdminCreated = AdminCreated(status: int, message: string, user: string)

  function CreateAdminOutcome(db: Db, caller: Caller, input: UserCreate, crypto: Crypto): (o: Outcome<AdminCreated>)
    ensures caller.user.role != ADMIN ==> o == Outcome(db, Err(AdminsOnly))
    ensures caller.user.role == ADMIN && FindUsername(db.users.rows, input.username).Some? ==>
      o == Outcome(db, Err(AdminExists))
    ensures o.result.Ok? <==> caller.user.role == ADMIN && FindUsername(db.users.rows, input.username).None?
    ensures o.result.Ok? ==>
      && o.result.value == AdminCreated(CreatedStatus, "Admin account created successfully", input.username)
      && o.db == db.(users := o.db.users)
      && |o.db.users.rows| == |db.users.rows| + 1
      && o.db.users.rows[..|db.users.rows|] == db.users.rows
      && o.db.users.rows[|db.users.rows|].id == db.users.nextId
      && o.db.users.rows[|db.users.rows|].fields == NewUser(input.username, input.email, crypto.hash(input.password), Some(ADMIN))
    ensures DbValid(db) ==> DbValid(o.db)
  {
    if RoleGate(caller).Err? then Outcome(db, Err(AdminsOnly))
    else if FindUsername(db.users.rows, input.username).Some? then Outcome(db, Err(AdminExists))
    else
      var admin := NewUser(input.username, input.email, crypto.hash(input.password), Some(ADMIN));
      FreshUsernameKeepsUnique(db.users, admin);
      Outcome(db.(users := Insert(db.users, admin)), Ok(AdminCreated(CreatedStatus, "Admin account created successfully", input.username)))
  }

  method CreateAdminUser(store: Store, caller: Caller, input: UserCreate, crypto: Crypto) returns (r: Result<AdminCreated>)
    modifies store
    ensures var o := CreateAdminOutcome(old(store.Snapshot()), caller, input, crypto);
      store.Snapshot() == o.db && r == o.result
  {
    var gate := RoleGate(caller);
    if gate.Err? {
      return Err(gate.error);
    }
    var existing := FindUsername(store.users.rows, input.username);
    if existing.Some? {
      return Err(AdminExists);
    }
    var admin := NewUser(input.username, input.email, crypto.hash(input.password), Some(ADMIN));
    store.users := Insert(store.users, admin);
    r := Ok(AdminCreated(CreatedStatus, "Admin account created successfully", admin.username));
  }

  /** Despite its message, the existence check ignores the email: a taken email does not stop the insert. */
  lemma CreateAdminAllowsDuplicateEmail(db: Db, caller: Caller, input: UserCreate, crypto: Crypto, k: nat)
    requires caller.user.role == ADMIN
    requires FindUsername(db.users.rows, input.username).None?
    requires input.email.Some? && k < |db.users.rows| && db.users.rows[k].fields.email == input.email
    ensures CreateAdminOutcome(db, caller, input, crypto).result.Ok?
    ensures !EmailsUnique(CreateAdminOutcome(db, caller, input, crypto).db.users.rows)
  {
    var users := CreateAdminOutcome(db, caller, input, crypto).db.users.rows;
    assert users[k] == db.users.rows[k];
    assert users[|db.users.rows|].fields.email == input.email;
  }
}
