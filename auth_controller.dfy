/** backend/src/controllers/AuthController.ts, `createAccount`: refuse an
    email that is already registered, build the user from the request
    body, replace its password by the hash and give it a fresh token, save
    it, then send the confirmation email. */
module AuthController {
  import opened Http
  import opened Users

  const EmailInUse := "Un usuario con ese email ya esta registrado"
  const ServerError := "Hubo un error"
  const AccountCreated := "Cuenta creada Correctamente"

  /** The request body fields the flow reads, unset when absent. */
  datatype SignupBody = SignupBody(id: Option<nat>, name: Option<string>, email: Option<string>, password: Option<string>,
                                   confirmed: Option<bool>)

  /** The confirmation email: to whom, and the code it carries. */
  datatype Mail = Mail(name: string, email: string, token: string)

  /** The users table, where its id sequence stands, and the mails sent so far. */
  datatype Store = Store(users: map<nat, User>, nextId: nat, outbox: seq<Mail>)

  /** The response: a status and a JSON body, or none when the handler
      rejects before its `try` block. */
  datatype Reply = Replied(status: int, body: Body) | NoReply

  /** Which collaborator calls reject: `findOne`, `hashPassword`, `save`,
      `sendConfirmationEmail`. */
  datatype Faults = Faults(lookupFails: bool, hashFails: bool, saveFails: bool, mailFails: bool)

  const NoFaults := Faults(false, false, false, false)

  /** `User.findOne({where: {email}})` finds a row. */
  predicate Registered(s: Store, email: string)
  {
    exists id :: id in s.users && s.users[id].email == email
  }

  /** Every row sits under its own id and fits its columns; no two rows
      share an email. The table does not enforce the last part:
      createAccount's check is all there is. */
  predicate Valid(s: Store)
  {
    && (forall id :: id in s.users ==> s.users[id].id == id && Storable(s.users[id]))
    && (forall i, j :: i in s.users && j in s.users && i != j ==> s.users[i].email != s.users[j].email)
  }

  /** `new User(req.body)` as written: every model attribute present in the
      body is assigned, the primary key and `confirmed` included. */
  function NewUserAsWritten(b: SignupBody): (d: Draft)
    ensures d.id == b.id && d.name == b.name && d.email == b.email && d.password == b.password
    ensures d.confirmed <==> b.confirmed == Some(true)
    ensures d.token.None?
  {
    Draft(b.id, b.name, b.password, b.email, None, if b.confirmed.Some? then b.confirmed.value else false)
  }

  /** The instance as it is evidently meant to be: the client sets neither
      the key nor `confirmed`, which keeps its column default. */
  function NewUser(b: SignupBody): (d: Draft)
    ensures d.id.None? && !d.confirmed && d.token.None?
    ensures d.name == b.name && d.email == b.email && d.password == b.password
  {
    Draft(None, b.name, b.password, b.email, None, false)
  }

  /** The instance once its password is replaced by the hash and its token assigned. */
  function Hashed(built: Draft, password: string, hash: string -> string, token: string): Draft
  {
    built.(password := Some(hash(password)), token := Some(token))
  }

  /** createAccount gets as far as storing the instance `built`: the email is
      given and free, every call up to the save succeeds, the row fits its
      columns, and its key is not taken. */
  predicate Inserts(s: Store, b: SignupBody, built: Draft, hash: string -> string, token: string, f: Faults)
  {
    && b.email.Some? && !f.lookupFails && !Registered(s, b.email.value)
    && b.password.Some? && !f.hashFails && !f.saveFails
    && Save(Hashed(built, b.password.value, hash, token), s.nextId).Some?
    && KeyOf(built, s.nextId) !in s.users
  }

  /** The flow once `new User(req.body)` has produced `built`. The email
      comes first: without one, or when the lookup rejects, nothing happens
      and nothing is answered; a taken one is 409. Past that check every
      failure is 500. The store changes exactly when the row is inserted:
      one row, under the instance's key, holding the hash, the token and
      the instance's `confirmed`; the id sequence advances only for a row
      without a key of its own. The mail goes out only after the insert,
      and a failed mail keeps the row. The store stays valid. */
  function Signup(s: Store, b: SignupBody, built: Draft, hash: string -> string, token: string, f: Faults): (r: (Store, Reply))
    requires built.email == b.email
    ensures r.1.NoReply? <==> b.email.None? || f.lookupFails
    ensures r.1 == Replied(409, ErrorBody(EmailInUse)) <==>
      b.email.Some? && !f.lookupFails && Registered(s, b.email.value)
    ensures r.1.Replied? ==> r.1.status in {200, 409, 500}
    ensures r.1 == Replied(500, ErrorBody(ServerError)) <==>
      b.email.Some? && !f.lookupFails && !Registered(s, b.email.value)
      && !(Inserts(s, b, built, hash, token, f) && !f.mailFails)
    ensures r.0 != s <==> Inserts(s, b, built, hash, token, f)
    ensures f.hashFails || f.saveFails ==> r.0 == s
    ensures Inserts(s, b, built, hash, token, f) ==>
      var k := KeyOf(built, s.nextId);
      && built.name.Some? && k in r.0.users && r.0.users == s.users[k := r.0.users[k]]
      && r.0.users[k] == User(k, built.name.value, hash(b.password.value), b.email.value, Some(token), built.confirmed)
      && r.0.nextId == (if built.id.Some? then s.nextId else s.nextId + 1)
    ensures r.1 == Replied(200, TextBody(AccountCreated)) <==> Inserts(s, b, built, hash, token, f) && !f.mailFails
    ensures Inserts(s, b, built, hash, token, f) && !f.mailFails ==>
      built.name.Some? && r.0.outbox == s.outbox + [Mail(built.name.value, b.email.value, token)]
    ensures !(Inserts(s, b, built, hash, token, f) && !f.mailFails) ==> r.0.outbox == s.outbox
    ensures Valid(s) ==> Valid(r.0)
  {
    if b.email.None? || f.lookupFails then (s, NoReply)
    else if Registered(s, b.email.value) then (s, Replied(409, ErrorBody(EmailInUse)))
    else if b.password.None? || f.hashFails then (s, Replied(500, ErrorBody(ServerError)))
    else
      var d := Hashed(built, b.password.value, hash, token);
      var k := KeyOf(d, s.nextId);
      var saved := Save(d, s.nextId);
      if saved.None? || k in s.users || f.saveFails then (s, Replied(500, ErrorBody(ServerError)))
      else
        var u := saved.value;
        var next := if d.id.Some? then s.nextId else s.nextId + 1;
        var s1 := s.(users := s.users[k := u], nextId := next);
        NewRowKeepsValid(s, k, u, next);
        assert s1.users != s.users by { assert k in s1.users && k !in s.users; }
        if f.mailFails then (s1, Replied(500, ErrorBody(ServerError)))
        else (s1.(outbox := s.outbox + [Mail(u.name, u.email, token)]), Replied(200, TextBody(AccountCreated)))
  }

  /** `createAccount` as written: the row it stores takes the key and the
      `confirmed` flag from the body when the body has them. */
  function CreateAccountAsWritten(s: Store, b: SignupBody, hash: string -> string, token: string, f: Faults): (r: (Store, Reply))
    ensures r.0 != s <==> Inserts(s, b, NewUserAsWritten(b), hash, token, f)
    ensures r.0 != s ==>
      var k := if b.id.Some? then b.id.value else s.nextId;
      k in r.0.users && (r.0.users[k].confirmed <==> b.confirmed == Some(true))
    ensures r.1 == Replied(409, ErrorBody(EmailInUse)) <==>
      b.email.Some? && !f.lookupFails && Registered(s, b.email.value)
    ensures Valid(s) ==> Valid(r.0)
  {
    Signup(s, b, NewUserAsWritten(b), hash, token, f)
  }

  /** `createAccount` as it is evidently meant to be: the new row always
      takes the next id and starts unconfirmed. */
  function CreateAccountIntended(s: Store, b: SignupBody, hash: string -> string, token: string, f: Faults): (r: (Store, Reply))
    ensures r.0 != s <==> Inserts(s, b, NewUser(b), hash, token, f)
    ensures r.0 != s ==>
      && s.nextId in r.0.users && r.0.users == s.users[s.nextId := r.0.users[s.nextId]]
      && r.0.nextId == s.nextId + 1 && !r.0.users[s.nextId].confirmed
    ensures r.1 == Replied(409, ErrorBody(EmailInUse)) <==>
      b.email.Some? && !f.lookupFails && Registered(s, b.email.value)
    ensures Valid(s) ==> Valid(r.0)
  {
    Signup(s, b, NewUser(b), hash, token, f)
  }

  /** Storing a fitting row, under its own free key, whose email is not
      registered keeps a valid table valid. */
  lemma NewRowKeepsValid(s: Store, k: nat, u: User, next: nat)
    requires k !in s.users && u.id == k && Storable(u) && !Registered(s, u.email)
    ensures Valid(s) ==> Valid(s.(users := s.users[k := u], nextId := next))
  {
    if Valid(s) {
      var t := s.(users := s.users[k := u], nextId := next);
      forall i, j | i in t.users && j in t.users && i != j
        ensures t.users[i].email != t.users[j].email
      {
        if i == k {
          assert t.users[j] == s.users[j];
        } else if j == k {
          assert t.users[i] == s.users[i];
        }
      }
    }
  }

  /** After a successful signup, a second one with the same email, whatever
      the rest of its body, is refused with 409. */
  lemma NoDuplicateAfterSecondSignup(s: Store, b1: SignupBody, b2: SignupBody, hash: string -> string, t1: string, t2: string,
                                     f1: Faults, f2: Faults)
    requires b1.email == b2.email && !f2.lookupFails
    requires CreateAccountAsWritten(s, b1, hash, t1, f1).1 == Replied(200, TextBody(AccountCreated))
    ensures CreateAccountAsWritten(CreateAccountAsWritten(s, b1, hash, t1, f1).0, b2, hash, t2, f2).1 ==
      Replied(409, ErrorBody(EmailInUse))
  {
    var built := NewUserAsWritten(b1);
    var s1 := CreateAccountAsWritten(s, b1, hash, t1, f1).0;
    var k := KeyOf(built, s.nextId);
    assert s1.users[k].email == b2.email.value;
  }

  /** What the flow answers for the test's body on an empty store: the 200
      that `res.json` sends by default, not the 201 the integration test
      expects. */
  lemma FirstSignupAnswers200(hash: string -> string, token: string)
    requires |hash("12345678")| <= PasswordWidth && |token| <= TokenWidth
    ensures CreateAccountAsWritten(Store(map[], 1, []), SignupBody(None, Some("Juan"), Some("test@test.com"), Some("12345678"), None),
                                   hash, token, NoFaults).1 == Replied(200, TextBody(AccountCreated))
  {
    assert !Registered(Store(map[], 1, []), "test@test.com");
  }

  /** As written, a body with `"confirmed": true` stores a confirmed user,
      skipping the email confirmation. */
  lemma SignupConfirmsItself()
    ensures var b := SignupBody(None, Some("Juan"), Some("test@test.com"), Some("12345678"), Some(true));
      var r := CreateAccountAsWritten(Store(map[], 1, []), b, _ => "hash", "123456", NoFaults);
      1 in r.0.users && r.0.users[1].confirmed
  {
    var s := Store(map[], 1, []);
    assert !Registered(s, "test@test.com");
  }

  /** As written, a body with an `id` of its own takes that key, and the
      sequence does not move: the next signup without one collides with it
      and is answered 500. */
  lemma ChosenIdBlocksNextSignup()
    ensures var s := Store(map[], 1, []);
      var first := CreateAccountAsWritten(s, SignupBody(Some(1), Some("Ana"), Some("ana@test.com"), Some("12345678"), None),
                                          _ => "hash", "123456", NoFaults);
      var second := CreateAccountAsWritten(first.0, SignupBody(None, Some("Juan"), Some("test@test.com"), Some("12345678"), None),
                                           _ => "hash", "654321", NoFaults);
      && first.1 == Replied(200, TextBody(AccountCreated))
      && second.1 == Replied(500, ErrorBody(ServerError))
  {
    var s := Store(map[], 1, []);
    assert !Registered(s, "ana@test.com");
    var first := CreateAccountAsWritten(s, SignupBody(Some(1), Some("Ana"), Some("ana@test.com"), Some("12345678"), None),
                                        _ => "hash", "123456", NoFaults);
    assert first.0.users == map[1 := User(1, "Ana", "hash", "ana@test.com", Some("123456"), false)];
    assert !Registered(first.0, "test@test.com") by {
      forall id | id in first.0.users ensures first.0.users[id].email != "test@test.com" {
        assert id == 1;
      }
    }
  }

  /** The intended flow never lets a signup pick its key: ids keep below
      the sequence, so an insert never collides. */
  lemma IntendedKeysBelowSequence(s: Store, b: SignupBody, hash: string -> string, token: string, f: Faults)
    requires forall id :: id in s.users ==> id < s.nextId
    ensures KeyOf(NewUser(b), s.nextId) !in s.users
    ensures var r := CreateAccountIntended(s, b, hash, token, f);
      forall id :: id in r.0.users ==> id < r.0.nextId
  {
  }

  /** The accounts backend createAccount works on. */
  class Accounts {
    var users: map<nat, User>
    var nextId: nat
    var outbox: seq<Mail>

    constructor ()
      ensures users == map[] && nextId == 1 && outbox == []
      ensures Valid(State())
    {
      users := map[];
      nextId := 1;
      outbox := [];
    }

    function State(): Store
      reads this
    {
      Store(users, nextId, outbox)
    }

    /** `createAccount`, step by step: look the email up, build the user
        from the body, assign its password hash and token in place, save
        it, send the mail. */
    method CreateAccount(body: SignupBody, hash: string -> string, token: string, faults: Faults) returns (reply: Reply)
      modifies this
      ensures (State(), reply) == CreateAccountAsWritten(old(State()), body, hash, token, faults)
      ensures old(Valid(State())) ==> Valid(State())
    {
      if body.email.None? || faults.lookupFails {
        return NoReply;
      }
      if Registered(State(), body.email.value) {
        return Replied(409, ErrorBody(EmailInUse));
      }
      var user := NewUserAsWritten(body);
      if body.password.None? || faults.hashFails {
        return Replied(500, ErrorBody(ServerError));
      }
      user := user.(password := Some(hash(body.password.value)));
      user := user.(token := Some(token));
      var key := KeyOf(user, nextId);
      var saved := Save(user, nextId);
      if saved.None? || key in users || faults.saveFails {
        return Replied(500, ErrorBody(ServerError));
      }
      users := users[key := saved.value];
      if user.id.None? {
        nextId := nextId + 1;
      }
      if faults.mailFails {
        return Replied(500, ErrorBody(ServerError));
      }
      outbox := outbox + [Mail(saved.value.name, saved.value.email, token)];
      reply := Replied(200, TextBody(AccountCreated));
    }
  }
}
