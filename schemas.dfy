/** frontend/src/schemas/index.ts: the Zod schemas the forms and actions
    parse with. A parse reports every issue it finds: an object reports its
    keys' issues in the order the schema lists them, a string runs all its
    checks, and an object `refine` runs once every key has the right type,
    even if their checks failed. The email format check is a parameter. */
module Schemas {
  import opened Http

  /** A parsed JavaScript value. */
  datatype Value =
    | Undefined
    | Null
    | Bool(b: bool)
    | Num(n: real)
    | Str(s: string)
    | Arr(items: seq<Value>)
    | Obj(fields: map<string, Value>)

  datatype Kind = KUndefined | KNull | KBoolean | KNumber | KString | KArray | KObject

  function KindOf(v: Value): Kind
  {
    match v
    case Undefined => KUndefined
    case Null => KNull
    case Bool(_) => KBoolean
    case Num(_) => KNumber
    case Str(_) => KString
    case Arr(_) => KArray
    case Obj(_) => KObject
  }

  /** An issue's message: one the schema gives, Zod's invalid-type message
      ("Required" when the value is undefined), or Zod's default for a
      failed `.email()`. */
  datatype Message = Custom(text: string) | InvalidType(expected: Kind, received: Kind) | DefaultInvalidEmail

  datatype Issue = Issue(path: seq<string>, message: Message)

  const EmailRequired := "El email es obligatorio"
  const EmailInvalid := "Email no valido"
  const NameRequired := "Tu nombre no puede ir vacio"
  const PasswordShort := "El password es muy corto, mínimo son 8 caracteres"
  const PasswordsDiffer := "Los passwords no son iguales"
  const LoginEmailRequired := "El Email es Obligatorio"
  const LoginEmailInvalid := "Email no válido"
  const PasswordRequired := "El Password no puede ir vacio"
  const TokenInvalid := "Token no válido"

  /** The checks a `z.string()` chain carries. */
  datatype StringCheck =
    | MinLength(n: nat, msg: Message)
    | MaxLength(n: nat, msg: Message)
    | Length(n: nat, msg: Message)
    | IsEmail(msg: Message)

  predicate Passes(c: StringCheck, s: string, isEmail: string -> bool)
  {
    match c
    case MinLength(n, _) => |s| >= n
    case MaxLength(n, _) => |s| <= n
    case Length(n, _) => |s| == n
    case IsEmail(_) => isEmail(s)
  }

  /** All checks run, in order; each failing one reports its message. */
  function CheckIssues(path: seq<string>, s: string, checks: seq<StringCheck>, isEmail: string -> bool): (r: seq<Issue>)
    ensures r == [] <==> forall k :: 0 <= k < |checks| ==> Passes(checks[k], s, isEmail)
    ensures forall k :: 0 <= k < |checks| && !Passes(checks[k], s, isEmail) ==> Issue(path, checks[k].msg) in r
    ensures forall e :: e in r ==> e.path == path
    ensures |r| <= |checks|
  {
    if checks == [] then []
    else
      var rest := CheckIssues(path, s, checks[1..], isEmail);
      assert forall k :: 1 <= k < |checks| ==> checks[k] == checks[1..][k - 1];
      (if Passes(checks[0], s, isEmail) then [] else [Issue(path, checks[0].msg)]) + rest
  }

  /** Conversely, every issue of a string chain is the message of a check
      that fails. */
  lemma {:induction false} CheckIssuesOnlyFailing(path: seq<string>, s: string, checks: seq<StringCheck>, isEmail: string -> bool)
    ensures forall e :: e in CheckIssues(path, s, checks, isEmail) ==>
      exists k :: 0 <= k < |checks| && !Passes(checks[k], s, isEmail) && e.message == checks[k].msg
    decreases |checks|
  {
    if checks != [] {
      CheckIssuesOnlyFailing(path, s, checks[1..], isEmail);
      assert forall k :: 1 <= k < |checks| ==> checks[k] == checks[1..][k - 1];
    }
  }

  /** The issues a one-check chain reports on a string value. */
  lemma OneCheck(path: seq<string>, v: Value, c: StringCheck, isEmail: string -> bool)
    ensures v.Str? ==>
      CheckIssues(path, v.s, [c], isEmail) == if Passes(c, v.s, isEmail) then [] else [Issue(path, c.msg)]
  {
    assert [c][1..] == [];
  }

  /** The issues a two-check chain reports on a string value, in order. */
  lemma TwoChecks(path: seq<string>, v: Value, c0: StringCheck, c1: StringCheck, isEmail: string -> bool)
    ensures v.Str? ==>
      CheckIssues(path, v.s, [c0, c1], isEmail) ==
      (if Passes(c0, v.s, isEmail) then [] else [Issue(path, c0.msg)])
      + (if Passes(c1, v.s, isEmail) then [] else [Issue(path, c1.msg)])
  {
    assert [c0, c1][1..] == [c1];
    OneCheck(path, v, c1, isEmail);
  }

  /** What `obj[key]` reads. */
  function Field(fields: map<string, Value>, key: string): Value
  {
    if key in fields then fields[key] else Undefined
  }

  /** A `z.string()` chain on one key: a value of another type is one issue
      (with `typeMessage` when the schema gives one) and no check runs. */
  function StringIssues(key: string, v: Value, typeMessage: Option<string>, checks: seq<StringCheck>, isEmail: string -> bool): (r: seq<Issue>)
    ensures !v.Str? ==> |r| == 1 && r[0].path == [key]
    ensures !v.Str? && typeMessage.None? ==> r == [Issue([key], InvalidType(KString, KindOf(v)))]
    ensures v.Str? ==> r == CheckIssues([key], v.s, checks, isEmail)
  {
    if v.Str? then CheckIssues([key], v.s, checks, isEmail)
    else [Issue([key], if typeMessage.Some? then Custom(typeMessage.value) else InvalidType(KString, KindOf(v)))]
  }

  /** `z.object(...)` on something that is not an object. */
  function NotAnObject(v: Value): seq<Issue>
  {
    [Issue([], InvalidType(KObject, KindOf(v)))]
  }

  /** `z.string().min(1, required).email(invalid)` on the `email` key, as
      RegisterSchema, LoginSchema and ForgotPasswordSchema write it. */
  function EmailKeyIssues(fields: map<string, Value>, required: string, invalid: string, isEmail: string -> bool): (r: seq<Issue>)
    ensures r == [] <==>
      Field(fields, "email").Str? && |Field(fields, "email").s| >= 1 && isEmail(Field(fields, "email").s)
    ensures !Field(fields, "email").Str? ==>
      r == [Issue(["email"], InvalidType(KString, KindOf(Field(fields, "email"))))]
    ensures required != invalid ==>
      (Issue(["email"], Custom(required)) in r <==> Field(fields, "email") == Str(""))
    ensures required != invalid ==>
      (Issue(["email"], Custom(invalid)) in r <==> Field(fields, "email").Str? && !isEmail(Field(fields, "email").s))
    ensures forall e :: e in r ==> e.path == ["email"]
    ensures forall e :: e in r ==> e.message in {Custom(required), Custom(invalid)} || e.message.InvalidType?
  {
    var email := Field(fields, "email");
    var checks := [MinLength(1, Custom(required)), IsEmail(Custom(invalid))];
    TwoChecks(["email"], email, checks[0], checks[1], isEmail);
    StringIssues("email", email, None, checks, isEmail)
  }

  /** `z.string().min(n, short)` on one key. */
  function MinLengthKeyIssues(fields: map<string, Value>, key: string, n: nat, short: string): (r: seq<Issue>)
    ensures r == [] <==> Field(fields, key).Str? && |Field(fields, key).s| >= n
    ensures Field(fields, key).Str? && |Field(fields, key).s| < n ==> r == [Issue([key], Custom(short))]
    ensures !Field(fields, key).Str? ==> r == [Issue([key], InvalidType(KString, KindOf(Field(fields, key))))]
    ensures forall e :: e in r ==> e.path == [key]
    ensures forall e :: e in r ==> e.message == Custom(short) || e.message.InvalidType?
  {
    var v := Field(fields, key);
    OneCheck([key], v, MinLength(n, Custom(short)), _ => true);
    StringIssues(key, v, None, [MinLength(n, Custom(short))], _ => true)
  }

  // ---------------------------------------------------------------------
  // RegisterSchema

  /** What RegisterSchema accepts. */
  predicate RegisterValid(v: Value, isEmail: string -> bool)
  {
    && v.Obj?
    && Field(v.fields, "email").Str? && Field(v.fields, "name").Str?
    && Field(v.fields, "password").Str? && Field(v.fields, "password_confirmation").Str?
    && |Field(v.fields, "email").s| >= 1 && isEmail(Field(v.fields, "email").s)
    && |Field(v.fields, "name").s| >= 1
    && |Field(v.fields, "password").s| >= 8
    && Field(v.fields, "password").s == Field(v.fields, "password_confirmation").s
  }

  /** The issues RegisterSchema reports after the email key's: the name,
      the password and its confirmation, then the refinement, which runs
      only when these three and the email all hold strings. */
  function RegisterRestIssues(f: map<string, Value>, emailIsString: bool): seq<Issue>
  {
    var typed := emailIsString && Field(f, "name").Str?
      && Field(f, "password").Str? && Field(f, "password_confirmation").Str?;
    MinLengthKeyIssues(f, "name", 1, NameRequired)
    + MinLengthKeyIssues(f, "password", 8, PasswordShort)
    + StringIssues("password_confirmation", Field(f, "password_confirmation"), None, [], _ => true)
    + (if typed && Field(f, "password").s != Field(f, "password_confirmation").s
       then [Issue(["password_confirmation"], Custom(PasswordsDiffer))] else [])
  }

  /** The rest reports nothing iff the name and passwords pass, and only at
      their own keys. */
  lemma RegisterRestAccepts(f: map<string, Value>, emailIsString: bool)
    ensures RegisterRestIssues(f, emailIsString) == [] <==>
      && Field(f, "name").Str? && |Field(f, "name").s| >= 1
      && Field(f, "password").Str? && |Field(f, "password").s| >= 8
      && Field(f, "password_confirmation").Str?
      && (emailIsString ==> Field(f, "password").s == Field(f, "password_confirmation").s)
    ensures forall e :: e in RegisterRestIssues(f, emailIsString) ==>
      e.path == ["name"] || e.path == ["password"] || e.path == ["password_confirmation"]
  {
    var b := MinLengthKeyIssues(f, "name", 1, NameRequired);
    var c := MinLengthKeyIssues(f, "password", 8, PasswordShort);
    var d := StringIssues("password_confirmation", Field(f, "password_confirmation"), None, [], _ => true);
    var refined := RegisterRestIssues(f, emailIsString)[|b + c + d|..];
    assert RegisterRestIssues(f, emailIsString) == b + c + d + refined;
    assert d == [] <==> Field(f, "password_confirmation").Str?;
    assert forall e :: e in b + c + d + refined ==> e in b || e in c || e in d || e in refined;
  }

  /** Each message of the rest is reported exactly when its rule fails. */
  /** The name message of the rest is reported exactly when the name is empty. */
  lemma RegisterRestName(f: map<string, Value>, emailIsString: bool)
    ensures Issue(["name"], Custom(NameRequired)) in RegisterRestIssues(f, emailIsString) <==> Field(f, "name") == Str("")
  {
    var b := MinLengthKeyIssues(f, "name", 1, NameRequired);
    var c := MinLengthKeyIssues(f, "password", 8, PasswordShort);
    var d := StringIssues("password_confirmation", Field(f, "password_confirmation"), None, [], _ => true);
    var refined := RegisterRestIssues(f, emailIsString)[|b + c + d|..];
    assert RegisterRestIssues(f, emailIsString) == b + c + d + refined;
    var nameIssue := Issue(["name"], Custom(NameRequired));
    assert nameIssue !in c + d + refined;
  }
  /** The short-password message is reported exactly when the password is a
      string shorter than 8. */
  lemma RegisterRestShort(f: map<string, Value>, emailIsString: bool)
    ensures Issue(["password"], Custom(PasswordShort)) in RegisterRestIssues(f, emailIsString) <==>
          Field(f, "password").Str? && |Field(f, "password").s| < 8
  {
    var b := MinLengthKeyIssues(f, "name", 1, NameRequired);
    var c := MinLengthKeyIssues(f, "password", 8, PasswordShort);
    var d := StringIssues("password_confirmation", Field(f, "password_confirmation"), None, [], _ => true);
    var refined := RegisterRestIssues(f, emailIsString)[|b + c + d|..];
    assert RegisterRestIssues(f, emailIsString) == b + c + d + refined;
    var shortIssue := Issue(["password"], Custom(PasswordShort));
    assert shortIssue !in b + d + refined;
  }
  /** The mismatch message is reported exactly when every key holds a string
      and the passwords differ. */
  lemma RegisterRestDiffer(f: map<string, Value>, emailIsString: bool)
    ensures (Issue(["password_confirmation"], Custom(PasswordsDiffer)) in RegisterRestIssues(f, emailIsString) <==>
          && emailIsString && Field(f, "name").Str?
          && Field(f, "password").Str? && Field(f, "password_confirmation").Str?
          && Field(f, "password").s != Field(f, "password_confirmation").s)
  {
    var b := MinLengthKeyIssues(f, "name", 1, NameRequired);
    var c := MinLengthKeyIssues(f, "password", 8, PasswordShort);
    var d := StringIssues("password_confirmation", Field(f, "password_confirmation"), None, [], _ => true);
    var refined := RegisterRestIssues(f, emailIsString)[|b + c + d|..];
    assert RegisterRestIssues(f, emailIsString) == b + c + d + refined;
    var differIssue := Issue(["password_confirmation"], Custom(PasswordsDiffer));
    assert differIssue !in b + c + d;
  }

  /** The issues of the four keys in the schema's order, then the
      refinement's, which runs only when every key holds a string. */
  function RegisterIssues(v: Value, isEmail: string -> bool): (r: seq<Issue>)
    ensures r == [] <==> RegisterValid(v, isEmail)
    ensures !v.Obj? ==> r == [Issue([], InvalidType(KObject, KindOf(v)))]
    ensures Issue(["email"], Custom(EmailRequired)) in r <==> v.Obj? && Field(v.fields, "email") == Str("")
    ensures Issue(["email"], Custom(EmailInvalid)) in r <==>
      v.Obj? && Field(v.fields, "email").Str? && !isEmail(Field(v.fields, "email").s)
    ensures Issue(["name"], Custom(NameRequired)) in r <==> v.Obj? && Field(v.fields, "name") == Str("")
    ensures Issue(["password"], Custom(PasswordShort)) in r <==>
      v.Obj? && Field(v.fields, "password").Str? && |Field(v.fields, "password").s| < 8
    ensures Issue(["password_confirmation"], Custom(PasswordsDiffer)) in r <==>
      && v.Obj?
      && Field(v.fields, "email").Str? && Field(v.fields, "name").Str?
      && Field(v.fields, "password").Str? && Field(v.fields, "password_confirmation").Str?
      && Field(v.fields, "password").s != Field(v.fields, "password_confirmation").s
    ensures forall e :: e in r ==> e.path in {[], ["email"], ["name"], ["password"], ["password_confirmation"]}
  {
    if !v.Obj? then NotAnObject(v)
    else
      RegisterObjectAccepts(v, isEmail);
      RegisterObjectMessages(v, isEmail);
      RegisterObjectIssues(v.fields, isEmail)
  }

  /** RegisterSchema's issues on an object: the email key's, then the rest. */
  function RegisterObjectIssues(f: map<string, Value>, isEmail: string -> bool): seq<Issue>
  {
    EmailKeyIssues(f, EmailRequired, EmailInvalid, isEmail) + RegisterRestIssues(f, Field(f, "email").Str?)
  }

  /** On an object, RegisterSchema reports nothing iff the form is valid. */
  lemma RegisterObjectAccepts(v: Value, isEmail: string -> bool)
    requires v.Obj?
    ensures RegisterObjectIssues(v.fields, isEmail) == [] <==> RegisterValid(v, isEmail)
    ensures forall e :: e in RegisterObjectIssues(v.fields, isEmail) ==>
      e.path in {[], ["email"], ["name"], ["password"], ["password_confirmation"]}
  {
    var a := EmailKeyIssues(v.fields, EmailRequired, EmailInvalid, isEmail);
    var rest := RegisterRestIssues(v.fields, Field(v.fields, "email").Str?);
    RegisterRestAccepts(v.fields, Field(v.fields, "email").Str?);
    assert forall e :: e in a + rest ==> e in a || e in rest;
  }

  /** On an object, each of RegisterSchema's messages is reported exactly
      when its rule fails. */
  lemma RegisterObjectMessages(v: Value, isEmail: string -> bool)
    requires v.Obj?
    ensures var r := RegisterObjectIssues(v.fields, isEmail);
      && (Issue(["email"], Custom(EmailRequired)) in r <==> Field(v.fields, "email") == Str(""))
      && (Issue(["email"], Custom(EmailInvalid)) in r <==>
          Field(v.fields, "email").Str? && !isEmail(Field(v.fields, "email").s))
      && (Issue(["name"], Custom(NameRequired)) in r <==> Field(v.fields, "name") == Str(""))
      && (Issue(["password"], Custom(PasswordShort)) in r <==>
          Field(v.fields, "password").Str? && |Field(v.fields, "password").s| < 8)
      && (Issue(["password_confirmation"], Custom(PasswordsDiffer)) in r <==>
          && Field(v.fields, "email").Str? && Field(v.fields, "name").Str?
          && Field(v.fields, "password").Str? && Field(v.fields, "password_confirmation").Str?
          && Field(v.fields, "password").s != Field(v.fields, "password_confirmation").s)
  {
    var a := EmailKeyIssues(v.fields, EmailRequired, EmailInvalid, isEmail);
    var rest := RegisterRestIssues(v.fields, Field(v.fields, "email").Str?);
    RegisterRestAccepts(v.fields, Field(v.fields, "email").Str?);
    RegisterRestName(v.fields, Field(v.fields, "email").Str?);
    RegisterRestShort(v.fields, Field(v.fields, "email").Str?);
    RegisterRestDiffer(v.fields, Field(v.fields, "email").Str?);
    assert EmailRequired != EmailInvalid;
    assert forall e :: e in a + rest ==> e in a || e in rest;
  }

  // ---------------------------------------------------------------------
  // LoginSchema and ForgotPasswordSchema

  predicate LoginValid(v: Value, isEmail: string -> bool)
  {
    && v.Obj?
    && Field(v.fields, "email").Str? && |Field(v.fields, "email").s| >= 1 && isEmail(Field(v.fields, "email").s)
    && Field(v.fields, "password").Str? && |Field(v.fields, "password").s| >= 1
  }

  function LoginIssues(v: Value, isEmail: string -> bool): (r: seq<Issue>)
    ensures r == [] <==> LoginValid(v, isEmail)
    ensures !v.Obj? ==> r == [Issue([], InvalidType(KObject, KindOf(v)))]
    ensures Issue(["email"], Custom(LoginEmailRequired)) in r <==> v.Obj? && Field(v.fields, "email") == Str("")
    ensures Issue(["email"], Custom(LoginEmailInvalid)) in r <==>
      v.Obj? && Field(v.fields, "email").Str? && !isEmail(Field(v.fields, "email").s)
    ensures Issue(["password"], Custom(PasswordRequired)) in r <==> v.Obj? && Field(v.fields, "password") == Str("")
    ensures forall e :: e in r ==> e.path in {[], ["email"], ["password"]}
  {
    if !v.Obj? then NotAnObject(v)
    else
      var a := EmailKeyIssues(v.fields, LoginEmailRequired, LoginEmailInvalid, isEmail);
      var b := MinLengthKeyIssues(v.fields, "password", 1, PasswordRequired);
      assert forall e :: e in a + b ==> e in a || e in b;
      a + b
  }

  predicate ForgotPasswordValid(v: Value, isEmail: string -> bool)
  {
    v.Obj? && Field(v.fields, "email").Str? && |Field(v.fields, "email").s| >= 1 && isEmail(Field(v.fields, "email").s)
  }

  function ForgotPasswordIssues(v: Value, isEmail: string -> bool): (r: seq<Issue>)
    ensures r == [] <==> ForgotPasswordValid(v, isEmail)
    ensures !v.Obj? ==> r == [Issue([], InvalidType(KObject, KindOf(v)))]
    ensures Issue(["email"], Custom(LoginEmailRequired)) in r <==> v.Obj? && Field(v.fields, "email") == Str("")
    ensures Issue(["email"], Custom(LoginEmailInvalid)) in r <==>
      v.Obj? && Field(v.fields, "email").Str? && !isEmail(Field(v.fields, "email").s)
    ensures forall e :: e in r ==> e.path in {[], ["email"]}
  {
    if !v.Obj? then NotAnObject(v)
    else EmailKeyIssues(v.fields, LoginEmailRequired, LoginEmailInvalid, isEmail)
  }

  /** The two schemas check the email alike: a forgot-password form passes
      exactly when a login form with the same email and some password would. */
  lemma ForgotPasswordIsLoginEmail(fields: map<string, Value>, isEmail: string -> bool)
    ensures ForgotPasswordValid(Obj(fields), isEmail) <==>
      LoginValid(Obj(fields["password" := Str("x")]), isEmail)
  {
    assert Field(fields["password" := Str("x")], "email") == Field(fields, "email");
  }

  // ---------------------------------------------------------------------
  // SuccessSchema and ErrorResponseSchema: the backend's two reply shapes

  /** `z.string()`: a success reply is its message text. */
  function SuccessIssues(v: Value): (r: seq<Issue>)
    ensures r == [] <==> v.Str?
    ensures r != [] ==> r == [Issue([], InvalidType(KString, KindOf(v)))]
  {
    if v.Str? then [] else [Issue([], InvalidType(KString, KindOf(v)))]
  }

  /** `z.object({error: z.string()})`: the `{error}` body of a failed call. */
  function ErrorResponseIssues(v: Value): (r: seq<Issue>)
    ensures r == [] <==> v.Obj? && Field(v.fields, "error").Str?
    ensures v.Obj? && !Field(v.fields, "error").Str? ==>
      r == [Issue(["error"], InvalidType(KString, KindOf(Field(v.fields, "error"))))]
  {
    if !v.Obj? then NotAnObject(v)
    else StringIssues("error", Field(v.fields, "error"), None, [], _ => true)
  }

  // ---------------------------------------------------------------------
  // TokenSchema

  const TokenChecks := [Length(6, Custom(TokenInvalid)), MaxLength(6, Custom(TokenInvalid))]

  /** `z.string({message}).length(6).max(6)`: the type message is the
      schema's own. */
  function TokenIssues(v: Value): (r: seq<Issue>)
    ensures r == [] <==> v.Str? && |v.s| == 6
    ensures forall e :: e in r ==> e == Issue([], Custom(TokenInvalid))
    ensures v.Str? && |v.s| > 6 ==> |r| == 2
    ensures (!v.Str? || |v.s| < 6) ==> |r| == 1
  {
    if v.Str? then
      TwoChecks([], v, TokenChecks[0], TokenChecks[1], _ => true);
      CheckIssues([], v.s, TokenChecks, _ => true)
    else [Issue([], Custom(TokenInvalid))]
  }

  // ---------------------------------------------------------------------
  // UserSchema

  /** The data a successful parse yields: the three keys, others stripped. */
  datatype UserData = UserData(id: real, name: string, email: string)

  predicate UserValid(v: Value, isEmail: string -> bool)
  {
    && v.Obj?
    && Field(v.fields, "id").Num?
    && Field(v.fields, "name").Str?
    && Field(v.fields, "email").Str? && isEmail(Field(v.fields, "email").s)
  }

  function UserIssues(v: Value, isEmail: string -> bool): (r: seq<Issue>)
    ensures r == [] <==> UserValid(v, isEmail)
    ensures !v.Obj? ==> r == [Issue([], InvalidType(KObject, KindOf(v)))]
    ensures Issue(["email"], DefaultInvalidEmail) in r <==>
      v.Obj? && Field(v.fields, "email").Str? && !isEmail(Field(v.fields, "email").s)
    ensures v.Obj? ==>
      (Issue(["id"], InvalidType(KNumber, KindOf(Field(v.fields, "id")))) in r <==> !Field(v.fields, "id").Num?)
    ensures forall e :: e in r ==> e.path in {[], ["id"], ["name"], ["email"]}
  {
    if !v.Obj? then NotAnObject(v)
    else
      var id := Field(v.fields, "id");
      var email := Field(v.fields, "email");
      OneCheck(["email"], email, IsEmail(DefaultInvalidEmail), isEmail);
      (if id.Num? then [] else [Issue(["id"], InvalidType(KNumber, KindOf(id)))])
      + StringIssues("name", Field(v.fields, "name"), None, [], isEmail)
      + StringIssues("email", email, None, [IsEmail(DefaultInvalidEmail)], isEmail)
  }

  /** `UserSchema.safeParse`. */
  function ParseUser(v: Value, isEmail: string -> bool): (r: Option<UserData>)
    ensures r.Some? <==> UserIssues(v, isEmail) == []
    ensures r.Some? ==> r.value == UserData(Field(v.fields, "id").n, Field(v.fields, "name").s, Field(v.fields, "email").s)
  {
    if UserValid(v, isEmail)
    then Some(UserData(Field(v.fields, "id").n, Field(v.fields, "name").s, Field(v.fields, "email").s))
    else None
  }

  /** The JSON object the backend sends for a user. */
  function EncodeUser(u: UserData): Value
  {
    Obj(map["id" := Num(u.id), "name" := Str(u.name), "email" := Str(u.email)])
  }

  /** A user with a well-formed email survives encoding and parsing, and
      extra keys are stripped. */
  lemma UserRoundTrip(u: UserData, extra: map<string, Value>, isEmail: string -> bool)
    requires isEmail(u.email)
    ensures ParseUser(EncodeUser(u), isEmail) == Some(u)
    ensures ParseUser(Obj(extra + EncodeUser(u).fields), isEmail) == Some(u)
  {
    var f := extra + EncodeUser(u).fields;
    assert Field(f, "id") == Num(u.id) && Field(f, "name") == Str(u.name) && Field(f, "email") == Str(u.email);
  }
}
