/**
 * UserServiceImpl: the user table of the auth service. Registration stores the e-mail
 * lower-cased and refuses one already taken; look-ups by e-mail compare exactly. The password
 * encoder's answers are parameters.
 */
module Users {
  import opened Common

  datatype Role = Customer | Manager

  datatype User = User(id: int, email: string, password: string, firstName: string, lastName: string, role: Role)

  datatype RegistrationRequest = RegistrationRequest(email: string, password: string, firstName: string, lastName: string)

  datatype UserError =
    | RegistrationRefused(email: string)
    | UserNotFound
    | InvalidPassword
    | NotAuthenticated

  // ---------------------------------------------------------------------------------------
  // Lower-casing (String.toLowerCase, on the ASCII letters)

  function LowerChar(c: char): char {
    if 'A' <= c <= 'Z' then (c as int + 32) as char else c
  }

  predicate IsLowerCase(s: string) {
    forall i :: 0 <= i < |s| ==> !('A' <= s[i] <= 'Z')
  }

  function ToLower(s: string): (t: string)
    ensures |t| == |s| && IsLowerCase(t)
    ensures forall i :: 0 <= i < |s| ==> t[i] == LowerChar(s[i])
  {
    seq(|s|, i requires 0 <= i < |s| => LowerChar(s[i]))
  }

  /** Lower-casing twice is lower-casing once, and a lower-case string is its own lower case. */
  lemma ToLowerIdempotent(s: string)
    ensures ToLower(ToLower(s)) == ToLower(s)
    ensures IsLowerCase(s) ==> ToLower(s) == s
  {
    var once := ToLower(s);
    assert forall i :: 0 <= i < |s| ==> ToLower(once)[i] == once[i];
    if IsLowerCase(s) {
      assert forall i :: 0 <= i < |s| ==> once[i] == s[i];
    }
  }

  // ---------------------------------------------------------------------------------------
  // The table

  /**
   * Keys are the ids, from 1 and below the next id; stored e-mails are lower case and no
   * two users share one.
   */
  predicate WellFormedUsers(rows: map<int, User>, nextId: int) {
    && 1 <= nextId
    && (forall k :: k in rows ==> rows[k].id == k && 1 <= k < nextId && IsLowerCase(rows[k].email))
    && (forall j, k :: j in rows && k in rows && j != k ==> rows[j].email != rows[k].email)
  }

  /** findByEmail(...).isPresent(). */
  predicate EmailTaken(rows: map<int, User>, email: string) {
    exists k :: k in rows && rows[k].email == email
  }

  /** The largest id from 1 to n whose user has exactly this e-mail. */
  function WithEmailUpTo(rows: map<int, User>, email: string, n: int): (k: Option<int>)
    ensures k.None? <==> forall j :: j in rows && rows[j].email == email ==> j < 1 || n < j
    ensures k.Some? ==> k.value in rows && rows[k.value].email == email && 1 <= k.value <= n
    decreases n
  {
    if n < 1 then None
    else if n in rows && rows[n].email == email then Some(n)
    else WithEmailUpTo(rows, email, n - 1)
  }

  /** getUserIdByEmail: the id of the user with exactly this e-mail; no lower-casing here. */
  function UserIdByEmail(rows: map<int, User>, nextId: int, email: string): (r: Result<int, UserError>)
    requires WellFormedUsers(rows, nextId)
    ensures r.Ok? <==> EmailTaken(rows, email)
    ensures r.Ok? ==> r.value in rows && rows[r.value].email == email
    ensures r.Err? ==> r.error == UserNotFound
  {
    match WithEmailUpTo(rows, email, nextId - 1)
    case None => Err(UserNotFound)
    case Some(k) => Ok(k)
  }

  /** The state after register, and its answer. */
  datatype Registered = Registered(rows: map<int, User>, nextId: int, answer: Result<User, UserError>)

  /**
   * register: `mappedRole` is the role the mapped entity carries (the request has none) and
   * `encoded` is the encoder's output for the request's password.
   */
  function Register(rows: map<int, User>, nextId: int, request: RegistrationRequest, mappedRole: Option<Role>, encoded: string)
    : (s: Registered)
    requires WellFormedUsers(rows, nextId)
    ensures WellFormedUsers(s.rows, s.nextId)
    ensures EmailTaken(rows, ToLower(request.email)) ==> s == Registered(rows, nextId, Err(RegistrationRefused(ToLower(request.email))))
    ensures !EmailTaken(rows, ToLower(request.email)) ==>
      && s.answer == Ok(User(nextId, ToLower(request.email), encoded, request.firstName, request.lastName, mappedRole.GetOr(Customer)))
      && nextId !in rows
      && s.rows == rows[nextId := s.answer.value] && s.nextId == nextId + 1
  {
    var email := ToLower(request.email);
    if EmailTaken(rows, email) then Registered(rows, nextId, Err(RegistrationRefused(email)))
    else
      var user := User(nextId, email, encoded, request.firstName, request.lastName, mappedRole.GetOr(Customer));
      Registered(rows[nextId := user], nextId + 1, Ok(user))
  }

  /** A registered user is found by the lower-cased e-mail, and registering it again in any letter case is refused. */
  lemma RegisterThenLookUp(rows: map<int, User>, nextId: int, request: RegistrationRequest, mappedRole: Option<Role>,
                           encoded: string, again: RegistrationRequest, role2: Option<Role>, encoded2: string)
    requires WellFormedUsers(rows, nextId)
    requires !EmailTaken(rows, ToLower(request.email))
    requires ToLower(again.email) == ToLower(request.email)
    ensures var s := Register(rows, nextId, request, mappedRole, encoded);
            && UserIdByEmail(s.rows, s.nextId, ToLower(request.email)) == Ok(nextId)
            && Register(s.rows, s.nextId, again, role2, encoded2).answer == Err(RegistrationRefused(ToLower(request.email)))
  {
    var s := Register(rows, nextId, request, mappedRole, encoded);
    assert s.rows[nextId].email == ToLower(request.email);
    assert EmailTaken(s.rows, ToLower(request.email));
  }

  /** The look-up is exact: an e-mail with an upper-case letter finds no user, since every stored e-mail is lower case. */
  lemma LookUpIsCaseSensitive(rows: map<int, User>, nextId: int, email: string, i: int)
    requires WellFormedUsers(rows, nextId)
    requires 0 <= i < |email| && 'A' <= email[i] <= 'Z'
    ensures UserIdByEmail(rows, nextId, email) == Err(UserNotFound)
  {
  }

  class UserService {
    var rows: map<int, User>
    var nextId: int

    ghost predicate Valid()
      reads this
    {
      WellFormedUsers(rows, nextId)
    }

    constructor ()
      ensures Valid() && rows == map[]
    {
      rows := map[];
      nextId := 1;
    }

    /** register. */
    method RegisterUser(request: RegistrationRequest, mappedRole: Option<Role>, encoded: string) returns (r: Result<User, UserError>)
      requires Valid()
      modifies this
      ensures Valid()
      ensures Registered(rows, nextId, r) == Register(old(rows), old(nextId), request, mappedRole, encoded)
    {
      var email := ToLower(request.email);
      if exists k :: k in rows && rows[k].email == email {
        return Err(RegistrationRefused(email));
      }
      var user := User(nextId, email, encoded, request.firstName, request.lastName, Customer);
      if mappedRole.Some? {
        user := user.(role := mappedRole.value);
      }
      rows := rows[nextId := user];
      nextId := nextId + 1;
      r := Ok(user);
    }

    /** getCurrentUserProfile: the principal of an authenticated caller. */
    function GetCurrentUserProfile(principal: Option<User>, authenticated: bool): (r: Result<User, UserError>)
      ensures r.Ok? <==> principal.Some? && authenticated
      ensures r.Ok? ==> r.value == principal.value
      ensures r.Err? ==> r.error == NotAuthenticated
    {
      if principal.None? || !authenticated then Err(NotAuthenticated) else Ok(principal.value)
    }

    /** updateCurrentUserProfile: the caller's names are replaced and the caller's row saved. */
    method UpdateCurrentUserProfile(principal: User, firstName: string, lastName: string) returns (saved: User)
      requires Valid() && principal.id in rows && rows[principal.id] == principal
      modifies this
      ensures Valid() && nextId == old(nextId)
      ensures saved == principal.(firstName := firstName, lastName := lastName)
      ensures rows == old(rows)[principal.id := saved]
    {
      saved := principal.(firstName := firstName, lastName := lastName);
      rows := rows[principal.id := saved];
    }

    /** updateRoleById: only the role changes; an unknown id is refused. */
    method UpdateRoleById(userId: int, role: Role) returns (r: Result<User, UserError>)
      requires Valid()
      modifies this
      ensures Valid() && nextId == old(nextId)
      ensures userId !in old(rows) ==> r == Err(UserNotFound) && rows == old(rows)
      ensures userId in old(rows) ==> r == Ok(old(rows)[userId].(role := role)) && rows == old(rows)[userId := r.value]
    {
      if userId !in rows {
        return Err(UserNotFound);
      }
      var user := rows[userId].(role := role);
      rows := rows[userId := user];
      r := Ok(user);
    }

    /** existsById. */
    function ExistsById(userId: int): (b: bool)
      reads this
      ensures b <==> userId in rows
    {
      userId in rows
    }

    /** getUserIdByEmail. */
    function GetUserIdByEmail(email: string): (r: Result<int, UserError>)
      reads this
      requires Valid()
      ensures r.Ok? <==> EmailTaken(rows, email)
      ensures r.Ok? ==> r.value in rows && rows[r.value].email == email
    {
      UserIdByEmail(rows, nextId, email)
    }

    /**
     * changePassword: `oldMatches` is the encoder's verdict on the old password and
     * `encodedNew` its output for the new one. A mismatch saves nothing.
     */
    method ChangePassword(principal: User, oldMatches: bool, encodedNew: string) returns (failure: Option<UserError>)
      requires Valid() && principal.id in rows && rows[principal.id] == principal
      modifies this
      ensures Valid() && nextId == old(nextId)
      ensures !oldMatches ==> failure == Some(InvalidPassword) && rows == old(rows)
      ensures oldMatches ==> failure == None && rows == old(rows)[principal.id := principal.(password := encodedNew)]
    {
      if !oldMatches {
        return Some(InvalidPassword);
      }
      rows := rows[principal.id := principal.(password := encodedNew)];
      failure := None;
    }
  }
}
