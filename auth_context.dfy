/** The session state of src/contexts/AuthContext.jsx: the `authReducer` state machine,
    the role predicates `hasRole` and `hasAnyRole`, and the provider's `login`,
    `logout`, `updateUser` and `clearError`, which dispatch reducer actions. */
module AuthContext {
  import opened Wrappers

  /** A user's `role` as the back end may send it: absent, `null`, a plain name, or an
      object whose `name` may be absent. */
  datatype RoleValue = NoRole | NullRole | NamedRole(name: string) | RoleObject(objectName: Option<string>)

  /** The TypeError message JavaScript raises when a role of `null` is read as an
      object (`typeof null === 'object'`). */
  const NULL_ROLE_ERROR := "Cannot read properties of null (reading 'name')"

  /** `typeof role === 'object' ? role.name : role`. */
  function RoleName(role: RoleValue): (r: Result<Option<string>, string>)
    ensures r.Failure? <==> role == NullRole
    ensures role.NamedRole? ==> r == Success(Some(role.name))
    ensures role.RoleObject? ==> r == Success(role.objectName)
    ensures role == NoRole ==> r == Success(None)
  {
    match role
    case NoRole => Success(None)
    case NullRole => Failure(NULL_ROLE_ERROR)
    case NamedRole(n) => Success(Some(n))
    case RoleObject(n) => Success(n)
  }

  /** The fields of a user profile the client reads. */
  datatype User = User(
    id: Option<int>, email: Option<string>, firstName: Option<string>,
    lastName: Option<string>, role: RoleValue, roleName: Option<string>)

  /** A user's `roleName` agrees with its `role`. */
  predicate Normalized(u: User) {
    RoleName(u.role) == Success(u.roleName)
  }

  /** `{ ...user, roleName: <name of user.role> }`. */
  function Normalize(u: User): (r: Result<User, string>)
    ensures r.Failure? <==> u.role == NullRole
    ensures r.Success? ==> Normalized(r.value) && r.value == u.(roleName := r.value.roleName)
  {
    match RoleName(u.role)
    case Success(n) => Success(u.(roleName := n))
    case Failure(e) => Failure(e)
  }

  datatype AuthState = AuthState(
    isAuthenticated: bool, user: Option<User>, token: Option<string>, loading: bool,
    error: Option<string>)

  /** `initialState`: signed out, idle, no error. */
  const InitialState := AuthState(false, None, None, false, None)

  datatype Action =
    | LoginStart
    | LoginSuccess(payloadUser: User, payloadToken: Option<string>)
    | LoginFailure(payloadError: Option<string>)
    | Logout
    | SetUser(newUser: User)
    | ClearError
    | Unknown(actionType: string)

  /** `authReducer`. The two actions that normalise a user throw when its role is
      `null`. */
  function Reduce(s: AuthState, a: Action): (r: Result<AuthState, string>)
    ensures r.Failure? <==> (a.LoginSuccess? && a.payloadUser.role == NullRole)
                            || (a.SetUser? && a.newUser.role == NullRole)
    ensures a == LoginStart ==> r == Success(s.(loading := true, error := None))
    ensures a.LoginSuccess? && r.Success? ==>
      var t := r.value;
      t.isAuthenticated && !t.loading && t.error == None && t.token == a.payloadToken
      && t.user.Some? && Normalized(t.user.value)
      && t.user.value == a.payloadUser.(roleName := t.user.value.roleName)
    ensures a.LoginFailure? ==>
      r == Success(AuthState(false, None, None, false, a.payloadError))
    ensures a == Logout ==>
      r == Success(s.(isAuthenticated := false, user := None, token := None, error := None))
    ensures a.SetUser? && r.Success? ==>
      var t := r.value;
      t.user.Some? && Normalized(t.user.value)
      && t.user.value == a.newUser.(roleName := t.user.value.roleName)
      && t == s.(user := t.user)
    ensures a == ClearError ==> r == Success(s.(error := None))
    ensures a.Unknown? ==> r == Success(s)
  {
    match a
    case LoginStart => Success(s.(loading := true, error := None))
    case LoginSuccess(u, token) =>
      (match Normalize(u)
       case Success(nu) =>
         Success(s.(loading := false, isAuthenticated := true, user := Some(nu), token := token,
                    error := None))
       case Failure(e) => Failure(e))
    case LoginFailure(message) =>
      Success(s.(loading := false, isAuthenticated := false, user := None, token := None,
                 error := message))
    case Logout => Success(s.(isAuthenticated := false, user := None, token := None, error := None))
    case SetUser(u) =>
      (match Normalize(u)
       case Success(nu) => Success(s.(user := Some(nu)))
       case Failure(e) => Failure(e))
    case ClearError => Success(s.(error := None))
    case Unknown(_) => Success(s)
  }

  /** What every reachable state satisfies: an authenticated session has a user, a
      token is only held by an authenticated session, and a stored user's `roleName`
      agrees with its `role`. */
  predicate Inv(s: AuthState) {
    && (s.isAuthenticated ==> s.user.Some?)
    && (s.token.Some? ==> s.isAuthenticated)
    && (s.user.Some? ==> Normalized(s.user.value))
  }

  lemma ReducePreservesInv(s: AuthState, a: Action)
    requires Inv(s)
    requires Reduce(s, a).Success?
    ensures Inv(Reduce(s, a).value)
  {
  }

  /** Dispatching a list of actions in order; a throwing reducer stops the run. */
  function ReduceAll(s: AuthState, actions: seq<Action>): Result<AuthState, string>
    decreases |actions|
  {
    if actions == [] then Success(s)
    else match Reduce(s, actions[0])
      case Success(t) => ReduceAll(t, actions[1..])
      case Failure(e) => Failure(e)
  }

  /** Every state the provider can reach from `initialState` satisfies `Inv`. */
  lemma {:induction false} ReachableInv(s: AuthState, actions: seq<Action>)
    requires Inv(s)
    requires ReduceAll(s, actions).Success?
    ensures Inv(ReduceAll(s, actions).value)
    decreases |actions|
  {
    if actions != [] {
      ReducePreservesInv(s, actions[0]);
      ReachableInv(Reduce(s, actions[0]).value, actions[1..]);
    }
  }

  lemma InitialStateInv()
    ensures Inv(InitialState)
  {
  }

  /** `state.user?.roleName`: absent when nobody is signed in. */
  function CurrentRoleName(s: AuthState): Option<string> {
    if s.user.Some? then s.user.value.roleName else None
  }

  /** `hasRole`: exact, case-sensitive comparison with the current role name. */
  function HasRole(s: AuthState, role: string): (r: bool)
    ensures r <==> s.user.Some? && s.user.value.roleName == Some(role)
    ensures s.user.None? ==> !r
  {
    CurrentRoleName(s) == Some(role)
  }

  /** `hasAnyRole`: membership of the current role name in `roles`. A list entry of
      `None` is an undefined element or a hole, which `Array.prototype.includes` reads
      as `undefined`, and so matches a missing role name. */
  function HasAnyRole(s: AuthState, roles: seq<Option<string>>): (r: bool)
    ensures r <==> exists i :: 0 <= i < |roles| && roles[i] == CurrentRoleName(s)
  {
    CurrentRoleName(s) in roles
  }

  /** With nobody signed in, only a list holding a hole or `undefined` admits. */
  lemma HasAnyRoleSignedOut(s: AuthState, roles: seq<Option<string>>)
    requires s.user.None?
    ensures HasAnyRole(s, roles) <==> None in roles
  {
  }

  /** For a list without holes, `hasAnyRole` is some `hasRole`. */
  lemma HasAnyRoleIsSomeHasRole(s: AuthState, roles: seq<string>)
    ensures HasAnyRole(s, Lift(roles)) <==> exists i :: 0 <= i < |roles| && HasRole(s, roles[i])
  {
    var l := Lift(roles);
    if HasAnyRole(s, l) {
      var i :| 0 <= i < |l| && l[i] == CurrentRoleName(s);
      assert HasRole(s, roles[i]);
    }
    if exists i :: 0 <= i < |roles| && HasRole(s, roles[i]) {
      var i :| 0 <= i < |roles| && HasRole(s, roles[i]);
      assert l[i] == CurrentRoleName(s);
    }
  }

  /** A list of role names written without holes. */
  function Lift(roles: seq<string>): (r: seq<Option<string>>)
    ensures |r| == |roles| && forall i :: 0 <= i < |roles| ==> r[i] == Some(roles[i])
  {
    if roles == [] then [] else [Some(roles[0])] + Lift(roles[1..])
  }

  /** The fields `updateUser` may be given; absent fields keep the current value. */
  datatype UserPatch = UserPatch(
    id: Option<Option<int>>, email: Option<Option<string>>, firstName: Option<Option<string>>,
    lastName: Option<Option<string>>, role: Option<RoleValue>)

  /** `{ ...state.user, ...userData }`: spreading `null` contributes no field. */
  function MergeUser(current: Option<User>, p: UserPatch): (r: User)
    ensures p.role.Some? ==> r.role == p.role.value
    ensures p.role.None? ==> r.role == if current.Some? then current.value.role else NoRole
    ensures p.email.Some? ==> r.email == p.email.value
    ensures p.email.None? && current.Some? ==> r.email == current.value.email
    ensures p.id.Some? ==> r.id == p.id.value
    ensures p.id.None? && current.Some? ==> r.id == current.value.id
    ensures p.firstName.Some? ==> r.firstName == p.firstName.value
    ensures p.firstName.None? && current.Some? ==> r.firstName == current.value.firstName
    ensures p.lastName.Some? ==> r.lastName == p.lastName.value
    ensures p.lastName.None? && current.Some? ==> r.lastName == current.value.lastName
    ensures current.None? ==>
      && r.roleName == None && (p.email.None? ==> r.email == None)
      && (p.id.None? ==> r.id == None) && (p.firstName.None? ==> r.firstName == None)
      && (p.lastName.None? ==> r.lastName == None)
  {
    var base := if current.Some? then current.value else User(None, None, None, None, NoRole, None);
    User(p.id.GetOr(base.id), p.email.GetOr(base.email), p.firstName.GetOr(base.firstName),
         p.lastName.GetOr(base.lastName), p.role.GetOr(base.role), base.roleName)
  }

  /** The login service's answer: a token and the `/me` profile, or the message the
      server put in its error response, if any. */
  datatype LoginResponse = LoginOk(token: string, profile: User) | LoginError(serverMessage: Option<string>)

  /** `error.response?.data?.message || 'Login failed'`. */
  function LoginErrorMessage(serverMessage: Option<string>): (r: string)
    ensures r != ""
    ensures serverMessage.Some? && serverMessage.value != "" ==> r == serverMessage.value
  {
    if serverMessage.Some? && serverMessage.value != "" then serverMessage.value else "Login failed"
  }

  /** The provider: the reducer's current state and the actions the app dispatches. */
  class AuthProvider {
    var state: AuthState

    predicate Valid()
      reads this
    {
      Inv(state)
    }

    constructor()
      ensures state == InitialState && Valid()
    {
      state := InitialState;
    }

    /** `dispatch`: the reducer's new state, or no change when it throws. */
    method Dispatch(a: Action) returns (ok: bool)
      requires Valid()
      modifies this
      ensures Valid()
      ensures ok <==> Reduce(old(state), a).Success?
      ensures ok ==> state == Reduce(old(state), a).value
      ensures !ok ==> state == old(state)
    {
      var r := Reduce(state, a);
      if r.Success? {
        ReducePreservesInv(state, a);
        state := r.value;
        ok := true;
      } else {
        ok := false;
      }
    }

    /** `login`: LOGIN_START, then LOGIN_SUCCESS with the normalised profile, or
      LOGIN_FAILURE with the error message. A profile whose role is `null` makes the
      normalisation throw inside the `try`, so it fails with "Login failed". */
    method Login(response: LoginResponse) returns (success: bool, error: Option<string>)
      requires Valid()
      modifies this
      ensures Valid()
      ensures success <==> response.LoginOk? && response.profile.role != NullRole
      ensures success ==> (error == None && state.error == None && state.isAuthenticated && !state.loading
        && state.token == Some(response.token) && state.user.Some?
        && state.user.value == response.profile.(roleName := state.user.value.roleName))
      ensures !success ==> (!state.isAuthenticated && state.user == None && state.token == None
        && !state.loading && error.Some? && state.error == error)
      ensures response.LoginError? ==> error == Some(LoginErrorMessage(response.serverMessage))
      ensures response.LoginOk? && !success ==> error == Some("Login failed")
    {
      var ok := Dispatch(LoginStart);
      var message: string;
      if response.LoginOk? {
        var normalized := Normalize(response.profile);
        if normalized.Success? {
          ok := Dispatch(LoginSuccess(normalized.value, Some(response.token)));
          assert ok;
          return true, None;
        }
        message := "Login failed";
      } else {
        message := LoginErrorMessage(response.serverMessage);
      }
      ok := Dispatch(LoginFailure(Some(message)));
      return false, Some(message);
    }

    /** `logout`: signed out and error cleared; `loading` is left as it was. */
    method Logout()
      requires Valid()
      modifies this
      ensures Valid()
      ensures state == old(state).(isAuthenticated := false, user := None, token := None, error := None)
    {
      var ok := Dispatch(Action.Logout);
    }

    /** `updateUser`: the given fields merged over the current user, `roleName`
      recomputed, stored with SET_USER; nothing else in the state changes. The merge
      throws when the merged role is `null`. */
    method UpdateUser(patch: UserPatch) returns (ok: bool)
      requires Valid()
      modifies this
      ensures Valid()
      ensures ok <==> MergeUser(old(state).user, patch).role != NullRole
      ensures ok ==> (state.user.Some? && Normalized(state.user.value)
        && state.user.value == MergeUser(old(state).user, patch).(roleName := state.user.value.roleName)
        && state == old(state).(user := state.user))
      ensures !ok ==> state == old(state)
    {
      var merged := MergeUser(state.user, patch);
      var normalized := Normalize(merged);
      if normalized.Failure? {
        return false;
      }
      ok := Dispatch(SetUser(normalized.value));
      assert ok;
    }

    /** `clearError`: only `error` changes. */
    method ClearError()
      requires Valid()
      modifies this
      ensures Valid()
      ensures state == old(state).(error := None)
    {
      var ok := Dispatch(Action.ClearError);
    }
  }
}
