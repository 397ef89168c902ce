/** The client's authentication reducer: a closed set of actions over the session record,
    together with the single browser-storage slot that holds the access token. */
module AuthReducer {
  import opened Common

  /** `{ message, type }`, the alert object the reducer stores. */
  datatype Alert = Alert(message: string, kind: string)

  datatype AuthState = AuthState(
    isAuthenticated: bool,
    accessToken: Option<string>,
    alert: Option<Alert>,
    user: Option<UserRecord>,
    loading: bool)

  /** The ten action tags the reducer recognises; any other tag reaches the default branch. */
  datatype Action =
    | RegisterSuccess(token: string)
    | LoginSuccess(token: string)
    | RegisterFail(message: string)
    | LoginFail(message: string)
    | AuthError
    | UserLoaded(profile: UserRecord)
    | Logout
    | RefreshToken(token: string)
    | ClearAlerts
    | SetLoading(flag: bool)
    | Unrecognised(tag: string)

  /** The new session record and the new content of the `accessToken` storage slot. */
  datatype Outcome = Outcome(state: AuthState, stored: Option<string>)

  const DANGER: string := "danger"

  /** `reducer(state, action)`, with the storage slot threaded through explicitly. */
  function Step(s: AuthState, stored: Option<string>, a: Action): (r: Outcome)
    ensures stored == s.accessToken ==> r.stored == r.state.accessToken
    ensures r.state.user == s.user || a.UserLoaded? || a.Logout?
    ensures !r.state.isAuthenticated ==> r.state.accessToken == None || a.RefreshToken? || a.ClearAlerts? || a.SetLoading? || a.Unrecognised?
  {
    match a
    case RegisterSuccess(t) =>
      Outcome(s.(isAuthenticated := true, alert := None, accessToken := Some(t), loading := false), Some(t))
    case LoginSuccess(t) =>
      Outcome(s.(isAuthenticated := true, alert := None, accessToken := Some(t), loading := false), Some(t))
    case RegisterFail(m) =>
      Outcome(s.(isAuthenticated := false, alert := Some(Alert(m, DANGER)), accessToken := None, loading := false), None)
    case LoginFail(m) =>
      Outcome(s.(isAuthenticated := false, alert := Some(Alert(m, DANGER)), accessToken := None, loading := false), None)
    case AuthError =>
      Outcome(s.(isAuthenticated := false, alert := None, accessToken := None, loading := false), None)
    case UserLoaded(u) =>
      Outcome(s.(isAuthenticated := true, alert := None, user := Some(u), loading := false), stored)
    case Logout =>
      Outcome(s.(isAuthenticated := false, alert := None, accessToken := None, loading := false, user := None), None)
    case RefreshToken(t) =>
      Outcome(s.(alert := None, accessToken := Some(t), loading := true), Some(t))
    case ClearAlerts =>
      Outcome(s.(alert := None), stored)
    case SetLoading(b) =>
      Outcome(s.(loading := b), stored)
    case Unrecognised(_) =>
      Outcome(s, stored)
  }

  /** The session after dispatching `actions` in order, as `useReducer` does. */
  function Run(s: AuthState, stored: Option<string>, actions: seq<Action>): (r: Outcome)
    ensures (forall i :: 0 <= i < |actions| ==> actions[i].Unrecognised?) ==> r == Outcome(s, stored)
    decreases |actions|
  {
    if actions == [] then Outcome(s, stored)
    else
      var o := Step(s, stored, actions[0]);
      Run(o.state, o.stored, actions[1..])
  }

  // ---------------------------------------------------------------------------
  // Which fields each branch writes: a table independent of Step.

  datatype Field = IsAuthenticatedField | AccessTokenField | AlertField | UserField | LoadingField | StoredField

  /** The fields a branch names in its record literal or in a storage call. */
  function Written(a: Action): set<Field>
  {
    match a
    case RegisterSuccess(_) => {IsAuthenticatedField, AlertField, AccessTokenField, LoadingField, StoredField}
    case LoginSuccess(_) => {IsAuthenticatedField, AlertField, AccessTokenField, LoadingField, StoredField}
    case RegisterFail(_) => {IsAuthenticatedField, AlertField, AccessTokenField, LoadingField, StoredField}
    case LoginFail(_) => {IsAuthenticatedField, AlertField, AccessTokenField, LoadingField, StoredField}
    case AuthError => {IsAuthenticatedField, AlertField, AccessTokenField, LoadingField, StoredField}
    case UserLoaded(_) => {IsAuthenticatedField, AlertField, UserField, LoadingField}
    case Logout => {IsAuthenticatedField, AlertField, AccessTokenField, LoadingField, UserField, StoredField}
    case RefreshToken(_) => {AlertField, AccessTokenField, LoadingField, StoredField}
    case ClearAlerts => {AlertField}
    case SetLoading(_) => {LoadingField}
    case Unrecognised(_) => {}
  }

  /** Two outcomes hold the same value in field `f`. */
  predicate Agree(o: Outcome, o': Outcome, f: Field)
  {
    match f
    case IsAuthenticatedField => o.state.isAuthenticated == o'.state.isAuthenticated
    case AccessTokenField => o.state.accessToken == o'.state.accessToken
    case AlertField => o.state.alert == o'.state.alert
    case UserField => o.state.user == o'.state.user
    case LoadingField => o.state.loading == o'.state.loading
    case StoredField => o.stored == o'.stored
  }

  /** Every field a branch does not write keeps its value (the `...state` spread). */
  lemma StepFrame(s: AuthState, stored: Option<string>, a: Action, f: Field)
    requires f !in Written(a)
    ensures Agree(Step(s, stored, a), Outcome(s, stored), f)
  {
  }

  // ---------------------------------------------------------------------------
  // The branches, one lemma each.

  lemma SuccessBranch(s: AuthState, stored: Option<string>, t: string, a: Action)
    requires a == RegisterSuccess(t) || a == LoginSuccess(t)
    ensures Step(s, stored, a) == Outcome(
      AuthState(true, Some(t), None, s.user, false), Some(t))
  {
  }

  lemma FailBranch(s: AuthState, stored: Option<string>, m: string, a: Action)
    requires a == RegisterFail(m) || a == LoginFail(m)
    ensures Step(s, stored, a) == Outcome(
      AuthState(false, None, Some(Alert(m, "danger")), s.user, false), None)
  {
  }

  lemma AuthErrorBranch(s: AuthState, stored: Option<string>)
    ensures Step(s, stored, AuthError) == Outcome(AuthState(false, None, None, s.user, false), None)
  {
  }

  lemma UserLoadedBranch(s: AuthState, stored: Option<string>, u: UserRecord)
    ensures Step(s, stored, UserLoaded(u)) ==
      Outcome(AuthState(true, s.accessToken, None, Some(u), false), stored)
  {
  }

  lemma LogoutBranch(s: AuthState, stored: Option<string>)
    ensures Step(s, stored, Logout) == Outcome(AuthState(false, None, None, None, false), None)
  {
  }

  lemma RefreshTokenBranch(s: AuthState, stored: Option<string>, t: string)
    ensures Step(s, stored, RefreshToken(t)) ==
      Outcome(AuthState(s.isAuthenticated, Some(t), None, s.user, true), Some(t))
  {
  }

  /** CLEAR_ALERTS touches only the alert, and a second one changes nothing. */
  lemma ClearAlertsOnlyAlertIdempotent(s: AuthState, stored: Option<string>)
    ensures Step(s, stored, ClearAlerts) == Outcome(s.(alert := None), stored)
    ensures var o := Step(s, stored, ClearAlerts); Step(o.state, o.stored, ClearAlerts) == o
  {
  }

  lemma SetLoadingOnlyLoading(s: AuthState, stored: Option<string>, b: bool)
    ensures Step(s, stored, SetLoading(b)) == Outcome(s.(loading := b), stored)
  {
  }

  lemma DefaultBranch(s: AuthState, stored: Option<string>, tag: string)
    ensures Step(s, stored, Unrecognised(tag)) == Outcome(s, stored)
  {
  }

  // ---------------------------------------------------------------------------
  // Invariants across dispatches.

  /** The storage slot and the in-memory token agree. */
  predicate InSync(o: Outcome)
  {
    o.stored == o.state.accessToken
  }

  /** Every branch that writes `accessToken` writes the slot with the same value, and every
      branch that leaves one alone leaves the other alone; so agreement is kept forever. */
  lemma {:induction false} RunKeepsSlotInSync(s: AuthState, stored: Option<string>, actions: seq<Action>)
    requires InSync(Outcome(s, stored))
    ensures InSync(Run(s, stored, actions))
    decreases |actions|
  {
    if actions != [] {
      var o := Step(s, stored, actions[0]);
      assert InSync(o);
      RunKeepsSlotInSync(o.state, o.stored, actions[1..]);
    }
  }

  /** "Authenticated only with a token in hand". */
  predicate AuthenticatedHasToken(st: AuthState)
  {
    st.isAuthenticated ==> st.accessToken.Some?
  }

  /** Every action except USER_LOADED keeps "authenticated only with a token". */
  lemma {:induction false} RunKeepsAuthenticatedHasToken(s: AuthState, stored: Option<string>, actions: seq<Action>)
    requires AuthenticatedHasToken(s)
    requires forall i :: 0 <= i < |actions| ==> !actions[i].UserLoaded?
    ensures AuthenticatedHasToken(Run(s, stored, actions).state)
    decreases |actions|
  {
    if actions != [] {
      var o := Step(s, stored, actions[0]);
      assert !actions[0].UserLoaded?;
      RunKeepsAuthenticatedHasToken(o.state, o.stored, actions[1..]);
    }
  }

  /** USER_LOADED sets the flag whatever the token: it can break the property above. */
  lemma UserLoadedWithoutToken(u: UserRecord)
    ensures var s := AuthState(false, None, None, None, true);
            AuthenticatedHasToken(s) && !AuthenticatedHasToken(Step(s, None, UserLoaded(u)).state)
  {
  }

  /** REFRESH_TOKEN gives a token to a session that is not authenticated, so a token does not
      imply the flag either. */
  lemma RefreshWithoutAuthentication(t: string)
    ensures var s := AuthState(false, None, None, None, false);
            var o := Step(s, None, RefreshToken(t));
            o.state.accessToken == Some(t) && !o.state.isAuthenticated
  {
  }

  /** After LOGOUT, whatever came before, the session is empty. */
  lemma {:induction false} LogoutResets(s: AuthState, stored: Option<string>, before: seq<Action>)
    ensures var o := Run(s, stored, before + [Logout]);
            !o.state.isAuthenticated && o.state.accessToken == None && o.state.user == None
            && o.stored == None && o.state.alert == None && !o.state.loading
  {
    RunAppend(s, stored, before, [Logout]);
  }

  /** Dispatching two batches is dispatching their concatenation. */
  lemma {:induction false} RunAppend(s: AuthState, stored: Option<string>, xs: seq<Action>, ys: seq<Action>)
    ensures Run(s, stored, xs + ys) ==
      var o := Run(s, stored, xs); Run(o.state, o.stored, ys)
    decreases |xs|
  {
    if xs != [] {
      var o := Step(s, stored, xs[0]);
      assert (xs + ys)[0] == xs[0];
      assert (xs + ys)[1..] == xs[1..] + ys;
      RunAppend(o.state, o.stored, xs[1..], ys);
    } else {
      assert xs + ys == ys;
    }
  }

  // ---------------------------------------------------------------------------
  // Scenarios.

  lemma LoginScenario(user: Option<UserRecord>, alert: Option<Alert>, loading: bool)
    ensures var o := Step(AuthState(false, None, alert, user, loading), None, LoginSuccess("tok123"));
            o.state.isAuthenticated && o.state.accessToken == Some("tok123")
            && o.state.alert == None && !o.state.loading && o.stored == Some("tok123")
  {
  }

  lemma LogoutScenario(user: Option<UserRecord>, alert: Option<Alert>, loading: bool)
    ensures var o := Step(AuthState(true, Some("tok123"), alert, user, loading), Some("tok123"), Logout);
            !o.state.isAuthenticated && o.state.accessToken == None && o.state.user == None && o.stored == None
  {
  }
}
