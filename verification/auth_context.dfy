/**
 The authentication provider (`AuthProvider`): a two-field state machine over `user` and
 `loading`, driven by its mount effect and the `login` / `logout` functions it exposes. The
 context value holds exactly `user`, `login`, `logout` and `loading`; it offers no token accessor
 and never reads or writes the persisted token, so no operation here takes the storage.
 */
module AuthContext {
  import opened Js

  /** `user` is whatever `login` was last given (`None` is `null`); `loading` is true until mount. */
  datatype AuthState = AuthState(user: Option<string>, loading: bool)

  /** `useState(null)` and `useState(true)`. */
  const Initial := AuthState(None, true)

  /** The guards test `user` for truthiness. */
  predicate SignedIn(s: AuthState) {
    Truthy(s.user)
  }

  /** The mount effect: it only ends loading; it never restores a user. */
  function Bootstrap(s: AuthState): (r: AuthState)
    ensures !r.loading
    ensures r.user == s.user
  {
    s.(loading := false)
  }

  /** `login(userData)`: replaces the user, whatever it was. */
  function Login(s: AuthState, userData: string): (r: AuthState)
    ensures r.user == Some(userData)
    ensures r.loading == s.loading
    ensures userData != "" ==> SignedIn(r)
  {
    s.(user := Some(userData))
  }

  /** `logout()`: clears the user; the persisted token is left alone. */
  function Logout(s: AuthState): (r: AuthState)
    ensures !SignedIn(r) && r.user == None
    ensures r.loading == s.loading
  {
    s.(user := None)
  }

  /** The initial state is loading with nobody signed in; after mount nobody is signed in. */
  lemma BootstrapFromInitial()
    ensures Initial.loading && !SignedIn(Initial)
    ensures Bootstrap(Initial) == AuthState(None, false) && !SignedIn(Bootstrap(Initial))
  {
  }

  lemma LoginKeepsLast(s: AuthState, first: string, second: string)
    ensures Login(Login(s, first), second) == Login(s, second)
  {
  }

  lemma LogoutIdempotent(s: AuthState)
    ensures Logout(Logout(s)) == Logout(s)
  {
  }

  lemma BootstrapIdempotent(s: AuthState)
    ensures Bootstrap(Bootstrap(s)) == Bootstrap(s)
  {
  }

  // ---------------------------------------------------------------------------
  // Sequences of calls
  // ---------------------------------------------------------------------------

  datatype Call = CallLogin(userData: string) | CallLogout | Mount

  function Apply(s: AuthState, c: Call): AuthState {
    match c
    case CallLogin(v) => Login(s, v)
    case CallLogout => Logout(s)
    case Mount => Bootstrap(s)
  }

  /** The state after the calls, in order. */
  function Run(s: AuthState, calls: seq<Call>): AuthState
    decreases |calls|
  {
    if |calls| == 0 then s else Run(Apply(s, calls[0]), calls[1..])
  }

  /** Reference: the user is fixed by the last `login` or `logout` in the sequence, if any. */
  function LastUser(initial: Option<string>, calls: seq<Call>): Option<string>
    decreases |calls|
  {
    if |calls| == 0 then initial
    else match calls[|calls| - 1]
      case CallLogin(v) => Some(v)
      case CallLogout => None
      case Mount => LastUser(initial, calls[..|calls| - 1])
  }

  lemma {:induction false} RunSnoc(s: AuthState, calls: seq<Call>, c: Call)
    ensures Run(s, calls + [c]) == Apply(Run(s, calls), c)
    decreases |calls|
  {
    if |calls| > 0 {
      assert (calls + [c])[1..] == calls[1..] + [c];
      RunSnoc(Apply(s, calls[0]), calls[1..], c);
    }
  }

  /**
   For any sequence of calls, the user afterwards is the argument of the last `login` when no
   `logout` follows it, `null` when the last of them is a `logout`, and unchanged when there is
   neither.
   */
  lemma {:induction false} RunUser(s: AuthState, calls: seq<Call>)
    ensures Run(s, calls).user == LastUser(s.user, calls)
    decreases |calls|
  {
    if |calls| > 0 {
      var init := calls[..|calls| - 1];
      assert calls == init + [calls[|calls| - 1]];
      RunSnoc(s, init, calls[|calls| - 1]);
      RunUser(s, init);
    }
  }

  /** Loading ends exactly when the mount effect has run; login and logout never touch it. */
  lemma {:induction false} RunLoading(s: AuthState, calls: seq<Call>)
    ensures Run(s, calls).loading == (s.loading && Mount !in calls)
    decreases |calls|
  {
    if |calls| > 0 {
      RunLoading(Apply(s, calls[0]), calls[1..]);
      assert calls == [calls[0]] + calls[1..];
    }
  }
}
