/** The `App` component as a state machine: its six state fields, the events
    that reach it, and the transition each event makes (App.tsx:70-179).
    Every event is one atomic step; provider calls are represented by the
    request an event issues and by a later settlement event carrying the
    outcome. */
module AppModel {
  import opened Wrappers
  import opened Users
  import opened Todos
  import opened Screens

  /** The error code the sign-out handler recognises (App.tsx:166). */
  const NoCurrentUser: string := "auth/no-current-user"

  /** The login / sign-up form draft (App.tsx:75-80). */
  datatype FormState = FormState(email: string, password: string)

  /** The component's `useState` fields (App.tsx:71-81). */
  datatype AppState = AppState(
    loading: bool,
    submitLoading: bool,
    isCreatingAccount: bool,
    user: Option<User>,
    formState: FormState,
    todos: seq<Todo>)

  /** The initial values of the `useState` calls. */
  const Initial: AppState := AppState(true, false, false, None, FormState("", ""), [])

  /** A provider call issued by a submit handler. */
  datatype Call =
    | SignInWithEmailAndPassword(email: string, password: string)
    | CreateUserWithEmailAndPassword(email: string, password: string)

  /** What can happen to the screen. */
  datatype Event =
    | Mounted                                       // the mount effects have run
    | EmailChanged(text: string)                    // an e-mail input edited
    | PasswordChanged(text: string)                 // a password input edited
    | CreateAccountPressed
    | GoBackPressed
    | AuthStateChanged(userState: Option<AuthUser>) // a push from the auth listener
    | SnapshotReceived(docs: seq<Doc>)              // a push from the collection listener
    | LoginPressed
    | LoginSettled(login: Outcome<AuthUser>)
    | SignUpPressed
    | SignUpSettled(signUp: Outcome<AuthUser>)
    | GoogleSignInSettled(google: Outcome<GoogleUser>)
    | SignOutSettled(signOut: Outcome<()>)
    | TodoPressed(todo: Todo)

  /** `!formState.email || !formState.password` is false: both are non-empty. */
  predicate FieldsFilled(f: FormState)
  {
    f.email != "" && f.password != ""
  }

  /** The state after one event. */
  function Next(s: AppState, e: Event): AppState
  {
    match e
    // App.tsx:120: the auth effect clears `loading` right after subscribing.
    case Mounted => s.(loading := false)
    // App.tsx:192-193 and 231-232.
    case EmailChanged(text) => s.(formState := s.formState.(email := text))
    // App.tsx:201-202 and 240-241.
    case PasswordChanged(text) => s.(formState := s.formState.(password := text))
    // App.tsx:266.
    case CreateAccountPressed => s.(isCreatingAccount := true)
    // App.tsx:218.
    case GoBackPressed => s.(isCreatingAccount := false)
    // App.tsx:110-118: a null push leaves `user` as it is.
    case AuthStateChanged(userState) =>
      if userState.Some? then s.(user := Some(FromAuthUser(userState.value))) else s
    // App.tsx:87-93.
    case SnapshotReceived(docs) => s.(todos := Computed(docs))
    // App.tsx:125-131.
    case LoginPressed => if FieldsFilled(s.formState) then s.(submitLoading := true) else s
    // App.tsx:134-136: `finally` runs whatever the outcome.
    case LoginSettled(_) => s.(submitLoading := false)
    // App.tsx:139-145: the handler sets no state before the call.
    case SignUpPressed => s
    // App.tsx:147-149: only a resolved call has an effect.
    case SignUpSettled(outcome) =>
      if outcome.Success? then s.(isCreatingAccount := false) else s
    // App.tsx:152-160: a rejected step leaves the state as it is.
    case GoogleSignInSettled(outcome) =>
      if outcome.Success? then s.(user := Some(FromGoogleUser(outcome.value))) else s
    // App.tsx:162-170: only the recognised error code has an effect.
    case SignOutSettled(outcome) =>
      if outcome.Failure? && outcome.code == NoCurrentUser then s.(user := None) else s
    // App.tsx:172-179: the store write is commented out.
    case TodoPressed(todo) => s.(todos := ToggledList(s.todos, todo))
  }

  /** The provider call an event issues, if any. */
  function Request(s: AppState, e: Event): Option<Call>
  {
    match e
    case LoginPressed =>
      if FieldsFilled(s.formState)
      then Some(SignInWithEmailAndPassword(s.formState.email, s.formState.password))
      else None
    case SignUpPressed =>
      if FieldsFilled(s.formState)
      then Some(CreateUserWithEmailAndPassword(s.formState.email, s.formState.password))
      else None
    case _ => None
  }

  /** The screen rendered for a state. */
  function ScreenOf(s: AppState): Screen
  {
    Select(s.loading, s.isCreatingAccount, s.user)
  }

  /** The state after a sequence of events, the last one applied last. */
  function Run(s: AppState, es: seq<Event>): AppState
    decreases |es|
  {
    if es == [] then s else Next(Run(s, es[..|es| - 1]), es[|es| - 1])
  }

  // ---------------------------------------------------------------------
  // One event at a time
  // ---------------------------------------------------------------------

  /** A submit with an empty e-mail or password changes no field and calls
      no provider. */
  lemma EmptyFieldsSubmitIsIgnored(s: AppState, e: Event)
    requires e == LoginPressed || e == SignUpPressed
    requires s.formState.email == "" || s.formState.password == ""
    ensures Next(s, e) == s
    ensures Request(s, e) == None
  {
  }

  /** A login with both fields set turns the spinner on, calls the
      provider with the form's values, and sets nothing else. */
  lemma LoginStartsSpinner(s: AppState)
    requires FieldsFilled(s.formState)
    ensures Next(s, LoginPressed) == s.(submitLoading := true)
    ensures Request(s, LoginPressed) == Some(SignInWithEmailAndPassword(s.formState.email, s.formState.password))
  {
  }

  /** The login call's settlement turns the spinner off, whatever the
      outcome, and that is all it does: login never sets `user`. */
  lemma LoginSettlementStopsSpinner(s: AppState, outcome: Outcome<AuthUser>)
    ensures Next(s, LoginSettled(outcome)) == s.(submitLoading := false)
    ensures Next(s, LoginSettled(outcome)).user == s.user
    ensures Next(s, LoginPressed).user == s.user
  {
  }

  /** Neither submit has a guard against a second press: a login or a
      sign-up pressed again while the first call is in flight issues the
      same call again. */
  lemma NoDoubleSubmitGuard(s: AppState)
    requires FieldsFilled(s.formState)
    ensures Request(Next(s, LoginPressed), LoginPressed) == Request(s, LoginPressed) != None
    ensures Request(Next(s, SignUpPressed), SignUpPressed) == Request(s, SignUpPressed) != None
  {
  }

  /** A sign-up press changes nothing and calls the provider (when both
      fields are set); success of the call only leaves the sign-up form;
      failure changes nothing. `submitLoading` is never touched. */
  lemma SignUpTransitions(s: AppState, outcome: Outcome<AuthUser>)
    ensures Next(s, SignUpPressed) == s
    ensures FieldsFilled(s.formState) ==>
      Request(s, SignUpPressed) == Some(CreateUserWithEmailAndPassword(s.formState.email, s.formState.password))
    ensures Next(s, SignUpSettled(outcome)) == if outcome.Success? then s.(isCreatingAccount := false) else s
    ensures Next(s, SignUpSettled(outcome)).submitLoading == s.submitLoading
  {
  }

  /** Sign-out: the error `auth/no-current-user` clears the user; success
      or any other error leaves every field as it was. */
  lemma SignOutTransitions(s: AppState, outcome: Outcome<()>)
    ensures outcome == Failure(NoCurrentUser) ==> Next(s, SignOutSettled(outcome)) == s.(user := None)
    ensures outcome != Failure(NoCurrentUser) ==> Next(s, SignOutSettled(outcome)) == s
  {
  }

  /** An auth push with a user replaces `user` by exactly its projection; a
      null push changes nothing. */
  lemma AuthPushTransitions(s: AppState, userState: Option<AuthUser>)
    ensures userState.Some? ==>
      Next(s, AuthStateChanged(userState)) == s.(user := Some(User(userState.value.displayName, userState.value.email, userState.value.photoURL)))
    ensures userState.None? ==> Next(s, AuthStateChanged(userState)) == s
  {
  }

  /** A Google sign-in that resolves stores the Google user's name, e-mail
      and photo; a rejected one changes nothing. */
  lemma GoogleSignInTransitions(s: AppState, outcome: Outcome<GoogleUser>)
    ensures outcome.Success? ==>
      Next(s, GoogleSignInSettled(outcome)) == s.(user := Some(User(outcome.value.name, outcome.value.email, outcome.value.photo)))
    ensures outcome.Failure? ==> Next(s, GoogleSignInSettled(outcome)) == s
  {
  }

  /** A snapshot replaces `todos` wholesale, one entry per document in
      document order, and touches nothing else. */
  lemma SnapshotReplacesTodos(s: AppState, docs: seq<Doc>)
    ensures Next(s, SnapshotReceived(docs)) == s.(todos := Computed(docs))
    ensures |Next(s, SnapshotReceived(docs)).todos| == |docs|
    ensures forall k :: 0 <= k < |docs| ==> Next(s, SnapshotReceived(docs)).todos[k] == TodoOf(docs[k])
  {
    SnapshotIsTakenOver(docs);
  }

  /** A press on a todo keeps the list's length, flips the pressed entry,
      overwrites every other entry with the pressed todo, and touches no
      other field. */
  lemma TodoPressTransitions(s: AppState, t: Todo)
    ensures Next(s, TodoPressed(t)) == s.(todos := ToggledList(s.todos, t))
    ensures |Next(s, TodoPressed(t)).todos| == |s.todos|
    ensures forall k :: 0 <= k < |s.todos| ==>
      Next(s, TodoPressed(t)).todos[k] == if s.todos[k].id == t.id then Toggled(t) else t
  {
    ToggleRewritesEveryEntry(s.todos, t);
  }

  /** Form edits and the two navigation buttons each set one field. */
  lemma FormAndNavigationTransitions(s: AppState, text: string)
    ensures Next(s, EmailChanged(text)) == s.(formState := FormState(text, s.formState.password))
    ensures Next(s, PasswordChanged(text)) == s.(formState := FormState(s.formState.email, text))
    ensures Next(s, CreateAccountPressed) == s.(isCreatingAccount := true)
    ensures Next(s, GoBackPressed) == s.(isCreatingAccount := false)
    ensures Next(s, Mounted) == s.(loading := false)
  {
  }

  // ---------------------------------------------------------------------
  // Short scenarios
  // ---------------------------------------------------------------------

  /** There is no write-through: a pressed todo is flipped locally, and the
      next snapshot that still holds the old value puts it back. */
  lemma ToggleIsOverwrittenBySnapshot(s: AppState)
    ensures
      var docs := [Doc("a", DocData(None, Some("x"), Some(false)))];
      var s1 := Next(s, SnapshotReceived(docs));
      var s2 := Next(s1, TodoPressed(s1.todos[0]));
      var s3 := Next(s2, SnapshotReceived(docs));
      s1.todos == [Todo("a", Some("x"), Some(false))] &&
      s2.todos == [Todo("a", Some("x"), Some(true))] &&
      s3.todos == [Todo("a", Some("x"), Some(false))]
  {
    var docs := [Doc("a", DocData(None, Some("x"), Some(false)))];
    assert Computed(docs) == [TodoOf(docs[0])] + Computed([]);
    var t := Todo("a", Some("x"), Some(false));
    assert ToggledList([t], t) == [Toggled(t)] + ToggledList([], t);
  }

  /** A snapshot erases every local toggle made before it. */
  lemma SnapshotDiscardsToggle(s: AppState, t: Todo, docs: seq<Doc>)
    ensures Next(Next(s, TodoPressed(t)), SnapshotReceived(docs)) == Next(s, SnapshotReceived(docs))
  {
  }

  /** On the home screen, a successful sign-out followed by the provider's
      null push leaves the home screen showing: nothing clears `user`. */
  lemma SignOutSuccessStaysHome(s: AppState)
    requires ScreenOf(s) == Home
    ensures ScreenOf(Next(Next(s, SignOutSettled(Success(()))), AuthStateChanged(None))) == Home
    ensures ScreenOf(Next(s, SignOutSettled(Failure(NoCurrentUser)))) == LoginForm
  {
  }

  /** A successful sign-up returns to the login form until the provider
      pushes the new user, and then the home screen shows. */
  lemma SignUpThenPushShowsHome(s: AppState, u: AuthUser)
    requires ScreenOf(s) == SignUpForm && s.user == None
    ensures ScreenOf(Next(s, SignUpSettled(Success(u)))) == LoginForm
    ensures ScreenOf(Next(Next(s, SignUpSettled(Success(u))), AuthStateChanged(Some(u)))) == Home
  {
  }

  /** Google sign-in sets `user` locally and never involves the auth
      provider, which holds no session for it: from the login form, a
      resolved Google sign-in shows home, and the `auth/no-current-user`
      error that a later sign-out then gets shows the login form again. A
      successful sign-out would leave home showing. */
  lemma GoogleSignInThenSignOut(s: AppState, g: GoogleUser)
    requires ScreenOf(s) == LoginForm
    ensures ScreenOf(Next(s, GoogleSignInSettled(Success(g)))) == Home
    ensures Next(s, GoogleSignInSettled(Success(g))).user == Some(User(g.name, g.email, g.photo))
    ensures ScreenOf(Next(Next(s, GoogleSignInSettled(Success(g))), SignOutSettled(Failure(NoCurrentUser)))) == LoginForm
    ensures ScreenOf(Next(Next(s, GoogleSignInSettled(Success(g))), SignOutSettled(Success(())))) == Home
  {
  }

  // ---------------------------------------------------------------------
  // Any sequence of events
  // ---------------------------------------------------------------------

  /** `loading` is true exactly until the mount effect has run: once the
      blank screen is left it never comes back. */
  lemma {:induction false} LoadingUntilMounted(s: AppState, es: seq<Event>)
    ensures Run(s, es).loading <==> s.loading && Mounted !in es
  {
    if es != [] {
      var p := es[..|es| - 1];
      LoadingUntilMounted(s, p);
      assert es == p + [es[|es| - 1]];
      assert Mounted in es <==> Mounted in p || es[|es| - 1] == Mounted;
    }
  }

  /** The events that can change `user`. */
  predicate ChangesUser(e: Event)
  {
    || (e.AuthStateChanged? && e.userState.Some?)
    || (e.GoogleSignInSettled? && e.google.Success?)
    || e == SignOutSettled(Failure(NoCurrentUser))
  }

  /** Only an auth push with a user, a resolved Google sign-in and the
      `auth/no-current-user` sign-out error change `user`; in particular the
      e-mail login and sign-up never set it directly. */
  lemma {:induction false} UserChangesOnlyThroughIdentityEvents(s: AppState, es: seq<Event>)
    requires forall i :: 0 <= i < |es| ==> !ChangesUser(es[i])
    ensures Run(s, es).user == s.user
  {
    if es != [] {
      var p := es[..|es| - 1];
      assert forall i :: 0 <= i < |p| ==> p[i] == es[i];
      UserChangesOnlyThroughIdentityEvents(s, p);
    }
  }

  /** Once a user is set, only the `auth/no-current-user` sign-out error
      takes the screen's user away again: a successful sign-out and the
      listener's null push do not. */
  lemma {:induction false} UserStaysUntilNoCurrentUser(s: AppState, es: seq<Event>)
    requires s.user.Some?
    requires forall i :: 0 <= i < |es| ==> es[i] != SignOutSettled(Failure(NoCurrentUser))
    ensures Run(s, es).user.Some?
  {
    if es != [] {
      var p := es[..|es| - 1];
      assert forall i :: 0 <= i < |p| ==> p[i] == es[i];
      UserStaysUntilNoCurrentUser(s, p);
    }
  }

  /** No login settlement after position `i`. */
  ghost predicate UnsettledAfter(es: seq<Event>, i: int)
  {
    forall j :: 0 <= j < |es| && i < j ==> !es[j].LoginSettled?
  }

  /** A login was pressed at position `i` with both fields set. */
  ghost predicate LoginStartedAt(s: AppState, es: seq<Event>, i: int)
  {
    0 <= i < |es| && es[i] == LoginPressed && FieldsFilled(Run(s, es[..i]).formState)
  }

  /** The spinner's meaning: it was already on and no settlement came, or
      a login started with both fields set and no settlement came after.
      Any settlement counts, including that of an earlier login. */
  ghost predicate LoginInFlight(s: AppState, es: seq<Event>)
  {
    || (s.submitLoading && UnsettledAfter(es, -1))
    || exists i :: LoginStartedAt(s, es, i) && UnsettledAfter(es, i)
  }

  /** A settlement as the last event ends every login in flight. */
  lemma SettlementEndsFlight(s: AppState, es: seq<Event>)
    requires es != [] && es[|es| - 1].LoginSettled?
    ensures !LoginInFlight(s, es)
  {
    assert !UnsettledAfter(es, -1);
    forall i | LoginStartedAt(s, es, i)
      ensures !UnsettledAfter(es, i)
    {
      assert i < |es| - 1;
    }
  }

  /** Any other last event, unless it starts a login, neither starts nor
      ends one. */
  lemma OtherEventKeepsFlight(s: AppState, es: seq<Event>)
    requires es != [] && !es[|es| - 1].LoginSettled?
    requires !LoginStartedAt(s, es, |es| - 1)
    ensures LoginInFlight(s, es) == LoginInFlight(s, es[..|es| - 1])
  {
    var p := es[..|es| - 1];
    assert UnsettledAfter(es, -1) == UnsettledAfter(p, -1);
    forall i | 0 <= i < |p|
      ensures LoginStartedAt(s, es, i) == LoginStartedAt(s, p, i)
      ensures UnsettledAfter(es, i) == UnsettledAfter(p, i)
    {
      assert es[..i] == p[..i];
    }
    if LoginInFlight(s, p) && !(s.submitLoading && UnsettledAfter(p, -1)) {
      var i :| LoginStartedAt(s, p, i) && UnsettledAfter(p, i);
      assert LoginStartedAt(s, es, i) && UnsettledAfter(es, i);
    }
    if LoginInFlight(s, es) && !(s.submitLoading && UnsettledAfter(es, -1)) {
      var i :| LoginStartedAt(s, es, i) && UnsettledAfter(es, i);
      assert LoginStartedAt(s, p, i) && UnsettledAfter(p, i);
    }
  }

  /** `submitLoading` is on after a run exactly when a login is in flight
      in the sense of `LoginInFlight`. */
  lemma {:induction false} SpinnerTracksLogin(s: AppState, es: seq<Event>)
    ensures Run(s, es).submitLoading == LoginInFlight(s, es)
  {
    if es == [] {
      assert UnsettledAfter(es, -1);
    } else {
      var p := es[..|es| - 1];
      var e := es[|es| - 1];
      SpinnerTracksLogin(s, p);
      if e.LoginSettled? {
        SettlementEndsFlight(s, es);
      } else if LoginStartedAt(s, es, |es| - 1) {
        assert UnsettledAfter(es, |es| - 1);
      } else {
        OtherEventKeepsFlight(s, es);
      }
    }
  }
}
