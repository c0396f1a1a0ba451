/** The `App` component itself: its state fields, updated in place by its
    handlers and subscription callbacks (App.tsx:70-179). Each method is one
    event; its contract ties the new fields to `AppModel.Next` of the old
    ones and states the fields it sets. */
module AppComponent {
  import opened Wrappers
  import opened Users
  import opened Todos
  import opened Screens
  import opened AppModel

  class App {
    var loading: bool
    var submitLoading: bool
    var isCreatingAccount: bool
    var user: Option<User>
    var formState: FormState
    var todos: seq<Todo>

    /** The fields as one value. */
    function State(): AppState
      reads this
    {
      AppState(loading, submitLoading, isCreatingAccount, user, formState, todos)
    }

    /** The screen the render returns for the current fields. */
    function CurrentScreen(): Screen
      reads this
    {
      ScreenOf(State())
    }

    /** The initial `useState` values: loading, no user, empty form, no todos. */
    constructor ()
      ensures State() == Initial
      ensures CurrentScreen() == Blank
    {
      loading := true;
      submitLoading := false;
      isCreatingAccount := false;
      user := None;
      formState := FormState("", "");
      todos := [];
    }

    /** The mount effects: subscribing and then `setLoading(false)`. */
    method Mount()
      modifies this
      ensures State() == Next(old(State()), Mounted)
      ensures !loading && CurrentScreen() != Blank
    {
      loading := false;
    }

    /** The e-mail input's `onChangeText`. */
    method OnEmailChange(text: string)
      modifies this
      ensures State() == Next(old(State()), EmailChanged(text))
      ensures formState == FormState(text, old(formState.password))
    {
      formState := formState.(email := text);
    }

    /** The password input's `onChangeText`. */
    method OnPasswordChange(text: string)
      modifies this
      ensures State() == Next(old(State()), PasswordChanged(text))
      ensures formState == FormState(old(formState.email), text)
    {
      formState := formState.(password := text);
    }

    /** "Create an account". */
    method OnCreateAccountPress()
      modifies this
      ensures State() == Next(old(State()), CreateAccountPressed)
      ensures isCreatingAccount
    {
      isCreatingAccount := true;
    }

    /** "Go back". */
    method OnGoBackPress()
      modifies this
      ensures State() == Next(old(State()), GoBackPressed)
      ensures !isCreatingAccount
    {
      isCreatingAccount := false;
    }

    /** The auth-state listener: a user replaces `user` by its projection. */
    method OnAuthStateChanged(userState: Option<AuthUser>)
      modifies this
      ensures State() == Next(old(State()), AuthStateChanged(userState))
      ensures user == if userState.Some? then Some(FromAuthUser(userState.value)) else old(user)
    {
      if userState.Some? {
        user := Some(FromAuthUser(userState.value));
      }
    }

    /** The collection listener: the snapshot's documents become `todos`. */
    method OnSnapshot(docs: seq<Doc>)
      modifies this
      ensures State() == Next(old(State()), SnapshotReceived(docs))
      ensures |todos| == |docs|
    {
      todos := Computed(docs);
    }

    /** `handleLogin`: with both fields set, turn the spinner on and call
        the provider; otherwise alert and return. */
    method HandleLogin() returns (call: Option<Call>)
      modifies this
      ensures State() == Next(old(State()), LoginPressed)
      ensures call == Request(old(State()), LoginPressed)
      ensures call.Some? <==> old(FieldsFilled(formState))
      ensures submitLoading == (old(submitLoading) || call.Some?)
    {
      if !FieldsFilled(formState) {
        call := None;
        return;
      }
      submitLoading := true;
      call := Some(SignInWithEmailAndPassword(formState.email, formState.password));
    }

    /** The `finally` of the login call. */
    method OnLoginSettled(outcome: Outcome<AuthUser>)
      modifies this
      ensures State() == Next(old(State()), LoginSettled(outcome))
      ensures !submitLoading && user == old(user)
    {
      submitLoading := false;
    }

    /** `handleSignup`: with both fields set, call the provider. */
    method HandleSignup() returns (call: Option<Call>)
      modifies this
      ensures State() == Next(old(State()), SignUpPressed)
      ensures State() == old(State())
      ensures call == Request(old(State()), SignUpPressed)
      ensures call.Some? <==> old(FieldsFilled(formState))
    {
      if !FieldsFilled(formState) {
        call := None;
        return;
      }
      call := Some(CreateUserWithEmailAndPassword(formState.email, formState.password));
    }

    /** The `then` of the sign-up call (a rejection has no handler). */
    method OnSignupSettled(outcome: Outcome<AuthUser>)
      modifies this
      ensures State() == Next(old(State()), SignUpSettled(outcome))
      ensures submitLoading == old(submitLoading)
    {
      if outcome.Success? {
        isCreatingAccount := false;
      }
    }

    /** `handleGoogleSigin` once both awaited calls have settled. */
    method HandleGoogleSignIn(outcome: Outcome<GoogleUser>)
      modifies this
      ensures State() == Next(old(State()), GoogleSignInSettled(outcome))
      ensures user == if outcome.Success? then Some(FromGoogleUser(outcome.value)) else old(user)
    {
      if outcome.Success? {
        user := Some(FromGoogleUser(outcome.value));
      }
    }

    /** `handleSignout` once the sign-out call has settled. */
    method HandleSignout(outcome: Outcome<()>)
      modifies this
      ensures State() == Next(old(State()), SignOutSettled(outcome))
      ensures user == if outcome == Failure(NoCurrentUser) then None else old(user)
    {
      match outcome
      case Success(_) =>
      case Failure(code) =>
        if code == NoCurrentUser {
          user := None;
        }
    }

    /** `toggleTodo`: rewrite the previous list through the updater. */
    method ToggleTodo(todo: Todo)
      modifies this
      ensures State() == Next(old(State()), TodoPressed(todo))
      ensures |todos| == |old(todos)|
      ensures forall k :: 0 <= k < |todos| ==> todos[k].id == todo.id
    {
      todos := ToggledList(todos, todo);
      ToggleRewritesEveryEntry(old(todos), todo);
    }
  }

  /** A short session against the class: mount, type, log in, settle, and
      the provider's push brings up the home screen. */
  method LoginSession(u: AuthUser)
  {
    var app := new App();
    app.Mount();
    app.OnEmailChange("a@b.c");
    app.OnPasswordChange("pw");
    var call := app.HandleLogin();
    assert call == Some(SignInWithEmailAndPassword("a@b.c", "pw"));
    assert app.submitLoading && app.CurrentScreen() == LoginForm;
    app.OnLoginSettled(Success(u));
    assert !app.submitLoading && app.CurrentScreen() == LoginForm;
    app.OnAuthStateChanged(Some(u));
    assert app.CurrentScreen() == Home;
  }
}
