# App screen state machine

A model of the single screen component `App` of a React Native client. Its
e-mail sign-in, e-mail sign-up and sign-out go to Firebase Authentication,
whose auth-state listener pushes the signed-in user to the screen. Its
Google sign-in only fetches a Google profile and sets `user` locally; it
never signs in to Firebase, so Firebase holds no session for that user. The
screen also shows a Firestore `todos` collection that it keeps in sync
through a realtime listener.

The component keeps six `useState` fields: `loading`, `submitLoading`,
`isCreatingAccount`, `user`, `formState` and `todos`. Each handler, button and
subscription callback is one event that updates some of them.

- `AppModel` holds the fields as the value `AppState`. `Next(state, event)` is
  the transition each event makes. `Request(state, event)` is the provider
  call a submit issues. `Run` folds a sequence of events. `ScreenOf` picks the
  screen to render.
- `AppComponent.App` is the component as a class. Its fields are updated in
  place by one method per event, and each method's contract ties the new
  fields to `Next` of the old ones. The method `AppComponent.LoginSession`
  is a client of the class: it shows that the method contracts alone are
  enough to prove a mount, login and push session ends on the home screen.
- `Todos` holds the two list transforms: the snapshot `docs.map` and the
  toggle `prevState.map`. `Screens` holds the render's choice of screen.
  `Users` holds the user record and its two projections.

Provider calls are not modelled as code. Every Firebase and Google call
becomes its settlement: an `Outcome` value (success, or failure with an
error-code string) passed to a settlement event. A submit returns the call
it would make, or `None` when it makes no call.

The model follows the code as written, including these behaviours:
- Neither submit handler guards against a second press.
- `loading` is cleared at mount, not on the first auth event.
- The auth listener never clears `user`, so after a successful sign-out the
  home screen stays.
- Sign-up never touches `submitLoading`.
- `toggleTodo` writes the pressed todo into every non-matching position.
- A toggle is never written back to the store, and there is no local
  overlay or version counter: a snapshot replaces the list and erases local
  toggles.
- A successful sign-up only leaves the sign-up form; the user arrives with
  the listener's push.
- A successful sign-out changes no state.
- The form draft is never cleared.
- In `{id: doc.id, ...doc.data()}` the spread comes second, so an `id` field
  stored in a document's data wins over the document id.

## Model

| member | source | states |
|---|---|---|
| `AppModel.Next` | App.tsx:87-179 | no contract; the body gives the new fields for each event, one case per handler, button and listener callback |
| `AppModel.Request` | App.tsx:125-146 | no contract; the body gives the provider call a submit makes: sign-in at App.tsx:132-133 or create-user at App.tsx:145-146, with the form's values, and none when a field is empty |
| `AppModel.FieldsFilled` | App.tsx:126 | no contract; the body holds exactly when the submit guard, also at App.tsx:140, lets the submit through: e-mail and password are both non-empty strings |
| `AppModel.ScreenOf` | App.tsx:181-271 | no contract; the body applies `Screens.Select` to a state's `loading`, `isCreatingAccount` and `user` |
| `Screens.Select` | App.tsx:181-271 | no contract; the body is the render's early returns in order: blank while loading, then the sign-up form, then the login form without a user, else home |
| `Todos.TodoOf` | App.tsx:88-91 | no contract; the body builds `{id: doc.id, ...doc.data()}`, where an `id` in the data wins over the document id |
| `Todos.Negated` | App.tsx:175 | no contract; the body is JavaScript `!` on an optional boolean: an absent flag gives true |
| `Todos.Toggled` | App.tsx:175 | no contract; the body is `{...todo, isDone: !todo.isDone}` |
| `Users.FromAuthUser` | App.tsx:112-116 | no contract; the body keeps the pushed user's `displayName`, `email` and `photoURL` |
| `Users.FromGoogleUser` | App.tsx:155-159 | no contract; the body stores the Google user's `name`, `email` and `photo` as `displayName`, `email` and `photoURL` |
| `AppModel.GoogleSignInThenSignOut` | App.tsx:152-170 | from the login form, a resolved Google sign-in shows home with the Google profile; a following `auth/no-current-user` sign-out error shows the login form, while a successful sign-out would leave home showing |
| `AppComponent.App.constructor` | App.tsx:71-81 | the initial fields: loading, no spinner, not creating an account, no user, empty form, no todos; the blank screen shows |
| `AppComponent.App.Mount` | App.tsx:109-123 | the mount effect clears `loading` and nothing else, so the blank screen is left |
| `AppComponent.App.OnEmailChange` | App.tsx:192-193 | sets the form's e-mail and keeps its password; no other field changes |
| `AppComponent.App.OnPasswordChange` | App.tsx:201-202 | sets the form's password and keeps its e-mail; no other field changes |
| `AppComponent.App.OnCreateAccountPress` | App.tsx:264-268 | sets `isCreatingAccount`; no other field changes |
| `AppComponent.App.OnGoBackPress` | App.tsx:215-219 | clears `isCreatingAccount`; no other field changes |
| `AppComponent.App.OnAuthStateChanged` | App.tsx:110-118 | a push with a user stores its projection; a null push keeps `user`; nothing else changes |
| `AppComponent.App.OnSnapshot` | App.tsx:87-94 | `todos` becomes the snapshot's documents, one per document; nothing else changes |
| `AppComponent.App.HandleLogin` | App.tsx:125-133 | a call is made exactly when both fields are non-empty, with the form's values; the spinner is turned on exactly then; nothing else changes |
| `AppComponent.App.OnLoginSettled` | App.tsx:134-136 | any settlement turns the spinner off; `user` is unchanged |
| `AppComponent.App.HandleSignup` | App.tsx:139-146 | no field changes; a call is made exactly when both fields are non-empty |
| `AppComponent.App.OnSignupSettled` | App.tsx:147-149 | success leaves the sign-up form; failure changes nothing; the spinner is untouched |
| `AppComponent.App.HandleGoogleSignIn` | App.tsx:152-160 | a resolved sign-in stores the Google user's name, e-mail and photo; a rejection changes nothing |
| `AppComponent.App.HandleSignout` | App.tsx:162-170 | `auth/no-current-user` clears `user`; success or any other error changes nothing |
| `AppComponent.App.ToggleTodo` | App.tsx:172-179 | the list keeps its length and every entry takes the pressed todo's id; no other field changes |
| `Todos.Computed` | App.tsx:88-91 | the computed list has one entry per document |
| `Todos.ComputedAt` | App.tsx:88-91 | entry k of the computed list is built from document k |
| `Todos.SnapshotIsTakenOver` | App.tsx:87-93 | same length and order; each entry has its document's title and flag, and its document's id unless the data stores its own `id` |
| `Todos.SnapshotIdsAreDocIds` | App.tsx:88-91 | when no document's data stores an `id`, the entry ids are the document ids, in order |
| `Todos.ToggledList` | App.tsx:173-176 | the toggled list has the same length as the old one |
| `Todos.ToggledListAt` | App.tsx:174-175 | entry k is the pressed todo with its flag negated when the old entry's id matches, and the pressed todo itself otherwise |
| `Todos.ToggleRewritesEveryEntry` | App.tsx:172-177 | length is kept; every entry has the pressed todo's id and title; matching positions get the negated flag; other positions become the pressed todo |
| `Todos.PressedEntryFlips` | App.tsx:175 | pressing an entry of the list flips that entry's flag, with absent becoming true, and keeps its id and title |
| `Todos.OtherEntriesAreOverwritten` | App.tsx:175 | an entry whose id differs from the pressed todo's becomes the pressed todo and loses its own value |
| `Screens.ScreenPriority` | App.tsx:181-304 | blank exactly when loading; else sign-up form exactly when creating an account, even with a user; else login form exactly when there is no user; else home |
| `AppModel.EmptyFieldsSubmitIsIgnored` | App.tsx:125-129 | a login or sign-up with an empty e-mail or password changes no field and makes no call (agrees with App.tsx:139-143) |
| `AppModel.LoginStartsSpinner` | App.tsx:125-133 | a login with both fields set turns only the spinner on and calls sign-in with the form's values |
| `AppModel.LoginSettlementStopsSpinner` | App.tsx:131-136 | whatever the outcome, the settlement turns only the spinner off; neither login step sets `user` |
| `AppModel.NoDoubleSubmitGuard` | App.tsx:125-146 | a second login or sign-up press while the first call is in flight issues the same call again |
| `AppModel.SignUpTransitions` | App.tsx:139-150 | the press changes nothing and calls sign-up; success only leaves the sign-up form; failure changes nothing; the spinner is never touched |
| `AppModel.SignOutTransitions` | App.tsx:162-170 | `auth/no-current-user` sets `user` to none and nothing else; success or any other error leaves all fields unchanged |
| `AppModel.AuthPushTransitions` | App.tsx:110-118 | a push with a user replaces `user` by exactly its display name, e-mail and photo URL; a null push changes nothing |
| `AppModel.GoogleSignInTransitions` | App.tsx:152-160 | a resolved sign-in replaces `user` by the Google user's name, e-mail and photo; a rejection changes nothing |
| `AppModel.SnapshotReplacesTodos` | App.tsx:87-93 | a snapshot replaces `todos` wholesale, entry k from document k, and changes no other field |
| `AppModel.TodoPressTransitions` | App.tsx:172-179 | a press keeps the list length, flips matching positions, writes the pressed todo elsewhere, and changes no other field |
| `AppModel.FormAndNavigationTransitions` | App.tsx:192-266 | each edit sets one form field; the two buttons set or clear `isCreatingAccount`; mount clears `loading` |
| `AppModel.ToggleIsOverwrittenBySnapshot` | App.tsx:87-93 | snapshot `a,x,false`, then a press on `a`, gives `a,x,true`; the same snapshot again gives `a,x,false`, because the write at App.tsx:178 is commented out |
| `AppModel.SnapshotDiscardsToggle` | App.tsx:172-179 | a snapshot after a press gives the same state as the snapshot alone |
| `AppModel.SignOutSuccessStaysHome` | App.tsx:110-118 | from home, a successful sign-out followed by a null auth push still shows home; the `auth/no-current-user` error shows the login form (App.tsx:162-170) |
| `AppModel.SignUpThenPushShowsHome` | App.tsx:139-150 | from a fresh sign-up form, success shows the login form, and the provider's push of the new user then shows home |
| `AppModel.LoadingUntilMounted` | App.tsx:109-123 | after any events, `loading` holds exactly when it held at the start and no mount event occurred; the blank screen is never re-entered |
| `AppModel.UserChangesOnlyThroughIdentityEvents` | App.tsx:110-170 | events other than a user push, a resolved Google sign-in and the `auth/no-current-user` error never change `user`; login and sign-up never set it |
| `AppModel.UserStaysUntilNoCurrentUser` | App.tsx:110-170 | once a user is set, it stays set through any events without the `auth/no-current-user` sign-out error |
| `AppModel.SpinnerTracksLogin` | App.tsx:125-137 | after any events, the spinner is on exactly when either it was on and no login settled, or a login with both fields set was pressed and no login settled afterwards |

## Left out

- Styles, JSX layout, Avatar, CheckBox and Text rendering, and the greeting text (App.tsx:13-48 and the render beyond its choice of screen): presentation only.
- The Firebase and Google SDKs: `auth()`, `firestore()`, `GoogleSignin.configure` and `hasPlayServices` (App.tsx:3-11, 153) are foreign code. Their results enter the model only as `Outcome` values.
- The per-document subscription at App.tsx:99-104: it only logs, and never changes state.
- `console.log` and `Alert.alert` (App.tsx:92, 103, 127, 141): I/O. The validation alert appears only as the absent call returned by `HandleLogin` and `HandleSignup`.
- Subscription lifetime and unsubscribe (App.tsx:106, 122): these concern concurrency and event-loop timing. Each event is one atomic step, and any event may follow any other. This allows more orders than the UI allows, since an input can only be edited while its form is shown. Every property above therefore also holds for the orders the UI allows.
- Document data is modelled by the three fields a `Todo` can hold (`id`, `title`, `isDone`), each with its declared type. Other stored fields, and fields of another type, are copied by the spread in the source but are not modelled.
- A press event stands for the handler being called. The "Sign in" and "Sign up" buttons get `loading={submitLoading}` (App.tsx:210, 250), and what that button widget does with presses while `loading` is set is not modelled: its code is not part of this model.
- Unhandled promise rejections: a rejected login re-raises from `finally`, and a rejected sign-up has no handler. These change no state and are modelled as the settlement alone.
