/** Which of the four screens the component renders (App.tsx:181-304). */
module Screens {
  import opened Wrappers
  import opened Users

  /** `null`, the sign-up form, the login form, and the home screen. */
  datatype Screen = Blank | SignUpForm | LoginForm | Home

  /** The early returns of the render, in their order. */
  function Select(loading: bool, isCreatingAccount: bool, user: Option<User>): Screen
  {
    if loading then Blank
    else if isCreatingAccount then SignUpForm
    else if user == None then LoginForm
    else Home
  }

  /** Each screen is shown exactly under its condition: loading first, then
      the sign-up flag (even with a user), then the absence of a user. */
  lemma ScreenPriority(loading: bool, isCreatingAccount: bool, user: Option<User>)
    ensures Select(loading, isCreatingAccount, user) == Blank <==> loading
    ensures Select(loading, isCreatingAccount, user) == SignUpForm <==> !loading && isCreatingAccount
    ensures Select(loading, isCreatingAccount, user) == LoginForm <==> !loading && !isCreatingAccount && user.None?
    ensures Select(loading, isCreatingAccount, user) == Home <==> !loading && !isCreatingAccount && user.Some?
  {
  }
}
