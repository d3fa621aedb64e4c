/**
 * The rules of `screens/AuthScreen.kt`: the login/register mode and the
 * fields it keeps, when the submit button is enabled, what a submit asks the
 * view model for, what a successful sign-in does, and when the error text
 * shows.
 */
module AuthScreen {
  import opened Common
  import opened Text
  import opened AuthRepository
  import opened UserManager
  import opened AuthViewModel

  /** The button is enabled for non-blank credentials (and confirmation, when registering) while no call runs. */
  predicate SubmitEnabled(isLogin: bool, username: string, password: string, confirmPassword: string, state: AuthState): (enabled: bool)
    ensures enabled <==> !state.Loading? && Trim(username) != [] && Trim(password) != []
                         && (isLogin || Trim(confirmPassword) != [])
  {
    BlankIffTrimEmpty(username);
    BlankIffTrimEmpty(password);
    BlankIffTrimEmpty(confirmPassword);
    !IsBlank(username) && !IsBlank(password) && (isLogin || !IsBlank(confirmPassword)) && !state.Loading?
  }

  /** Nothing can be submitted while a call runs, nor with a blank name or password. */
  lemma SubmitNeedsCredentials(isLogin: bool, username: string, password: string, confirmPassword: string, state: AuthState)
    requires SubmitEnabled(isLogin, username, password, confirmPassword, state)
    ensures !state.Loading?
    ensures Trim(username) != [] && Trim(password) != []
    ensures !isLogin ==> Trim(confirmPassword) != []
  {
    BlankIffTrimEmpty(username);
    BlankIffTrimEmpty(password);
    BlankIffTrimEmpty(confirmPassword);
  }

  /** The confirmation never matters in login mode. */
  lemma LoginIgnoresConfirmation(username: string, password: string, c1: string, c2: string, state: AuthState)
    ensures SubmitEnabled(true, username, password, c1, state) == SubmitEnabled(true, username, password, c2, state)
  {
  }

  /** The error line: the message of an `Error`, and nothing in every other state. */
  function ErrorLine(state: AuthState): (line: Option<string>)
    ensures line.Some? <==> state.Error?
    ensures state.Error? ==> line.value == state.message
  {
    if state.Error? then Some(state.message) else None
  }

  class AuthScreenState {
    var isLogin: bool
    var username: string
    var password: string
    var confirmPassword: string
    var showPassword: bool
    var showConfirmPassword: bool

    /** The screen opens in login mode with empty fields and hidden passwords. */
    constructor ()
      ensures isLogin && username == "" && password == "" && confirmPassword == ""
      ensures !showPassword && !showConfirmPassword
    {
      isLogin := true;
      username := "";
      password := "";
      confirmPassword := "";
      showPassword := false;
      showConfirmPassword := false;
    }

    /** The mode link flips the mode and keeps every field as typed. */
    method OnSwitchMode()
      modifies this
      ensures isLogin == !old(isLogin)
      ensures username == old(username) && password == old(password) && confirmPassword == old(confirmPassword)
      ensures showPassword == old(showPassword) && showConfirmPassword == old(showConfirmPassword)
    {
      isLogin := !isLogin;
    }

    /** Typing replaces the user name and nothing else. */
    method OnUsernameChange(text: string)
      modifies this
      ensures username == text && password == old(password) && confirmPassword == old(confirmPassword)
      ensures isLogin == old(isLogin) && showPassword == old(showPassword) && showConfirmPassword == old(showConfirmPassword)
    {
      username := text;
    }

    /** Typing replaces the password and nothing else. */
    method OnPasswordChange(text: string)
      modifies this
      ensures password == text && username == old(username) && confirmPassword == old(confirmPassword)
      ensures isLogin == old(isLogin) && showPassword == old(showPassword) && showConfirmPassword == old(showConfirmPassword)
    {
      password := text;
    }

    /** Typing replaces the confirmation and nothing else. */
    method OnConfirmPasswordChange(text: string)
      modifies this
      ensures confirmPassword == text && username == old(username) && password == old(password)
      ensures isLogin == old(isLogin) && showPassword == old(showPassword) && showConfirmPassword == old(showConfirmPassword)
    {
      confirmPassword := text;
    }

    /** The eye icons toggle whether a password shows in clear. */
    method OnToggleVisibility(confirmField: bool)
      modifies this
      ensures confirmField ==> showConfirmPassword == !old(showConfirmPassword) && showPassword == old(showPassword)
      ensures !confirmField ==> showPassword == !old(showPassword) && showConfirmPassword == old(showConfirmPassword)
      ensures isLogin == old(isLogin) && username == old(username)
      ensures password == old(password) && confirmPassword == old(confirmPassword)
    {
      if confirmField {
        showConfirmPassword := !showConfirmPassword;
      } else {
        showPassword := !showPassword;
      }
    }

    /** The button's state for the fields as they stand. */
    function Enabled(state: AuthState): (enabled: bool)
      reads this
      ensures enabled <==> !state.Loading? && Trim(username) != [] && Trim(password) != []
                           && (isLogin || Trim(confirmPassword) != [])
    {
      SubmitEnabled(isLogin, username, password, confirmPassword, state)
    }

    /**
     * The button: in login mode `login(username, password)`, otherwise
     * `register(username, password, confirmPassword)`; the fields are not
     * touched.
     */
    method Submit(vm: AuthController, outcome: Outcome<int>) returns (call: Option<AuthCall>)
      modifies vm
      ensures isLogin ==> call == Some(LoginCall(username, password))
                          && vm.authState == SettleAuth(outcome, "登录失败")
      ensures !isLogin && password == confirmPassword ==>
                call == Some(RegisterCall(username, password, confirmPassword))
                && vm.authState == SettleAuth(outcome, "注册失败")
      ensures !isLogin && password != confirmPassword ==>
                call == None && vm.authState == Error(PASSWORD_MISMATCH)
    {
      if isLogin {
        var c := vm.Login(username, password, outcome);
        call := Some(c);
      } else {
        call := vm.Register(username, password, confirmPassword, outcome);
      }
    }

    /**
     * The reaction to a new auth state: on `Success(userId)` the user is
     * saved under the name now in the field, then the screen navigates home;
     * every other state does nothing.
     */
    method OnAuthState(vm: AuthController, session: UserStore) returns (navigateHome: bool)
      requires session.Valid()
      modifies session
      ensures session.Valid()
      ensures navigateHome <==> vm.authState.Success?
      ensures vm.authState.Success? ==>
                session.prefs == old(session.prefs)[KEY_USER_ID := IntPref(vm.authState.userId)]
                                                   [KEY_USERNAME := StringPref(username)]
                                                   [KEY_TOKEN := StringPref(IntToString(vm.authState.userId))]
                && session.GetToken() == Some(IntToString(vm.authState.userId))
      ensures !vm.authState.Success? ==> session.prefs == old(session.prefs)
      ensures session.currentUser == old(session.currentUser)
    {
      navigateHome := false;
      if vm.authState.Success? {
        vm.SaveUserInfo(session, vm.authState.userId, username);
        navigateHome := true;
      }
    }
  }
}
