/**
 * `auth/AuthViewModel.kt`: the login/registration state machine. A method is
 * given the outcome of the repository call it makes and returns that call
 * (none when it makes no call).
 */
module AuthViewModel {
  import opened Common
  import opened Text
  import opened AuthRepository
  import opened UserManager

  datatype AuthState = Idle | Loading | Success(userId: int) | Error(message: string)

  /** The state a finished call settles in. */
  function SettleAuth(o: Outcome<int>, fallback: string): (s: AuthState)
    ensures s.Success? <==> o.Ok?
    ensures o.Ok? ==> s.userId == o.value
    ensures o.Fail? ==> s == Error(o.MessageOr(fallback))
  {
    match o
    case Ok(id) => Success(id)
    case Fail(_) => Error(o.MessageOr(fallback))
  }

  const PASSWORD_MISMATCH: string := "两次输入的密码不一致"

  class AuthController {
    var authState: AuthState
    /** Every value assigned to the state, in order. */
    ghost var trace: seq<AuthState>

    constructor ()
      ensures authState == Idle && trace == []
    {
      authState := Idle;
      trace := [];
    }

    /** `login`: shows `Loading`, calls the repository, then settles with default "登录失败". */
    method Login(username: string, password: string, outcome: Outcome<int>) returns (call: AuthCall)
      modifies this
      ensures call == LoginCall(username, password)
      ensures authState == SettleAuth(outcome, "登录失败")
      ensures trace == old(trace) + [Loading, authState]
    {
      authState := Loading;
      trace := trace + [Loading];
      call := LoginCall(username, password);
      authState := SettleAuth(outcome, "登录失败");
      trace := trace + [authState];
    }

    /**
     * `register`: mismatched passwords are an error at once, with no
     * `Loading` and no call; otherwise as `login`, with default "注册失败".
     */
    method Register(username: string, password: string, confirmPassword: string, outcome: Outcome<int>)
      returns (call: Option<AuthCall>)
      modifies this
      ensures password != confirmPassword ==>
                call == None && authState == Error(PASSWORD_MISMATCH) && trace == old(trace) + [authState]
      ensures password == confirmPassword ==>
                call == Some(RegisterCall(username, password, confirmPassword))
                && authState == SettleAuth(outcome, "注册失败")
                && trace == old(trace) + [Loading, authState]
    {
      if password != confirmPassword {
        authState := Error(PASSWORD_MISMATCH);
        trace := trace + [authState];
        return None;
      }
      authState := Loading;
      trace := trace + [Loading];
      call := Some(RegisterCall(username, password, confirmPassword));
      authState := SettleAuth(outcome, "注册失败");
      trace := trace + [authState];
    }

    /** `saveUserInfo`: stores the user with the decimal text of the id as the token. */
    method SaveUserInfo(session: UserStore, userId: int, username: string)
      requires session.Valid()
      modifies session
      ensures session.Valid()
      ensures session.prefs == old(session.prefs)[KEY_USER_ID := IntPref(userId)][KEY_USERNAME := StringPref(username)]
                                                 [KEY_TOKEN := StringPref(IntToString(userId))]
      ensures session.currentUser == old(session.currentUser)
      ensures session.GetToken() == Some(IntToString(userId))
    {
      session.SaveUserInfo(userId, username, IntToString(userId));
    }

    /** `clearUserInfo`: signs the user out of the store. */
    method ClearUserInfo(session: UserStore)
      requires session.Valid()
      modifies session
      ensures session.Valid() && session.prefs == map[] && session.currentUser == None
    {
      session.ClearUserInfo();
    }
  }

  /** The token saved for a 32-bit user id reads back as that id. */
  lemma TokenEncodesUserId(userId: int)
    requires IsInt32(userId)
    ensures ParseInt(IntToString(userId)) == Some(userId)
    ensures forall other :: IsInt32(other) && IntToString(other) == IntToString(userId) ==> other == userId
  {
    ParseIntToString(userId);
    forall other | IsInt32(other) && IntToString(other) == IntToString(userId)
      ensures other == userId
    {
      ParseIntToString(other);
    }
  }
}
