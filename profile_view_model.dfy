/**
 * `viewmodel/ProfileViewModel.kt`: the profile state and the conversion of
 * the server's user record into the app's `User`.
 */
module ProfileViewModel {
  import opened Common
  import opened Models
  import opened AuthRepository
  import opened UserManager

  datatype ProfileState = Loading | Success(user: User) | Error(message: string)

  const NOT_SIGNED_IN: string := "未登录"

  /**
   * `UserData.toUser`: the name becomes the username; missing email, gender
   * and areas take the defaults "", "未设置" and the empty list; the two role
   * flags say whether the roles name them. Id, avatar and verification keep
   * the `User` defaults.
   */
  function ToUser(d: UserData): (u: User)
    ensures u.username == d.name && u.nickname == d.nickname && u.phone == d.phone
    ensures u.budgetMin == d.budgetMin && u.budgetMax == d.budgetMax && u.houseType == d.houseType
    ensures u.email == d.email.GetOr("") && u.gender == d.gender.GetOr("未设置")
    ensures u.preferredAreas == d.preferredAreas.GetOr([])
    ensures u.isLandlord <==> "landlord" in d.role
    ensures u.isTenant <==> "tenant" in d.role
    ensures u.id == 0 && u.avatar == None && !u.isVerified
  {
    User(0, d.name, d.nickname, d.email.GetOr(""), d.phone, None, d.gender.GetOr("未设置"), false,
         d.budgetMin, d.budgetMax, d.preferredAreas.GetOr([]), d.houseType, "landlord" in d.role, "tenant" in d.role)
  }

  /** The roles a user's two flags stand for. */
  function RolesOf(u: User): seq<string> {
    (if u.isLandlord then ["landlord"] else []) + (if u.isTenant then ["tenant"] else [])
  }

  /** A server record carrying exactly what a `User` holds. */
  function UserDataOf(u: User): UserData {
    UserData(u.username, u.nickname, Some(u.email), u.phone, Some(u.gender), RolesOf(u), false,
             u.budgetMin, u.budgetMax, Some(u.preferredAreas), u.houseType)
  }

  /**
   * `toUser` drops nothing a `User` can hold: a user with the conversion's
   * fixed id, avatar and verification survives the trip through a server
   * record unchanged.
   */
  lemma {:induction false} ToUserRoundTrip(u: User)
    requires u.id == 0 && u.avatar == None && !u.isVerified
    ensures ToUser(UserDataOf(u)) == u
  {
    var r := RolesOf(u);
    assert ("landlord" in r) == u.isLandlord by {
      if u.isLandlord { assert r[0] == "landlord"; }
    }
    assert ("tenant" in r) == u.isTenant by {
      if u.isTenant { assert r[|r| - 1] == "tenant"; }
    }
  }

  class ProfileController {
    var profileState: ProfileState
    /** Every value assigned to the state, in order. */
    ghost var trace: seq<ProfileState>

    constructor ()
      ensures profileState == Loading && trace == []
    {
      profileState := Loading;
      trace := [];
    }

    /**
     * `loadUserProfile`: shows `Loading`; without a token ends in "未登录"
     * and makes no call; otherwise shows the converted record, or the
     * failure's message with default "加载用户信息失败".
     */
    method LoadUserProfile(session: UserStore, outcome: Outcome<UserData>) returns (call: Option<AuthCall>)
      requires session.Valid()
      modifies this
      ensures session.GetToken().None? ==>
                call == None && profileState == Error(NOT_SIGNED_IN)
      ensures session.GetToken().Some? ==> call == Some(UserInfoCall(session.GetToken().value))
      ensures session.GetToken().Some? && outcome.Ok? ==> profileState == Success(ToUser(outcome.value))
      ensures session.GetToken().Some? && outcome.Fail? ==>
                profileState == Error(outcome.MessageOr("加载用户信息失败"))
      ensures trace == old(trace) + [Loading, profileState]
    {
      profileState := Loading;
      trace := trace + [Loading];
      var token := session.GetToken();
      if token.None? {
        profileState := Error(NOT_SIGNED_IN);
        trace := trace + [profileState];
        return None;
      }
      call := Some(UserInfoCall(token.value));
      match outcome {
        case Ok(data) => profileState := Success(ToUser(data));
        case Fail(_) => profileState := Error(outcome.MessageOr("加载用户信息失败"));
      }
      trace := trace + [profileState];
    }

    /**
     * `updateUserProfile`: never shows `Loading`; without a token ends in
     * "未登录" and makes no call; otherwise forwards its eight arguments
     * unchanged and shows the converted record, or the failure's message with
     * default "更新用户信息失败".
     */
    method UpdateUserProfile(session: UserStore, nickname: Option<string>, email: Option<string>,
                             phone: Option<string>, gender: Option<string>, budgetMin: Option<int>,
                             budgetMax: Option<int>, preferredAreas: Option<seq<string>>,
                             houseType: Option<string>, outcome: Outcome<UserData>)
      returns (call: Option<AuthCall>)
      requires session.Valid()
      modifies this
      ensures session.GetToken().None? ==> call == None && profileState == Error(NOT_SIGNED_IN)
      ensures session.GetToken().Some? ==>
                call == Some(UpdateProfileCall(session.GetToken().value, nickname, email, phone, gender,
                                               budgetMin, budgetMax, preferredAreas, houseType))
      ensures session.GetToken().Some? && outcome.Ok? ==> profileState == Success(ToUser(outcome.value))
      ensures session.GetToken().Some? && outcome.Fail? ==>
                profileState == Error(outcome.MessageOr("更新用户信息失败"))
      ensures trace == old(trace) + [profileState] && !profileState.Loading?
    {
      var token := session.GetToken();
      if token.None? {
        profileState := Error(NOT_SIGNED_IN);
        trace := trace + [profileState];
        return None;
      }
      call := Some(UpdateProfileCall(token.value, nickname, email, phone, gender,
                                     budgetMin, budgetMax, preferredAreas, houseType));
      match outcome {
        case Ok(data) => profileState := Success(ToUser(data));
        case Fail(_) => profileState := Error(outcome.MessageOr("更新用户信息失败"));
      }
      trace := trace + [profileState];
    }
  }
}
