/**
 * `network/AuthRepository.kt`: login, registration, user info and profile
 * update, each turning a service answer into a `Result`. Unlike the rental
 * calls, every failure here carries a message: exceptions are re-wrapped
 * with the prefix "网络错误：".
 */
module AuthRepository {
  import opened Common
  import opened Models
  import opened Service

  /** The fields of a profile update, as `UpdateProfileRequest` carries them. */
  datatype ProfileUpdate = ProfileUpdate(
    nickname: Option<string>,
    email: Option<string>,
    phone: Option<string>,
    gender: Option<string>,
    budgetMin: Option<int>,
    budgetMax: Option<int>,
    preferredAreas: Option<seq<string>>,
    houseType: Option<string>)

  /** The calls the view models make, with their arguments. */
  datatype AuthCall =
    | LoginCall(username: string, password: string)
    | RegisterCall(username: string, password: string, confirmPassword: string)
    | UserInfoCall(token: string)
    | UpdateProfileCall(token: string, nickname: Option<string>, email: Option<string>, phone: Option<string>,
                        gender: Option<string>, budgetMin: Option<int>, budgetMax: Option<int>,
                        preferredAreas: Option<seq<string>>, houseType: Option<string>)

  /** The requests sent to the service. */
  datatype AuthRequest =
    | LoginRequest(username: string, password: string)
    | RegisterRequest(username: string, password: string, password2: string)
    | UserInfoRequest(token: string)
    | UpdateProfileRequest(token: string, fields: ProfileUpdate)

  /** The request each call sends; registration sends the confirmation as `password2`. */
  function RequestOf(c: AuthCall): (q: AuthRequest)
    ensures c.RegisterCall? ==> q == RegisterRequest(c.username, c.password, c.confirmPassword)
    ensures c.UpdateProfileCall? ==>
              (q.UpdateProfileRequest? && q.token == c.token
               && q.fields.nickname == c.nickname && q.fields.email == c.email && q.fields.phone == c.phone
               && q.fields.gender == c.gender && q.fields.budgetMin == c.budgetMin && q.fields.budgetMax == c.budgetMax
               && q.fields.preferredAreas == c.preferredAreas && q.fields.houseType == c.houseType)
  {
    match c
    case LoginCall(u, p) => LoginRequest(u, p)
    case RegisterCall(u, p, confirm) => RegisterRequest(u, p, confirm)
    case UserInfoCall(token) => UserInfoRequest(token)
    case UpdateProfileCall(token, nickname, email, phone, gender, budgetMin, budgetMax, areas, houseType) =>
      UpdateProfileRequest(token, ProfileUpdate(nickname, email, phone, gender, budgetMin, budgetMax, areas, houseType))
  }

  /** No argument is lost on the way to the service: the request determines the call. */
  lemma RequestDeterminesCall(c1: AuthCall, c2: AuthCall)
    requires RequestOf(c1) == RequestOf(c2)
    ensures c1 == c2
  {
  }

  const NETWORK_ERROR: string := "网络错误："

  /** `"网络错误：${e.message}"`: a null message is rendered as "null". */
  function NetworkError(cause: Option<string>): (m: string)
    ensures |m| >= |NETWORK_ERROR| && m[..|NETWORK_ERROR|] == NETWORK_ERROR
    ensures m[|NETWORK_ERROR|..] == if cause.Some? then cause.value else "null"
  {
    NETWORK_ERROR + cause.GetOr("null")
  }

  /**
   * How an auth call fails when it does not succeed: accepted with null data
   * gives `missing`; any other answer gives the body's message, or
   * `fallback` when there is no body; an exception gives the network error.
   */
  predicate AuthRejectedAs<D>(x: Exchange<Envelope<Option<D>>>, missing: string, fallback: string, r: Outcome<D>) {
    match x
    case Raised(cause) => r == Fail(Some(NetworkError(cause)))
    case Completed(resp) =>
      if Accepted(x) then r == Fail(Some(missing))
      else if resp.body.Some? then r == Fail(Some(resp.body.value.message))
      else r == Fail(Some(fallback))
  }

  /** The scheme the four calls share: success is exactly an accepted answer carrying data. */
  function ClassifyAuth<D>(x: Exchange<Envelope<Option<D>>>, missing: string, fallback: string): (r: Outcome<D>)
    ensures r.Ok? <==> Accepted(x) && x.response.body.value.data.Some?
    ensures r.Ok? ==> r.value == x.response.body.value.data.value
    ensures r.Fail? ==> AuthRejectedAs(x, missing, fallback, r) && r.message.Some?
  {
    match x
    case Raised(cause) => Fail(Some(NetworkError(cause)))
    case Completed(resp) =>
      if resp.isSuccessful && resp.body.Some? && resp.body.value.code == 200 then
        if resp.body.value.data.Some? then Ok(resp.body.value.data.value) else Fail(Some(missing))
      else
        Fail(Some(if resp.body.Some? then resp.body.value.message else fallback))
  }

  /** `login`: the user id the server returns. */
  function Login(x: Exchange<Envelope<Option<int>>>): (r: Outcome<int>)
    ensures r.Ok? <==> Accepted(x) && x.response.body.value.data.Some?
    ensures r.Ok? ==> r.value == x.response.body.value.data.value
    ensures r.Fail? ==> AuthRejectedAs(x, "登录失败：用户ID为空", "登录失败", r)
  {
    ClassifyAuth(x, "登录失败：用户ID为空", "登录失败")
  }

  /** `register`: the new user's id. */
  function Register(x: Exchange<Envelope<Option<int>>>): (r: Outcome<int>)
    ensures r.Ok? <==> Accepted(x) && x.response.body.value.data.Some?
    ensures r.Ok? ==> r.value == x.response.body.value.data.value
    ensures r.Fail? ==> AuthRejectedAs(x, "注册失败：用户ID为空", "注册失败", r)
  {
    ClassifyAuth(x, "注册失败：用户ID为空", "注册失败")
  }

  /** `getUserInfo`: the user's record. */
  function GetUserInfo(x: Exchange<Envelope<Option<UserData>>>): (r: Outcome<UserData>)
    ensures r.Ok? <==> Accepted(x) && x.response.body.value.data.Some?
    ensures r.Ok? ==> r.value == x.response.body.value.data.value
    ensures r.Fail? ==> AuthRejectedAs(x, "获取用户信息失败：数据为空", "获取用户信息失败", r)
  {
    ClassifyAuth(x, "获取用户信息失败：数据为空", "获取用户信息失败")
  }

  /** `updateUserProfile`: the user's record after the update. */
  function UpdateUserProfile(x: Exchange<Envelope<Option<UserData>>>): (r: Outcome<UserData>)
    ensures r.Ok? <==> Accepted(x) && x.response.body.value.data.Some?
    ensures r.Ok? ==> r.value == x.response.body.value.data.value
    ensures r.Fail? ==> AuthRejectedAs(x, "更新用户信息失败：数据为空", "更新用户信息失败", r)
  {
    ClassifyAuth(x, "更新用户信息失败：数据为空", "更新用户信息失败")
  }

  /**
   * Every auth failure has a message, and an exception's message is
   * recoverable from it: two exceptions with messages fail alike only when
   * their messages are equal.
   */
  lemma {:induction false} NetworkErrorsDistinguishCauses(a: string, b: string)
    ensures NetworkError(Some(a)) == NetworkError(Some(b)) ==> a == b
  {
    if NetworkError(Some(a)) == NetworkError(Some(b)) {
      assert a == NetworkError(Some(a))[|NETWORK_ERROR|..];
    }
  }

  /** A login answer read back: the user id on code 200, the server's message otherwise. */
  lemma LoginAnswers(userId: int, code: int, message: string)
    ensures Login(Answer(200, message, Some(userId))) == Ok(userId)
    ensures Login(Answer(200, message, Option.None)) == Fail(Some("登录失败：用户ID为空"))
    ensures code != 200 ==> Login(Answer(code, message, Some(userId))) == Fail(Some(message))
    ensures Login(Completed(Response(false, message, Option.None))) == Fail(Some("登录失败"))
    ensures Login(Raised(Option.None)).message == Some("网络错误：null")
  {
    assert NETWORK_ERROR + "null" == "网络错误：null";
  }
}
