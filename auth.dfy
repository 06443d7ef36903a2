/**
 * The login flow of `api/telegram_auth.py`. One `TelegramAuth` instance holds the client,
 * the phone and the `phone_code_hash` between calls; every reply of the Telegram client
 * library is an argument, so each method's outcome is a function of those replies and of
 * the instance's prior fields. Nothing here writes to the session store.
 */
module Auth {
  import opened Common

  /** The Telethon client held in `self.client`: built over an empty string session, connected or not. */
  datatype Client = Client(connected: bool)

  /**
   * What `TelegramClient(...)` followed by `client.connect()` does: the client is built and
   * connected, it is built but connecting raises, or building it raises, so that it is never
   * assigned to a field.
   */
  datatype Connect = Connected | ConnectFailed(error: string) | BuildFailed(error: string)

  /** What `send_code_request(phone)` does. */
  datatype SendCodeReply = CodeSent(phoneCodeHash: string) | SendCodeFailed(error: string)

  /**
   * What `sign_in(phone, code, phone_code_hash=...)` and the steps after it do: success with the
   * saved session string and the `get_me()` account (then a clean disconnect), a second factor
   * required, a rejected code, or any other exception (from `sign_in`, `get_me` or `disconnect`).
   */
  datatype SignInReply =
    | SignedIn(session: string, me: UserData)
    | PasswordNeeded
    | CodeInvalid
    | SignInFailed(error: string)

  /** What `sign_in(password=...)` and the steps after it do. */
  datatype PasswordReply = PasswordAccepted(session: string, me: UserData) | PasswordFailed(error: string)

  /** What `is_user_authorized()` and the steps after it do for a stored session string. */
  datatype SessionCheck = Authorized(me: UserData) | NotAuthorized | CheckFailed(error: string)

  /** The dicts the methods return, one constructor per shape. */
  datatype AuthResult =
    | CodeSentResult(phoneCodeHash: string, message: string)
    | LoggedIn(sessionString: string, userData: UserData, message: string)
    | PasswordRequired(message: string)
    | Failed(error: string)
  {
    /** The dict's `success` field. */
    predicate Success()
    {
      CodeSentResult? || LoggedIn?
    }
  }

  const DefaultApiId := "34829504"
  const PasswordPrompt := "2FA enabled. Please enter your password."
  const LoggedInMessage := "Successfully logged in!"
  const LoggedInWithPasswordMessage := "Successfully logged in with 2FA!"
  const InvalidCodeMessage := "Invalid verification code. Please try again."
  const SessionExpiredMessage := "Session expired. Please start over."

  function CodeSentMessage(phone: string): string
  {
    "Verification code sent to " + phone
  }

  class TelegramAuth {
    const apiId: string
    const apiHash: string
    var client: Option<Client>
    var phone: Option<string>
    var phoneCodeHash: Option<string>

    /** `__init__`: credentials from the environment, no client, no phone, no hash. */
    constructor (env: map<string, string>)
      ensures apiId == GetEnv(env, "API_ID", DefaultApiId) && apiHash == GetEnv(env, "API_HASH", "")
      ensures client.None? && phone.None? && phoneCodeHash.None?
    {
      apiId := GetEnv(env, "API_ID", DefaultApiId);
      apiHash := GetEnv(env, "API_HASH", "");
      client := None;
      phone := None;
      phoneCodeHash := None;
    }

    /**
     * `send_code(phone)`: replaces the client once one is built; records the phone once connected
     * and the hash once the code is sent; reports any failure as a result, never by raising.
     */
    method SendCode(phoneNumber: string, connect: Connect, reply: SendCodeReply) returns (r: AuthResult)
      modifies this
      ensures connect.BuildFailed? ==>
        r == Failed(connect.error) && client == old(client) && phone == old(phone) && phoneCodeHash == old(phoneCodeHash)
      ensures !connect.BuildFailed? ==> client == Some(Client(connect.Connected?))
      ensures phone == if connect.Connected? then Some(phoneNumber) else old(phone)
      ensures phoneCodeHash == if connect.Connected? && reply.CodeSent? then Some(reply.phoneCodeHash) else old(phoneCodeHash)
      ensures r.Success() <==> connect.Connected? && reply.CodeSent?
      ensures r.CodeSentResult? || r.Failed?
      ensures r.CodeSentResult? ==> r == CodeSentResult(reply.phoneCodeHash, CodeSentMessage(phoneNumber))
      ensures connect.ConnectFailed? ==> r == Failed(connect.error)
      ensures connect.Connected? && reply.SendCodeFailed? ==> r == Failed(reply.error)
    {
      if connect.BuildFailed? {
        return Failed(connect.error);
      }
      client := Some(Client(false));
      if connect.ConnectFailed? {
        return Failed(connect.error);
      }
      client := Some(Client(true));
      phone := Some(phoneNumber);
      match reply
      case SendCodeFailed(e) =>
        r := Failed(e);
      case CodeSent(h) =>
        phoneCodeHash := Some(h);
        r := CodeSentResult(h, CodeSentMessage(phoneNumber));
    }

    /**
     * `verify_code(phone, code, phone_code_hash)`: builds and connects a client only when there
     * is none, then records the phone and hash it is given and signs in. Success disconnects
     * the client; a second-factor request leaves it as it is for `verify_password`.
     */
    method VerifyCode(phoneNumber: string, code: string, codeHash: string, connect: Connect, reply: SignInReply)
      returns (r: AuthResult)
      modifies this
      ensures old(client).None? && !connect.Connected? ==>
        r == Failed(connect.error) && client == (if connect.BuildFailed? then old(client) else Some(Client(false))) &&
        phone == old(phone) && phoneCodeHash == old(phoneCodeHash)
      ensures old(client).Some? || connect.Connected? ==>
        && phone == Some(phoneNumber) && phoneCodeHash == Some(codeHash)
        && client == (if reply.SignedIn? then Some(Client(false))
                      else if old(client).Some? then old(client) else Some(Client(true)))
        && r == match reply
                case SignedIn(session, me) => LoggedIn(session, me, LoggedInMessage)
                case PasswordNeeded => PasswordRequired(PasswordPrompt)
                case CodeInvalid => Failed(InvalidCodeMessage)
                case SignInFailed(e) => Failed(e)
      ensures r.LoggedIn? ==> client == Some(Client(false))
      ensures !r.CodeSentResult?
    {
      if client.None? {
        if connect.BuildFailed? {
          return Failed(connect.error);
        }
        client := Some(Client(false));
        if connect.ConnectFailed? {
          return Failed(connect.error);
        }
        client := Some(Client(true));
      }
      phone := Some(phoneNumber);
      phoneCodeHash := Some(codeHash);
      match reply
      case PasswordNeeded =>
        r := PasswordRequired(PasswordPrompt);
      case SignedIn(session, me) =>
        client := Some(Client(false));
        r := LoggedIn(session, me, LoggedInMessage);
      case CodeInvalid =>
        r := Failed(InvalidCodeMessage);
      case SignInFailed(e) =>
        r := Failed(e);
    }

    /**
     * `verify_password(password)`: with no client the session has expired and no sign-in is
     * attempted; otherwise success disconnects the client. Phone and hash are never touched.
     */
    method VerifyPassword(password: string, reply: PasswordReply) returns (r: AuthResult)
      modifies this`client
      ensures old(client).None? ==> r == Failed(SessionExpiredMessage) && client == old(client)
      ensures old(client).Some? && reply.PasswordAccepted? ==>
        r == LoggedIn(reply.session, reply.me, LoggedInWithPasswordMessage) && client == Some(Client(false))
      ensures old(client).Some? && reply.PasswordFailed? ==> r == Failed(reply.error) && client == old(client)
      ensures r.LoggedIn? || r.Failed?
    {
      if client.None? {
        return Failed(SessionExpiredMessage);
      }
      match reply
      case PasswordAccepted(session, me) =>
        client := Some(Client(false));
        r := LoggedIn(session, me, LoggedInWithPasswordMessage);
      case PasswordFailed(e) =>
        r := Failed(e);
    }

    /** `get_session_info(session_string)`: the account behind a stored session, or `None`. */
    method GetSessionInfo(sessionString: string, connect: Connect, check: SessionCheck) returns (info: Option<UserData>)
      ensures info.Some? <==> connect.Connected? && check.Authorized?
      ensures info.Some? ==> info.value == check.me
    {
      if !connect.Connected? {
        return None;
      }
      match check
      case Authorized(me) =>
        info := Some(me);
      case NotAuthorized =>
        info := None;
      case CheckFailed(_) =>
        info := None;
    }
  }

  /**
   * A login without a second factor on a fresh instance: the code is sent, a wrong code is
   * rejected with its own message, and the right one logs in with the session and account
   * the platform returns.
   */
  method LoginAfterRetry(env: map<string, string>, number: string, hash: string, session: string, me: UserData)
    returns (sent: AuthResult, wrong: AuthResult, right: AuthResult)
    ensures sent == CodeSentResult(hash, CodeSentMessage(number))
    ensures wrong == Failed(InvalidCodeMessage)
    ensures right == LoggedIn(session, me, LoggedInMessage)
  {
    var auth := new TelegramAuth(env);
    sent := auth.SendCode(number, Connected, CodeSent(hash));
    wrong := auth.VerifyCode(number, "00000", hash, Connected, CodeInvalid);
    right := auth.VerifyCode(number, "12345", hash, Connected, SignedIn(session, me));
  }

  /**
   * A login with a second factor: the code leads to a password request, a rejected password
   * fails and keeps the client, and the accepted one logs in.
   */
  method LoginWithPassword(env: map<string, string>, number: string, hash: string, error: string,
                           session: string, me: UserData)
    returns (code: AuthResult, rejected: AuthResult, accepted: AuthResult)
    ensures code == PasswordRequired(PasswordPrompt)
    ensures rejected == Failed(error)
    ensures accepted == LoggedIn(session, me, LoggedInWithPasswordMessage)
  {
    var auth := new TelegramAuth(env);
    var sent := auth.SendCode(number, Connected, CodeSent(hash));
    code := auth.VerifyCode(number, "12345", hash, Connected, PasswordNeeded);
    rejected := auth.VerifyPassword("wrong-password", PasswordFailed(error));
    accepted := auth.VerifyPassword("correct-password", PasswordAccepted(session, me));
  }

  /**
   * When building the client raises in both `send_code` and `verify_code`, no client is ever
   * stored, so `verify_password` reports an expired session whatever the platform would say.
   */
  method BuildFailureExpires(env: map<string, string>, number: string, hash: string, error: string,
                             password: string, reply: PasswordReply)
    returns (sent: AuthResult, verified: AuthResult, r: AuthResult)
    ensures sent == Failed(error) && verified == Failed(error)
    ensures r == Failed(SessionExpiredMessage)
  {
    var auth := new TelegramAuth(env);
    sent := auth.SendCode(number, BuildFailed(error), CodeSent(hash));
    verified := auth.VerifyCode(number, "12345", hash, BuildFailed(error), SignedIn("session", UserData(1, None, None, None, None)));
    r := auth.VerifyPassword(password, reply);
  }

  /** `verify_password` on an instance that never sent a code reports an expired session, whatever the platform would say. */
  method PasswordWithoutCode(env: map<string, string>, password: string, reply: PasswordReply)
    returns (r: AuthResult)
    ensures r == Failed(SessionExpiredMessage)
  {
    var auth := new TelegramAuth(env);
    r := auth.VerifyPassword(password, reply);
  }
}
