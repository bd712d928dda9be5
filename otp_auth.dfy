/**
 * The one-time-code login of server/server.js: /api/login issues a code into
 * the user store, /api/verify checks it, clears it and issues a session token.
 *
 * The store is the User collection: one record per mobile number (the unique
 * key of server/models/User.js), each with an optional code and expiry.
 * Math.random, Date.now and the SMS provider's answer are inputs.
 */
module OtpAuth {
  import opened Wrappers
  import opened Decimal
  import opened BearerAuth

  /** A User document: mobileNumber is required and unique, otp and otpExpires optional. */
  datatype UserRecord = UserRecord(mobileNumber: string, otp: Option<string>, otpExpires: Option<int>)

  type Users = map<string, UserRecord>

  const MinMobileLength: int := 10
  /** Five minutes, in milliseconds. */
  const OtpLifetimeMs: int := 5 * 60 * 1000
  /** The SMS provider's error code for an invalid destination number. */
  const InvalidToNumber: int := 21211

  /** What the SMS provider answered to the send request. */
  datatype Dispatch = Delivered | DeliveryFailed(errorCode: int)

  /** The message handed to the SMS provider. */
  datatype Sms = Sms(to: string, body: string)

  datatype LoginReply = LoginReply(status: int, success: bool, message: string)

  datatype VerifyReply = VerifyReply(status: int, success: bool, message: string, token: Option<Token>)

  /** Every record is stored under its own mobile number. */
  ghost predicate WellKeyed(users: Users) {
    forall k :: k in users ==> users[k].mobileNumber == k
  }

  // ---------------------------------------------------------------- the code

  /** `!mobileNumber || mobileNumber.length < 10` rejects; None is a missing field. */
  function ValidMobile(mobileNumber: Option<string>): (ok: bool)
    ensures ok <==> exists m :: mobileNumber == Some(m) && |m| >= MinMobileLength
  {
    mobileNumber.Some? && mobileNumber.value != "" && |mobileNumber.value| >= MinMobileLength
  }

  /** Math.floor(1000 + random * 9000) for random in [0, 1): a four-digit number. */
  function CodeValue(random: real): (v: int)
    requires 0.0 <= random < 1.0
    ensures 1000 <= v <= 9999
    ensures v as real <= 1000.0 + random * 9000.0 < v as real + 1.0
  {
    (1000.0 + random * 9000.0).Floor
  }

  /** The code as text: always exactly four decimal digits, and it reads back as the number. */
  function CodeText(random: real): (code: string)
    requires 0.0 <= random < 1.0
    ensures |code| == 4 && AllDigits(code) && code[0] != '0'
    ensures FromDecimal(code) == CodeValue(random)
  {
    var v := CodeValue(random);
    assert Pow10(3) == 1000 && Pow10(4) == 10000 by {
      assert Pow10(1) == 10 && Pow10(2) == 100;
    }
    DecimalLength(v, 4);
    FromToDecimal(v);
    ToDecimal(v)
  }

  // ---------------------------------------------------------------- store transitions

  /** The upsert of /api/login: the number's record now holds this code and expiry only. */
  function Issue(users: Users, mobileNumber: string, code: string, expires: int): (r: Users)
    ensures r.Keys == users.Keys + {mobileNumber}
    ensures r[mobileNumber] == UserRecord(mobileNumber, Some(code), Some(expires))
    ensures forall k :: k in users && k != mobileNumber ==> r[k] == users[k]
    ensures WellKeyed(users) ==> WellKeyed(r)
  {
    users[mobileNumber := UserRecord(mobileNumber, Some(code), Some(expires))]
  }

  /** The filter of the findOne query of /api/verify, on one record: same number, same code, expiry strictly after now. */
  predicate Matches(user: UserRecord, mobileNumber: string, otp: string, nowMs: int) {
    && user.mobileNumber == mobileNumber
    && user.otp == Some(otp)
    && user.otpExpires.Some?
    && user.otpExpires.value > nowMs
  }

  /**
   * The findOne query as a lookup by key. In a well-keyed store it finds a
   * record exactly when some record of the collection passes the filter.
   */
  function Accepts(users: Users, mobileNumber: string, otp: string, nowMs: int): (found: bool)
    ensures WellKeyed(users) ==>
      (found <==> exists k :: k in users && Matches(users[k], mobileNumber, otp, nowMs))
  {
    && mobileNumber in users
    && users[mobileNumber].otp == Some(otp)
    && users[mobileNumber].otpExpires.Some?
    && users[mobileNumber].otpExpires.value > nowMs
  }

  /** The clearing of a found record: code and expiry unset, everything else as it was. */
  function Consume(users: Users, mobileNumber: string): (r: Users)
    requires mobileNumber in users
    ensures r.Keys == users.Keys
    ensures r[mobileNumber].mobileNumber == users[mobileNumber].mobileNumber
    ensures r[mobileNumber].otp.None? && r[mobileNumber].otpExpires.None?
    ensures forall k :: k in users && k != mobileNumber ==> r[k] == users[k]
    ensures WellKeyed(users) ==> WellKeyed(r)
  {
    users[mobileNumber := users[mobileNumber].(otp := None, otpExpires := None)]
  }

  /** How /api/login answers once the code is stored, given the provider's answer. */
  function DispatchReply(dispatch: Dispatch): (reply: LoginReply)
    ensures reply.success <==> dispatch.Delivered?
    ensures reply.status == (if dispatch.Delivered? then 200
                             else if dispatch.errorCode == InvalidToNumber then 400
                             else 500)
  {
    match dispatch
    case Delivered => LoginReply(200, true, "OTP sent successfully.")
    case DeliveryFailed(errorCode) =>
      if errorCode == InvalidToNumber then
        LoginReply(400, false, "The destination phone number is not a valid number.")
      else
        LoginReply(500, false, "Server error.")
  }

  // ---------------------------------------------------------------- properties

  /** A freshly issued code verifies until its expiry, and no other code does. */
  lemma IssuedCodeAccepted(users: Users, mobileNumber: string, code: string, expires: int, otp: string, nowMs: int)
    ensures Accepts(Issue(users, mobileNumber, code, expires), mobileNumber, otp, nowMs)
        <==> otp == code && nowMs < expires
  {
  }

  /** Two logins in a row: only the second code can be verified (last write wins). */
  lemma LatestCodeWins(users: Users, mobileNumber: string, first: string, second: string,
                       expires1: int, expires2: int, otp: string, nowMs: int)
    ensures Accepts(Issue(Issue(users, mobileNumber, first, expires1), mobileNumber, second, expires2), mobileNumber, otp, nowMs)
        <==> otp == second && nowMs < expires2
  {
  }

  /** A code is single-use: once consumed, no code verifies for that number until the next login. */
  lemma ConsumedRejectsAll(users: Users, mobileNumber: string, otp: string, nowMs: int)
    requires mobileNumber in users
    ensures !Accepts(Consume(users, mobileNumber), mobileNumber, otp, nowMs)
  {
  }

  /** A login for one number does not change what verifies for another. */
  lemma IssueIsolated(users: Users, mobileNumber: string, code: string, expires: int,
                      other: string, otp: string, nowMs: int)
    requires other != mobileNumber
    ensures Accepts(Issue(users, mobileNumber, code, expires), other, otp, nowMs)
        <==> Accepts(users, other, otp, nowMs)
  {
  }

  // ---------------------------------------------------------------- the store

  /** The User collection, updated in place by the two routes. */
  class UserStore {
    var users: Users

    ghost predicate Valid()
      reads this
    {
      WellKeyed(users)
    }

    constructor ()
      ensures Valid() && users == map[]
    {
      users := map[];
    }

    /**
     * POST /api/login. A missing or short number is refused before the store is
     * touched. Otherwise the code is written first, then sent; a failed send is
     * reported (400 for an invalid number, 500 otherwise) but the stored code
     * stays valid.
     */
    method Login(mobileNumber: Option<string>, random: real, nowMs: int, dispatch: Dispatch)
      returns (reply: LoginReply, sms: Option<Sms>)
      requires Valid()
      requires 0.0 <= random < 1.0
      modifies this
      ensures Valid()
      ensures !ValidMobile(mobileNumber) ==>
        users == old(users) && sms.None? && reply == LoginReply(400, false, "Invalid mobile number.")
      ensures ValidMobile(mobileNumber) ==>
        && users == Issue(old(users), mobileNumber.value, CodeText(random), nowMs + OtpLifetimeMs)
        && sms == Some(Sms("+91" + mobileNumber.value, "Your Krishi Mitra OTP is: " + CodeText(random)))
        && reply == DispatchReply(dispatch)
    {
      if !ValidMobile(mobileNumber) {
        return LoginReply(400, false, "Invalid mobile number."), None;
      }
      var number := mobileNumber.value;
      var otp := CodeText(random);
      var otpExpires := nowMs + OtpLifetimeMs;
      users := users[number := UserRecord(number, Some(otp), Some(otpExpires))];
      sms := Some(Sms("+91" + number, "Your Krishi Mitra OTP is: " + otp));
      reply := DispatchReply(dispatch);
    }

    /**
     * POST /api/verify. Succeeds exactly when the number's record holds this code
     * with an expiry strictly after now; then the code and expiry are cleared and
     * a one-hour token for the number is issued. Any failure leaves the store as it was.
     */
    method Verify(mobileNumber: string, otp: string, nowMs: int) returns (reply: VerifyReply)
      requires Valid()
      modifies this
      ensures Valid()
      ensures reply.success <==> Accepts(old(users), mobileNumber, otp, nowMs)
      ensures reply.success ==>
        && users == Consume(old(users), mobileNumber)
        && reply == VerifyReply(200, true, "Login successful!", Some(Sign(mobileNumber, nowMs)))
      ensures !reply.success ==>
        users == old(users) && reply == VerifyReply(400, false, "Invalid or expired OTP.", None)
    {
      if !Accepts(users, mobileNumber, otp, nowMs) {
        return VerifyReply(400, false, "Invalid or expired OTP.", None);
      }
      var user := users[mobileNumber];
      user := user.(otp := None, otpExpires := None);
      users := users[mobileNumber := user];
      var token := Sign(user.mobileNumber, nowMs);
      reply := VerifyReply(200, true, "Login successful!", Some(token));
    }
  }

  /** A run of the two routes: login, verify, verify again with the same code. */
  method LoginVerifyTwice(store: UserStore, mobileNumber: string, random: real, nowMs: int, later: int)
    returns (first: VerifyReply, second: VerifyReply)
    requires store.Valid() && |mobileNumber| >= MinMobileLength
    requires 0.0 <= random < 1.0
    requires nowMs <= later < nowMs + OtpLifetimeMs
    modifies store
    ensures first.success && first.token == Some(Sign(mobileNumber, later))
    ensures !second.success && second.status == 400
  {
    var reply, sms := store.Login(Some(mobileNumber), random, nowMs, DeliveryFailed(20003));
    var code := CodeText(random);
    first := store.Verify(mobileNumber, code, later);
    second := store.Verify(mobileNumber, code, later);
  }
}
