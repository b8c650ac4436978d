/** The current client (src/pizza.ts): needle requests, response checks that turn
    `success == false` into an ApiError, and the `list` and `redeem` commands. */
module SrcClient {
  import opened Interfaces
  import opened Process
  import Normalise
  import PasswordHash
  import Report

  const UserAgent := "Dalvik/2.1.0 (Linux; Android 5.0.2; samsung; SM-T800) de.pizza/3.0.19 xCore/3983"
  const ApiUrl := "https://pizza.de/api/2/"
  const UserAuthUrl := ApiUrl + "user/auth"
  const VoucherUrl := ApiUrl + "voucher/"
  const VoucherListUrl := VoucherUrl + "list"
  const VoucherAddUrl := VoucherUrl + "add"

  /** The cookies needle reads from a reply: name to value. */
  type Cookies = map<string, string>

  /** A needle call: verb, url, form data, headers and the cookies option. */
  datatype Call = Call(verb: string, url: string, data: map<string, string>,
                       headers: map<string, string>, cookies: Option<Cookies>)

  /** What the needle callback receives: a transport error (an Error object, so
      always with a message), or a reply body with the reply's cookies. */
  datatype Reply<B> = TransportError(message: string) | Replied(body: B, cookies: Cookies)

  const Errors := ErrorTable(
    "An error ocurred during login. You may have passed the wrong password/username combination.",
    "Could not fetch current voucher list.",
    "Could not redeem voucher.",
    "Login cancelled.",
    false)

  const DefaultApiMessage := "An error during pizza operation ocurred."
  const CodePrefix := "Pizza.de responded with code "

  /** `new ApiError(err).message`. */
  function ApiErrorMessage(err: Option<PizzaError>): (m: string)
    ensures err.None? ==> m == DefaultApiMessage
    ensures err.Some? ==> m == CodePrefix + err.value.code + ": " + err.value.description
  {
    match err
    case None => DefaultApiMessage
    case Some(e) => CodePrefix + e.code + ": " + e.description
  }

  /** A message built from a payload ends with its description, and never equals
      the default text used when the payload is missing. */
  lemma ApiErrorMessageInformative(e: PizzaError)
    ensures var m := ApiErrorMessage(Some(e));
            && m[|m| - |e.description|..] == e.description
            && m[..|CodePrefix|] == CodePrefix
            && m != ApiErrorMessage(None)
  {
    var m := ApiErrorMessage(Some(e));
    assert m[0] == 'P' && DefaultApiMessage[0] == 'A';
  }

  const Headers := map["user_agent" := UserAgent]

  /** The request `login` makes: username and hash as form data, no cookies. */
  function LoginCall(user: string, hash: string): (c: Call)
    ensures c.verb == "POST" && c.url == UserAuthUrl && c.cookies.None?
    ensures c.data.Keys == {"username", "hash"} && c.data["username"] == user && c.data["hash"] == hash
  {
    Call("POST", UserAuthUrl, map["username" := user, "hash" := hash], Headers, None)
  }

  function ListCall(cookies: Cookies): (c: Call)
    ensures c.verb == "GET" && c.url == VoucherListUrl && c.data == map[] && c.cookies == Some(cookies)
  {
    Call("GET", VoucherListUrl, map[], Headers, Some(cookies))
  }

  function RedeemCall(cookies: Cookies, code: string): (c: Call)
    ensures c.verb == "POST" && c.url == VoucherAddUrl && c.cookies == Some(cookies)
    ensures c.data.Keys == {"voucher"} && c.data["voucher"] == code
  {
    Call("POST", VoucherAddUrl, map["voucher" := code], Headers, Some(cookies))
  }

  /** The callback of `login`: a transport error rejects with itself, a failed body
      with an ApiError, a good body resolves with the reply's cookies. */
  function CheckLogin(reply: Reply<ApiResponse>): (r: Result<Cookies, Thrown>)
    ensures r.Ok? <==> reply.Replied? && reply.body.success
    ensures r.Ok? ==> r.value == reply.cookies
    ensures reply.TransportError? ==> r == Err(Error(reply.message))
    ensures reply.Replied? && !reply.body.success ==> r == Err(Error(ApiErrorMessage(reply.body.error)))
  {
    match reply
    case TransportError(message) => Err(Error(message))
    case Replied(body, cookies) =>
      if !body.success then Err(Error(ApiErrorMessage(body.error))) else Ok(cookies)
  }

  /** The callback of `getVoucherList`: as for login, and a good body is resolved
      after `fixVouchers` has run on its list. */
  function GetVoucherList(reply: Reply<VoucherListResponse>, parseDate: string -> int): (r: Result<VoucherListResponse, Thrown>)
    ensures r.Ok? <==> reply.Replied? && reply.body.success
    ensures r.Ok? ==> r.value == reply.body.(vouchers := Normalise.FixList(reply.body.vouchers, parseDate))
    ensures reply.TransportError? ==> r == Err(Error(reply.message))
    ensures reply.Replied? && !reply.body.success ==> r == Err(Error(ApiErrorMessage(reply.body.error)))
  {
    match reply
    case TransportError(message) => Err(Error(message))
    case Replied(body, _) =>
      if !body.success then Err(Error(ApiErrorMessage(body.error)))
      else Ok(body.(vouchers := Normalise.FixList(body.vouchers, parseDate)))
  }

  /** The callback of `redeemVoucher`, shaped like that of `getVoucherList`. */
  function RedeemVoucher(reply: Reply<VoucherAddResponse>, parseDate: string -> int): (r: Result<VoucherAddResponse, Thrown>)
    ensures r.Ok? <==> reply.Replied? && reply.body.success
    ensures r.Ok? ==> r.value == reply.body.(vouchers := Normalise.FixList(reply.body.vouchers, parseDate))
    ensures reply.TransportError? ==> r == Err(Error(reply.message))
    ensures reply.Replied? && !reply.body.success ==> r == Err(Error(ApiErrorMessage(reply.body.error)))
  {
    match reply
    case TransportError(message) => Err(Error(message))
    case Replied(body, _) =>
      if !body.success then Err(Error(ApiErrorMessage(body.error)))
      else Ok(body.(vouchers := Normalise.FixList(body.vouchers, parseDate)))
  }

  /** Everything a run depends on beyond its options: the prompt's answer, the MD5 and
      base64 encoder, the date parser, and the service's replies. */
  datatype World = World(
    answer: PromptAnswer,
    md5Base64: string -> string,
    parseDate: string -> int,
    loginReply: Reply<ApiResponse>,
    listReply: Reply<VoucherListResponse>,
    addReply: Reply<VoucherAddResponse>)

  /** The hash `login` sends for a password. */
  function HashOf(md5Base64: string -> string, password: string): string {
    PasswordHash.StripPadding(md5Base64(password))
  }

  /** `list`: password, login, voucher list, print; each failure goes to its handler. */
  function List(args: Args, w: World): (r: Run<Call>)
    ensures RequestPassword<Call>(args, w.answer).0 <= r.events
    ensures r.exitCode in {0, 1, 2, 4}
  {
    var asked := RequestPassword<Call>(args, w.answer);
    match asked.1
    case Err(e) => Fail(Errors, asked.0, PasswordStage, e)
    case Ok(password) =>
      var loggingIn := asked.0 + [Send(LoginCall(args.user, HashOf(w.md5Base64, password)))];
      match CheckLogin(w.loginReply)
      case Err(e) => Fail(Errors, loggingIn, LoginStage, e)
      case Ok(cookies) => ShowList(loggingIn + [Send(ListCall(cookies))], w.listReply, w.parseDate)
  }

  /** The innermost `try` of `list`: check the reply, then print the list. */
  function ShowList(events: seq<Event<Call>>, reply: Reply<VoucherListResponse>, parseDate: string -> int): (r: Run<Call>)
    ensures r.exitCode == 0 || r.exitCode == 2
    ensures r.exitCode == 2 ==> events <= r.events && OnlyDiagnostics(r.events[|events|..])
    ensures r.exitCode == 0 <==> reply.Replied? && reply.body.success && reply.body.vouchers.Some?
    ensures r.exitCode == 0 ==>
              var shown := Normalise.FixList(reply.body.vouchers, parseDate).value;
              Report.DatesParsed(shown) && r.events == events + [Show(Report.ReportOf(shown))]
  {
    match GetVoucherList(reply, parseDate)
    case Err(e) => Fail(Errors, events, ListStage, e)
    case Ok(res) =>
      match Report.PrintResult(res.vouchers)
      case Err(e) => Fail(Errors, events, ListStage, e)
      case Ok(report) => Run(events + [Show(report)], 0)
  }

  function RedeemedLine(code: string): string {
    "Code " + code + " redeemed successfully!"
  }

  const CurrentVouchersLine := "Current vouchers:"

  /** `redeem`: password, login, redeem, then the confirmation lines and the list. */
  function Redeem(args: Args, code: string, w: World): (r: Run<Call>)
    ensures RequestPassword<Call>(args, w.answer).0 <= r.events
    ensures r.exitCode in {0, 1, 3, 4}
  {
    var asked := RequestPassword<Call>(args, w.answer);
    match asked.1
    case Err(e) => Fail(Errors, asked.0, PasswordStage, e)
    case Ok(password) =>
      var loggingIn := asked.0 + [Send(LoginCall(args.user, HashOf(w.md5Base64, password)))];
      match CheckLogin(w.loginReply)
      case Err(e) => Fail(Errors, loggingIn, LoginStage, e)
      case Ok(cookies) => RedeemAndShow(loggingIn + [Send(RedeemCall(cookies, code))], w.addReply, w.parseDate)
  }

  /** The innermost `try` of `redeem`: check the reply, confirm, then print the list. */
  function RedeemAndShow(events: seq<Event<Call>>, reply: Reply<VoucherAddResponse>, parseDate: string -> int): (r: Run<Call>)
    ensures r.exitCode == 0 || r.exitCode == 3
    ensures events <= r.events
    ensures r.exitCode == 3 && RedeemVoucher(reply, parseDate).Err? ==> OnlyDiagnostics(r.events[|events|..])
    ensures r.exitCode == 0 <==> reply.Replied? && reply.body.success && reply.body.vouchers.Some?
    ensures r.exitCode == 0 ==>
              var shown := Normalise.FixList(reply.body.vouchers, parseDate).value;
              && Report.DatesParsed(shown)
              && r.events == events + [Stdout(RedeemedLine(reply.body.voucher)), Stdout(CurrentVouchersLine),
                                       Show(Report.ReportOf(shown))]
  {
    match RedeemVoucher(reply, parseDate)
    case Err(e) => Fail(Errors, events, RedeemStage, e)
    case Ok(res) =>
      var confirmed := events + [Stdout(RedeemedLine(res.voucher)), Stdout(CurrentVouchersLine)];
      match Report.PrintResult(res.vouchers)
      case Err(e) => Fail(Errors, confirmed, RedeemStage, e)
      case Ok(report) => Run(confirmed + [Show(report)], 0)
  }

  // Properties of the commands

  /** The password from `--password` is the one hashed and no prompt is shown: the
      run does not depend on what the prompt would have answered. */
  lemma SuppliedPasswordSkipsPrompt(args: Args, code: string, w: World, other: PromptAnswer)
    requires args.password.Some?
    ensures List(args, w) == List(args, w.(answer := other))
    ensures Redeem(args, code, w) == Redeem(args, code, w.(answer := other))
    ensures List(args, w).events[0] == Send(LoginCall(args.user, HashOf(w.md5Base64, args.password.value)))
  {
  }

  /** Without `--password` the prompt comes first, and its answer is what is hashed. */
  lemma PromptedPasswordIsHashed(args: Args, w: World)
    requires args.password.None? && w.answer.Entered?
    ensures List(args, w).events[0] == Prompt(PromptText(args.user))
    ensures List(args, w).events[1] == Send(LoginCall(args.user, HashOf(w.md5Base64, w.answer.text)))
  {
  }

  /** `list` runs its stages in order, each only after the one before succeeded: the
      run exits with the code of the first stage that failed (0 when none did), and
      after a failure it only writes diagnostics. */
  lemma ListOutcomes(args: Args, w: World)
    ensures var r := List(args, w);
            var asked := RequestPassword<Call>(args, w.answer);
            var login := CheckLogin(w.loginReply);
            && asked.0 <= r.events
            && (r.exitCode == 4 <==> asked.1.Err?)
            && (r.exitCode == 4 ==> r.events == asked.0 + [Stderr(Errors.loginCancelled)])
            && (r.exitCode == 1 <==> asked.1.Ok? && login.Err?)
            && (r.exitCode == 1 ==>
                  var sent := asked.0 + [Send(LoginCall(args.user, HashOf(w.md5Base64, asked.1.value)))];
                  sent <= r.events && OnlyDiagnostics(r.events[|sent|..]))
            && (r.exitCode == 2 <==>
                  (asked.1.Ok? && login.Ok? &&
                   !(w.listReply.Replied? && w.listReply.body.success && w.listReply.body.vouchers.Some?)))
            && (r.exitCode == 2 ==>
                  var sent := asked.0 + [Send(LoginCall(args.user, HashOf(w.md5Base64, asked.1.value))),
                                         Send(ListCall(login.value))];
                  sent <= r.events && OnlyDiagnostics(r.events[|sent|..]))
            && (r.exitCode == 0 || r.exitCode == 1 || r.exitCode == 2 || r.exitCode == 4)
  {
  }

  /** `redeem` likewise: it exits 4, 1 or 3 as the password, login or redeem stage is
      the first to fail, and 0 when none does. Only diagnostics follow a failed login
      or a refused redeem. */
  lemma RedeemOutcomes(args: Args, code: string, w: World)
    ensures var r := Redeem(args, code, w);
            var asked := RequestPassword<Call>(args, w.answer);
            var login := CheckLogin(w.loginReply);
            var redeemed := w.addReply.Replied? && w.addReply.body.success;
            && (r.exitCode == 4 <==> asked.1.Err?)
            && (r.exitCode == 4 ==> r.events == asked.0 + [Stderr(Errors.loginCancelled)])
            && (r.exitCode == 1 <==> asked.1.Ok? && login.Err?)
            && (r.exitCode == 1 ==>
                  var sent := asked.0 + [Send(LoginCall(args.user, HashOf(w.md5Base64, asked.1.value)))];
                  sent <= r.events && OnlyDiagnostics(r.events[|sent|..]))
            && (r.exitCode == 3 <==>
                  (asked.1.Ok? && login.Ok? && !(redeemed && w.addReply.body.vouchers.Some?)))
            && (r.exitCode == 3 ==>
                  var sent := asked.0 + [Send(LoginCall(args.user, HashOf(w.md5Base64, asked.1.value))),
                                         Send(RedeemCall(login.value, code))];
                  sent <= r.events && (!redeemed ==> OnlyDiagnostics(r.events[|sent|..])))
            && (r.exitCode == 0 <==> (asked.1.Ok? && login.Ok? && redeemed && w.addReply.body.vouchers.Some?))
  {
  }

  /** An empty voucher list prints exactly the fixed message, and no table. */
  lemma EmptyListMessage(args: Args, w: World)
    requires RequestPassword<Call>(args, w.answer).1.Ok? && CheckLogin(w.loginReply).Ok?
    requires w.listReply.Replied? && w.listReply.body.success && w.listReply.body.vouchers == Some([])
    ensures var asked := RequestPassword<Call>(args, w.answer);
            List(args, w) == Run(asked.0 + [Send(LoginCall(args.user, HashOf(w.md5Base64, asked.1.value))),
                                           Send(ListCall(w.loginReply.cookies)),
                                           Stdout(Report.EmptyMessage)], 0)
  {
  }

  /** A successful `list` prints the report of the received list normalised exactly
      once: its total is the received total divided by 100. */
  lemma ListNormalisesOnce(args: Args, w: World)
    requires List(args, w).exitCode == 0
    ensures w.listReply.Replied? && w.listReply.body.vouchers.Some?
    ensures var raw := w.listReply.body.vouchers.value;
            var shown := Normalise.FixList(Some(raw), w.parseDate).value;
            && Report.DatesParsed(shown)
            && List(args, w).events[|List(args, w).events| - 1] == Show(Report.ReportOf(shown))
            && (|raw| > 0 ==> Report.ReportOf(shown).total * 100.0 == Report.TotalRemaining(raw))
  {
    ListOutcomes(args, w);
    var raw := w.listReply.body.vouchers.value;
    var shown := Normalise.FixList(Some(raw), w.parseDate).value;
    if |raw| > 0 {
      Report.ReportShape(shown);
      Normalise.TotalScalesOnce(raw, w.parseDate);
    }
  }

  /** A successful `redeem` ends with the confirmation of the code the service
      returned, the "Current vouchers:" line and the report of the returned list
      normalised exactly once (total divided by 100). */
  lemma RedeemNormalisesOnce(args: Args, code: string, w: World)
    requires Redeem(args, code, w).exitCode == 0
    ensures w.addReply.Replied? && w.addReply.body.success && w.addReply.body.vouchers.Some?
    ensures var r := Redeem(args, code, w);
            var raw := w.addReply.body.vouchers.value;
            var shown := Normalise.FixList(Some(raw), w.parseDate).value;
            && Report.DatesParsed(shown)
            && |r.events| >= 3
            && r.events[|r.events| - 3..] ==
                 [Stdout(RedeemedLine(w.addReply.body.voucher)), Stdout(CurrentVouchersLine),
                  Show(Report.ReportOf(shown))]
            && (|raw| > 0 ==> Report.ReportOf(shown).total * 100.0 == Report.TotalRemaining(raw))
  {
    var raw := w.addReply.body.vouchers.value;
    var shown := Normalise.FixList(Some(raw), w.parseDate).value;
    if |raw| > 0 {
      Report.ReportShape(shown);
      Normalise.TotalScalesOnce(raw, w.parseDate);
    }
  }

  /** When the service accepts the code but sends no list, the confirmation lines are
      already out when `printVouchers` throws, and the run then fails with exit 3. */
  lemma RedeemConfirmsBeforeMissingList(args: Args, code: string, w: World)
    requires RequestPassword<Call>(args, w.answer).1.Ok? && CheckLogin(w.loginReply).Ok?
    requires w.addReply.Replied? && w.addReply.body.success && w.addReply.body.vouchers.None?
    ensures var r := Redeem(args, code, w);
            && r.exitCode == 3
            && |r.events| >= 4
            && r.events[|r.events| - 4..] ==
                 [Stdout(RedeemedLine(w.addReply.body.voucher)), Stdout(CurrentVouchersLine),
                  Stderr(Errors.voucherAddFailed), Stderr(TypeError("length").message)]
  {
  }

  /** A failed login puts the service's description in the detail line. */
  lemma LoginReportsDescription(args: Args, w: World, e: PizzaError)
    requires RequestPassword<Call>(args, w.answer).1.Ok?
    requires w.loginReply.Replied? && w.loginReply.body == ApiResponse(false, Some(e))
    ensures var r := List(args, w);
            && r.exitCode == 1
            && r.events[|r.events| - 2..] == [Stderr(Errors.loginFailed), Stderr(ApiErrorMessage(Some(e)))]
            && r.events[|r.events| - 1].text[|r.events[|r.events| - 1].text| - |e.description|..] == e.description
  {
    ApiErrorMessageInformative(e);
  }
}
