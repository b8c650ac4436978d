/** The earlier client (lib/pizza.ts): `request` calls sharing a cookie jar, and
    the `list` and `redeem` commands with its own response checks. */
module LibClient {
  import opened Interfaces
  import opened Process
  import Currency
  import Normalise
  import PasswordHash
  import Report

  const UserAgent := "Dalvik/2.1.0 (Linux; Android 5.0.2; samsung; SM-T800) de.pizza/3.0.19 xCore/3983"
  const ApiUrl := "https://pizza.de/api/2/"
  const UserAuthUrl := ApiUrl + "user/auth"
  const VoucherUrl := ApiUrl + "voucher/"
  const VoucherListUrl := VoucherUrl + "list"
  const VoucherAddUrl := VoucherUrl + "add"

  /** A `request` cookie jar; `id` tells jars apart. */
  datatype Jar = Jar(id: nat)

  /** The options object handed to `request`. */
  datatype RequestOptions = RequestOptions(
    uri: string, headers: map<string, string>, verb: string, jar: Jar, json: bool,
    form: Option<map<string, string>>)

  const Errors := ErrorTable(
    "An error ocurred during login. You max have passed the wromg password/username.",
    "Could not fetch current voucher list.",
    "Could not redeem voucher.",
    "Login cancelled.",
    true)

  const DefaultApiMessage := "An error during pizza operation ocurred."

  /** `new ApiError(err).message`: the description, or the default text. */
  function ApiErrorMessage(err: Option<PizzaError>): (m: string)
    ensures err.None? ==> m == DefaultApiMessage
    ensures err.Some? ==> m == err.value.description
  {
    match err
    case None => DefaultApiMessage
    case Some(e) => e.description
  }

  /** `getRequestOptions(uri, method, jar)` (the method is `verb`): JSON, the app's user agent and the given
      jar; a call that leaves the jar out gets the fresh jar `request.jar()` makes. */
  function GetRequestOptions(uri: string, verb: string, jar: Jar): (o: RequestOptions)
    ensures o.uri == uri && o.verb == verb && o.jar == jar
    ensures o.headers.Keys == {"User-Agent"} && o.headers["User-Agent"] == UserAgent
    ensures o.json && o.form.None?
  {
    RequestOptions(uri, map["User-Agent" := UserAgent], verb, jar, true, None)
  }

  /** The options `login` sends: a fresh jar, username and hash as form data. */
  function LoginOptions(user: string, hash: string, freshJar: Jar): (o: RequestOptions)
    ensures o.uri == UserAuthUrl && o.verb == "POST" && o.jar == freshJar
    ensures o.form.Some? && o.form.value.Keys == {"username", "hash"}
    ensures o.form.value["username"] == user && o.form.value["hash"] == hash
  {
    GetRequestOptions(UserAuthUrl, "POST", freshJar).(form := Some(map["username" := user, "hash" := hash]))
  }

  function ListOptions(jar: Jar): (o: RequestOptions)
    ensures o.uri == VoucherListUrl && o.verb == "GET" && o.jar == jar && o.form.None?
  {
    GetRequestOptions(VoucherListUrl, "GET", jar)
  }

  function RedeemOptions(jar: Jar, code: string): (o: RequestOptions)
    ensures o.uri == VoucherAddUrl && o.verb == "POST" && o.jar == jar
    ensures o.form == Some(map["voucher" := code])
  {
    GetRequestOptions(VoucherAddUrl, "POST", jar).(form := Some(map["voucher" := code]))
  }

  /** What `login` rejects with when `success` is false: the payload itself (an object
      without `message`), or `undefined` when there is none. */
  function RawError(err: Option<PizzaError>): (t: Thrown)
    ensures err.Some? <==> t.Raw?
    ensures err.Some? ==> t.payload == err.value
    ensures err.None? ==> t == Undefined
  {
    match err
    case Some(e) => Raw(e)
    case None => Undefined
  }

  /** The callback of `login`: a failed body rejects with its raw error, a good one
      resolves with the jar the request was made with. */
  function CheckLogin(options: RequestOptions, body: ApiResponse): (r: Result<Jar, Thrown>)
    ensures r.Ok? <==> body.success
    ensures r.Ok? ==> r.value == options.jar
    ensures r.Err? ==> r.error == RawError(body.error)
  {
    if !body.success then Err(RawError(body.error)) else Ok(options.jar)
  }

  /** The callback of `getVoucherList`: the body as it came, or an ApiError. */
  function GetVoucherList(body: VoucherListResponse): (r: Result<VoucherListResponse, Thrown>)
    ensures r.Ok? <==> body.success
    ensures r.Ok? ==> r.value == body
    ensures r.Err? ==> r.error == Error(ApiErrorMessage(body.error))
  {
    if !body.success then Err(Error(ApiErrorMessage(body.error))) else Ok(body)
  }

  /** The callback of `redeemVoucher`: an ApiError, or the body after `fixVouchers`
      has run on its list. */
  function RedeemVoucher(body: VoucherAddResponse, parseDate: string -> int): (r: Result<VoucherAddResponse, Thrown>)
    ensures r.Ok? <==> body.success
    ensures r.Ok? ==> r.value == body.(vouchers := Normalise.FixList(body.vouchers, parseDate))
    ensures r.Err? ==> r.error == Error(ApiErrorMessage(body.error))
  {
    if !body.success then Err(Error(ApiErrorMessage(body.error)))
    else Ok(body.(vouchers := Normalise.FixList(body.vouchers, parseDate)))
  }

  /** Everything a run depends on beyond its options: the prompt's answer, the MD5 and
      base64 encoder, the date parser, the jar `request.jar()` makes, and the bodies
      the service replies with. */
  datatype World = World(
    answer: PromptAnswer,
    md5Base64: string -> string,
    parseDate: string -> int,
    freshJar: Jar,
    loginBody: ApiResponse,
    listBody: VoucherListResponse,
    addBody: VoucherAddResponse)

  function HashOf(md5Base64: string -> string, password: string): string {
    PasswordHash.StripPadding(md5Base64(password))
  }

  function RedeemedLine(code: string): string {
    "Code " + code + " redeemed successfully!"
  }

  const CurrentVouchersLine := "Current vouchers:"

  /** `list`: password, login, voucher list, `fixVouchers`, print. */
  function List(args: Args, w: World): (r: Run<RequestOptions>)
    ensures RequestPassword<RequestOptions>(args, w.answer).0 <= r.events
    ensures r.exitCode in {0, 1, 2, 4}
  {
    var asked := RequestPassword<RequestOptions>(args, w.answer);
    match asked.1
    case Err(e) => Fail(Errors, asked.0, PasswordStage, e)
    case Ok(password) =>
      var options := LoginOptions(args.user, HashOf(w.md5Base64, password), w.freshJar);
      var loggingIn := asked.0 + [Send(options)];
      match CheckLogin(options, w.loginBody)
      case Err(e) => Fail(Errors, loggingIn, LoginStage, e)
      case Ok(jar) => ShowList(loggingIn + [Send(ListOptions(jar))], w.listBody, w.parseDate)
  }

  /** The innermost `try` of `list`. */
  function ShowList(events: seq<Event<RequestOptions>>, body: VoucherListResponse, parseDate: string -> int)
    : (r: Run<RequestOptions>)
    ensures r.exitCode == 0 || r.exitCode == 2
    ensures r.exitCode == 2 ==> events <= r.events && OnlyDiagnostics(r.events[|events|..])
    ensures r.exitCode == 0 <==> body.success && body.vouchers.Some?
    ensures r.exitCode == 0 ==>
              var shown := Normalise.FixList(body.vouchers, parseDate).value;
              Report.DatesParsed(shown) && r.events == events + [Show(Report.ReportOf(shown))]
  {
    match GetVoucherList(body)
    case Err(e) => Fail(Errors, events, ListStage, e)
    case Ok(res) =>
      match Report.PrintResult(Normalise.FixList(res.vouchers, parseDate))
      case Err(e) => Fail(Errors, events, ListStage, e)
      case Ok(report) => Run(events + [Show(report)], 0)
  }

  /** `redeem`: password, login, redeem, the confirmation lines, `fixVouchers` once
      more, print. */
  function Redeem(args: Args, code: string, w: World): (r: Run<RequestOptions>)
    ensures RequestPassword<RequestOptions>(args, w.answer).0 <= r.events
    ensures r.exitCode in {0, 1, 3, 4}
  {
    var asked := RequestPassword<RequestOptions>(args, w.answer);
    match asked.1
    case Err(e) => Fail(Errors, asked.0, PasswordStage, e)
    case Ok(password) =>
      var options := LoginOptions(args.user, HashOf(w.md5Base64, password), w.freshJar);
      var loggingIn := asked.0 + [Send(options)];
      match CheckLogin(options, w.loginBody)
      case Err(e) => Fail(Errors, loggingIn, LoginStage, e)
      case Ok(jar) => RedeemAndShow(loggingIn + [Send(RedeemOptions(jar, code))], w.addBody, w.parseDate)
  }

  /** The innermost `try` of `redeem`. */
  function RedeemAndShow(events: seq<Event<RequestOptions>>, body: VoucherAddResponse, parseDate: string -> int)
    : (r: Run<RequestOptions>)
    ensures r.exitCode == 0 || r.exitCode == 3
    ensures events <= r.events
    ensures r.exitCode == 0 <==> body.success && body.vouchers.Some?
    ensures r.exitCode == 0 ==>
              var shown := Normalise.FixList(Normalise.FixList(body.vouchers, parseDate), parseDate).value;
              && Report.DatesParsed(shown)
              && r.events == events + [Stdout(RedeemedLine(body.voucher)), Stdout(CurrentVouchersLine),
                                       Show(Report.ReportOf(shown))]
  {
    match RedeemVoucher(body, parseDate)
    case Err(e) => Fail(Errors, events, RedeemStage, e)
    case Ok(res) =>
      var confirmed := events + [Stdout(RedeemedLine(res.voucher)), Stdout(CurrentVouchersLine)];
      match Report.PrintResult(Normalise.FixList(res.vouchers, parseDate))
      case Err(e) => Fail(Errors, confirmed, RedeemStage, e)
      case Ok(report) => Run(confirmed + [Show(report)], 0)
  }

  // Properties of the commands

  /** Login makes the request with a fresh jar and hands that jar on: the list request
      carries the cookies the login reply set. */
  lemma SessionReused(args: Args, w: World)
    requires RequestPassword<RequestOptions>(args, w.answer).1.Ok? && w.loginBody.success
    ensures var r := List(args, w);
            var n := |RequestPassword<RequestOptions>(args, w.answer).0|;
            && |r.events| >= n + 2
            && r.events[n].Send? && r.events[n].request.uri == UserAuthUrl && r.events[n].request.jar == w.freshJar
            && r.events[n + 1].Send? && r.events[n + 1].request.uri == VoucherListUrl
            && r.events[n + 1].request.jar == w.freshJar
  {
  }

  /** `list` exits with the code of the first stage that failed, 0 when none did. */
  lemma ListOutcomes(args: Args, w: World)
    ensures var r := List(args, w);
            var asked := RequestPassword<RequestOptions>(args, w.answer);
            && asked.0 <= r.events
            && (asked.1.Err? ==> r.events == asked.0 + [Stderr(Errors.loginCancelled)] && r.exitCode == 4)
            && (asked.1.Ok? && !w.loginBody.success && w.loginBody.error.Some? ==> r.exitCode == 1)
            && (asked.1.Ok? && !w.loginBody.success && w.loginBody.error.None? ==> r.exitCode == 4)
            && (r.exitCode == 2 <==> (asked.1.Ok? && w.loginBody.success && !(w.listBody.success && w.listBody.vouchers.Some?)))
            && (r.exitCode == 0 <==> (asked.1.Ok? && w.loginBody.success && w.listBody.success && w.listBody.vouchers.Some?))
  {
  }

  /** `redeem` exits 4 when the prompt fails or login is refused without a payload, 1
      when login is refused with one, 3 when the redeem stage fails and 0 otherwise;
      only diagnostics follow a refused login or a refused redeem. */
  lemma RedeemOutcomes(args: Args, code: string, w: World)
    ensures var r := Redeem(args, code, w);
            var asked := RequestPassword<RequestOptions>(args, w.answer);
            && (r.exitCode == 4 <==> asked.1.Err? || (!w.loginBody.success && w.loginBody.error.None?))
            && (r.exitCode == 1 <==> asked.1.Ok? && !w.loginBody.success && w.loginBody.error.Some?)
            && (asked.1.Ok? && !w.loginBody.success ==>
                  var sent := asked.0 + [Send(LoginOptions(args.user, HashOf(w.md5Base64, asked.1.value), w.freshJar))];
                  sent <= r.events && OnlyDiagnostics(r.events[|sent|..]))
            && (r.exitCode == 3 <==>
                  (asked.1.Ok? && w.loginBody.success && !(w.addBody.success && w.addBody.vouchers.Some?)))
            && (r.exitCode == 3 ==>
                  var sent := asked.0 + [Send(LoginOptions(args.user, HashOf(w.md5Base64, asked.1.value), w.freshJar)),
                                         Send(RedeemOptions(w.freshJar, code))];
                  sent <= r.events && (!w.addBody.success ==> OnlyDiagnostics(r.events[|sent|..])))
            && (r.exitCode == 0 <==>
                  (asked.1.Ok? && w.loginBody.success && w.addBody.success && w.addBody.vouchers.Some?))
  {
  }

  /** An empty voucher list prints exactly the fixed message, and no table. */
  lemma EmptyListMessage(args: Args, w: World)
    requires RequestPassword<RequestOptions>(args, w.answer).1.Ok? && w.loginBody.success
    requires w.listBody.success && w.listBody.vouchers == Some([])
    ensures var asked := RequestPassword<RequestOptions>(args, w.answer);
            List(args, w) ==
              Run(asked.0 + [Send(LoginOptions(args.user, HashOf(w.md5Base64, asked.1.value), w.freshJar)),
                             Send(ListOptions(w.freshJar)),
                             Stdout(Report.EmptyMessage)], 0)
  {
  }

  /** The login handler prints the `message` of what login rejected with; the raw
      payload has none, so the detail line is "undefined" whatever the service said,
      and with no payload the handler itself throws and the run ends as a cancelled
      login after the login lead-in line. */
  lemma LoginLosesDescription(args: Args, w: World)
    requires RequestPassword<RequestOptions>(args, w.answer).1.Ok? && !w.loginBody.success
    ensures var r := List(args, w);
            var asked := RequestPassword<RequestOptions>(args, w.answer);
            var sent := asked.0 + [Send(LoginOptions(args.user, HashOf(w.md5Base64, asked.1.value), w.freshJar))];
            && (w.loginBody.error.Some? ==>
                  r == Run(sent + [Stderr(Errors.loginFailed), Stderr("\"undefined\"")], 1))
            && (w.loginBody.error.None? ==>
                  r == Run(sent + [Stderr(Errors.loginFailed), Stderr(Errors.loginCancelled)], 4))
  {
    assert Detail(Errors, None) == "\"undefined\"";
  }

  /** A successful `list` prints the received list normalised once. */
  lemma ListNormalisesOnce(args: Args, w: World)
    requires List(args, w).exitCode == 0
    ensures w.listBody.vouchers.Some?
    ensures var raw := w.listBody.vouchers.value;
            var shown := Normalise.FixList(Some(raw), w.parseDate).value;
            && Report.DatesParsed(shown)
            && List(args, w).events[|List(args, w).events| - 1] == Show(Report.ReportOf(shown))
            && (|raw| > 0 ==> Report.ReportOf(shown).total * 100.0 == Report.TotalRemaining(raw))
  {
    ListOutcomes(args, w);
    var raw := w.listBody.vouchers.value;
    var shown := Normalise.FixList(Some(raw), w.parseDate).value;
    if |raw| > 0 {
      Report.ReportShape(shown);
      Normalise.TotalScalesOnce(raw, w.parseDate);
    }
  }

  /** A successful `redeem` prints the returned list normalised twice, once in
      `redeemVoucher` and once in `redeem`: its total is the received total divided
      by 10000 rather than by 100. */
  lemma RedeemNormalisesTwice(args: Args, code: string, w: World)
    requires Redeem(args, code, w).exitCode == 0
    ensures w.addBody.success && w.addBody.vouchers.Some?
    ensures var r := Redeem(args, code, w);
            var raw := w.addBody.vouchers.value;
            var shown := Normalise.FixList(Normalise.FixList(Some(raw), w.parseDate), w.parseDate).value;
            && Report.DatesParsed(shown)
            && r.events[|r.events| - 1] == Show(Report.ReportOf(shown))
            && (|raw| > 0 ==> Report.ReportOf(shown).total * 10000.0 == Report.TotalRemaining(raw))
  {
    var raw := w.addBody.vouchers.value;
    var shown := Normalise.FixList(Normalise.FixList(Some(raw), w.parseDate), w.parseDate).value;
    if |raw| > 0 {
      Report.ReportShape(shown);
      Normalise.TotalScalesTwice(raw, w.parseDate);
    }
  }

  /** The input that shows the double pass: a voucher worth 10.00 (1000 hundredths on
      the wire) is listed with a remaining value of 0.10 after `redeem`, where one
      pass shows 10.00. */
  lemma RedeemShowsHundredth(v: Voucher, parseDate: string -> int)
    requires v.remainingValue == 1000.0
    ensures var once := Normalise.FixVoucher(v, parseDate);
            var twice := Normalise.FixVoucher(once, parseDate);
            && Currency.ToFixed2(once.remainingValue) == "10.00"
            && Currency.ToFixed2(twice.remainingValue) == "0.10"
  {
  }
}
