/** What both variants of the command share: the parsed options, the password
    prompt, the observable events of a run, and the `errors` handlers with the
    try/catch nesting of `list` and `redeem`. */
module Process {
  import opened Interfaces
  import Report

  /** `--user` and `--password`; a password left out is `null`. */
  datatype Args = Args(user: string, password: Option<string>)

  /** How the interactive prompt ends: with the typed text, or with an error object
      (the callback resolves whenever its error argument is falsy). */
  datatype PromptAnswer = Entered(text: string) | Aborted(message: string)

  /** What a run does that can be observed, in order. `Req` is the variant's request. */
  datatype Event<Req> =
    | Prompt(text: string)
    | Send(request: Req)
    | Stdout(text: string)
    | Stderr(text: string)
    | Print(report: Report.Report)   // the table `printVouchers` writes

  datatype Run<Req> = Run(events: seq<Event<Req>>, exitCode: int)

  /** Only diagnostic lines: no prompt, request, output line or table. */
  predicate OnlyDiagnostics<Req>(events: seq<Event<Req>>) {
    forall i :: 0 <= i < |events| ==> events[i].Stderr?
  }

  /** What `printVouchers` writes for a report: the fixed line when there are no
      vouchers, the table otherwise. */
  function Show<Req>(report: Report.Report): (e: Event<Req>)
    ensures report.NoVouchers? <==> e == Stdout(Report.EmptyMessage)
    ensures report.Table? <==> e == Print(report)
  {
    if report.NoVouchers? then Stdout(Report.EmptyMessage) else Print(report)
  }

  /** The stages of a command, each with its own handler in `errors`. */
  datatype Stage = PasswordStage | LoginStage | ListStage | RedeemStage

  /** The lead-in lines of the `errors` handlers, and whether the detail line is
      wrapped in double quotes. */
  datatype ErrorTable = ErrorTable(
    loginFailed: string, voucherListFailed: string, voucherAddFailed: string,
    loginCancelled: string, quoteDetail: bool)

  /** The `process.exit` code of each handler. */
  function ExitCode(stage: Stage): (code: int)
    ensures 1 <= code <= 4
    ensures stage == PasswordStage <==> code == 4
    ensures stage == LoginStage <==> code == 1
    ensures stage == ListStage <==> code == 2
    ensures stage == RedeemStage <==> code == 3
  {
    match stage
    case PasswordStage => 4
    case LoginStage => 1
    case ListStage => 2
    case RedeemStage => 3
  }

  function Lead(t: ErrorTable, stage: Stage): string {
    match stage
    case PasswordStage => t.loginCancelled
    case LoginStage => t.loginFailed
    case ListStage => t.voucherListFailed
    case RedeemStage => t.voucherAddFailed
  }

  /** The `try` one level out, whose `catch` sees what this stage's handler throws. */
  function Enclosing(stage: Stage): Stage
    requires stage != PasswordStage
  {
    if stage == LoginStage then PasswordStage else LoginStage
  }

  function Depth(stage: Stage): nat {
    match stage
    case PasswordStage => 0
    case LoginStage => 1
    case _ => 2
  }

  /** The detail line: the error's `message` as `console.error` shows it ("undefined"
      when the thrown value has none), in quotes when the table asks for it. */
  function Detail(t: ErrorTable, message: Option<string>): string {
    var text := if message.Some? then message.value else "undefined";
    if t.quoteDetail then "\"" + text + "\"" else text
  }

  /** A stage failed with `err` after `events`: its handler prints its lead-in line,
      then reads `err.message` for the detail line and exits. The cancel handler reads
      nothing. Reading `message` of `undefined` throws, and the TypeError goes to the
      handler one `try` out. */
  function Fail<Req>(t: ErrorTable, events: seq<Event<Req>>, stage: Stage, err: Thrown): (r: Run<Req>)
    ensures events <= r.events && |r.events| > |events|
    ensures OnlyDiagnostics(r.events[|events|..])
    ensures r.events[|events|] == Stderr(Lead(t, stage))
    ensures 1 <= r.exitCode <= 4
    ensures stage == PasswordStage ==> r == Run(events + [Stderr(t.loginCancelled)], 4)
    ensures stage != PasswordStage && err.Error? ==>
              r == Run(events + [Stderr(Lead(t, stage)), Stderr(Detail(t, Some(err.message)))], ExitCode(stage))
    ensures stage != PasswordStage && err.Raw? ==>
              r == Run(events + [Stderr(Lead(t, stage)), Stderr(Detail(t, None))], ExitCode(stage))
    ensures stage != PasswordStage && err.Undefined? ==>
              r == Fail(t, events + [Stderr(Lead(t, stage))], Enclosing(stage), TypeError("message"))
    ensures stage == LoginStage && err.Undefined? ==>
              r == Run(events + [Stderr(t.loginFailed), Stderr(t.loginCancelled)], 4)
    decreases Depth(stage)
  {
    if stage == PasswordStage then
      Run(events + [Stderr(t.loginCancelled)], ExitCode(stage))
    else
      match err
      case Error(m) => Run(events + [Stderr(Lead(t, stage)), Stderr(Detail(t, Some(m)))], ExitCode(stage))
      case Raw(_) => Run(events + [Stderr(Lead(t, stage)), Stderr(Detail(t, None))], ExitCode(stage))
      case Undefined =>
        var r := Fail(t, events + [Stderr(Lead(t, stage))], Enclosing(stage), TypeError("message"));
        assert (events + [Stderr(Lead(t, stage))])[|events|] == Stderr(Lead(t, stage));
        r
  }

  /** The text `promptly` shows when it asks for the password. */
  function PromptText(user: string): string {
    "Enter pizza.de password for account " + user + ":"
  }

  /** `requestPassword`: a supplied password is used as it is; otherwise the prompt is
      shown once and its answer (text or error) is the outcome. */
  function RequestPassword<Req>(args: Args, answer: PromptAnswer): (r: (seq<Event<Req>>, Result<string, Thrown>))
    ensures args.password.Some? ==> r == ([], Ok(args.password.value))
    ensures args.password.None? ==> r.0 == [Prompt(PromptText(args.user))]
    ensures args.password.None? && answer.Entered? ==> r.1 == Ok(answer.text)
    ensures args.password.None? && answer.Aborted? ==> r.1 == Err(Error(answer.message))
  {
    match args.password
    case Some(p) => ([], Ok(p))
    case None =>
      match answer
      case Entered(text) => ([Prompt(PromptText(args.user))], Ok(text))
      case Aborted(message) => ([Prompt(PromptText(args.user))], Err(Error(message)))
  }
}
