/**
 * process_yawp: posts the message to each selected platform in turn
 * (Mastodon, then Twitter), reports every failure on standard error, and
 * echoes the message on standard output only when nothing failed and quiet
 * mode is off. The network is replaced by the reply each platform would give.
 */
module Yawping {
  import opened RustTypes
  import opened Text
  import opened Config
  import opened ApiErrors
  import opened Requests

  /** What a post came back with: the request failed, or a response with a status. */
  datatype Reply = RequestError(description: string) | Response(status: StatusCode)

  /** The command-line switches process_yawp looks at. */
  datatype Flags = Flags(mastodon: bool, twitter: bool, quiet: bool)

  /**
   * What the program did: the requests handed to the HTTP client, in order
   * (whether or not the client could send them), and its two output streams.
   */
  datatype Effects = Effects(sent: seq<Request>, stderr: seq<string>, stdout: seq<string>)

  /** A post failed: the request itself failed, or the status is anything but 200. */
  predicate Failed(reply: Reply)
  {
    reply.RequestError? || reply.status != 200
  }

  /** Some selected platform failed. */
  predicate AnyFailed(flags: Flags, mastodonReply: Reply, twitterReply: Reply)
  {
    (flags.mastodon && Failed(mastodonReply)) || (flags.twitter && Failed(twitterReply))
  }

  const ERROR_SEPARATOR := " Error: "

  /**
   * The standard-error line for a response whose status is not 200, with
   * `check` classifying the status: the platform's name and " Error: " in
   * front of the error's display. process_yawp passes `CheckStatus`.
   */
  function StatusReport(platform: string, status: StatusCode, check: StatusCode -> Result<bool, APIError>): (line: string)
    ensures check(status).Err? ==> StartsWith(line, platform + ERROR_SEPARATOR)
    ensures check(status).Err? ==> line[|platform + ERROR_SEPARATOR|..] == Display(check(status).error)
  {
    match check(status)
    case Ok(val) => if val then "true" else "false"
    case Err(err) => platform + ERROR_SEPARATOR + Display(err)
  }

  /** The standard-error lines one platform's reply produces. */
  function Report(platform: string, reply: Reply, check: StatusCode -> Result<bool, APIError>): (lines: seq<string>)
    ensures |lines| == if Failed(reply) then 1 else 0
  {
    match reply
    case RequestError(description) => ["Request Error: " + description]
    case Response(status) => if status == 200 then [] else [StatusReport(platform, status, check)]
  }

  /** Every failure is reported: a request error with its description, a status with its error class. */
  lemma ReportNamesTheError(platform: string, reply: Reply)
    requires Failed(reply)
    ensures reply.RequestError? ==> Report(platform, reply, CheckStatus) == ["Request Error: " + reply.description]
    ensures reply.Response? ==>
      Report(platform, reply, CheckStatus) == [platform + ERROR_SEPARATOR + Display(CheckStatus(reply.status).error)]
  {
  }

  /**
   * The status line tells the error classes apart: two statuses give the
   * same line exactly when check_status gives them the same error.
   */
  lemma StatusReportDistinguishesClasses(platform: string, a: StatusCode, b: StatusCode)
    ensures StatusReport(platform, a, CheckStatus) == StatusReport(platform, b, CheckStatus)
      <==> CheckStatus(a) == CheckStatus(b)
  {
    CheckStatusMessages(a);
    CheckStatusMessages(b);
    var ea, eb := CheckStatus(a).error, CheckStatus(b).error;
    if StatusReport(platform, a, CheckStatus) == StatusReport(platform, b, CheckStatus) {
      DisplayDistinguishesErrors(ea, eb);
    }
  }

  /**
   * As written, a 423 Locked response is reported as too many requests and
   * a 429 Too Many Requests response as an unknown error; with the
   * corrected classification a 429 is reported as too many requests.
   */
  lemma RateLimitReports(platform: string)
    ensures Report(platform, Response(423), CheckStatus) == [platform + ERROR_SEPARATOR + TOO_MANY_REQUESTS_MESSAGE]
    ensures Report(platform, Response(429), CheckStatus) == [platform + ERROR_SEPARATOR + UNKNOWN_MESSAGE]
    ensures Report(platform, Response(429), CheckStatusCorrected) == [platform + ERROR_SEPARATOR + TOO_MANY_REQUESTS_MESSAGE]
  {
    TooManyRequestsMisclassified();
  }

  /** The effects of process_yawp, stated platform by platform. */
  function YawpEffects(yawp: string, flags: Flags, env: Env, mastodonReply: Reply, twitterReply: Reply): Effects
  {
    Effects(
      (if flags.mastodon then [Toot(yawp, env)] else []) + (if flags.twitter then [Tweet(yawp, env)] else []),
      (if flags.mastodon then Report("Mastodon", mastodonReply, CheckStatus) else [])
        + (if flags.twitter then Report("Twitter", twitterReply, CheckStatus) else []),
      if !AnyFailed(flags, mastodonReply, twitterReply) && !flags.quiet then [yawp] else [])
  }

  /**
   * One platform's block of process_yawp, after its request was sent: a
   * request error or a status other than "200" is a failure, reported on
   * standard error.
   */
  method HandleReply(platform: string, reply: Reply) returns (failed: bool, report: seq<string>)
    ensures failed == Failed(reply)
    ensures report == Report(platform, reply, CheckStatus)
  {
    match reply
    case Response(status) =>
      AsStrInjective(status, 200);
      if AsStr(status) != "200" {
        failed := true;
        report := [StatusReport(platform, status, CheckStatus)];
      } else {
        failed := false;
        report := [];
      }
    case RequestError(description) =>
      failed := true;
      report := ["Request Error: " + description];
  }

  /**
   * process_yawp: a `has_error` flag is raised by any failing selected
   * platform, and the message is echoed only if it stayed down and quiet
   * mode is off.
   */
  method ProcessYawp(yawp: string, flags: Flags, env: Env, mastodonReply: Reply, twitterReply: Reply)
    returns (out: Effects)
    ensures out == YawpEffects(yawp, flags, env, mastodonReply, twitterReply)
  {
    var hasError := false;

    var tooted: seq<Request> := [];
    var mastodonReport: seq<string> := [];
    if flags.mastodon {
      tooted := [Toot(yawp, env)];
      var failed;
      failed, mastodonReport := HandleReply("Mastodon", mastodonReply);
      hasError := hasError || failed;
    }

    var tweeted: seq<Request> := [];
    var twitterReport: seq<string> := [];
    if flags.twitter {
      tweeted := [Tweet(yawp, env)];
      var failed;
      failed, twitterReport := HandleReply("Twitter", twitterReply);
      hasError := hasError || failed;
    }

    var stdout: seq<string> := [];
    if !hasError && !flags.quiet {
      stdout := [yawp];
    }
    out := Effects(tooted + tweeted, mastodonReport + twitterReport, stdout);
  }

  /**
   * The message reaches standard output exactly when no selected platform
   * failed and quiet mode is off; standard error stays empty exactly when
   * nothing failed, so the two are never both written.
   */
  lemma EchoIffNothingFailed(yawp: string, flags: Flags, env: Env, mastodonReply: Reply, twitterReply: Reply)
    ensures var out := YawpEffects(yawp, flags, env, mastodonReply, twitterReply);
      && (out.stdout == [yawp] <==> !flags.quiet && !AnyFailed(flags, mastodonReply, twitterReply))
      && (out.stdout == [] <==> flags.quiet || AnyFailed(flags, mastodonReply, twitterReply))
      && (out.stderr == [] <==> !AnyFailed(flags, mastodonReply, twitterReply))
      && (out.stdout != [] ==> out.stderr == [])
  {
  }

  /** A platform that is not selected is never contacted, whatever it would reply. */
  lemma UnselectedPlatformIgnored(yawp: string, flags: Flags, env: Env, m1: Reply, m2: Reply, t1: Reply, t2: Reply)
    ensures !flags.mastodon ==> YawpEffects(yawp, flags, env, m1, t1) == YawpEffects(yawp, flags, env, m2, t1)
    ensures !flags.twitter ==> YawpEffects(yawp, flags, env, m1, t1) == YawpEffects(yawp, flags, env, m1, t2)
    ensures forall r :: r in YawpEffects(yawp, flags, env, m1, t1).sent ==>
      (r.MastodonPost? && flags.mastodon) || (r.TwitterPost? && flags.twitter)
  {
  }
}
