# yawp, modelled in Dafny

yawp is a command-line program that posts a message (a "yawp") to Mastodon
and/or Twitter. This project models the parts of `src/main.rs` that the
program computes itself. The HTTP client, the OAuth signer and the argument
parser are left to the libraries that do that work.

- **Loading an env file** (`set_env`). Lines that are comments or hold no `=` are skipped.
  Every other line is split on `=`, and its first piece is set to its second piece in
  the process environment, in file order. The environment is a
  `map<string, string>`. The file is given as the sequence of its lines.
  `SetEnv` is a loop over the lines that updates a local map. It is proved
  equal to the specification function `ApplyLines`, and the lemmas about
  `ApplyLines` state what loading does. `env::set_var` panics on an empty
  name, on a name holding `=` or NUL, and on a value holding NUL. Such a
  panic ends the process, and the model returns the index of the line where it happens.
- **Status codes and errors** (`APIError`, its `Display`, `check_status`). A status
  code is an integer from 100 to 999, which is the range the HTTP client's status
  type holds. `check_status` matches on the code's three-digit text (`as_str`).
  The model does the same, then proves what that means in numbers: 400, 401, 403,
  423, 500 to 599, and every other code.
- **Request strings** (`toot`, and the parts of `tweet` that do not involve
  signing). The Mastodon endpoint is the base URL with `/api/v1/statuses`
  after it. The `Authorization` value is `Bearer ` followed by the token.
  An unset variable reads as the empty string.
- **Posting and output** (`process_yawp`). Mastodon is contacted first, then Twitter,
  and only the platforms that were selected. Each reply is either a request error or a
  response with a status. A request error or any status other than 200 raises
  `has_error` and writes one line to standard error. A bad status is classified by
  `check_status` as written, so a 429 is reported as `Unknown error` (see Findings).
  The classifier is a parameter of the report functions, so the same report can be
  stated with the corrected classification. The message goes to
  standard output only when nothing failed and `--quiet` is off.
- **Message assembly and order of work** (`main`). The message is the YAWP argument, or, when
  that argument is `-`, the lines of standard input joined by `"\n"` with no trailing
  newline. The env file is loaded after the message is read and before anything is posted.

Modules: `RustTypes` (Option and Result), `Text` (the `str` operations used:
`starts_with`, `split`, and joining), `Config`, `ApiErrors`, `Requests`,
`Yawping`, `Cli`.

## Model

| member | source | states |
|---|---|---|
| `Text.Split` | src/main.rs:14 | `split("=")` gives at least one piece, and no piece holds the separator. There are two or more pieces exactly when the line holds the separator. |
| `Text.JoinSplit` | src/main.rs:14 | Joining the pieces of a split with the separator gives the text back, so nothing is lost or reordered. |
| `Text.SplitJoin` | src/main.rs:14 | Splitting undoes joining whenever no part holds the separator. |
| `Text.JoinSnoc` | src/main.rs:222-226 | Appending `"\n"` and one more line to a joined text gives the join of the longer list. |
| `Config.ParseLine` | src/main.rs:13-15 | A line yields an assignment exactly when it does not start with `#` and holds `=`. Neither the key nor the value holds `=`. |
| `Config.AssignmentFields` | src/main.rs:14-15 | For an accepted line, the key is the text before the first `=`. The value is the text from there to the second `=` or to the end of the line. The line is key, `=`, value and a rest that is empty or starts with `=`, and that rest is dropped. |
| `Config.SetEnv` | src/main.rs:7-18 | The loop over the lines returns exactly `ApplyLines`: accepted lines are applied in order, and the walk stops at a panicking `set_var`. `set_var` (src/main.rs:15) panics on a value holding NUL, on a name holding NUL, and on an empty name or a name holding `=`, which Unix `setenv` rejects with `EINVAL`; `SetVarPanics` states these conditions. |
| `Config.PanicsAtFirstBadLine` | src/main.rs:12-16 | Loading succeeds exactly when no accepted line has arguments `set_var` rejects. Otherwise it stops at the first such line. |
| `Config.PanicIsFinal` | src/main.rs:12-16 | Once a prefix of the file has panicked, the lines after it change nothing. |
| `Config.LoadedKeys` | src/main.rs:12-16 | After loading, the variables are the old ones plus the keys of the accepted lines. No variable is removed. |
| `Config.LastAssignmentWins` | src/main.rs:12-16 | A key ends up with the value of the last accepted line that names it. |
| `Config.UnassignedKeyKept` | src/main.rs:12-16 | A key that no accepted line names keeps its old value, or stays unset. |
| `Config.SkippedLineIgnored` | src/main.rs:13 | Inserting a comment line or a line without `=` anywhere in the file changes neither whether loading succeeds nor the environment it yields. |
| `ApiErrors.AsStr` | src/main.rs:49 | `as_str` is three decimal digits, and those digits spell the code back. |
| `ApiErrors.AsStrInjective` | src/main.rs:49-54 | Two codes have the same text exactly when they are equal, so matching on the text is matching on the code. |
| `ApiErrors.StartsWithFiveIffServerRange` | src/main.rs:54 | The text starts with `5` exactly for codes 500 to 599. |
| `ApiErrors.Display` | src/main.rs:32-43 | The displayed text is the carried message, or `Unknown error` for `Unknown`. |
| `ApiErrors.CheckStatus` | src/main.rs:47-57 | As written, it never returns `Ok`. 400 gives BadRequest, 401 Unauthorized, 403 Forbidden, 423 TooManyRequests, and 500 to 599 ServerError. Every other code gives Unknown. Each direction of each case is stated. |
| `ApiErrors.CheckStatusCorrected` | src/main.rs:47-57 | The same mapping, except that TooManyRequests is selected by 429 (see Findings). |
| `ApiErrors.TooManyRequestsMisclassified` | src/main.rs:53 | As written, 429 yields `Unknown` and displays as `Unknown error`, and 423 yields TooManyRequests. The corrected mapping gives TooManyRequests for 429. |
| `ApiErrors.CheckStatusMessages` | src/main.rs:50-55 | Every error that check_status returns, as written or corrected, carries the message of its own arm. |
| `ApiErrors.DisplayDistinguishesErrors` | src/main.rs:32-57 | Two errors built as check_status builds them display the same text exactly when they are the same error. A user can therefore tell the error classes apart from the printed text. |
| `ApiErrors.MessagesDistinct` | src/main.rs:40-54 | The six error texts differ from one another. |
| `Requests.EnvVar` | src/main.rs:102 | `env::var(name).unwrap_or("")`, as read at src/main.rs:82-85, 102 and 106: the variable's value, or `""` when it is unset (values that are not valid Unicode are not modelled, see Left out). |
| `Requests.Toot` | src/main.rs:99-117 | The request is a Mastodon post. Its `Authorization` value is `Bearer ` followed by the token. Its endpoint is the base URL followed by `/api/v1/statuses`. Its form carries the message as `status`. |
| `Requests.TootDeterminesSettings` | src/main.rs:102-111 | Two Mastodon requests are equal exactly when they have the same message, base URL and token. The settings can be read back from the request. |
| `Requests.TootWithoutSettings` | src/main.rs:102-108 | With both variables unset, the endpoint is the bare `/api/v1/statuses` and the header is the bare `Bearer `. |
| `Requests.Tweet` | src/main.rs:73-87 | The request posts the message to the fixed `statuses/update` endpoint. It is signed with the four Twitter secrets read from the environment, each `""` when unset. |
| `Requests.TweetDeterminesSettings` | src/main.rs:73-85 | Two Twitter requests as modelled (endpoint, message and the four secrets, before signing) are equal exactly when they have the same message and the same four secrets. The secrets can be read back from the modelled request. The signed `Authorization` header is not part of this. |
| `Requests.RequestsReadOnlyTheirVariables` | src/main.rs:73-108 | Setting or unsetting a variable other than the two Mastodon ones leaves the Mastodon request unchanged. The same holds for the Twitter request and its four variables. |
| `Yawping.StatusReport` | src/main.rs:132-136 | For an error, the line is the platform's name and ` Error: ` followed by the error's display, and that display can be read back from the line. |
| `Yawping.Report` | src/main.rs:129-139 | A platform block writes exactly one standard-error line when it failed, and none otherwise. |
| `Yawping.ReportNamesTheError` | src/main.rs:130-138 | A request error is reported as `Request Error: ...`. A bad status is reported as `<Platform> Error: ` followed by the display of the error `check_status` gives it as written. |
| `Yawping.StatusReportDistinguishesClasses` | src/main.rs:132-136 | Two statuses give the same error line exactly when `check_status` gives them the same error. |
| `Yawping.RateLimitReports` | src/main.rs:53 | As written, a 423 response is reported as `Too many requests error` and a 429 response as `Unknown error`. With the corrected classification a 429 is reported as `Too many requests error`. |
| `Yawping.HandleReply` | src/main.rs:129-139 | A platform block fails exactly on a request error or on a status whose text is not `200`. It reports as `Report` says with `check_status` as written. |
| `Yawping.ProcessYawp` | src/main.rs:120-163 | The whole result equals `YawpEffects`: only selected platforms are contacted, Mastodon before Twitter, each reported with `check_status` as written. What that means for the two output streams is stated in `EchoIffNothingFailed`. |
| `Yawping.EchoIffNothingFailed` | src/main.rs:124-161 | The message reaches standard output exactly when no selected platform failed and quiet mode is off. Standard error is empty exactly when nothing failed. The two streams are never both written. |
| `Yawping.UnselectedPlatformIgnored` | src/main.rs:127-156 | What an unselected platform would have replied changes nothing. Every request sent goes to a selected platform. |
| `Cli.AssembleMessage` | src/main.rs:208-227 | An argument other than `-` is the message verbatim. Otherwise the loop produces the stdin lines joined by `"\n"`, with no trailing newline. |
| `Cli.StdinMessageSplitsBack` | src/main.rs:219-226 | Splitting the assembled message on `"\n"` gives back exactly the stdin lines. |
| `Cli.Run` | src/main.rs:208-233 | The message is assembled first. The env file is loaded only when one is named, and a panic there ends the run before anything is posted. Otherwise the message is processed with the loaded environment. |
| `Cli.EnvFileTokenReachesToot` | src/main.rs:229-233 | A Mastodon token set by the env file reaches the request. The header is `Bearer ` followed by the value of the last line that sets the token. |

## Left out

- HTTP requests, their responses and their errors (`reqwest`): each platform's outcome is an input, a request error carrying its description or a status code.
- OAuth 1 signing of the Twitter request and the URL-encoded query (`oauth::to_uri_query`, `oauth::post`): the model keeps only the endpoint, the message and the four secrets. The HMAC-SHA1 signature also covers a fresh random `oauth_nonce` and the current `oauth_timestamp` (sections 3.1 and 3.3 of RFC 5849). That randomness and the clock are dropped, so two real requests with the same message and secrets carry different `Authorization` headers, while their models are equal.
- Environment values are Unicode strings in the model. `env::var` also fails with `NotUnicode` for a variable that is set to a value that is not valid Unicode, and `unwrap_or("")` turns that into `""` as well (src/main.rs:82-85, 102 and 106). That case is not modelled: `Requests.EnvVar` yields `""` only for an unset variable.
- Argument parsing with `clap`, including its help text and version: the parsed arguments are an input.
- Reading the env file and splitting it into lines (`fs::read_to_string`, `str::lines`): the file is given as its lines. The panic on an unreadable file is out of scope, since no contents exist then.
- Reading standard input: its lines are an input. `Cli.AssembleMessage` and `Cli.Run` require at least one line when the argument is `-`, because the source panics on empty input. A stdin line that cannot be read, or is not valid UTF-8, also ends the program with a panic (the `unwrap` calls at src/main.rs:220 and 223), before the env file is loaded and before anything is posted. That case is not modelled, because the model's lines are strings.
- `env::set_var` is modelled by its Unix panic conditions and a map update; the Windows rules differ and are not modelled.
- Standard output and standard error are modelled as sequences holding the text each `println!` or `eprintln!` call writes, without the trailing newline the call adds. One element can hold `"\n"`, as the echoed message does when it was read from several stdin lines.
- The `Ok(val)` arm of the status report in `process_yawp` is modelled (it would print `true` or `false`), but it is never reached, because `check_status` never returns `Ok`.

## Findings

| source | as written | input that shows it | evidently intended | confidence | as-written member | corrected member |
|---|---|---|---|---|---|---|
| src/main.rs:53 | Status `"423"` selects `TooManyRequests`. 423 is Locked (RFC 4918, section 11.3). | A 429 response, which is Too Many Requests in section 4 of RFC 6585, is reported as `Unknown error`. | 429 selects `TooManyRequests` ("Too many requests error"). | not executed; high (the variant's name and message) | `ApiErrors.TooManyRequestsMisclassified` (about `ApiErrors.CheckStatus`) | `ApiErrors.CheckStatusCorrected`; the report it gives is stated in `Yawping.RateLimitReports` |
