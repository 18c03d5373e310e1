/**
 * The body of the program's entry point: the message comes from the YAWP
 * argument or, when that is "-", from the lines of standard input; then the
 * env file, if one is named, is loaded; then the message is posted. The
 * argument parser, the file system and standard input are replaced by the
 * values they would deliver.
 */
module Cli {
  import opened RustTypes
  import opened Text
  import opened Config
  import opened Requests
  import opened Yawping

  /** The parsed command line. */
  datatype Arguments = Arguments(yawp: string, envFile: Option<string>, mastodon: bool, twitter: bool, quiet: bool)

  /** A run either finishes, or ends in a panic while the env file is loaded. */
  datatype RunOutcome = Finished(effects: Effects) | Aborted(envLine: nat)

  /**
   * The message: the argument itself unless it is "-"; then the first line
   * of standard input followed by "\n" and each later line.
   */
  method AssembleMessage(arg: string, stdin: seq<string>) returns (yawp: string)
    requires arg == "-" ==> |stdin| >= 1
    ensures arg != "-" ==> yawp == arg
    ensures arg == "-" ==> yawp == Join(stdin, '\n')
  {
    yawp := "";
    if arg != "-" {
      yawp := yawp + arg;
    } else {
      yawp := yawp + stdin[0];
      var i := 1;
      while i < |stdin|
        invariant 1 <= i <= |stdin|
        invariant yawp == Join(stdin[..i], '\n')
      {
        JoinSnoc(stdin[..i], stdin[i], '\n');
        assert stdin[..i] + [stdin[i]] == stdin[..i + 1];
        yawp := yawp + "\n";
        yawp := yawp + stdin[i];
        i := i + 1;
      }
      assert stdin[..i] == stdin;
    }
  }

  /**
   * Lines read from standard input hold no newline, so the message splits
   * back into exactly those lines.
   */
  lemma StdinMessageSplitsBack(stdin: seq<string>)
    requires |stdin| >= 1
    requires forall i :: 0 <= i < |stdin| ==> '\n' !in stdin[i]
    ensures Split(Join(stdin, '\n'), '\n') == stdin
  {
    SplitJoin(stdin, '\n');
  }

  /**
   * The entry point after argument parsing: assemble the message, load the
   * env file when one is named, then process the message.
   */
  method Run(args: Arguments, stdin: seq<string>, envFileLines: seq<string>, env: Env,
             mastodonReply: Reply, twitterReply: Reply) returns (out: RunOutcome)
    requires args.yawp == "-" ==> |stdin| >= 1
    ensures var loaded := if args.envFile.Some? then ApplyLines(env, envFileLines) else Loaded(env);
      var msg := if args.yawp != "-" then args.yawp else Join(stdin, '\n');
      var flags := Flags(args.mastodon, args.twitter, args.quiet);
      out == match loaded
        case Panicked(k) => Aborted(k)
        case Loaded(e) => Finished(YawpEffects(msg, flags, e, mastodonReply, twitterReply))
  {
    var yawp := AssembleMessage(args.yawp, stdin);
    var vars := env;
    if args.envFile.Some? {
      var loaded := SetEnv(env, envFileLines);
      if loaded.Panicked? {
        return Aborted(loaded.line);
      }
      vars := loaded.env;
    }
    var effects := ProcessYawp(yawp, Flags(args.mastodon, args.twitter, args.quiet), vars, mastodonReply, twitterReply);
    out := Finished(effects);
  }

  /**
   * A Mastodon token set by the env file reaches the request: the
   * `Authorization` value is "Bearer " and the value of the last line that
   * sets the token.
   */
  lemma EnvFileTokenReachesToot(msg: string, env: Env, lines: seq<string>, j: nat)
    requires ApplyLines(env, lines).Loaded?
    requires j < |lines| && ParseLine(lines[j]).Some? && ParseLine(lines[j]).value.key == "MASTODON_ACCESS_TOKEN"
    requires forall k :: j < k < |lines| && ParseLine(lines[k]).Some? ==>
      ParseLine(lines[k]).value.key != "MASTODON_ACCESS_TOKEN"
    ensures Toot(msg, ApplyLines(env, lines).env).authorization == BEARER_PREFIX + ParseLine(lines[j]).value.value
  {
    LastAssignmentWins(env, lines, j);
  }
}
