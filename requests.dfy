/**
 * The two posting requests, as far as the program builds them itself: the
 * endpoint, the credentials read from the environment (an unset variable
 * reads as the empty string) and the message. Sending them, and signing the
 * Twitter one, happen outside this model.
 */
module Requests {
  import opened Text
  import opened Config

  const MASTODON_STATUSES_PATH := "/api/v1/statuses"
  const BEARER_PREFIX := "Bearer "
  const TWITTER_ENDPOINT := "https://api.twitter.com/1.1/statuses/update.json"

  /** The four secrets the Twitter request is signed with. */
  datatype TwitterToken = TwitterToken(
    consumerKey: string, consumerSecret: string, accessToken: string, accessSecret: string)

  datatype Request =
    | MastodonPost(endpoint: string, authorization: string, form: seq<(string, string)>)
    | TwitterPost(endpoint: string, status: string, token: TwitterToken)

  /** `env::var(name).unwrap_or("")`: the variable's value, or "" when it is unset. */
  function EnvVar(env: Env, name: string): (v: string)
    ensures name !in env ==> v == ""
    ensures name in env ==> v == env[name]
  {
    if name in env then env[name] else ""
  }

  /**
   * toot: the endpoint is the base URL with the statuses path after it, the
   * `Authorization` value is "Bearer " and the token, and the form carries
   * the message as `status`.
   */
  function Toot(msg: string, env: Env): (req: Request)
    ensures req.MastodonPost?
    ensures StartsWith(req.authorization, BEARER_PREFIX)
    ensures req.authorization[|BEARER_PREFIX|..] == EnvVar(env, "MASTODON_ACCESS_TOKEN")
    ensures StartsWith(req.endpoint, EnvVar(env, "MASTODON_BASE_URL"))
    ensures req.endpoint[|EnvVar(env, "MASTODON_BASE_URL")|..] == MASTODON_STATUSES_PATH
    ensures req.form == [("status", msg)]
  {
    var token := BEARER_PREFIX + EnvVar(env, "MASTODON_ACCESS_TOKEN");
    var endpoint := EnvVar(env, "MASTODON_BASE_URL") + MASTODON_STATUSES_PATH;
    MastodonPost(endpoint, token, [("status", msg)])
  }

  /**
   * The base URL and the token can be read back from a Mastodon request, so
   * two requests agree exactly when their settings and messages do.
   */
  lemma TootDeterminesSettings(msg1: string, env1: Env, msg2: string, env2: Env)
    ensures Toot(msg1, env1) == Toot(msg2, env2) <==>
      && msg1 == msg2
      && EnvVar(env1, "MASTODON_BASE_URL") == EnvVar(env2, "MASTODON_BASE_URL")
      && EnvVar(env1, "MASTODON_ACCESS_TOKEN") == EnvVar(env2, "MASTODON_ACCESS_TOKEN")
  {
  }

  /** With neither variable set, the request goes to the bare path with a bare "Bearer ". */
  lemma TootWithoutSettings(msg: string, env: Env)
    requires "MASTODON_BASE_URL" !in env && "MASTODON_ACCESS_TOKEN" !in env
    ensures Toot(msg, env).endpoint == MASTODON_STATUSES_PATH
    ensures Toot(msg, env).authorization == BEARER_PREFIX
  {
  }

  /**
   * tweet: posts the message to the fixed statuses/update endpoint with the
   * four secrets read from the environment.
   */
  function Tweet(msg: string, env: Env): (req: Request)
    ensures req.TwitterPost? && req.endpoint == TWITTER_ENDPOINT && req.status == msg
    ensures req.token.consumerKey == EnvVar(env, "TWITTER_CONSUMER_KEY")
    ensures req.token.consumerSecret == EnvVar(env, "TWITTER_CONSUMER_SECRET")
    ensures req.token.accessToken == EnvVar(env, "TWITTER_ACCESS_TOKEN")
    ensures req.token.accessSecret == EnvVar(env, "TWITTER_ACCESS_SECRET")
  {
    var token := TwitterToken(
      EnvVar(env, "TWITTER_CONSUMER_KEY"), EnvVar(env, "TWITTER_CONSUMER_SECRET"),
      EnvVar(env, "TWITTER_ACCESS_TOKEN"), EnvVar(env, "TWITTER_ACCESS_SECRET"));
    TwitterPost(TWITTER_ENDPOINT, msg, token)
  }

  /**
   * The message and the four secrets can be read back from a Twitter
   * request, so two requests agree exactly when those do.
   */
  lemma TweetDeterminesSettings(msg1: string, env1: Env, msg2: string, env2: Env)
    ensures Tweet(msg1, env1) == Tweet(msg2, env2) <==>
      && msg1 == msg2
      && EnvVar(env1, "TWITTER_CONSUMER_KEY") == EnvVar(env2, "TWITTER_CONSUMER_KEY")
      && EnvVar(env1, "TWITTER_CONSUMER_SECRET") == EnvVar(env2, "TWITTER_CONSUMER_SECRET")
      && EnvVar(env1, "TWITTER_ACCESS_TOKEN") == EnvVar(env2, "TWITTER_ACCESS_TOKEN")
      && EnvVar(env1, "TWITTER_ACCESS_SECRET") == EnvVar(env2, "TWITTER_ACCESS_SECRET")
  {
  }

  /** The variables each request reads. */
  const MASTODON_VARIABLES: set<string> := {"MASTODON_BASE_URL", "MASTODON_ACCESS_TOKEN"}
  const TWITTER_VARIABLES: set<string> :=
    {"TWITTER_CONSUMER_KEY", "TWITTER_CONSUMER_SECRET", "TWITTER_ACCESS_TOKEN", "TWITTER_ACCESS_SECRET"}

  /** Setting or unsetting any other variable leaves both requests as they were. */
  lemma RequestsReadOnlyTheirVariables(msg: string, env: Env, name: string, value: string)
    ensures name !in MASTODON_VARIABLES ==> Toot(msg, env[name := value]) == Toot(msg, env)
    ensures name !in MASTODON_VARIABLES ==> Toot(msg, env - {name}) == Toot(msg, env)
    ensures name !in TWITTER_VARIABLES ==> Tweet(msg, env[name := value]) == Tweet(msg, env)
    ensures name !in TWITTER_VARIABLES ==> Tweet(msg, env - {name}) == Tweet(msg, env)
  {
  }
}
