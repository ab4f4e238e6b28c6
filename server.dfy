/**
 * The decisions lib/index.js makes around the poller: the required-option
 * checks, the channel-list normalisation, the ordered validation of
 * `POST /invite` and the mapping of the invite outcome to an HTTP status,
 * the middleware that holds requests until the poller is ready, and the
 * per-socket `change` subscription.  Routing, bodies and transports are not
 * modelled; the email syntax test is a parameter.
 */
module Server {
  import opened Wrappers
  import JsText
  import SlackSync
  import SlackInvite

  /** The first failing check of an ordered list, from position `from` on; none when all pass. */
  function FirstFailureFrom<E>(checks: seq<(bool, E)>, from: nat): Option<E>
    requires from <= |checks|
    decreases |checks| - from
  {
    if from == |checks| then None
    else if !checks[from].0 then Some(checks[from].1)
    else FirstFailureFrom(checks, from + 1)
  }

  /** The scan finds nothing exactly when every check passes, and otherwise the first check that fails. */
  lemma {:induction false} FirstFailureMeaning<E>(checks: seq<(bool, E)>, from: nat)
    requires from <= |checks|
    ensures FirstFailureFrom(checks, from).None? <==> forall k :: from <= k < |checks| ==> checks[k].0
    ensures FirstFailureFrom(checks, from).Some? ==>
      exists k :: from <= k < |checks| && !checks[k].0 && FirstFailureFrom(checks, from).value == checks[k].1
                  && forall j :: from <= j < k ==> checks[j].0
    decreases |checks| - from
  {
    if from < |checks| && checks[from].0 {
      FirstFailureMeaning(checks, from + 1);
      var r := FirstFailureFrom(checks, from + 1);
      if r.Some? {
        var k :| from + 1 <= k < |checks| && !checks[k].0 && r.value == checks[k].1
                 && forall j :: from + 1 <= j < k ==> checks[j].0;
        assert forall j :: from <= j < k ==> checks[j].0;
      }
    }
  }

  /** One step of the scan: a passing check hands over to the next. */
  lemma FirstFailureStep<E>(checks: seq<(bool, E)>, k: nat)
    requires k <= |checks|
    ensures k == |checks| ==> FirstFailureFrom(checks, k).None?
    ensures k < |checks| ==> FirstFailureFrom(checks, k) == if checks[k].0 then FirstFailureFrom(checks, k + 1) else Some(checks[k].1)
  {
  }

  function FirstFailure<E>(checks: seq<(bool, E)>): Option<E> {
    FirstFailureFrom(checks, 0)
  }

  // ---------------------------------------------------------------------
  // Start-up

  const TokenMissing: string := "Must provide a `token`."
  const OrgMissing: string := "Must provide an `org`."
  const SecretMissing: string := "Must provide a `gcaptcha_secret`."
  const SitekeyMissing: string := "Must provide an `gcaptcha_sitekey`."

  /** The message `slackin()` throws for the first missing required option, none if all are given. */
  function RequiredOptions(token: Option<string>, org: Option<string>, secret: Option<string>, sitekey: Option<string>)
    : Option<string>
  {
    if !JsText.Filled(token) then Some(TokenMissing)
    else if !JsText.Filled(org) then Some(OrgMissing)
    else if !JsText.Filled(secret) then Some(SecretMissing)
    else if !JsText.Filled(sitekey) then Some(SitekeyMissing)
    else None
  }

  /** The required options are checked in the order token, org, captcha secret, captcha site key. */
  lemma RequiredOptionsInOrder(token: Option<string>, org: Option<string>, secret: Option<string>, sitekey: Option<string>)
    ensures RequiredOptions(token, org, secret, sitekey)
      == FirstFailure([(JsText.Filled(token), TokenMissing), (JsText.Filled(org), OrgMissing),
                       (JsText.Filled(secret), SecretMissing), (JsText.Filled(sitekey), SitekeyMissing)])
  {
    var c := [(JsText.Filled(token), TokenMissing), (JsText.Filled(org), OrgMissing),
              (JsText.Filled(secret), SecretMissing), (JsText.Filled(sitekey), SitekeyMissing)];
    assert FirstFailureFrom(c, 0) == if !c[0].0 then Some(c[0].1) else FirstFailureFrom(c, 1);
    assert FirstFailureFrom(c, 1) == if !c[1].0 then Some(c[1].1) else FirstFailureFrom(c, 2);
    assert FirstFailureFrom(c, 2) == if !c[2].0 then Some(c[2].1) else FirstFailureFrom(c, 3);
    assert FirstFailureFrom(c, 3) == if !c[3].0 then Some(c[3].1) else FirstFailureFrom(c, 4);
  }

  /** One configured channel name with a single leading `#` removed. */
  function StripHash(name: string): (r: string)
    ensures JsText.StartsWith(name, '#') ==> [name[0]] + r == name
    ensures !JsText.StartsWith(name, '#') ==> r == name
  {
    if JsText.StartsWith(name, '#') then name[1..] else name
  }

  /** `channels.split(',').map(strip)`. */
  function NormalizeChannels(channels: string): (r: seq<string>)
    ensures |r| == |JsText.Split(channels, ',')|
    ensures forall k :: 0 <= k < |r| ==> r[k] == StripHash(JsText.Split(channels, ',')[k])
  {
    var pieces := JsText.Split(channels, ',');
    seq(|pieces|, k requires 0 <= k < |pieces| => StripHash(pieces[k]))
  }

  /** A channel name as a user may write it: with or without one `#` in front. */
  function Written(name: string, hash: bool): string {
    if hash then "#" + name else name
  }

  /**
   * Normalisation gives back exactly the channel names that were listed,
   * one per comma-separated piece, with the one `#` each may have been
   * written with removed (a name that itself starts with `#` keeps it).
   */
  lemma NormalizeListed(names: seq<string>, hashes: seq<bool>)
    requires |names| >= 1 && |hashes| == |names|
    requires forall k :: 0 <= k < |names| ==> ',' !in names[k]
    requires forall k :: 0 <= k < |names| ==> hashes[k] || !JsText.StartsWith(names[k], '#')
    ensures var written := seq(|names|, k requires 0 <= k < |names| => Written(names[k], hashes[k]));
      NormalizeChannels(JsText.Join(written, ',')) == names
  {
    var written := seq(|names|, k requires 0 <= k < |names| => Written(names[k], hashes[k]));
    forall k | 0 <= k < |written| ensures ',' !in written[k] {
      assert hashes[k] ==> written[k] == "#" + names[k];
    }
    JsText.SplitJoin(written, ',');
    forall k | 0 <= k < |names| ensures StripHash(written[k]) == names[k] {
      if hashes[k] {
        assert written[k] == "#" + names[k] && ("#" + names[k])[1..] == names[k];
      }
    }
  }

  /** The server's view of its configuration after normalisation. */
  datatype Settings = Settings(
    org: string,
    channels: Option<seq<string>>,   // restriction to these channels, when configured
    emails: Option<seq<string>>,     // allow-list, when configured
    coc: bool)                       // a code of conduct must be accepted

  /**
   * `slackin(config)` up to the point where it builds the server: throws
   * for a missing required option, otherwise turns the comma-separated
   * `channels` and `emails` into lists when they are non-empty.
   */
  function Configure(token: Option<string>, org: Option<string>, secret: Option<string>, sitekey: Option<string>,
                     channels: Option<string>, emails: Option<string>, coc: Option<string>)
    : (r: Option<Settings>)
    ensures r.None? <==> RequiredOptions(token, org, secret, sitekey).Some?
    ensures r.Some? ==> r.value.org == org.value
    ensures r.Some? ==> (r.value.channels.Some? <==> JsText.Filled(channels))
    ensures r.Some? && JsText.Filled(channels) ==> r.value.channels.value == NormalizeChannels(channels.value)
    ensures r.Some? ==> (r.value.emails.Some? <==> JsText.Filled(emails))
    ensures r.Some? && JsText.Filled(emails) ==> r.value.emails.value == JsText.Split(emails.value, ',')
    ensures r.Some? ==> (r.value.coc <==> JsText.Filled(coc))
  {
    if RequiredOptions(token, org, secret, sitekey).Some? then None
    else
      Some(Settings(
        org.value,
        if JsText.Filled(channels) then Some(NormalizeChannels(channels.value)) else None,
        if JsText.Filled(emails) then Some(JsText.Split(emails.value, ',')) else None,
        JsText.Filled(coc)))
  }

  /** An empty `EMAIL_SLACK_LIST` (the default) switches the allow-list off. */
  lemma EmptyEmailListAllowsAll(token: string, org: string, secret: string, sitekey: string,
                                channels: Option<string>, coc: Option<string>)
    requires token != "" && org != "" && secret != "" && sitekey != ""
    ensures var r := Configure(Some(token), Some(org), Some(secret), Some(sitekey), channels, Some(""), coc);
      r.Some? && r.value.emails.None?
  {
  }

  // ---------------------------------------------------------------------
  // POST /invite

  /** The fields of the request body the handler reads. */
  datatype InviteForm = InviteForm(
    channel: Option<string>, email: Option<string>, captcha: Option<string>, coc: Option<string>)

  datatype Rejection =
    | NotPermitted
    | ChannelNotFound(channel: string)
    | NoEmail
    | InvalidCaptcha
    | InvalidEmail
    | NotOnList
    | CocRequired

  function RejectionMessage(r: Rejection): string {
    match r
    case NotPermitted => "Not a permitted channel"
    case ChannelNotFound(c) => "Channel not found \"" + c + "\""
    case NoEmail => "No email provided"
    case InvalidCaptcha => "Invalid captcha"
    case InvalidEmail => "Invalid email"
    case NotOnList => "Your email is not on the accepted email list"
    case CocRequired => "Agreement to CoC is mandatory"
  }

  /** `getChannelId` found the channel and its id is truthy. */
  predicate Resolves(dir: map<string, SlackSync.Channel>, channel: string) {
    var id := SlackSync.ChannelId(dir, channel);
    id.Some? && id.value != ""
  }

  /** The checks of the handler, in the order it makes them. */
  function Checks(s: Settings, dir: map<string, SlackSync.Channel>, form: InviteForm, isEmail: string -> bool)
    : seq<(bool, Rejection)>
  {
    var channel := if form.channel.Some? then form.channel.value else "undefined";
    var email := if form.email.Some? then form.email.value else "";
    [ (s.channels.None? || (form.channel.Some? && form.channel.value in s.channels.value), NotPermitted),
      (s.channels.None? || Resolves(dir, channel), ChannelNotFound(channel)),
      (JsText.Filled(form.email), NoEmail),
      (JsText.Filled(form.captcha), InvalidCaptcha),
      (isEmail(email), InvalidEmail),
      (s.emails.None? || email in s.emails.value, NotOnList),
      (!s.coc || form.coc == Some("1"), CocRequired) ]
  }

  /**
   * The early returns of the handler before the captcha is verified: the
   * first check that fails decides the answer, which is always a 400.
   */
  function Validate(s: Settings, dir: map<string, SlackSync.Channel>, form: InviteForm, isEmail: string -> bool)
    : Option<Rejection>
  {
    if s.channels.Some? && (form.channel.None? || form.channel.value !in s.channels.value) then Some(NotPermitted)
    else if s.channels.Some? && !Resolves(dir, form.channel.value) then Some(ChannelNotFound(form.channel.value))
    else if !JsText.Filled(form.email) then Some(NoEmail)
    else if !JsText.Filled(form.captcha) then Some(InvalidCaptcha)
    else if !isEmail(form.email.value) then Some(InvalidEmail)
    else if s.emails.Some? && form.email.value !in s.emails.value then Some(NotOnList)
    else if s.coc && form.coc != Some("1") then Some(CocRequired)
    else None
  }

  /**
   * The handler's early returns are its checks in order: permitted channel,
   * resolvable channel, email present, captcha present, email syntax,
   * allow-list, code of conduct; the first that fails decides.
   */
  lemma ValidateIsFirstFailure(s: Settings, dir: map<string, SlackSync.Channel>, form: InviteForm, isEmail: string -> bool)
    ensures Validate(s, dir, form, isEmail) == FirstFailure(Checks(s, dir, form, isEmail))
  {
    var c := Checks(s, dir, form, isEmail);
    assert |c| == 7;
    FirstFailureStep(c, 0);
    if c[0].0 {
      FirstFailureStep(c, 1);
      if c[1].0 {
        FirstFailureStep(c, 2);
        if c[2].0 {
          FirstFailureStep(c, 3);
          if c[3].0 {
            FirstFailureStep(c, 4);
            if c[4].0 {
              FirstFailureStep(c, 5);
              if c[5].0 {
                FirstFailureStep(c, 6);
                if c[6].0 {
                  FirstFailureStep(c, 7);
                }
              }
            }
          }
        }
      }
    }
  }

  /**
   * Without a channel restriction the channel is never looked at, and
   * without a code of conduct the `coc` field is never looked at.
   */
  lemma UnconfiguredChecksAreOff(s: Settings, dir: map<string, SlackSync.Channel>, form: InviteForm,
                                 isEmail: string -> bool, channel: Option<string>, coc: Option<string>)
    requires s.channels.None? && !s.coc
    ensures Validate(s, dir, form, isEmail) == Validate(s, dir, form.(channel := channel, coc := coc), isEmail)
  {
  }

  datatype Response = Response(status: nat, msg: string, redirectUrl: Option<string>)

  /** The invite callback: 303 to the team for `already_in_team`, 400 for other errors, 200 otherwise. */
  function InviteResponse(err: Option<string>, org: string): (r: Response)
    ensures r.status == 200 <==> err.None?
    ensures r.status == 303 <==> err == Some(SlackInvite.AlreadyInTeamMessage)
    ensures r.status == 400 <==> err.Some? && err.value != SlackInvite.AlreadyInTeamMessage
    ensures err.Some? ==> r.msg == err.value
    ensures r.redirectUrl.Some? <==> r.status == 303
    ensures r.status == 303 ==> r.redirectUrl == Some("https://" + org + ".slack.com")
  {
    match err
    case Some(message) =>
      if message == SlackInvite.AlreadyInTeamMessage then Response(303, message, Some("https://" + org + ".slack.com"))
      else Response(400, message, None)
    case None => Response(200, "WOOT. Check your email!", None)
  }

  /** How the captcha verification request ended. */
  datatype CaptchaOutcome = CaptchaPassed | CaptchaFailed | CaptchaUnreachable

  /**
   * The channel handed to `invite`: the handler reads `slack.channel`, a
   * field `SlackData` never sets, so it is always null.
   */
  const InviteChannel: Option<string> := None

  /** The whole handler, with the captcha answer and Slack's answer as parameters. */
  function HandleInvite(s: Settings, dir: map<string, SlackSync.Channel>, form: InviteForm, isEmail: string -> bool,
                        captcha: CaptchaOutcome, slackReply: SlackInvite.InviteReply): (r: Response)
    ensures Validate(s, dir, form, isEmail).Some? ==>
      r == Response(400, RejectionMessage(Validate(s, dir, form, isEmail).value), None)
    ensures Validate(s, dir, form, isEmail).None? && captcha == CaptchaFailed ==>
      r == Response(400, "Captcha check failed", None)
    ensures Validate(s, dir, form, isEmail).None? && captcha == CaptchaUnreachable ==>
      r == Response(400, "Captcha verification failed", None)
    ensures Validate(s, dir, form, isEmail).None? && captcha == CaptchaPassed ==>
      r == InviteResponse(SlackInvite.Outcome(slackReply), s.org)
    ensures r.status in {200, 303, 400}
  {
    match Validate(s, dir, form, isEmail)
    case Some(rejection) => Response(400, RejectionMessage(rejection), None)
    case None =>
      match captcha
      case CaptchaFailed => Response(400, "Captcha check failed", None)
      case CaptchaUnreachable => Response(400, "Captcha verification failed", None)
      case CaptchaPassed => InviteResponse(SlackInvite.Outcome(slackReply), s.org)
  }

  /** The invitation sent for `/invite` is never a single-channel one, even with a channel restriction. */
  lemma InviteIsNeverRestricted(email: string, token: string)
    ensures |SlackInvite.Payload(email, token, InviteChannel)| == 2
  {
  }

  /** A valid request from someone already in the team is redirected to the team's Slack. */
  lemma AlreadyInTeamRedirects(s: Settings, dir: map<string, SlackSync.Channel>, form: InviteForm,
                               isEmail: string -> bool, needed: Option<string>)
    requires Validate(s, dir, form, isEmail).None?
    ensures HandleInvite(s, dir, form, isEmail, CaptchaPassed,
                         SlackInvite.Replied(200, SlackInvite.Parsed(SlackInvite.InviteBody(false, Some("already_in_team"), needed))))
      == Response(303, "Sending you to Slack...", Some("https://" + s.org + ".slack.com"))
  {
    SlackInvite.RefusalMessages(Some("already_in_team"), needed);
  }

  // ---------------------------------------------------------------------
  // Waiting for the poller, and live updates

  /**
   * The middleware in front of every route: a request goes on at once when
   * the poller is ready, otherwise it waits for the `ready` event.
   */
  method AwaitReady(slack: SlackSync.SlackData, request: nat)
    requires slack.Valid()
    modifies slack`waiters, slack`deliveries
    ensures slack.Valid()
    ensures old(slack.ready) ==> slack.deliveries == old(slack.deliveries) + [SlackSync.Next(request)]
                                 && slack.waiters == old(slack.waiters)
    ensures !old(slack.ready) ==> slack.waiters == old(slack.waiters) + [request]
                                  && slack.deliveries == old(slack.deliveries)
  {
    if slack.ready {
      slack.deliveries := slack.deliveries + [SlackSync.Next(request)];
      return;
    }
    slack.OnceReady(request);
  }

  /** A socket connects: it is sent the current counts once, then subscribed to `change`. */
  method Connect(slack: SlackSync.SlackData, socket: nat)
    modifies slack`deliveries, slack`subscribers
    ensures slack.deliveries == old(slack.deliveries) + [SlackSync.SocketData(socket, slack.users)]
    ensures slack.subscribers == old(slack.subscribers) + [socket]
  {
    slack.deliveries := slack.deliveries + [SlackSync.SocketData(socket, slack.users)];
    slack.OnChange(socket);
  }

  /** A socket disconnects: its `change` listener is removed, the others stay in order. */
  method Disconnect(slack: SlackSync.SlackData, socket: nat)
    modifies slack`subscribers
    ensures slack.subscribers == SlackSync.Without(old(slack.subscribers), socket)
    ensures socket !in slack.subscribers
  {
    slack.RemoveChangeListener(socket);
  }
}
