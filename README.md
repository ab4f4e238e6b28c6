# slackin, modelled in Dafny

slackin is a small server that lets visitors invite themselves into a Slack
workspace and shows how many members are online. This project models its
core:

- **the synchronisation engine** (`lib/slack.js`, module `SlackSync`): the
  `SlackData` object polls Slack's user list. It keeps the member counts and
  a one-time readiness flag, reports each metric that changes, retries a
  failed poll after twice the interval, and indexes the channel directory.
  It is a class whose fields are updated in place. Its listeners are fields
  too: the requests waiting for readiness and the sockets subscribed to
  changes, together with the log of deliveries made to them.
- **the command line** (`bin/slackin.js`, module `Cli`): the argument-parsing
  loop, proved against a recursive scan of the arguments, and the start-up
  decision (help, missing parameters, or start with a configuration).
- **the server's logic** (`lib/index.js`, module `Server`):
  - the required options;
  - channel and e-mail list normalisation;
  - the ordered validation chain of `/invite`;
  - the mapping from Slack's answer to an HTTP status;
  - the readiness middleware;
  - socket subscription and unsubscription.
- **the invitation call** (`lib/slack-invite.js`, module `SlackInvite`): the
  form payload and how Slack's reply becomes an error message.
- **the node helpers** (`lib/vd-wrapper.js`, module `VDom`): `dom` builds a
  node from a selector and arguments, and `toHTML` serialises a node tree.
  Both are methods with loops, proved against the functions `PropsOf`,
  `ChildrenOf` and `Render`.
- **the badge literals** (`lib/iframe.js`, module `IFrame`): the count label,
  the button class and the numbers handed to the badge's script.

`JsText` holds the JavaScript string operations these rely on: decimal
rendering, `split` and `join` on one character. `Wrappers` holds `Option`, and `Seqs` the associativity of concatenation that the proofs cite.

Where slackin's documented behaviour and its code differ, the model
follows the code:

- **Change events on the first success.** The store of counts starts as an
  empty object (`lib/slack.js:13`). The first successful poll therefore finds
  both counts different from `undefined`, and it emits `change` for `total`
  and for `active` before `ready` (`SlackSync.FirstSuccessReportsBoth`).
- **Error text.** `fetch` hands `onres` a response without a `status`
  (`lib/slack.js:56`). An empty member list is therefore always reported as
  "Invalid Slack response: Unknown error".
- **Channel of an invitation.** The `/invite` handler checks the requested
  channel and looks up its id (`lib/index.js:129-141`). It then sends the
  invitation with `slack.channel ? slack.channel.id : null`
  (`lib/index.js:202`), and nothing ever sets `slack.channel`. So every
  invitation goes out without a channel and without the single-channel-guest
  fields (`Server.InviteIsNeverRestricted`).

## Model

| member | source | states |
|---|---|---|
| SlackSync.Humans | lib/slack.js:90-92 | the filter never yields more members than it was given |
| SlackSync.HumansKeepsCounted | lib/slack.js:90-92 | keeps exactly the members that are not Slackbot, not bots and not deleted, each as often as it occurs, and only those |
| SlackSync.ActiveCount | lib/slack.js:94-97 | the active count never exceeds the number of members counted |
| SlackSync.PollKeepsValid | lib/slack.js:74-118 | a poll keeps the snapshot invariant: ready exactly when both counts are stored, and active never above total |
| SlackSync.FailureKeepsSnapshot | lib/slack.js:74-86 | a failed request, a missing member list or an empty one leaves counts and readiness unchanged. It emits `error` (the request's cause, or "Invalid Slack response: Unknown error"), `retry` and `fetch`, and schedules the next poll at twice the interval |
| SlackSync.SuccessCounts | lib/slack.js:88-117 | a success stores the filtered total and active counts and sets ready. It emits no error and no retry, and schedules the next poll after one interval |
| SlackSync.EmptyAfterFilteringIsSuccess | lib/slack.js:82-97 | a non-empty list in which nobody is counted is still a success: it stores 0 and 0 and emits no error |
| SlackSync.ChangeIffDiffers | lib/slack.js:99-105 | `change(total, v)` (likewise `active`) is emitted if and only if the poll succeeds, v is the new count and the stored count is not v |
| SlackSync.FirstSuccessReportsBoth | lib/slack.js:99-117 | from the initial state a success emits change total, change active, ready, data, fetch, in that order |
| SlackSync.RepeatIsQuiet | lib/slack.js:99-105 | the same successful reply a second time emits no change event, only data and fetch |
| SlackSync.PollEventOrder | lib/slack.js:74-118 | the events of one poll follow a fixed order: error before retry, or change total, change active, ready, data; fetch always last |
| SlackSync.PollReadyCount | lib/slack.js:111-114 | one poll emits `ready` once if it is the first success and never otherwise; afterwards the flag is the old flag or success |
| SlackSync.ReadyAtMostOnce | lib/slack.js:111-114 | over any sequence of polls, `ready` is emitted exactly once if the engine started unready and some poll succeeded, and never otherwise |
| SlackSync.RunDelays | lib/slack.js:68-72 | in any sequence of polls, the k-th reschedules after the interval on success and after twice the configured interval on failure, never compounding |
| SlackSync.RunKeepsValid | lib/slack.js:74-118 | the snapshot invariant holds after any sequence of polls |
| SlackSync.DeliverAppends | lib/slack.js:74-118 | the deliveries made while emitting a run of events are the old log followed by `DispatchAll` of those events |
| SlackSync.DeliverCompose | lib/slack.js:74-118 | emitting one run of events and then another delivers the same as emitting both at once, and leaves the same waiting requests |
| SlackSync.ReadyResumesWaiters | lib/index.js:74-77 | the requests waiting for readiness are resumed in order exactly when `ready` is among the events, and none otherwise |
| SlackSync.ChangesReachSubscribers | lib/index.js:267-273 | a socket subscribed once receives every change event, in order and nothing else; a socket not subscribed receives nothing |
| SlackSync.PushReaches | lib/slack.js:99-105 | a change is delivered to each subscriber: once to a socket subscribed once, never to one not subscribed |
| SlackSync.SlackData.GetChannelId | lib/slack.js:63-66 | a name gives an id exactly when a channel of that name is stored, and then that channel's id |
| SlackSync.ChannelIdUnlisted | lib/slack.js:26-30 | indexing a channel list does not change the id found for a name that is not in it |
| SlackSync.ChannelIdLastWins | lib/slack.js:26-30 | after indexing, a name maps to the id of the last listed channel with that name |
| SlackSync.Without | lib/index.js:271-273 | after removal the socket is no longer subscribed, and every other socket keeps its number of subscriptions |
| SlackSync.SlackData.constructor | lib/slack.js:6-17 | the engine starts unready, with no counts, no organisation data, no channels and no listeners |
| SlackSync.SlackData.OnceReady | lib/index.js:76 | the request joins the end of the waiting list |
| SlackSync.SlackData.OnChange | lib/index.js:270 | the socket joins the end of the subscribers |
| SlackSync.SlackData.RemoveChangeListener | lib/index.js:272 | the subscribers become the old list without that socket |
| SlackSync.SlackData.DoRetry | lib/slack.js:68-72 | the next poll is scheduled at twice the interval and `retry` is emitted |
| SlackSync.SlackData.Emit | lib/slack.js:101 | the event is logged last, its listeners' deliveries are appended, and a `ready` consumes the waiting requests |
| SlackSync.SlackData.Fail | lib/slack.js:75-78 | a failed request emits `error` then `retry`, delivered to the listeners, and waits twice the interval |
| SlackSync.SlackData.EmitIfChanged | lib/slack.js:100-102 | `change` for the metric is emitted exactly when the stored count is not the new one |
| SlackSync.SlackData.EmitChanges | lib/slack.js:99-106 | `change total` then `change active`, each only when that count moved, and delivered to the listeners |
| SlackSync.SlackData.MarkReady | lib/slack.js:111-114 | afterwards the engine is ready; `ready` is emitted, and the waiting requests resumed, only if it was not ready before |
| SlackSync.SlackData.Store | lib/slack.js:99-114 | the counts are stored and the engine is ready, after the change events and the first-time `ready`. It keeps the invariant |
| SlackSync.SlackData.Commit | lib/slack.js:99-117 | stores the counts, sets ready and emits the change events, `ready` (first time only) and `data`, dispatched to the listeners. It keeps the invariant |
| SlackSync.SlackData.OnResponse | lib/slack.js:74-118 | the new counts, readiness, delay, events and waiting list are those of the specification `OnRes`, whose properties are the lemmas above; the listeners receive `DispatchAll` of its events after the old deliveries (with `DeliverAppends`) |
| SlackSync.SlackData.Fetch | lib/slack.js:51-61 | one poll: `OnResponse` followed by `fetch`, as specified by `Poll` |
| SlackSync.SlackData.Init | lib/slack.js:19-49 | indexes the listed channels. A missing team is an error that leaves the organisation unchanged. Otherwise the name is set, the logo only when the icon is not the default, and an absent icon is an error after the name is set |
| Cli.ParseIntOf | bin/slackin.js:42 | `parseInt` yields a number or NaN |
| Cli.Defaults | bin/slackin.js:20-31 | the path is `/`, coc and css are null, and the switches are off. Port, hostname and interval always get a truthy value; channels come from the environment |
| Cli.SetValue | bin/slackin.js:40-82 | a value option sets its own field to the next argument (parsed for port and interval) and no other field |
| Cli.ParseArgs | bin/slackin.js:18-95 | the loop's options and positional arguments equal those of the recursive scan from the defaults |
| Cli.ScanPositional | bin/slackin.js:86-89 | positional arguments keep their order, come from the arguments, and none starts with `-` |
| Cli.ScanPlainArgs | bin/slackin.js:86-89 | arguments without a dash all become positional, in order, and change no option |
| Cli.UnknownDashIgnored | bin/slackin.js:86-90 | an unknown dashed argument is skipped |
| Cli.ValueFlagTakesNext | bin/slackin.js:40-82 | a value option consumes the next argument as its value |
| Cli.SwitchTakesNothing | bin/slackin.js:65-85 | `-s`, `-x` and `--help` set their flag and consume nothing else |
| Cli.ScanKeepsField | bin/slackin.js:35-92 | a field whose option does not occur keeps its value |
| Cli.SwitchesStayOn | bin/slackin.js:35-92 | no argument turns `silent`, `cors` or `help` off once it is on |
| Cli.LastOccurrenceWins | bin/slackin.js:35-92 | the value given at an option's last occurrence overrides whatever the option held before |
| Cli.PositionalOr | bin/slackin.js:136-139 | the value is truthy exactly when the positional argument or the environment value is, a non-empty positional argument wins, and otherwise the environment value is taken |
| Cli.Startup | bin/slackin.js:130-157 | help wins. Otherwise the server starts if and only if the four required values are present. The configuration carries those values, the options and the e-mail list (empty by default) |
| Cli.PositionalBeatsEnv | bin/slackin.js:136-140 | with four non-empty positional arguments, the configuration is taken from them whatever the environment holds |
| Server.FirstFailureMeaning | lib/index.js:127-176 | the scan of ordered checks finds nothing exactly when every check passes, and otherwise the failure of the first check that does not pass |
| Server.RequiredOptionsInOrder | lib/index.js:39-42 | the first missing option among token, org, captcha secret and site key is reported, with its own message |
| Server.StripHash | lib/index.js:48-49 | only one leading `#` is removed |
| Server.NormalizeListed | lib/index.js:44-51 | listing names with or without `#` and normalising gives back the names |
| JsText.JoinSplit | lib/index.js:46 | joining the pieces of a split gives back the string |
| JsText.SplitJoin | lib/index.js:55 | splitting a join of comma-free pieces gives back the pieces |
| Server.Configure | lib/index.js:38-56 | fails exactly when a required option is missing. The channel and e-mail lists are present exactly when configured, normalised or split; the CoC check is on exactly when a CoC is set |
| Server.EmptyEmailListAllowsAll | lib/index.js:53-56 | an empty e-mail list restricts nothing |
| Server.ValidateIsFirstFailure | lib/index.js:127-176 | `/invite` rejects with the first failing check, in the handler's order: permitted channel, channel found, e-mail present, captcha present, e-mail valid, e-mail listed, CoC agreed |
| Server.UnconfiguredChecksAreOff | lib/index.js:127-176 | without configured channels and CoC, the requested channel and the CoC answer do not matter |
| Server.InviteResponse | lib/index.js:204-220 | status 200 exactly when Slack reports no error, 303 with the workspace URL exactly for "Sending you to Slack...", 400 for every other error, whose message is passed on |
| Server.HandleInvite | lib/index.js:127-227 | a validation failure gives 400 with its message. A rejected captcha gives 400 "Captcha check failed", and an unreachable one 400 "Captcha verification failed". Otherwise the answer is `InviteResponse` of the invitation's outcome; the status is always 200, 303 or 400 |
| Server.InviteIsNeverRestricted | lib/index.js:202-204 | the invitation is sent with email and token only |
| Server.AlreadyInTeamRedirects | lib/index.js:204-210 | a valid request whose invitee is already in the team is redirected to the workspace with status 303 |
| Server.AwaitReady | lib/index.js:74-77 | a request passes at once when the engine is ready, and waits for `ready` otherwise |
| Server.Connect | lib/index.js:267-270 | a new socket is sent the current counts once, then subscribed to changes |
| Server.Disconnect | lib/index.js:271-273 | a disconnected socket is no longer subscribed |
| SlackInvite.Payload | lib/slack-invite.js:5-11 | email and token come first; a channel adds channels, ultra_restricted and set_active; keys are distinct |
| SlackInvite.PayloadLookups | lib/slack-invite.js:5-11 | the form maps each key to its value: the channel fields are present exactly when a channel is given |
| SlackInvite.Outcome | lib/slack-invite.js:23-50 | success exactly for status 200 with `ok`. A request error passes its message on, and any other status gives "Invalid response N." |
| SlackInvite.StatusBeforeBody | lib/slack-invite.js:23-25 | a status other than 200 decides the outcome whatever the body says |
| SlackInvite.RefusalMessages | lib/slack-invite.js:33-45 | missing admin scope, already invited and already in team get their fixed messages; any other error is passed on as Slack wrote it |
| VDom.KebabShape | lib/vd-wrapper.js:22 | a style key loses every upper-case letter and gains one `-` per upper-case letter; a lower-case key is unchanged |
| VDom.AttrRules | lib/vd-wrapper.js:18-28 | an attribute is left out if and only if it is not `className`, not a style object, and null, undefined or false |
| VDom.RenderAllAppend | lib/vd-wrapper.js:34-38 | children are written one after the other, in order |
| VDom.LeavesAndBlanks | lib/vd-wrapper.js:5-11 | strings and numbers are written as they are; values without a tag give nothing |
| VDom.AttrText | lib/vd-wrapper.js:18-27 | one property's attribute text is the one `Attr` specifies |
| VDom.AttrsText | lib/vd-wrapper.js:16-29 | the attribute loop appends every property's text in order, as `Attrs` specifies |
| VDom.ToHtml | lib/vd-wrapper.js:4-43 | the loops and the recursion produce exactly the text `Render` specifies |
| VDom.ReplaceDots | lib/vd-wrapper.js:56 | every `.` becomes a space and nothing else changes |
| VDom.SetProp | lib/vd-wrapper.js:71 | setting a key makes it map to the value and leaves the other keys alone; a new key goes last |
| VDom.Assign | lib/vd-wrapper.js:71 | after merging, a key has the last value the merged object gives it, or its old value |
| VDom.Dom | lib/vd-wrapper.js:46-79 | the loop's tag, properties and children are those the selector and `PropsOf`/`ChildrenOf` give |
| VDom.LaterPropsWin | lib/vd-wrapper.js:68-79 | a later properties argument overrides an earlier one and the selector's class or id |
| VDom.ChildrenInOrder | lib/vd-wrapper.js:68-79 | children from earlier arguments come first |
| VDom.SelectorRules | lib/vd-wrapper.js:52-65 | `.a.b` gives a div with class `a b`, `#x` a div with id `x`, any other string the tag itself, a non-string a div |
| IFrame.CountLabel | lib/iframe.js:15-18 | the label is never empty |
| IFrame.LabelCases | lib/iframe.js:15-18 | both counts split back at `/`. Active alone ends in `/`, total alone is its number, and the dash appears exactly when neither is set |
| IFrame.ButtonClass | lib/iframe.js:20 | the class is non-empty exactly for the large badge |
| IFrame.DataLiteral | lib/iframe.js:34-35 | a present count, zero included, is written as digits |
| IFrame.DataLiteralReadsBack | lib/iframe.js:34-35 | the literal is `null` exactly when the count is absent, and reads back as the count otherwise |

## Left out

- Network access is not modelled. The Slack API, the captcha verification and `undici` are not called; their outcomes are parameters (`UsersReply`, `ChannelsReply`, `TeamReply`, `InviteReply`, `CaptchaOutcome`).
- Timers are not modelled. `setTimeout` becomes the returned delay, and a sequence of polls is a list of replies (`Run`).
- Concurrency is not modelled. `init` and the first `fetch` start together in the constructor, but the model runs them as separate operations. The engine cannot be stopped, because the code has no way to stop it.
- `parseInt` and the e-mail regular expression are parameters (`ParseInt`, `isEmail`), not models of JavaScript's number parsing and of `email-regex`.
- virtual-dom's `h` is not part of this model. `Dom` returns the tag, properties and children it would pass to `h`: there is no selector parsing in `h`, no conversion of strings to text nodes, and no `undefined` for an empty child list.
- VDom.ToHtml: a `style` property that is `null` makes `toHTML` throw (`typeof null` is `"object"`, and `Object.entries(null)` throws). The model omits a null `style` like any other null attribute instead.
- VDom.Kebab: lower-casing covers ASCII letters only.
- VDom.SetProp: a new key always goes last. JavaScript lists integer-like keys first, in numeric order, whatever order they were set in; this ordering is not modelled, so for such keys `Attrs` may write the attributes in a different order than `toHTML` does.
- Event listeners are identified by socket number. Removing a listener removes every registration of that socket. A listener that throws, or one that re-enters the engine, is not modelled.
- SlackSync.SlackData.GetChannelId: it looks the name up in an ordinary map. JavaScript prototype keys such as `constructor` are not modelled.
- The full iframe node tree is not modelled: `dom.style` is not defined by `lib/vd-wrapper.js`, so the tree cannot be built as written. `JSON.stringify(path)` is not modelled either.
- Server.HandleInvite: the CoC field is compared as a string. The loose `!=` against a number is not modelled.
- The splash page, `/data`, `/iframe/dialog`, the badge SVG, static files, CORS, the logger, `process.exit`, `listen` and signal handling are not modelled. They are rendering and I/O around the core.
