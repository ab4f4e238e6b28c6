/**
 * lib/slack-invite.js: the form sent to Slack's `users.admin.invite` and
 * the classification of Slack's answer into the error (or none) handed to
 * the callback.  The request itself is a parameter: its outcome is an
 * `InviteReply`.
 */
module SlackInvite {
  import opened Wrappers
  import JsText

  /** One form field, in the order `URLSearchParams` writes them. */
  datatype FormField = FormField(key: string, value: string)

  /** The first value stored under `key`. */
  function Lookup(fields: seq<FormField>, key: string): Option<string> {
    if fields == [] then None
    else if fields[0].key == key then Some(fields[0].value)
    else Lookup(fields[1..], key)
  }

  /**
   * The `data` object: `email` and `token` always; a truthy channel adds a
   * single-channel-guest invitation (`channels`, `ultra_restricted`,
   * `set_active`).
   */
  function Payload(email: string, token: string, channel: Option<string>): (r: seq<FormField>)
    ensures |r| == if JsText.Filled(channel) then 5 else 2
    ensures r[0] == FormField("email", email) && r[1] == FormField("token", token)
    ensures DistinctKeys(r)
  {
    var base := [FormField("email", email), FormField("token", token)];
    if JsText.Filled(channel) then
      base + [FormField("channels", channel.value), FormField("ultra_restricted", "1"), FormField("set_active", "true")]
    else base
  }

  /** The JSON body of a `users.admin.invite` answer. */
  datatype InviteBody = InviteBody(ok: bool, error: Option<string>, needed: Option<string>)

  datatype Json = Unparsable(message: string) | Parsed(body: InviteBody)

  /** What the request produced: a thrown error, or a status with a body to read. */
  datatype InviteReply = RequestFailed(message: string) | Replied(statusCode: int, json: Json)

  const AdminScopeMessage: string :=
    "Missing admin scope: The token you provided is for an account that is not an admin. "
    + "You must provide a token from an admin account in order to invite users through the Slack API."
  const AlreadyInvitedMessage: string :=
    "You have already been invited to Slack. Check for an email from feedback@slack.com."
  const AlreadyInTeamMessage: string := "Sending you to Slack..."

  function StatusMessage(statusCode: int): string {
    "Invalid response " + JsText.IntToString(statusCode) + "."
  }

  /** The message of the error handed to the callback, `None` for `fn(null)`. */
  function Outcome(reply: InviteReply): (err: Option<string>)
    ensures err.None? <==> reply.Replied? && reply.statusCode == 200 && reply.json.Parsed? && reply.json.body.ok
    ensures reply.RequestFailed? ==> err == Some(reply.message)
    ensures reply.Replied? && reply.statusCode != 200 ==> err == Some(StatusMessage(reply.statusCode))
  {
    match reply
    case RequestFailed(message) => Some(message)
    case Replied(statusCode, json) =>
      if statusCode != 200 then Some(StatusMessage(statusCode))
      else
        match json
        case Unparsable(message) => Some(message)
        case Parsed(body) =>
          if !body.ok then
            if body.error == Some("missing_scope") && body.needed == Some("admin") then Some(AdminScopeMessage)
            else if body.error == Some("already_invited") then Some(AlreadyInvitedMessage)
            else if body.error == Some("already_in_team") then Some(AlreadyInTeamMessage)
            // `new Error(undefined).message` is the empty string
            else Some(if body.error.Some? then body.error.value else "")
          else None
  }

  predicate DistinctKeys(fields: seq<FormField>) {
    forall i, j :: 0 <= i < j < |fields| ==> fields[i].key != fields[j].key
  }

  lemma {:induction false} LookupAt(fields: seq<FormField>, k: nat)
    requires DistinctKeys(fields) && k < |fields|
    ensures Lookup(fields, fields[k].key) == Some(fields[k].value)
  {
    if k > 0 {
      LookupAt(fields[1..], k - 1);
    }
  }

  lemma {:induction false} LookupMissing(fields: seq<FormField>, key: string)
    requires forall i :: 0 <= i < |fields| ==> fields[i].key != key
    ensures Lookup(fields, key) == None
  {
    if fields != [] {
      LookupMissing(fields[1..], key);
    }
  }

  /**
   * Reading the form back: `email` and `token` always; `channels`,
   * `ultra_restricted` and `set_active` exactly when the channel is truthy.
   */
  lemma PayloadLookups(email: string, token: string, channel: Option<string>)
    ensures var r := Payload(email, token, channel);
      && Lookup(r, "email") == Some(email) && Lookup(r, "token") == Some(token)
      && Lookup(r, "channels") == (if JsText.Filled(channel) then channel else None)
      && Lookup(r, "ultra_restricted") == (if JsText.Filled(channel) then Some("1") else None)
      && Lookup(r, "set_active") == (if JsText.Filled(channel) then Some("true") else None)
  {
    var r := Payload(email, token, channel);
    LookupAt(r, 0);
    LookupAt(r, 1);
    if JsText.Filled(channel) {
      LookupAt(r, 2);
      LookupAt(r, 3);
      LookupAt(r, 4);
    } else {
      LookupMissing(r, "channels");
      LookupMissing(r, "ultra_restricted");
      LookupMissing(r, "set_active");
    }
  }

  /** A status other than 200 is reported without looking at the body. */
  lemma StatusBeforeBody(statusCode: int, a: Json, b: Json)
    requires statusCode != 200
    ensures Outcome(Replied(statusCode, a)) == Outcome(Replied(statusCode, b))
  {
  }

  /**
   * How a 200 answer with `ok` false is classified: the admin-scope text
   * only when `missing_scope` comes with `needed: 'admin'`, the
   * already-invited text, the exact redirect text for `already_in_team`,
   * and otherwise Slack's own error string.
   */
  lemma RefusalMessages(error: Option<string>, needed: Option<string>)
    ensures var err := Outcome(Replied(200, Parsed(InviteBody(false, error, needed))));
      && (error == Some("missing_scope") && needed == Some("admin") ==> err == Some(AdminScopeMessage))
      && (error == Some("already_invited") ==> err == Some(AlreadyInvitedMessage))
      && (error == Some("already_in_team") ==> err == Some(AlreadyInTeamMessage))
      && (error.Some? && error.value !in {"missing_scope", "already_invited", "already_in_team"} ==> err == error)
      && (error == Some("missing_scope") && needed != Some("admin") ==> err == Some("missing_scope"))
  {
  }
}
