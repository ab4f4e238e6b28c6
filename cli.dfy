/**
 * The command line of bin/slackin.js: the `parseArgs` loop over the
 * arguments after the script name, the defaults it starts from, and the
 * start-up decision that takes the four required parameters from the
 * positional arguments or the environment.
 *
 * `parseInt` is a parameter: the model only says where its result goes.
 */
module Cli {
  import opened Wrappers
  import JsText

  /** The JavaScript values an option can hold. */
  datatype Value = Undefined | Null | NaN | Num(n: int) | Str(s: string)

  predicate Truthy(v: Value) {
    match v
    case Num(n) => n != 0
    case Str(s) => s != ""
    case _ => false
  }

  /** `a || b` */
  function Or(a: Value, b: Value): Value {
    if Truthy(a) then a else b
  }

  function EnvValue(v: Option<string>): Value {
    match v
    case None => Undefined
    case Some(s) => Str(s)
  }

  /** The environment variables the program reads. */
  datatype Env = Env(
    port: Option<string>,
    hostname: Option<string>,
    websiteHostname: Option<string>,
    slackChannels: Option<string>,
    slackInterval: Option<string>,
    slackSubdomain: Option<string>,
    slackApiToken: Option<string>,
    captchaSecret: Option<string>,
    captchaSitekey: Option<string>,
    emailList: Option<string>)

  /** `parseInt(s)` as the runtime computes it; `None` stands for `NaN`. */
  type ParseInt = string -> Option<int>

  /** `parseInt(x)`, where `parseInt(undefined)` is `NaN`. */
  function ParseIntOf(parseInt: ParseInt, x: Option<string>): (v: Value)
    ensures v.NaN? || v.Num?
  {
    match x
    case None => NaN
    case Some(s) =>
      match parseInt(s)
      case None => NaN
      case Some(n) => Num(n)
  }

  datatype Options = Options(
    port: Value, hostname: Value, channels: Value, interval: Value, path: Value,
    silent: bool, cors: bool, coc: Value, css: Value, help: bool)

  /** The `options` object before any argument is read. */
  function Defaults(env: Env, parseInt: ParseInt): (o: Options)
    ensures o.path == Str("/") && o.coc == Null && o.css == Null
    ensures !o.silent && !o.cors && !o.help
    ensures Truthy(o.port) && Truthy(o.hostname) && Truthy(o.interval)
    ensures o.channels == EnvValue(env.slackChannels)
  {
    Options(
      port := Or(EnvValue(env.port), Num(3000)),
      hostname := Or(EnvValue(env.hostname), Or(EnvValue(env.websiteHostname), Str("0.0.0.0"))),
      channels := EnvValue(env.slackChannels),
      interval := Or(ParseIntOf(parseInt, env.slackInterval), Num(5000)),
      path := Str("/"),
      silent := false,
      cors := false,
      coc := Null,
      css := Null,
      help := false)
  }

  /** The options that take the next argument as their value. */
  datatype ValueFlag = Port | Hostname | Channels | Interval | Path | Coc | Css

  /** How the `switch` classifies one argument. */
  datatype Token = TakesValue(flag: ValueFlag) | Silent | Cors | Help | Plain

  function Classify(arg: string): Token {
    if arg == "-p" || arg == "--port" then TakesValue(Port)
    else if arg == "-h" || arg == "--hostname" then TakesValue(Hostname)
    else if arg == "-c" || arg == "--channels" then TakesValue(Channels)
    else if arg == "-i" || arg == "--interval" then TakesValue(Interval)
    else if arg == "-P" || arg == "--path" then TakesValue(Path)
    else if arg == "-s" || arg == "--silent" then Silent
    else if arg == "-x" || arg == "--cors" then Cors
    else if arg == "-C" || arg == "--coc" then TakesValue(Coc)
    else if arg == "-S" || arg == "--css" then TakesValue(Css)
    else if arg == "--help" then Help
    else Plain
  }

  /** What a value flag stores, given the next argument (absent at the end of the list). */
  function FlagValue(f: ValueFlag, next: Option<string>, parseInt: ParseInt): Value {
    if f == Port || f == Interval then ParseIntOf(parseInt, next) else EnvValue(next)
  }

  function Field(o: Options, f: ValueFlag): Value {
    match f
    case Port => o.port
    case Hostname => o.hostname
    case Channels => o.channels
    case Interval => o.interval
    case Path => o.path
    case Coc => o.coc
    case Css => o.css
  }

  /** Store the value of one flag; every other option is left as it was. */
  function SetValue(o: Options, f: ValueFlag, next: Option<string>, parseInt: ParseInt): (r: Options)
    ensures Field(r, f) == FlagValue(f, next, parseInt)
    ensures forall g :: g != f ==> Field(r, g) == Field(o, g)
    ensures r.silent == o.silent && r.cors == o.cors && r.help == o.help
  {
    var v := FlagValue(f, next, parseInt);
    match f
    case Port => o.(port := v)
    case Hostname => o.(hostname := v)
    case Channels => o.(channels := v)
    case Interval => o.(interval := v)
    case Path => o.(path := v)
    case Coc => o.(coc := v)
    case Css => o.(css := v)
  }

  datatype Parsed = Parsed(options: Options, positional: seq<string>)

  /** The argument after the first one, if any. */
  function NextArg(args: seq<string>): Option<string> {
    if |args| >= 2 then Some(args[1]) else None
  }

  /**
   * What the loop does with the arguments still to read: a value flag takes
   * the next argument whatever it looks like, a switch takes nothing, and
   * any other argument is positional unless it starts with `-`.
   */
  function Scan(args: seq<string>, o: Options, pos: seq<string>, parseInt: ParseInt): Parsed
    decreases |args|
  {
    if args == [] then Parsed(o, pos)
    else
      match Classify(args[0])
      case TakesValue(f) =>
        Scan(if |args| >= 2 then args[2..] else [], SetValue(o, f, NextArg(args), parseInt), pos, parseInt)
      case Silent => Scan(args[1..], o.(silent := true), pos, parseInt)
      case Cors => Scan(args[1..], o.(cors := true), pos, parseInt)
      case Help => Scan(args[1..], o.(help := true), pos, parseInt)
      case Plain =>
        Scan(args[1..], o, if JsText.StartsWith(args[0], '-') then pos else pos + [args[0]], parseInt)
  }

  /** `parseArgs()`, given the arguments after the script name. */
  method ParseArgs(args: seq<string>, env: Env, parseInt: ParseInt) returns (options: Options, positional: seq<string>)
    ensures Parsed(options, positional) == Scan(args, Defaults(env, parseInt), [], parseInt)
  {
    options := Defaults(env, parseInt);
    positional := [];
    var i := 0;
    while i < |args|
      invariant 0 <= i <= |args| + 1
      invariant Scan(if i <= |args| then args[i..] else [], options, positional, parseInt)
        == Scan(args, Defaults(env, parseInt), [], parseInt)
      decreases |args| + 1 - i
    {
      var arg := args[i];
      var nextArg := if i + 1 < |args| then Some(args[i + 1]) else None;
      assert args[i..][0] == arg;
      assert NextArg(args[i..]) == nextArg;
      assert args[i..][1..] == args[i + 1..];
      match Classify(arg) {
      case TakesValue(f) =>
        options := SetValue(options, f, nextArg, parseInt);
        if i + 2 <= |args| {
          assert args[i..][2..] == args[i + 2..];
        }
        i := i + 1;
      case Silent =>
        options := options.(silent := true);
      case Cors =>
        options := options.(cors := true);
      case Help =>
        options := options.(help := true);
      case Plain =>
        if !JsText.StartsWith(arg, '-') {
          positional := positional + [arg];
        }
      }
      i := i + 1;
    }
  }

  /** `s` occurs in `t` in order, possibly with gaps. */
  predicate Subseq<T(==)>(s: seq<T>, t: seq<T>)
    decreases |t|
  {
    if t == [] then s == []
    else (s != [] && s[0] == t[0] && Subseq(s[1..], t[1..])) || Subseq(s, t[1..])
  }

  /**
   * The loop only appends to `positional`, and what it appends are
   * arguments not starting with `-`, taken in their order in the list.
   */
  lemma {:induction false} ScanPositional(args: seq<string>, o: Options, pos: seq<string>, parseInt: ParseInt)
    ensures var r := Scan(args, o, pos, parseInt).positional;
      && |pos| <= |r| && r[..|pos|] == pos
      && Subseq(r[|pos|..], args)
      && forall k :: |pos| <= k < |r| ==> !JsText.StartsWith(r[k], '-')
    decreases |args|
  {
    var r := Scan(args, o, pos, parseInt).positional;
    if args == [] {
      assert r[|pos|..] == [];
    } else {
      match Classify(args[0])
      case TakesValue(f) =>
        var rest := if |args| >= 2 then args[2..] else [];
        ScanPositional(rest, SetValue(o, f, NextArg(args), parseInt), pos, parseInt);
        if |args| >= 2 {
          assert args[1..][1..] == rest;
          assert Subseq(r[|pos|..], args[1..]);
        } else {
          assert r[|pos|..] == [];
        }
      case Silent => ScanPositional(args[1..], o.(silent := true), pos, parseInt);
      case Cors => ScanPositional(args[1..], o.(cors := true), pos, parseInt);
      case Help => ScanPositional(args[1..], o.(help := true), pos, parseInt);
      case Plain =>
        if JsText.StartsWith(args[0], '-') {
          ScanPositional(args[1..], o, pos, parseInt);
        } else {
          var pos' := pos + [args[0]];
          ScanPositional(args[1..], o, pos', parseInt);
          assert r[..|pos'|][..|pos|] == pos;
          assert r[|pos|..] == [args[0]] + r[|pos'|..];
          assert r[|pos|..][1..] == r[|pos'|..];
        }
    }
  }

  /** With no flag among the arguments, every argument is positional, in order, and the options stay as they were. */
  lemma {:induction false} ScanPlainArgs(args: seq<string>, o: Options, pos: seq<string>, parseInt: ParseInt)
    requires forall k :: 0 <= k < |args| ==> !JsText.StartsWith(args[k], '-')
    ensures Scan(args, o, pos, parseInt) == Parsed(o, pos + args)
    decreases |args|
  {
    if args == [] {
      assert pos + args == pos;
    } else {
      assert Classify(args[0]) == Plain;
      ScanPlainArgs(args[1..], o, pos + [args[0]], parseInt);
      assert pos + [args[0]] + args[1..] == pos + args;
    }
  }

  /** An unrecognised argument starting with `-` changes neither the options nor the positional list. */
  lemma UnknownDashIgnored(a: string, rest: seq<string>, o: Options, pos: seq<string>, parseInt: ParseInt)
    requires Classify(a) == Plain && JsText.StartsWith(a, '-')
    ensures Scan([a] + rest, o, pos, parseInt) == Scan(rest, o, pos, parseInt)
  {
    assert ([a] + rest)[1..] == rest;
  }

  /** A value flag takes the next argument as its value even when it starts with `-`. */
  lemma ValueFlagTakesNext(a: string, v: string, rest: seq<string>, o: Options, pos: seq<string>, parseInt: ParseInt)
    requires Classify(a).TakesValue?
    ensures Scan([a, v] + rest, o, pos, parseInt)
      == Scan(rest, SetValue(o, Classify(a).flag, Some(v), parseInt), pos, parseInt)
  {
    assert ([a, v] + rest)[2..] == rest;
  }

  /** A switch sets its option and takes no argument. */
  lemma SwitchTakesNothing(a: string, rest: seq<string>, o: Options, pos: seq<string>, parseInt: ParseInt)
    requires Classify(a) == Silent || Classify(a) == Cors || Classify(a) == Help
    ensures Scan([a] + rest, o, pos, parseInt)
      == Scan(rest, if Classify(a) == Silent then o.(silent := true)
                    else if Classify(a) == Cors then o.(cors := true)
                    else o.(help := true), pos, parseInt)
  {
    assert ([a] + rest)[1..] == rest;
  }

  /** Arguments that do not name flag `f` leave option `f` alone. */
  lemma {:induction false} ScanKeepsField(args: seq<string>, o: Options, pos: seq<string>, parseInt: ParseInt, f: ValueFlag)
    requires forall k :: 0 <= k < |args| ==> Classify(args[k]) != TakesValue(f)
    ensures Field(Scan(args, o, pos, parseInt).options, f) == Field(o, f)
    decreases |args|
  {
    if args != [] {
      assert Classify(args[0]) != TakesValue(f);
      var rest := args[1..];
      assert forall k :: 0 <= k < |rest| ==> rest[k] == args[k + 1];
      match Classify(args[0])
      case TakesValue(g) =>
        var o' := SetValue(o, g, NextArg(args), parseInt);
        assert Field(o', f) == Field(o, f);
        if |args| >= 2 {
          var rest2 := args[2..];
          assert forall k :: 0 <= k < |rest2| ==> rest2[k] == args[k + 2];
          assert Scan(args, o, pos, parseInt) == Scan(rest2, o', pos, parseInt);
          ScanKeepsField(rest2, o', pos, parseInt, f);
        }
      case Silent =>
        assert Scan(args, o, pos, parseInt) == Scan(rest, o.(silent := true), pos, parseInt);
        ScanKeepsField(rest, o.(silent := true), pos, parseInt, f);
      case Cors =>
        assert Scan(args, o, pos, parseInt) == Scan(rest, o.(cors := true), pos, parseInt);
        ScanKeepsField(rest, o.(cors := true), pos, parseInt, f);
      case Help =>
        assert Scan(args, o, pos, parseInt) == Scan(rest, o.(help := true), pos, parseInt);
        ScanKeepsField(rest, o.(help := true), pos, parseInt, f);
      case Plain =>
        var pos' := if JsText.StartsWith(args[0], '-') then pos else pos + [args[0]];
        assert Scan(args, o, pos, parseInt) == Scan(rest, o, pos', parseInt);
        ScanKeepsField(rest, o, pos', parseInt, f);
    }
  }

  /** A switch once on stays on: no argument turns `silent`, `cors` or `help` off. */
  lemma {:induction false} SwitchesStayOn(args: seq<string>, o: Options, pos: seq<string>, parseInt: ParseInt)
    ensures o.silent ==> Scan(args, o, pos, parseInt).options.silent
    ensures o.cors ==> Scan(args, o, pos, parseInt).options.cors
    ensures o.help ==> Scan(args, o, pos, parseInt).options.help
    decreases |args|
  {
    if args != [] {
      match Classify(args[0])
      case TakesValue(g) =>
        SwitchesStayOn(if |args| >= 2 then args[2..] else [], SetValue(o, g, NextArg(args), parseInt), pos, parseInt);
      case Silent => SwitchesStayOn(args[1..], o.(silent := true), pos, parseInt);
      case Cors => SwitchesStayOn(args[1..], o.(cors := true), pos, parseInt);
      case Help => SwitchesStayOn(args[1..], o.(help := true), pos, parseInt);
      case Plain =>
        SwitchesStayOn(args[1..], o, if JsText.StartsWith(args[0], '-') then pos else pos + [args[0]], parseInt);
    }
  }

  /** When a flag is repeated, the last occurrence wins. */
  lemma LastOccurrenceWins(a: string, v: string, rest: seq<string>, o: Options, pos: seq<string>, parseInt: ParseInt)
    requires Classify(a).TakesValue?
    requires forall k :: 0 <= k < |rest| ==> Classify(rest[k]) != Classify(a)
    ensures Field(Scan([a, v] + rest, o, pos, parseInt).options, Classify(a).flag)
      == FlagValue(Classify(a).flag, Some(v), parseInt)
  {
    var f := Classify(a).flag;
    ValueFlagTakesNext(a, v, rest, o, pos, parseInt);
    ScanKeepsField(rest, SetValue(o, f, Some(v), parseInt), pos, parseInt, f);
  }

  // ---------------------------------------------------------------------
  // Start-up

  /** The configuration handed to the server. */
  datatype Config = Config(
    options: Options, org: string, token: string,
    gcaptchaSecret: string, gcaptchaSitekey: string, emails: string)

  datatype Launch = ShowHelp | MissingParameters | Start(config: Config)

  /** `positional[k] || fallback`. */
  function PositionalOr(positional: seq<string>, k: nat, fallback: Option<string>): (r: Option<string>)
    ensures JsText.Filled(r) <==> (k < |positional| && positional[k] != "") || JsText.Filled(fallback)
    ensures k < |positional| && positional[k] != "" ==> r == Some(positional[k])
    ensures r != fallback ==> k < |positional| && r == Some(positional[k])
  {
    if k < |positional| && positional[k] != "" then Some(positional[k]) else fallback
  }

  /**
   * After parsing: `--help` shows the help and exits 0; otherwise the team,
   * token, captcha secret and captcha site key are taken from the first
   * four positional arguments, each falling back to its environment
   * variable, and any one missing exits 1.
   */
  function Startup(p: Parsed, env: Env): (r: Launch)
    ensures r == ShowHelp <==> p.options.help
    ensures r.Start? <==>
      && !p.options.help
      && JsText.Filled(PositionalOr(p.positional, 0, env.slackSubdomain))
      && JsText.Filled(PositionalOr(p.positional, 1, env.slackApiToken))
      && JsText.Filled(PositionalOr(p.positional, 2, env.captchaSecret))
      && JsText.Filled(PositionalOr(p.positional, 3, env.captchaSitekey))
    ensures r.Start? ==>
      && r.config.options == p.options
      && Some(r.config.org) == PositionalOr(p.positional, 0, env.slackSubdomain)
      && Some(r.config.token) == PositionalOr(p.positional, 1, env.slackApiToken)
      && Some(r.config.gcaptchaSecret) == PositionalOr(p.positional, 2, env.captchaSecret)
      && Some(r.config.gcaptchaSitekey) == PositionalOr(p.positional, 3, env.captchaSitekey)
      && r.config.emails == (if env.emailList.Some? then env.emailList.value else "")
  {
    if p.options.help then ShowHelp
    else
      var org := PositionalOr(p.positional, 0, env.slackSubdomain);
      var token := PositionalOr(p.positional, 1, env.slackApiToken);
      var secret := PositionalOr(p.positional, 2, env.captchaSecret);
      var sitekey := PositionalOr(p.positional, 3, env.captchaSitekey);
      var emails := if JsText.Filled(env.emailList) then env.emailList.value else "";
      if !JsText.Filled(org) || !JsText.Filled(token) || !JsText.Filled(secret) || !JsText.Filled(sitekey) then MissingParameters
      else Start(Config(p.options, org.value, token.value, secret.value, sitekey.value, emails))
  }

  /** With four non-empty positional arguments the environment is not consulted for them. */
  lemma PositionalBeatsEnv(p: Parsed, env: Env)
    requires !p.options.help
    requires |p.positional| >= 4 && forall k :: 0 <= k < 4 ==> p.positional[k] != ""
    ensures Startup(p, env)
      == Start(Config(p.options, p.positional[0], p.positional[1], p.positional[2], p.positional[3],
                      if env.emailList.Some? then env.emailList.value else ""))
  {
  }
}
