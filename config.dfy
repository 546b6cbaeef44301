/** The configuration of the application crate, read from an environment
    given here as a map from variable names to values. */
module Config {
  import opened Base
  import opened Text

  datatype PeachConfig = PeachConfig(
    authServiceUrl: string,
    checkoutEndpoint: string,
    statusEndpoint: string,
    clientId: string,
    clientSecret: string,
    merchantId: string,
    entityId: string,
    webhookSecret: string,
    notificationUrl: string,
    shopperResultUrl: string,
    originDomain: string)

  datatype AppConfig = AppConfig(gracePeriodDays: u32, maxRenewalAttempts: u32, notificationDays: seq<u32>)

  datatype Settings = Settings(databaseUrl: string, peach: PeachConfig, app: AppConfig)

  /** `env::VarError`: the only failure the model can produce is a missing variable. */
  datatype VarError = NotPresent

  type Env = map<string, string>

  /** The gateway variables `from_env` cannot do without. */
  const REQUIRED: seq<string> := [
    "PEACH_AUTH_SERVICE_URL", "PEACH_CHECKOUT_ENDPOINT", "PEACH_STATUS_ENDPOINT",
    "PEACH_CLIENT_ID", "PEACH_CLIENT_SECRET", "PEACH_MERCHANT_ID", "PEACH_ENTITY_ID",
    "PEACH_WEBHOOK_SECRET", "PEACH_NOTIFICATION_URL", "PEACH_SHOPPER_RESULT_URL",
    "PEACH_ORIGIN_DOMAIN"]

  /** `env::var(name).unwrap_or_else(|_| default)`. */
  function VarOr(env: Env, name: string, default: string): (v: string)
    ensures name !in env ==> v == default
    ensures name in env ==> v == env[name]
  {
    if name in env then env[name] else default
  }

  /** `.parse().unwrap_or(default)` on a u32. */
  function ParseOr(s: string, default: u32): (n: u32)
    ensures ParseU32(s).Some? ==> n == ParseU32(s).value
    ensures ParseU32(s).None? ==> n == default
  {
    match ParseU32(s)
    case Some(v) => v
    case None => default
  }

  /** `.filter_map(|s| s.trim().parse().ok())` over the pieces, in order. */
  function ParsedEntries(parts: seq<string>): (days: seq<u32>)
    ensures |days| <= |parts|
  {
    if parts == [] then []
    else
      var rest := ParsedEntries(parts[1..]);
      match ParseU32(Trim(parts[0]))
      case Some(d) => [d] + rest
      case None => rest
  }

  /** The NOTIFICATION_DAYS list: comma-separated, each entry trimmed; entries
      that are not 32-bit numbers are dropped. */
  function DayList(s: string): (days: seq<u32>)
    ensures |days| <= |Split(s, ',')|
  {
    ParsedEntries(Split(s, ','))
  }

  /** The rendering of a list of days as the variable would hold it. */
  function RenderDays(days: seq<u32>): (parts: seq<string>)
    ensures |parts| == |days|
    ensures forall i :: 0 <= i < |parts| ==> parts[i] == NatToString(days[i])
  {
    if days == [] then [] else [NatToString(days[0])] + RenderDays(days[1..])
  }

  lemma {:induction false} ParsedEntriesRendered(days: seq<u32>)
    ensures ParsedEntries(RenderDays(days)) == days
  {
    if days != [] {
      var parts := RenderDays(days);
      assert parts[1..] == RenderDays(days[1..]);
      ParsedEntriesRendered(days[1..]);
      NatToStringDigits(days[0]);
      TrimDigits(parts[0]);
      ParseRendered(days[0]);
    }
  }

  /** Any non-empty list of days written comma-separated is read back as the
      same list, in the same order. */
  lemma DayListRoundTrip(days: seq<u32>)
    requires |days| >= 1
    ensures DayList(Join(RenderDays(days), ',')) == days
  {
    var parts := RenderDays(days);
    forall i | 0 <= i < |parts| ensures ',' !in parts[i] {
      NumberHasNoComma(days[i]);
    }
    SplitJoin(parts, ',');
    ParsedEntriesRendered(days);
  }

  /** The default list "7,3,1" reads as 7, 3, 1. */
  lemma DefaultDayList()
    ensures DayList("7,3,1") == [7, 3, 1]
  {
    var days: seq<u32> := [7, 3, 1];
    assert NatToString(7) == "7" && NatToString(3) == "3" && NatToString(1) == "1";
    assert RenderDays(days) == ["7", "3", "1"];
    JoinThree("7", "3", "1", ',');
    assert "7" + [','] + "3" + [','] + "1" == "7,3,1";
    DayListRoundTrip(days);
  }

  lemma NumberHasNoComma(n: u32)
    ensures ',' !in NatToString(n)
  {
    NatToStringDigits(n);
    assert forall k :: 0 <= k < |NatToString(n)| ==> NatToString(n)[k] != ',';
  }

  lemma JoinThree(x: string, y: string, z: string, sep: char)
    ensures Join([x, y, z], sep) == x + [sep] + y + [sep] + z
  {
    assert [x, y, z][..2] == [x, y];
    assert [x, y][..1] == [x];
    assert Join([x, y], sep) == x + [sep] + y;
  }

  lemma ParsedLenient(a: u32, junk: string, b: u32)
    requires |Trim(junk)| > 0 && !AllDigits(Trim(junk)) && Trim(junk)[0] != '+'
    ensures ParsedEntries([NatToString(a), junk, " " + NatToString(b)]) == [a, b]
  {
    var parts := [NatToString(a), junk, " " + NatToString(b)];
    NatToStringDigits(a);
    NatToStringDigits(b);
    assert TrimStart(" " + NatToString(b)) == TrimStart(NatToString(b)) by {
      assert (" " + NatToString(b))[1..] == NatToString(b);
    }
    TrimDigits(NatToString(a));
    TrimDigits(NatToString(b));
    ParseRendered(a);
    ParseRendered(b);
    assert ParsedEntries(parts[2..]) == [b];
    assert ParsedEntries(parts[1..]) == [b];
  }

  /** An entry that is not a number is skipped, and spaces around an entry
      are ignored. */
  lemma DayListLenient(a: u32, junk: string, b: u32)
    requires ',' !in junk && |Trim(junk)| > 0 && !AllDigits(Trim(junk)) && Trim(junk)[0] != '+'
    ensures DayList(NatToString(a) + "," + junk + ", " + NatToString(b)) == [a, b]
  {
    var parts := [NatToString(a), junk, " " + NatToString(b)];
    NumberHasNoComma(a);
    NumberHasNoComma(b);
    JoinThree(NatToString(a), junk, " " + NatToString(b), ',');
    assert NatToString(a) + [','] + junk + [','] + (" " + NatToString(b))
        == NatToString(a) + "," + junk + ", " + NatToString(b);
    SplitJoin(parts, ',');
    ParsedLenient(a, junk, b);
  }

  /** The gateway setting read from `REQUIRED[i]`. */
  function PeachField(p: PeachConfig, i: nat): string
    requires i < |REQUIRED|
  {
    if i == 0 then p.authServiceUrl else if i == 1 then p.checkoutEndpoint
    else if i == 2 then p.statusEndpoint else if i == 3 then p.clientId
    else if i == 4 then p.clientSecret else if i == 5 then p.merchantId
    else if i == 6 then p.entityId else if i == 7 then p.webhookSecret
    else if i == 8 then p.notificationUrl else if i == 9 then p.shopperResultUrl
    else p.originDomain
  }

  /** The gateway settings read from an environment that holds them all. */
  function ReadPeach(env: Env): (p: PeachConfig)
    requires forall i :: 0 <= i < |REQUIRED| ==> REQUIRED[i] in env
    ensures forall i :: 0 <= i < |REQUIRED| ==> PeachField(p, i) == env[REQUIRED[i]]
  {
    PeachConfig(
      env[REQUIRED[0]], env[REQUIRED[1]], env[REQUIRED[2]], env[REQUIRED[3]],
      env[REQUIRED[4]], env[REQUIRED[5]], env[REQUIRED[6]], env[REQUIRED[7]],
      env[REQUIRED[8]], env[REQUIRED[9]], env[REQUIRED[10]])
  }

  /** `Config::from_env`: Err when any gateway variable is missing; otherwise
      each gateway setting is its variable's value, the database URL is
      DATABASE_URL's value (any text) or the default file, and the numeric
      settings fall back to their defaults when missing or unparsable. */
  function FromEnv(env: Env): (r: Result<Settings, VarError>)
    ensures r.Ok? <==> forall i :: 0 <= i < |REQUIRED| ==> REQUIRED[i] in env
    ensures r.Ok? ==> forall i :: 0 <= i < |REQUIRED| ==> PeachField(r.value.peach, i) == env[REQUIRED[i]]
    ensures r.Ok? ==> r.value.databaseUrl == VarOr(env, "DATABASE_URL", "file://subscription.db")
    ensures r.Ok? ==> "PEACH_CLIENT_SECRET" in env && r.value.peach.clientSecret == env["PEACH_CLIENT_SECRET"]
    ensures r.Ok? ==> "PEACH_WEBHOOK_SECRET" in env && r.value.peach.webhookSecret == env["PEACH_WEBHOOK_SECRET"]
    ensures r.Ok? ==> "PEACH_ENTITY_ID" in env && r.value.peach.entityId == env["PEACH_ENTITY_ID"]
    ensures r.Ok? && "DATABASE_URL" !in env ==> r.value.databaseUrl == "file://subscription.db"
    ensures r.Ok? ==> r.value.app.gracePeriodDays == ParseOr(VarOr(env, "GRACE_PERIOD_DAYS", "7"), 7)
    ensures r.Ok? ==> r.value.app.maxRenewalAttempts == ParseOr(VarOr(env, "MAX_RENEWAL_ATTEMPTS", "5"), 5)
    ensures r.Ok? ==> r.value.app.notificationDays == DayList(VarOr(env, "NOTIFICATION_DAYS", "7,3,1"))
  {
    if !(forall i :: 0 <= i < |REQUIRED| ==> REQUIRED[i] in env) then Err(NotPresent)
    else
      var peach := ReadPeach(env);
      var app := AppConfig(
        ParseOr(VarOr(env, "GRACE_PERIOD_DAYS", "7"), 7),
        ParseOr(VarOr(env, "MAX_RENEWAL_ATTEMPTS", "5"), 5),
        DayList(VarOr(env, "NOTIFICATION_DAYS", "7,3,1")));
      Ok(Settings(VarOr(env, "DATABASE_URL", "file://subscription.db"), peach, app))
  }

  /** `AppConfig::default`. */
  function DefaultAppConfig(): AppConfig {
    AppConfig(7, 5, [7, 3, 1])
  }

  /** With the numeric variables unset or unparsable and NOTIFICATION_DAYS
      unset, `from_env` yields exactly `AppConfig::default`. */
  lemma DefaultsAgree(env: Env)
    requires FromEnv(env).Ok?
    requires "GRACE_PERIOD_DAYS" !in env || ParseU32(env["GRACE_PERIOD_DAYS"]).None?
    requires "MAX_RENEWAL_ATTEMPTS" !in env || ParseU32(env["MAX_RENEWAL_ATTEMPTS"]).None?
    requires "NOTIFICATION_DAYS" !in env
    ensures FromEnv(env).value.app == DefaultAppConfig()
  {
    ParseRendered(7);
    ParseRendered(5);
    assert NatToString(7) == "7" && NatToString(5) == "5";
    DefaultDayList();
  }

  /** Entries none of which is a number give no days at all. */
  lemma {:induction false} ParsedEntriesNone(parts: seq<string>)
    requires forall i :: 0 <= i < |parts| ==> ParseU32(Trim(parts[i])).None?
    ensures ParsedEntries(parts) == []
  {
    if parts != [] {
      ParsedEntriesNone(parts[1..]);
    }
  }

  /** A NOTIFICATION_DAYS that is set but holds no number gives an empty
      list, not the default [7, 3, 1]. */
  lemma UnparsableNotificationDays(env: Env)
    requires FromEnv(env).Ok?
    requires "NOTIFICATION_DAYS" in env && ',' !in env["NOTIFICATION_DAYS"]
    requires ParseU32(Trim(env["NOTIFICATION_DAYS"])).None?
    ensures FromEnv(env).value.app.notificationDays == []
  {
    SplitNoSeparator(env["NOTIFICATION_DAYS"], ',');
    ParsedEntriesNone([env["NOTIFICATION_DAYS"]]);
  }
}
