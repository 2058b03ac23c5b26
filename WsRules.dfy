/**
 * The fixed rule tables of `WebSocketFilter` (ha_api_limiter/ws_filter.py:16-159)
 * and the three decisions made from them together with the user's
 * overrides in the whitelist: whether a message type is blocked, whether an
 * event type may be subscribed to and whether a service is blocked; and the
 * error object sent back for a refused message.
 */
module WsRules {
  import opened Wrappers
  import opened Strings
  import opened Json
  import opened Config

  const EntityListTypes: set<string> :=
    {"get_states", "config/entity_registry/list", "config/entity_registry/list_for_display"}
  const DeviceListTypes: set<string> := {"config/device_registry/list"}
  const AreaListTypes: set<string> := {"config/area_registry/list"}
  const FloorListTypes: set<string> := {"config/floor_registry/list"}
  const EntitySubscriptionTypes: set<string> := {"subscribe_entities"}

  /** Every request type whose result list is filtered. */
  const TrackedTypes: set<string> := EntityListTypes + DeviceListTypes + AreaListTypes + FloorListTypes

  const BlockedMessageTypes: set<string> :=
    {"render_template", "fire_event", "execute_script", "subscribe_trigger", "intent/handle"}

  /** A compiled pattern of the block list: `^text` or `^text$`. */
  datatype TypePattern = Prefix(text: string) | Exact(text: string)

  const BlockedMessagePatterns: seq<TypePattern> := [
    Prefix("config/automation/"),
    Prefix("config/script/"),
    Prefix("config/scene/"),
    Prefix("config_entries/"),
    Prefix("hassio/"),
    Prefix("backup/"),
    Exact("auth/sign_path"),
    Prefix("auth/refresh_token"),
    Prefix("auth/delete_refresh_token")
  ]

  const AllowedMessageTypes: set<string> := {"auth/current_user", "lovelace/config", "lovelace/resources"}

  /** Blocked services; `"*"` as the service blocks the whole domain. */
  const BlockedServices: set<(string, string)> := {
    ("homeassistant", "restart"), ("homeassistant", "stop"), ("homeassistant", "reload_all"),
    ("homeassistant", "reload_core_config"), ("homeassistant", "reload_config_entry"),
    ("homeassistant", "set_location"),
    ("automation", "trigger"), ("automation", "reload"), ("automation", "turn_on"),
    ("automation", "turn_off"), ("automation", "toggle"),
    ("script", "reload"), ("script", "turn_on"), ("script", "turn_off"), ("script", "toggle"),
    ("scene", "reload"), ("scene", "apply"), ("scene", "create"),
    ("input_boolean", "reload"), ("input_number", "reload"), ("input_select", "reload"),
    ("input_text", "reload"), ("input_datetime", "reload"), ("input_button", "reload"),
    ("shell_command", "*"), ("python_script", "*"), ("pyscript", "*"), ("rest_command", "*"),
    ("notify", "*"),
    ("persistent_notification", "create"), ("system_log", "clear"),
    ("recorder", "purge"), ("recorder", "purge_entities"), ("recorder", "disable"),
    ("recorder", "enable"),
    ("logger", "set_level"), ("logger", "set_default_level")
  }

  /** Domains whose services must name at least one target. */
  const EntityControlledDomains: set<string> := {
    "light", "switch", "cover", "fan", "climate", "media_player", "vacuum", "lock",
    "alarm_control_panel", "camera", "humidifier", "water_heater", "remote", "button",
    "number", "select", "siren", "text", "valve", "lawn_mower", "update"
  }

  const AllowedEventTypes: set<string> := {
    "state_changed", "component_loaded", "service_registered", "service_removed",
    "themes_updated", "panels_updated", "lovelace_updated", "core_config_updated",
    "entity_registry_updated", "device_registry_updated", "area_registry_updated",
    "floor_registry_updated", "label_registry_updated", "repairs_issue_registry_updated"
  }

  /** `pattern.match(t)`; `$` also accepts a final newline. */
  predicate PatternMatches(p: TypePattern, t: string) {
    match p
    case Prefix(text) => StartsWith(t, text)
    case Exact(text) => DollarBody(t) == text
  }

  /** Some pattern of the block list matches the type. */
  predicate BlockedByPattern(t: string) {
    exists i | 0 <= i < |BlockedMessagePatterns| :: PatternMatches(BlockedMessagePatterns[i], t)
  }

  /**
   * `_is_message_type_blocked`: the user's allowed types, then the built-in
   * allowed types, then the blocked types, then the patterns.
   */
  predicate IsMessageTypeBlocked(w: Whitelist, t: string) {
    if t in w.allowedWsTypes then false
    else if t in AllowedMessageTypes then false
    else if t in BlockedMessageTypes then true
    else BlockedByPattern(t)
  }

  /**
   * The pattern list read as text: eight prefixes, and `auth/sign_path`
   * exactly (or followed by one newline, which `$` accepts).
   */
  lemma BlockedPatternsSpelledOut(t: string)
    ensures BlockedByPattern(t) <==>
      StartsWith(t, "config/automation/") || StartsWith(t, "config/script/") ||
      StartsWith(t, "config/scene/") || StartsWith(t, "config_entries/") ||
      StartsWith(t, "hassio/") || StartsWith(t, "backup/") ||
      t == "auth/sign_path" || t == "auth/sign_path\n" ||
      StartsWith(t, "auth/refresh_token") || StartsWith(t, "auth/delete_refresh_token")
  {
    var ps := BlockedMessagePatterns;
    assert DollarBody("auth/sign_path") == "auth/sign_path";
    assert "auth/sign_path\n"[..14] == "auth/sign_path";
    assert DollarBody("auth/sign_path\n") == "auth/sign_path";
    if DollarBody(t) == "auth/sign_path" {
      assert t == "auth/sign_path" || t == "auth/sign_path" + "\n";
    }
    if t == "auth/sign_path" || t == "auth/sign_path\n" {
      assert PatternMatches(ps[6], t);
    }
    if StartsWith(t, "config/automation/") { assert PatternMatches(ps[0], t); }
    if StartsWith(t, "config/script/") { assert PatternMatches(ps[1], t); }
    if StartsWith(t, "config/scene/") { assert PatternMatches(ps[2], t); }
    if StartsWith(t, "config_entries/") { assert PatternMatches(ps[3], t); }
    if StartsWith(t, "hassio/") { assert PatternMatches(ps[4], t); }
    if StartsWith(t, "backup/") { assert PatternMatches(ps[5], t); }
    if StartsWith(t, "auth/refresh_token") { assert PatternMatches(ps[7], t); }
    if StartsWith(t, "auth/delete_refresh_token") { assert PatternMatches(ps[8], t); }
  }

  /** A string starting with one character does not start with a prefix that starts with another. */
  lemma DiffersAt(t: string, prefix: string, i: nat)
    requires i < |t| && i < |prefix| && t[i] != prefix[i]
    ensures !StartsWith(t, prefix)
  {
    if |prefix| <= |t| {
      assert t[..|prefix|][i] != prefix[i];
    }
  }

  /** No built-in allowed type is caught by a blocking pattern. */
  lemma AllowedTypesMatchNoPattern(t: string)
    requires t in AllowedMessageTypes
    ensures !BlockedByPattern(t)
  {
    if t == "auth/current_user" {
      CurrentUserUnmatched();
    } else {
      assert t[0] == 'l';
      LovelaceTypeUnmatched(t);
    }
  }

  lemma CurrentUserUnmatched()
    ensures !BlockedByPattern("auth/current_user")
  {
    var t := "auth/current_user";
    BlockedPatternsSpelledOut(t);
    DiffersAt(t, "auth/refresh_token", 5);
    DiffersAt(t, "auth/delete_refresh_token", 5);
    assert t[5] != "auth/sign_path"[5];
    assert t[5] != "auth/sign_path\n"[5];
    DiffersAt(t, "config/automation/", 0);
    DiffersAt(t, "config/script/", 0);
    DiffersAt(t, "config/scene/", 0);
    DiffersAt(t, "config_entries/", 0);
    DiffersAt(t, "hassio/", 0);
    DiffersAt(t, "backup/", 0);
  }

  /** A type starting with `l` escapes every pattern. */
  lemma LovelaceTypeUnmatched(t: string)
    requires |t| > 0 && t[0] == 'l'
    ensures !BlockedByPattern(t)
  {
    BlockedPatternsSpelledOut(t);
    assert t[0] != "auth/sign_path"[0];
    assert t[0] != "auth/sign_path\n"[0];
    DiffersAt(t, "auth/refresh_token", 0);
    DiffersAt(t, "auth/delete_refresh_token", 0);
    DiffersAt(t, "config/automation/", 0);
    DiffersAt(t, "config/script/", 0);
    DiffersAt(t, "config/scene/", 0);
    DiffersAt(t, "config_entries/", 0);
    DiffersAt(t, "hassio/", 0);
    DiffersAt(t, "backup/", 0);
  }

  /**
   * A type is blocked exactly when the user has not allowed it and it is a
   * blocked type or matches a blocking pattern: the built-in allowed types
   * never need their override.
   */
  lemma MessageTypeBlockedIff(w: Whitelist, t: string)
    ensures IsMessageTypeBlocked(w, t) <==>
      t !in w.allowedWsTypes && (t in BlockedMessageTypes || BlockedByPattern(t))
  {
    if t in AllowedMessageTypes {
      AllowedTypesMatchNoPattern(t);
    }
  }

  /**
   * `auth/sign_path` is blocked by an exact pattern: anything longer passes
   * the pattern checks, unless only a final newline was added.
   */
  lemma SignPathIsExact(w: Whitelist, x: string)
    requires x != [] && x != "\n"
    requires w.allowedWsTypes == []
    ensures IsMessageTypeBlocked(w, "auth/sign_path")
    ensures IsMessageTypeBlocked(w, "auth/sign_path\n")
    ensures !IsMessageTypeBlocked(w, "auth/sign_path" + x)
  {
    SignPathBlocked(w);
    var t := "auth/sign_path" + x;
    assert t[0] == 'a' && t[5] == 's';
    AuthSignTypeUnlisted(t);
    ExtendedSignPathUnmatched(x);
  }

  lemma SignPathBlocked(w: Whitelist)
    requires w.allowedWsTypes == []
    ensures IsMessageTypeBlocked(w, "auth/sign_path")
    ensures IsMessageTypeBlocked(w, "auth/sign_path\n")
  {
    var a, b := "auth/sign_path", "auth/sign_path\n";
    AuthSignTypeUnlisted(a);
    AuthSignTypeUnlisted(b);
    assert DollarBody(a) == a;
    assert b[..14] == a;
    assert DollarBody(b) == a;
    assert PatternMatches(BlockedMessagePatterns[6], a);
    assert PatternMatches(BlockedMessagePatterns[6], b);
  }

  /** Text after `auth/sign_path`, other than one newline, escapes every pattern. */
  lemma ExtendedSignPathUnmatched(x: string)
    requires x != [] && x != "\n"
    ensures !BlockedByPattern("auth/sign_path" + x)
  {
    var t := "auth/sign_path" + x;
    BlockedPatternsSpelledOut(t);
    assert t != "auth/sign_path";
    assert t != "auth/sign_path\n" by {
      if |x| == 1 {
        assert x == [t[14]];
      }
    }
    DiffersAt(t, "auth/refresh_token", 5);
    DiffersAt(t, "auth/delete_refresh_token", 5);
    DiffersAt(t, "config/automation/", 0);
    DiffersAt(t, "config/script/", 0);
    DiffersAt(t, "config/scene/", 0);
    DiffersAt(t, "config_entries/", 0);
    DiffersAt(t, "hassio/", 0);
    DiffersAt(t, "backup/", 0);
  }

  /** No listed allowed or blocked type starts like `auth/s`. */
  lemma AuthSignTypeUnlisted(t: string)
    requires |t| > 5 && t[0] == 'a' && t[5] == 's'
    ensures t !in AllowedMessageTypes && t !in BlockedMessageTypes
  {
    assert "auth/current_user"[5] == 'c';
  }

  /** `_is_event_type_allowed`: a built-in allowed event type or one the user allowed. */
  predicate IsEventTypeAllowed(w: Whitelist, eventType: Json) {
    eventType.Str? && (eventType.s in AllowedEventTypes || eventType.s in w.allowedEventTypes)
  }

  /** `f"{domain}.{service}"`. */
  function ServiceName(domain: Json, service: Json): string
    requires Hashable(domain) && Hashable(service)
  {
    PyStr(domain) + "." + PyStr(service)
  }

  /**
   * `_is_service_blocked`: the user's `domain.service` or `domain.*` entry
   * unblocks; otherwise the exact pair or the domain's `"*"` entry blocks.
   * Only strings can equal the table's entries.
   */
  predicate IsServiceBlocked(w: Whitelist, domain: Json, service: Json)
    requires Hashable(domain) && Hashable(service)
  {
    if ServiceName(domain, service) in w.allowedServices then false
    else if PyStr(domain) + ".*" in w.allowedServices then false
    else if domain.Str? && service.Str? && (domain.s, service.s) in BlockedServices then true
    else domain.Str? && (domain.s, "*") in BlockedServices
  }

  /** A user override of either form unblocks any service. */
  lemma ServiceOverrideWins(w: Whitelist, domain: string, service: string)
    requires domain + "." + service in w.allowedServices || domain + ".*" in w.allowedServices
    ensures !IsServiceBlocked(w, Str(domain), Str(service))
  {
  }

  /**
   * Without an override, a service is blocked exactly when the table lists
   * it or blocks its whole domain.
   */
  lemma ServiceBlockedWithoutOverride(w: Whitelist, domain: string, service: string)
    requires domain + "." + service !in w.allowedServices && domain + ".*" !in w.allowedServices
    ensures IsServiceBlocked(w, Str(domain), Str(service)) <==>
      (domain, service) in BlockedServices || (domain, "*") in BlockedServices
  {
  }

  /** A domain blocked with `"*"` has every service blocked, unless overridden. */
  lemma WildcardDomainBlocksEveryService(w: Whitelist, domain: string, service: string)
    requires domain in {"shell_command", "python_script", "pyscript", "rest_command", "notify"}
    requires domain + "." + service !in w.allowedServices && domain + ".*" !in w.allowedServices
    ensures IsServiceBlocked(w, Str(domain), Str(service))
  {
  }

  /** A service name that is not a string matches no table entry. */
  lemma NonStringServiceNeverTableBlocked(w: Whitelist, domain: Json, service: Json)
    requires Hashable(domain) && Hashable(service) && !domain.Str?
    ensures !IsServiceBlocked(w, domain, service)
  {
  }

  /** `_create_error_response`: a failed `result` for the request's id. */
  function ErrorResponse(id: Json, message: string): (r: Json)
    ensures r.Obj?
    ensures Get(r.fields, "id") == Some(id)
    ensures Get(r.fields, "type") == Some(Str("result"))
    ensures Get(r.fields, "success") == Some(Bool(false))
    ensures Get(r.fields, "error") == Some(Obj([("code", Str("not_allowed")), ("message", Str(message))]))
  {
    var error := Obj([("code", Str("not_allowed")), ("message", Str(message))]);
    ErrorFieldsLookup(id, error);
    Obj([("id", id), ("type", Str("result")), ("success", Bool(false)), ("error", error)])
  }

  /** The four keys of an error response differ in length, so each lookup finds its own entry. */
  lemma ErrorFieldsLookup(id: Json, error: Json)
    ensures var fields := [("id", id), ("type", Str("result")), ("success", Bool(false)), ("error", error)];
      Get(fields, "id") == Some(id) && Get(fields, "type") == Some(Str("result")) &&
      Get(fields, "success") == Some(Bool(false)) && Get(fields, "error") == Some(error)
  {
    var fields := [("id", id), ("type", Str("result")), ("success", Bool(false)), ("error", error)];
    var f1 := [("type", Str("result")), ("success", Bool(false)), ("error", error)];
    var f2 := [("success", Bool(false)), ("error", error)];
    var f3 := [("error", error)];
    assert fields[1..] == f1 && f1[1..] == f2 && f2[1..] == f3;
    assert |"id"| == 2 && |"type"| == 4 && |"success"| == 7 && |"error"| == 5;
    assert Get(f3, "error") == Some(error);
    assert Get(f2, "error") == Get(f3, "error");
    assert Get(f1, "error") == Get(f2, "error") && Get(f1, "success") == Get(f2, "success");
    assert Get(fields, "error") == Get(f1, "error") && Get(fields, "success") == Get(f1, "success");
    assert Get(fields, "type") == Get(f1, "type");
  }
}
