/**
 * The decision `filter_client_message` takes on a decoded client message
 * (ha_api_limiter/ws_filter.py:270-400), the requests it starts tracking,
 * and the ids it reads from a service call's targets
 * (ha_api_limiter/ws_filter.py:168-210).
 */
module WsClient {
  import opened Wrappers
  import opened Strings
  import opened Json
  import opened Glob
  import opened Config
  import opened WsRules

  /** The string members of a list, in order; other members are skipped. */
  function StrMembers(items: seq<Json>): seq<string>
    decreases |items|
  {
    if items == [] then []
    else
      var last := items[|items| - 1];
      StrMembers(items[..|items| - 1]) + (if last.Str? then [last.s] else [])
  }

  lemma {:induction false} StrMembersExact(items: seq<Json>, x: string)
    ensures x in StrMembers(items) <==> Str(x) in items
    decreases |items|
  {
    if items != [] {
      var init := items[..|items| - 1];
      StrMembersExact(init, x);
      assert items == init + [items[|items| - 1]];
    }
  }

  /** The ids a value yields: a string is one id, a list its string members, anything else none. */
  function IdsOf(v: Option<Json>): seq<string> {
    match v
    case Some(Str(s)) => [s]
    case Some(Arr(items)) => StrMembers(items)
    case _ => []
  }

  /** The containers searched, in order. */
  const TargetFields: seq<string> := ["service_data", "target"]

  /** The ids under `key` in `data[field]` when that is a dict (a missing field counts as `{}`). */
  function ContainerIds(data: Json, field: string, key: string): seq<string>
    requires data.Obj?
  {
    var container := FieldOr(data, field, Obj([]));
    if container.Obj? then IdsOf(Get(container.fields, key)) else []
  }

  /** The ids gathered from the listed containers, container by container. */
  function IdsFromFields(data: Json, fields: seq<string>, key: string): seq<string>
    requires data.Obj?
    decreases |fields|
  {
    if fields == [] then []
    else IdsFromFields(data, fields[..|fields| - 1], key) + ContainerIds(data, fields[|fields| - 1], key)
  }

  /** One of the three lists `_extract_ids_from_target` returns. */
  function TargetIds(data: Json, key: string): seq<string>
    requires data.Obj?
  {
    IdsFromFields(data, TargetFields, key)
  }

  /** `data[field]` is a dict naming `x` under `key`, as a string or as a member of a list. */
  predicate NamedIn(data: Json, field: string, key: string, x: string)
    requires data.Obj?
  {
    var c := FieldOr(data, field, Obj([]));
    c.Obj? &&
    var v := Get(c.fields, key);
    v == Some(Str(x)) || (v.Some? && v.value.Arr? && Str(x) in v.value.items)
  }

  lemma ContainerIdsExact(data: Json, field: string, key: string, x: string)
    requires data.Obj?
    ensures x in ContainerIds(data, field, key) <==> NamedIn(data, field, key, x)
  {
    var c := FieldOr(data, field, Obj([]));
    if c.Obj? {
      var v := Get(c.fields, key);
      if v.Some? && v.value.Arr? {
        StrMembersExact(v.value.items, x);
      }
    }
  }

  /**
   * An id is extracted exactly when `service_data` or `target` is a dict
   * naming it under the key, directly or in a list.
   */
  lemma TargetIdsExact(data: Json, key: string, x: string)
    requires data.Obj?
    ensures x in TargetIds(data, key) <==> NamedIn(data, "service_data", key, x) || NamedIn(data, "target", key, x)
  {
    TargetIdsSplit(data, key);
    ContainerIdsExact(data, "service_data", key, x);
    ContainerIdsExact(data, "target", key, x);
  }

  /** `service_data` is searched before `target`. */
  lemma TargetIdsSplit(data: Json, key: string)
    requires data.Obj?
    ensures TargetIds(data, key) == ContainerIds(data, "service_data", key) + ContainerIds(data, "target", key)
  {
    assert TargetFields[..1] == ["service_data"];
    assert ["service_data"][..0] == [];
  }

  /** The ids no pattern matches, in order (the `blocked_*` comprehensions). */
  function Unmatched(ids: seq<string>, patterns: seq<string>): (r: seq<string>)
    ensures forall x :: x in r <==> x in ids && !AnyMatch(patterns, x)
    decreases |ids|
  {
    if ids == [] then []
    else (if AnyMatch(patterns, ids[0]) then [] else [ids[0]]) + Unmatched(ids[1..], patterns)
  }

  /** The refused id a message names is the first id in order that no pattern matches. */
  lemma {:induction false} FirstUnmatched(ids: seq<string>, patterns: seq<string>)
    requires Unmatched(ids, patterns) != []
    ensures exists k | 0 <= k < |ids| ::
      ids[k] == Unmatched(ids, patterns)[0] && !AnyMatch(patterns, ids[k]) &&
      forall j | 0 <= j < k :: AnyMatch(patterns, ids[j])
    decreases |ids|
  {
    if AnyMatch(patterns, ids[0]) {
      FirstUnmatched(ids[1..], patterns);
      var k :| 0 <= k < |ids[1..]| && ids[1..][k] == Unmatched(ids[1..], patterns)[0] &&
        !AnyMatch(patterns, ids[1..][k]) && forall j | 0 <= j < k :: AnyMatch(patterns, ids[1..][j]);
      assert ids[k + 1] == ids[1..][k];
      forall j | 0 <= j < k + 1
        ensures AnyMatch(patterns, ids[j])
      {
        if j > 0 {
          assert ids[j] == ids[1..][j - 1];
        }
      }
    } else {
      assert ids[0] == Unmatched(ids, patterns)[0];
    }
  }

  /** The outcome of a client message: forwarded, or refused with a reason. */
  datatype Verdict = Pass | Refuse(message: string)

  /**
   * The decoded messages `filter_client_message` handles without raising:
   * a dict whose type is a string or a hashable false value, whose tracked
   * id is hashable, whose subscribed event type is hashable, and whose
   * service call names hashable domain and service values.
   */
  predicate WellFormedClientMessage(data: Json) {
    data.Obj? &&
    var t := Field(data, "type");
    (t.Str? || (Hashable(t) && !Truthy(t))) &&
    (t == Str("subscribe_events") ==> Hashable(Field(data, "event_type"))) &&
    (t.Str? && (t.s in TrackedTypes || t.s in EntitySubscriptionTypes) ==> Hashable(Field(data, "id"))) &&
    (t == Str("call_service") ==>
      Hashable(FieldOr(data, "domain", Str(""))) && Hashable(FieldOr(data, "service", Str(""))))
  }

  /** The checks made before any request is tracked: the message type, then `subscribe_events`. */
  function TypeVerdict(w: Whitelist, data: Json): Verdict
    requires WellFormedClientMessage(data)
  {
    var t := Field(data, "type");
    if Truthy(t) && IsMessageTypeBlocked(w, t.s) then Refuse("Message type not allowed: " + t.s)
    else if t == Str("subscribe_events") then
      var eventType := Field(data, "event_type");
      if eventType == Null then Refuse("subscribe_events requires event_type parameter")
      else if !IsEventTypeAllowed(w, eventType) then Refuse("Event type not allowed: " + PyStr(eventType))
      else Pass
    else Pass
  }

  /** The checks made on a `call_service` message, in order. */
  function ServiceVerdict(w: Whitelist, data: Json): Verdict
    requires WellFormedClientMessage(data)
  {
    if Field(data, "type") != Str("call_service") then Pass
    else
      var domain := FieldOr(data, "domain", Str(""));
      var service := FieldOr(data, "service", Str(""));
      if IsServiceBlocked(w, domain, service) then
        Refuse("Service not allowed: " + ServiceName(domain, service))
      else
        var entities := TargetIds(data, "entity_id");
        var devices := TargetIds(data, "device_id");
        var areas := TargetIds(data, "area_id");
        var badEntities := Unmatched(entities, w.entities);
        var badDevices := Unmatched(devices, w.devices);
        var badAreas := Unmatched(areas, w.areas);
        if badEntities != [] then Refuse("Entity not in whitelist: " + badEntities[0])
        else if badDevices != [] then Refuse("Device not in whitelist: " + badDevices[0])
        else if badAreas != [] then Refuse("Area not in whitelist: " + badAreas[0])
        else if domain.Str? && domain.s in EntityControlledDomains && entities == [] && devices == [] && areas == [] then
          Refuse("Service " + ServiceName(domain, service) + " requires explicit targets")
        else Pass
  }

  /** The verdict of `filter_client_message` on a decoded message. */
  function ClientVerdict(w: Whitelist, data: Json): Verdict
    requires WellFormedClientMessage(data)
  {
    var early := TypeVerdict(w, data);
    if early.Refuse? then early else ServiceVerdict(w, data)
  }

  /** The pending requests after a message that passed the type checks. */
  function TrackedRequests(pending: map<Json, string>, data: Json): map<Json, string>
    requires data.Obj?
  {
    var t := Field(data, "type");
    var id := Field(data, "id");
    if t.Str? && t.s in TrackedTypes && id != Null then pending[id := t.s] else pending
  }

  /** The entity subscriptions after a message that passed the type checks. */
  function TrackedSubscriptions(subscriptions: set<Json>, data: Json): set<Json>
    requires data.Obj?
  {
    var t := Field(data, "type");
    var id := Field(data, "id");
    if t.Str? && t.s in EntitySubscriptionTypes && id != Null then subscriptions + {id} else subscriptions
  }

  /** A type starting otherwise than every blocking pattern matches none of them. */
  lemma OtherInitialMatchesNoPattern(t: string)
    requires |t| > 1 && t[0] != 'h' && t[0] != 'b' && t[0] != 'a' && (t[0] != 'c' || t[1] != 'o')
    ensures !BlockedByPattern(t)
  {
    BlockedPatternsSpelledOut(t);
    if t[0] == 'c' {
      DiffersAt(t, "config/automation/", 1);
      DiffersAt(t, "config/script/", 1);
      DiffersAt(t, "config/scene/", 1);
      DiffersAt(t, "config_entries/", 1);
    } else {
      DiffersAt(t, "config/automation/", 0);
      DiffersAt(t, "config/script/", 0);
      DiffersAt(t, "config/scene/", 0);
      DiffersAt(t, "config_entries/", 0);
    }
    DiffersAt(t, "hassio/", 0);
    DiffersAt(t, "backup/", 0);
    DiffersAt(t, "auth/refresh_token", 0);
    DiffersAt(t, "auth/delete_refresh_token", 0);
  }

  /** A `config/` type outside the automation, script and scene families matches no pattern. */
  lemma ConfigRegistryMatchesNoPattern(t: string)
    requires StartsWith(t, "config/") && |t| > 8 && t[7] != 's' && (t[7] != 'a' || t[8] != 'u')
    ensures !BlockedByPattern(t)
  {
    BlockedPatternsSpelledOut(t);
    assert t[6] == "config/"[6];
    DiffersAt(t, "config_entries/", 6);
    if t[7] == 'a' {
      DiffersAt(t, "config/automation/", 8);
    } else {
      DiffersAt(t, "config/automation/", 7);
    }
    DiffersAt(t, "config/script/", 7);
    DiffersAt(t, "config/scene/", 7);
    DiffersAt(t, "hassio/", 0);
    DiffersAt(t, "backup/", 0);
    DiffersAt(t, "auth/refresh_token", 0);
    DiffersAt(t, "auth/delete_refresh_token", 0);
  }

  /** The request and subscription types the filter tracks, and `call_service`, are never blocked. */
  lemma TrackedTypesNeverBlocked(w: Whitelist, t: string)
    requires t in TrackedTypes || t in EntitySubscriptionTypes || t == "subscribe_events" || t == "call_service"
    ensures !IsMessageTypeBlocked(w, t)
  {
    MessageTypeBlockedIff(w, t);
    if t in {"config/entity_registry/list", "config/entity_registry/list_for_display",
             "config/device_registry/list", "config/area_registry/list", "config/floor_registry/list"} {
      assert t[..7] == "config/";
      ConfigRegistryMatchesNoPattern(t);
    } else {
      OtherInitialMatchesNoPattern(t);
    }
  }

  /** A message whose type is a false value (missing, `null`, empty) passes and is not tracked. */
  lemma UntypedMessagePasses(w: Whitelist, data: Json, pending: map<Json, string>, subscriptions: set<Json>)
    requires WellFormedClientMessage(data) && !Truthy(Field(data, "type"))
    ensures ClientVerdict(w, data) == Pass
    ensures TrackedRequests(pending, data) == pending
    ensures TrackedSubscriptions(subscriptions, data) == subscriptions
  {
    assert "" !in TrackedTypes;
  }

  /** A non-empty blocked type is refused before anything else is looked at. */
  lemma BlockedTypeRefused(w: Whitelist, data: Json, t: string)
    requires WellFormedClientMessage(data) && Field(data, "type") == Str(t)
    requires t != "" && IsMessageTypeBlocked(w, t)
    ensures ClientVerdict(w, data) == Refuse("Message type not allowed: " + t)
  {
  }

  /**
   * `subscribe_events` passes exactly when it names an event type and that
   * type is a built-in or user-allowed one.
   */
  lemma SubscribeEventsRule(w: Whitelist, data: Json)
    requires WellFormedClientMessage(data) && Field(data, "type") == Str("subscribe_events")
    ensures ClientVerdict(w, data).Pass? <==>
      Field(data, "event_type") != Null && IsEventTypeAllowed(w, Field(data, "event_type"))
    ensures Field(data, "event_type") == Null ==>
      ClientVerdict(w, data) == Refuse("subscribe_events requires event_type parameter")
  {
    TrackedTypesNeverBlocked(w, "subscribe_events");
  }

  /** A list-request or `subscribe_entities` message always passes. */
  lemma TrackedRequestPasses(w: Whitelist, data: Json)
    requires WellFormedClientMessage(data)
    requires Field(data, "type").Str? &&
      (Field(data, "type").s in TrackedTypes || Field(data, "type").s in EntitySubscriptionTypes)
    ensures ClientVerdict(w, data) == Pass
  {
    var t := Field(data, "type").s;
    TrackedTypesNeverBlocked(w, t);
    TrackedTypeNotSpecial(t);
    assert TypeVerdict(w, data) == Pass;
    assert ServiceVerdict(w, data) == Pass;
  }

  /** No tracked type is one of the two types with checks of their own. */
  lemma TrackedTypeNotSpecial(t: string)
    requires t in TrackedTypes || t in EntitySubscriptionTypes
    ensures t != "subscribe_events" && t != "call_service"
  {
    if t == "subscribe_entities" {
      assert t[11] != "subscribe_events"[11];
    } else if t == "get_states" {
      assert t[0] != "subscribe_events"[0] && t[0] != "call_service"[0];
    } else {
      assert t[..7] == "config/";
      assert t[0] == t[..7][0] == 'c' && t[1] == t[..7][1] == 'o';
      assert t[1] != "call_service"[1] && t[0] != "subscribe_events"[0];
    }
  }

  /**
   * A `call_service` message passes exactly when the service is not
   * blocked, every entity, device and area it targets is allowed, and it
   * names a target whenever its domain controls entities.
   */
  lemma ServiceCallRule(w: Whitelist, data: Json)
    requires WellFormedClientMessage(data) && Field(data, "type") == Str("call_service")
    ensures
      var domain := FieldOr(data, "domain", Str(""));
      var service := FieldOr(data, "service", Str(""));
      var entities := TargetIds(data, "entity_id");
      var devices := TargetIds(data, "device_id");
      var areas := TargetIds(data, "area_id");
      ClientVerdict(w, data).Pass? <==>
        !IsServiceBlocked(w, domain, service) &&
        (forall e | e in entities :: AnyMatch(w.entities, e)) &&
        (forall d | d in devices :: AnyMatch(w.devices, d)) &&
        (forall a | a in areas :: AnyMatch(w.areas, a)) &&
        !(domain.Str? && domain.s in EntityControlledDomains && entities == [] && devices == [] && areas == [])
  {
    CallServiceSkipsTypeChecks(w, data);
    UnmatchedEmptyIff(TargetIds(data, "entity_id"), w.entities);
    UnmatchedEmptyIff(TargetIds(data, "device_id"), w.devices);
    UnmatchedEmptyIff(TargetIds(data, "area_id"), w.areas);
  }

  /** A `call_service` message passes the type checks: only the service checks decide it. */
  lemma CallServiceSkipsTypeChecks(w: Whitelist, data: Json)
    requires WellFormedClientMessage(data) && Field(data, "type") == Str("call_service")
    ensures ClientVerdict(w, data) == ServiceVerdict(w, data)
  {
    TrackedTypesNeverBlocked(w, "call_service");
  }

  lemma UnmatchedEmptyIff(ids: seq<string>, patterns: seq<string>)
    ensures Unmatched(ids, patterns) == [] <==> forall x | x in ids :: AnyMatch(patterns, x)
  {
    if Unmatched(ids, patterns) != [] {
      assert Unmatched(ids, patterns)[0] in Unmatched(ids, patterns);
    }
  }

  /**
   * Entities are checked before devices and devices before areas, and the
   * refusal names the first offender of the first failing kind.
   */
  lemma TargetRefusalOrder(w: Whitelist, data: Json)
    requires WellFormedClientMessage(data) && Field(data, "type") == Str("call_service")
    requires !IsServiceBlocked(w, FieldOr(data, "domain", Str("")), FieldOr(data, "service", Str("")))
    ensures
      var badEntities := Unmatched(TargetIds(data, "entity_id"), w.entities);
      var badDevices := Unmatched(TargetIds(data, "device_id"), w.devices);
      var badAreas := Unmatched(TargetIds(data, "area_id"), w.areas);
      (badEntities != [] ==> ClientVerdict(w, data) == Refuse("Entity not in whitelist: " + badEntities[0])) &&
      (badEntities == [] && badDevices != [] ==>
        ClientVerdict(w, data) == Refuse("Device not in whitelist: " + badDevices[0])) &&
      (badEntities == [] && badDevices == [] && badAreas != [] ==>
        ClientVerdict(w, data) == Refuse("Area not in whitelist: " + badAreas[0]))
  {
    CallServiceSkipsTypeChecks(w, data);
  }
}
