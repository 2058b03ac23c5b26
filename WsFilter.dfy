/**
 * `WebSocketFilter` (ha_api_limiter/ws_filter.py:13-647): the filter one
 * WebSocket connection uses, with the requests whose results it still has
 * to filter and the entity subscriptions whose events it filters.
 *
 * Raw message text is given decoded: `None` stands for text that is not
 * JSON. The source's identity test on a filtered message is the
 * `Outcome` of `WsServer`.
 */
module WsFilter {
  import opened Wrappers
  import opened Strings
  import opened Json
  import opened Glob
  import opened Config
  import opened WsRules
  import opened WsClient
  import opened WsServer

  class WebSocketFilter {
    const whitelist: WhitelistConfig
    /** `_pending_requests`: request id to request type. */
    var pendingRequests: map<Json, string>
    /** `_entity_subscriptions`: ids of `subscribe_entities` requests. */
    var entitySubscriptions: set<Json>

    constructor(whitelist: WhitelistConfig)
      ensures this.whitelist == whitelist
      ensures pendingRequests == map[] && entitySubscriptions == {}
    {
      this.whitelist := whitelist;
      pendingRequests := map[];
      entitySubscriptions := {};
    }

    /** Appends the ids a value yields: a string, or the string members of a list. */
    static method AppendIds(acc: seq<string>, v: Option<Json>) returns (r: seq<string>)
      ensures r == acc + IdsOf(v)
    {
      r := acc;
      if v.Some? && v.value.Str? {
        r := r + [v.value.s];
      } else if v.Some? && v.value.Arr? {
        var items := v.value.items;
        for i := 0 to |items|
          invariant r == acc + StrMembers(items[..i])
        {
          assert items[..i + 1][..i] == items[..i];
          if items[i].Str? {
            r := r + [items[i].s];
          }
        }
        assert items[..|items|] == items;
      }
    }

    /**
     * `_extract_ids_from_target`: the entity, device and area ids of
     * `service_data`, then of `target`.
     */
    method ExtractIdsFromTarget(data: Json) returns (entities: seq<string>, devices: seq<string>, areas: seq<string>)
      requires data.Obj?
      ensures entities == TargetIds(data, "entity_id")
      ensures devices == TargetIds(data, "device_id")
      ensures areas == TargetIds(data, "area_id")
    {
      entities, devices, areas := [], [], [];
      for f := 0 to |TargetFields|
        invariant entities == IdsFromFields(data, TargetFields[..f], "entity_id")
        invariant devices == IdsFromFields(data, TargetFields[..f], "device_id")
        invariant areas == IdsFromFields(data, TargetFields[..f], "area_id")
      {
        assert TargetFields[..f + 1][..f] == TargetFields[..f];
        var container := FieldOr(data, TargetFields[f], Obj([]));
        if container.Obj? {
          entities := AppendIds(entities, Get(container.fields, "entity_id"));
          devices := AppendIds(devices, Get(container.fields, "device_id"));
          areas := AppendIds(areas, Get(container.fields, "area_id"));
        }
      }
      assert TargetFields[..|TargetFields|] == TargetFields;
    }

    /** The message-type and `subscribe_events` checks of `filter_client_message`. */
    method ScreenMessageType(data: Json) returns (v: Verdict)
      requires WellFormedClientMessage(data)
      ensures v == TypeVerdict(whitelist.View(), data)
    {
      var w := whitelist.View();
      var msgType := Field(data, "type");
      if Truthy(msgType) && IsMessageTypeBlocked(w, msgType.s) {
        return Refuse("Message type not allowed: " + msgType.s);
      }
      if msgType == Str("subscribe_events") {
        var eventType := Field(data, "event_type");
        if eventType == Null {
          return Refuse("subscribe_events requires event_type parameter");
        }
        if !IsEventTypeAllowed(w, eventType) {
          return Refuse("Event type not allowed: " + PyStr(eventType));
        }
      }
      return Pass;
    }

    /** The tracking step of `filter_client_message`: list requests and entity subscriptions by id. */
    method Track(data: Json)
      requires WellFormedClientMessage(data)
      modifies this
      ensures pendingRequests == TrackedRequests(old(pendingRequests), data)
      ensures entitySubscriptions == TrackedSubscriptions(old(entitySubscriptions), data)
    {
      var msgType := Field(data, "type");
      var msgId := Field(data, "id");
      if msgType.Str? && msgType.s in EntityListTypes && msgId != Null {
        pendingRequests := pendingRequests[msgId := msgType.s];
      }
      if msgType.Str? && msgType.s in DeviceListTypes && msgId != Null {
        pendingRequests := pendingRequests[msgId := msgType.s];
      }
      if msgType.Str? && msgType.s in AreaListTypes && msgId != Null {
        pendingRequests := pendingRequests[msgId := msgType.s];
      }
      if msgType.Str? && msgType.s in FloorListTypes && msgId != Null {
        pendingRequests := pendingRequests[msgId := msgType.s];
      }
      if msgType.Str? && msgType.s in EntitySubscriptionTypes && msgId != Null {
        entitySubscriptions := entitySubscriptions + {msgId};
      }
    }

    /** The `call_service` checks of `filter_client_message`, in order. */
    method CheckServiceCall(data: Json) returns (v: Verdict)
      requires WellFormedClientMessage(data)
      ensures v == ServiceVerdict(whitelist.View(), data)
    {
      var w := whitelist.View();
      if Field(data, "type") != Str("call_service") {
        return Pass;
      }
      var domain := FieldOr(data, "domain", Str(""));
      var service := FieldOr(data, "service", Str(""));
      if IsServiceBlocked(w, domain, service) {
        return Refuse("Service not allowed: " + ServiceName(domain, service));
      }

      var entities, devices, areas := ExtractIdsFromTarget(data);

      var blockedEntities := Unmatched(entities, w.entities);
      if blockedEntities != [] {
        return Refuse("Entity not in whitelist: " + blockedEntities[0]);
      }
      var blockedDevices := Unmatched(devices, w.devices);
      if blockedDevices != [] {
        return Refuse("Device not in whitelist: " + blockedDevices[0]);
      }
      var blockedAreas := Unmatched(areas, w.areas);
      if blockedAreas != [] {
        return Refuse("Area not in whitelist: " + blockedAreas[0]);
      }

      if domain.Str? && domain.s in EntityControlledDomains {
        if entities == [] && devices == [] && areas == [] {
          return Refuse("Service " + ServiceName(domain, service) + " requires explicit targets");
        }
      }
      return Pass;
    }

    /**
     * `filter_client_message`: the verdict and the error object for a
     * refused message. A message that passes the type checks has its
     * request or subscription tracked; a refused one changes nothing.
     */
    method FilterClientMessage(message: Option<Json>) returns (allowed: bool, error: Option<Json>)
      requires message.Some? ==> WellFormedClientMessage(message.value)
      modifies this
      ensures message.None? ==>
        allowed && error.None? &&
        pendingRequests == old(pendingRequests) && entitySubscriptions == old(entitySubscriptions)
      ensures message.Some? ==>
        var v := ClientVerdict(whitelist.View(), message.value);
        allowed == v.Pass? &&
        error == (if v.Pass? then None else Some(ErrorResponse(Field(message.value, "id"), v.message)))
      ensures message.Some? && TypeVerdict(whitelist.View(), message.value).Pass? ==>
        pendingRequests == TrackedRequests(old(pendingRequests), message.value) &&
        entitySubscriptions == TrackedSubscriptions(old(entitySubscriptions), message.value)
      ensures message.Some? && TypeVerdict(whitelist.View(), message.value).Refuse? ==>
        pendingRequests == old(pendingRequests) && entitySubscriptions == old(entitySubscriptions)
    {
      if message.None? {
        return true, None;
      }
      var data := message.value;
      var msgId := Field(data, "id");
      var early := ScreenMessageType(data);
      if early.Refuse? {
        return false, Some(ErrorResponse(msgId, early.message));
      }
      Track(data);
      var late := CheckServiceCall(data);
      if late.Refuse? {
        return false, Some(ErrorResponse(msgId, late.message));
      }
      return true, None;
    }

    /**
     * The loop shared by `_filter_entity_list`, `_filter_device_list` and
     * `_filter_area_list`: the dict items whose id under `key` is allowed.
     */
    static method FilterRegistryList(result: seq<Json>, key: string, patterns: seq<string>) returns (filtered: seq<Json>)
      ensures filtered == KeepAllowed(result, key, patterns)
    {
      filtered := [];
      for i := 0 to |result|
        invariant filtered == KeepAllowed(result[..i], key, patterns)
      {
        assert result[..i + 1][..i] == result[..i];
        var item := result[i];
        if item.Obj? {
          var id := Get(item.fields, key);
          if id.Some? && id.value.Str? && id.value.s != "" {
            var ok := MatchesAny(patterns, id.value.s);
            if ok {
              filtered := filtered + [item];
            }
          }
        }
      }
      assert result[..|result|] == result;
    }

    /**
     * `_filter_single_message`: a result for a pending request is popped
     * and its list filtered; events are filtered by subscription or by
     * entity. The subscriptions do not change.
     */
    method FilterSingleMessage(data: Json) returns (o: Outcome)
      requires WellFormedServerMessage(data, entitySubscriptions)
      modifies this
      ensures entitySubscriptions == old(entitySubscriptions)
      ensures (o, pendingRequests) == FilterSingle(whitelist.View(), old(pendingRequests), entitySubscriptions, data)
    {
      var w := whitelist.View();
      var msgType := Field(data, "type");
      var msgId := Field(data, "id");

      if msgType == Str("result") && msgId in pendingRequests {
        var requestType := pendingRequests[msgId];
        pendingRequests := pendingRequests - {msgId};
        var result := Field(data, "result");
        if result.Arr? {
          var filtered;
          if requestType in DeviceListTypes {
            filtered := FilterRegistryList(result.items, "id", w.devices);
          } else if requestType in AreaListTypes {
            filtered := FilterRegistryList(result.items, "area_id", w.areas);
          } else if requestType in FloorListTypes {
            filtered := FloorList(w, result.items);
          } else {
            filtered := FilterRegistryList(result.items, "entity_id", w.entities);
          }
          return Replace(Obj(SetField(data.fields, "result", Arr(filtered))));
        }
        return Keep;
      }

      if msgType != Str("event") {
        return Keep;
      }

      var event := FieldOr(data, "event", Obj([]));
      if msgId in entitySubscriptions {
        if HasSection(event) {
          var filteredEvent := FilteredSubscriptionEvent(w, event.fields);
          if filteredEvent.None? {
            return Drop;
          }
          return Replace(Obj(SetField(data.fields, "event", filteredEvent.value)));
        }
        return Keep;
      }

      if Get(event.fields, "event_type") != Some(Str("state_changed")) {
        return Keep;
      }
      var entityId := Field(FieldOr(event, "data", Obj([])), "entity_id");
      if !Truthy(entityId) {
        return Keep;
      }
      if entityId.Str? {
        var ok := whitelist.IsEntityAllowed(entityId.s);
        if ok {
          return Keep;
        }
      }
      return Drop;
    }

    /**
     * `filter_server_message`: a batch is filtered message by message and
     * sent on as received unless something was dropped or rewritten.
     */
    method FilterServerMessage(message: Option<Json>) returns (out: Forwarded)
      requires message.Some? ==> WellFormedServerInput(message.value, entitySubscriptions)
      modifies this
      ensures entitySubscriptions == old(entitySubscriptions)
      ensures (out, pendingRequests) == ServerOutcome(whitelist.View(), old(pendingRequests), entitySubscriptions, message)
    {
      if message.None? {
        return Original;
      }
      var data := message.value;
      if data.Arr? {
        var msgs := data.items;
        var filtered: seq<Json> := [];
        var modified := false;
        for i := 0 to |msgs|
          invariant entitySubscriptions == old(entitySubscriptions)
          invariant BatchState(filtered, modified, pendingRequests) ==
            FilterBatch(whitelist.View(), old(pendingRequests), entitySubscriptions, msgs[..i])
        {
          assert msgs[..i + 1][..i] == msgs[..i];
          var result := FilterSingleMessage(msgs[i]);
          match result {
            case Drop =>
              modified := true;
            case Replace(m) =>
              filtered := filtered + [m];
              modified := true;
            case Keep =>
              filtered := filtered + [msgs[i]];
          }
        }
        assert msgs[..|msgs|] == msgs;
        if filtered == [] {
          return Dropped;
        }
        if !modified {
          return Original;
        }
        return Rewritten(Arr(filtered));
      }

      var result := FilterSingleMessage(data);
      match result {
        case Drop => return Dropped;
        case Replace(m) => return Rewritten(m);
        case Keep => return Original;
      }
    }
  }
}
