/**
 * How `WebSocketFilter` treats messages from Home Assistant
 * (ha_api_limiter/ws_filter.py:402-647): registry and state lists sent in
 * answer to a tracked request keep only the allowed items, entity
 * subscription events keep only allowed entities, `state_changed` events
 * for other entities are dropped, and a batch is rewritten only when one of
 * its messages was.
 */
module WsServer {
  import opened Wrappers
  import opened Strings
  import opened Json
  import opened Glob
  import opened Config
  import opened WsRules

  /**
   * A list item the registry filters keep: a dict whose id under `key` is
   * a non-empty string some pattern matches. An id that is not a string
   * counts as not allowed.
   */
  predicate ItemAllowed(item: Json, key: string, patterns: seq<string>) {
    item.Obj? &&
    var id := Get(item.fields, key);
    id.Some? && id.value.Str? && id.value.s != "" && AnyMatch(patterns, id.value.s)
  }

  /** `_filter_entity_list`, `_filter_device_list`, `_filter_area_list`: the kept items, in order. */
  function KeepAllowed(items: seq<Json>, key: string, patterns: seq<string>): seq<Json>
    decreases |items|
  {
    if items == [] then []
    else
      var last := items[|items| - 1];
      KeepAllowed(items[..|items| - 1], key, patterns) + (if ItemAllowed(last, key, patterns) then [last] else [])
  }

  /** An item is kept exactly when it is in the list and allowed. */
  lemma {:induction false} KeepAllowedExact(items: seq<Json>, key: string, patterns: seq<string>, x: Json)
    ensures x in KeepAllowed(items, key, patterns) <==> x in items && ItemAllowed(x, key, patterns)
    decreases |items|
  {
    if items != [] {
      var init := items[..|items| - 1];
      KeepAllowedExact(init, key, patterns, x);
      assert items == init + [items[|items| - 1]];
    }
  }

  /** Filtering works item by item: the filtered concatenation is the concatenation of the filtered parts, so order is kept. */
  lemma {:induction false} KeepAllowedAppend(a: seq<Json>, b: seq<Json>, key: string, patterns: seq<string>)
    ensures KeepAllowed(a + b, key, patterns) == KeepAllowed(a, key, patterns) + KeepAllowed(b, key, patterns)
    decreases |b|
  {
    if b == [] {
      assert a + b == a;
    } else {
      var init := b[..|b| - 1];
      KeepAllowedAppend(a, init, key, patterns);
      assert (a + b)[..|a + b| - 1] == a + init;
    }
  }

  /** Filtering a filtered list changes nothing. */
  lemma {:induction false} KeepAllowedIdempotent(items: seq<Json>, key: string, patterns: seq<string>)
    ensures KeepAllowed(KeepAllowed(items, key, patterns), key, patterns) == KeepAllowed(items, key, patterns)
    decreases |items|
  {
    if items != [] {
      var init := items[..|items| - 1];
      var last := items[|items| - 1];
      KeepAllowedIdempotent(init, key, patterns);
      var tail := if ItemAllowed(last, key, patterns) then [last] else [];
      KeepAllowedAppend(KeepAllowed(init, key, patterns), tail, key, patterns);
      if tail != [] {
        assert tail[..0] == [];
      }
    }
  }

  /** `_filter_floor_list`: nothing when no area is whitelisted, else the list as it came. */
  function FloorList(w: Whitelist, items: seq<Json>): seq<Json> {
    if w.areas == [] then [] else items
  }

  /** A floor list comes back empty exactly when no area is whitelisted (or it was empty). */
  lemma FloorListRule(w: Whitelist, items: seq<Json>)
    ensures FloorList(w, items) == [] <==> w.areas == [] || items == []
    ensures w.areas != [] ==> FloorList(w, items) == items
  {
  }

  /** The dispatch of `_filter_single_message` on the tracked request's type. */
  function ResultList(w: Whitelist, requestType: string, items: seq<Json>): seq<Json> {
    if requestType in DeviceListTypes then KeepAllowed(items, "id", w.devices)
    else if requestType in AreaListTypes then KeepAllowed(items, "area_id", w.areas)
    else if requestType in FloorListTypes then FloorList(w, items)
    else KeepAllowed(items, "entity_id", w.entities)
  }

  /** Each kind of tracked request has its list filtered on its own id and patterns. */
  lemma ResultListByKind(w: Whitelist, requestType: string, items: seq<Json>)
    ensures requestType in EntityListTypes ==> ResultList(w, requestType, items) == KeepAllowed(items, "entity_id", w.entities)
    ensures requestType in DeviceListTypes ==> ResultList(w, requestType, items) == KeepAllowed(items, "id", w.devices)
    ensures requestType in AreaListTypes ==> ResultList(w, requestType, items) == KeepAllowed(items, "area_id", w.areas)
    ensures requestType in FloorListTypes ==> ResultList(w, requestType, items) == FloorList(w, items)
  {
  }

  /** The members of a state dict whose entity id some pattern matches, in order. */
  function KeepAllowedKeys(fields: seq<(string, Json)>, patterns: seq<string>): seq<(string, Json)>
    decreases |fields|
  {
    if fields == [] then []
    else
      var last := fields[|fields| - 1];
      KeepAllowedKeys(fields[..|fields| - 1], patterns) + (if AnyMatch(patterns, last.0) then [last] else [])
  }

  lemma {:induction false} KeepAllowedKeysExact(fields: seq<(string, Json)>, patterns: seq<string>, p: (string, Json))
    ensures p in KeepAllowedKeys(fields, patterns) <==> p in fields && AnyMatch(patterns, p.0)
    decreases |fields|
  {
    if fields != [] {
      var init := fields[..|fields| - 1];
      KeepAllowedKeysExact(init, patterns, p);
      assert fields == init + [fields[|fields| - 1]];
    }
  }

  /** The removed ids some pattern matches, in order; an id that is not a string counts as not allowed. */
  function KeepAllowedIds(ids: seq<Json>, patterns: seq<string>): seq<Json>
    decreases |ids|
  {
    if ids == [] then []
    else
      var last := ids[|ids| - 1];
      KeepAllowedIds(ids[..|ids| - 1], patterns) + (if last.Str? && AnyMatch(patterns, last.s) then [last] else [])
  }

  lemma {:induction false} KeepAllowedIdsExact(ids: seq<Json>, patterns: seq<string>, x: Json)
    ensures x in KeepAllowedIds(ids, patterns) <==> x in ids && x.Str? && AnyMatch(patterns, x.s)
    decreases |ids|
  {
    if ids != [] {
      var init := ids[..|ids| - 1];
      KeepAllowedIdsExact(init, patterns, x);
      assert ids == init + [ids[|ids| - 1]];
    }
  }

  /** The filtered additions (`"a"`) or changes (`"c"`) of an event, when that section is a dict. */
  function StateSection(event: seq<(string, Json)>, key: string, patterns: seq<string>): seq<(string, Json)> {
    var v := Get(event, key);
    if v.Some? && v.value.Obj? then KeepAllowedKeys(v.value.fields, patterns) else []
  }

  /** The filtered removals (`"r"`) of an event, when that section is a list. */
  function RemovalSection(event: seq<(string, Json)>, patterns: seq<string>): seq<Json> {
    var v := Get(event, "r");
    if v.Some? && v.value.Arr? then KeepAllowedIds(v.value.items, patterns) else []
  }

  /** `_filter_subscribe_entities_event`: the non-empty filtered sections, or nothing. */
  function FilteredSubscriptionEvent(w: Whitelist, event: seq<(string, Json)>): Option<Json> {
    var a := StateSection(event, "a", w.entities);
    var c := StateSection(event, "c", w.entities);
    var r := RemovalSection(event, w.entities);
    var sections :=
      (if a != [] then [("a", Obj(a))] else []) +
      (if c != [] then [("c", Obj(c))] else []) +
      (if r != [] then [("r", Arr(r))] else []);
    if sections == [] then None else Some(Obj(sections))
  }

  /**
   * An entity subscription event is dropped exactly when no section keeps
   * an entity; otherwise it holds exactly the non-empty filtered sections.
   */
  lemma SubscriptionEventSections(w: Whitelist, event: seq<(string, Json)>)
    ensures
      var a := StateSection(event, "a", w.entities);
      var c := StateSection(event, "c", w.entities);
      var r := RemovalSection(event, w.entities);
      var out := FilteredSubscriptionEvent(w, event);
      (out.None? <==> a == [] && c == [] && r == []) &&
      (out.Some? ==>
        out.value.Obj? &&
        Get(out.value.fields, "a") == (if a == [] then None else Some(Obj(a))) &&
        Get(out.value.fields, "c") == (if c == [] then None else Some(Obj(c))) &&
        Get(out.value.fields, "r") == (if r == [] then None else Some(Arr(r))))
  {
    var a := StateSection(event, "a", w.entities);
    var c := StateSection(event, "c", w.entities);
    var r := RemovalSection(event, w.entities);
    SectionsLookup(a, c, r);
  }

  /** The sections `"a"`, `"c"` and `"r"`, each present only when non-empty, are found by their keys. */
  lemma SectionsLookup(a: seq<(string, Json)>, c: seq<(string, Json)>, r: seq<Json>)
    ensures
      var sa: seq<(string, Json)> := if a != [] then [("a", Obj(a))] else [];
      var sc: seq<(string, Json)> := if c != [] then [("c", Obj(c))] else [];
      var sr: seq<(string, Json)> := if r != [] then [("r", Arr(r))] else [];
      var sections := sa + sc + sr;
      (sections == [] <==> a == [] && c == [] && r == []) &&
      Get(sections, "a") == (if a == [] then None else Some(Obj(a))) &&
      Get(sections, "c") == (if c == [] then None else Some(Obj(c))) &&
      Get(sections, "r") == (if r == [] then None else Some(Arr(r)))
  {
    var sa: seq<(string, Json)> := if a != [] then [("a", Obj(a))] else [];
    var sc: seq<(string, Json)> := if c != [] then [("c", Obj(c))] else [];
    var sr: seq<(string, Json)> := if r != [] then [("r", Arr(r))] else [];
    assert sa + sc + sr == sa + (sc + sr);
    GetSkips(sc + sr, [], "a");
    assert sc + sr + [] == sc + sr;
    GetSkips(sa, sc + sr, "c");
    GetSkips(sr, [], "c");
    assert sr + [] == sr;
    GetSkips(sa + sc, sr, "r");
  }

  /**
   * In a dict section, a state is kept exactly when its entity is allowed;
   * in the removals, an id is kept exactly when it is an allowed string.
   */
  lemma SubscriptionSectionsExact(w: Whitelist, event: seq<(string, Json)>, key: string, p: (string, Json), x: Json)
    requires key == "a" || key == "c"
    ensures Get(event, key).Some? && Get(event, key).value.Obj? ==>
      (p in StateSection(event, key, w.entities) <==>
        p in Get(event, key).value.fields && AnyMatch(w.entities, p.0))
    ensures Get(event, "r").Some? && Get(event, "r").value.Arr? ==>
      (x in RemovalSection(event, w.entities) <==>
        x in Get(event, "r").value.items && x.Str? && AnyMatch(w.entities, x.s))
  {
    var v := Get(event, key);
    if v.Some? && v.value.Obj? {
      KeepAllowedKeysExact(v.value.fields, w.entities, p);
    }
    var r := Get(event, "r");
    if r.Some? && r.value.Arr? {
      KeepAllowedIdsExact(r.value.items, w.entities, x);
    }
  }

  /** What happens to one server message: forwarded as received, replaced by a filtered copy, or dropped. */
  datatype Outcome = Keep | Replace(message: Json) | Drop

  /**
   * Python's `key in event` on whatever was sent as the event: a key of a
   * dict, an element of a list, a substring of a string. Other values make
   * `in` raise, and `WellFormedServerMessage` keeps them out.
   */
  predicate InEvent(key: string, event: Json) {
    match event
    case Obj(fields) => Get(fields, key).Some?
    case Arr(items) => Str(key) in items
    case Str(s) => Contains(s, key)
    case _ => false
  }

  /** The test of ws_filter.py:578: the event names one of the sections `a`, `c` or `r`. */
  predicate HasSection(event: Json) {
    InEvent("a", event) || InEvent("c", event) || InEvent("r", event)
  }

  /**
   * The messages `_filter_single_message` handles without raising: a dict
   * whose id is hashable where it is looked up; for a subscription event,
   * an event that is a dict, or a list or string naming none of the
   * sections (those are forwarded unread); for any other event, an event
   * that is a dict whose `state_changed` data (when it is read) is a dict.
   */
  predicate WellFormedServerMessage(data: Json, subscriptions: set<Json>) {
    data.Obj? &&
    var t := Field(data, "type");
    var id := Field(data, "id");
    (t == Str("result") || t == Str("event") ==> Hashable(id)) &&
    (t == Str("event") ==>
      var event := FieldOr(data, "event", Obj([]));
      (id in subscriptions ==>
        event.Obj? || ((event.Arr? || event.Str?) && !HasSection(event))) &&
      (id !in subscriptions ==>
        event.Obj? &&
        (Get(event.fields, "event_type") == Some(Str("state_changed")) ==>
          FieldOr(event, "data", Obj([])).Obj?)))
  }

  /**
   * `_filter_single_message` with the pending requests it starts from:
   * the outcome and the pending requests after it.
   */
  function FilterSingle(w: Whitelist, pending: map<Json, string>, subscriptions: set<Json>, data: Json): (Outcome, map<Json, string>)
    requires WellFormedServerMessage(data, subscriptions)
  {
    var t := Field(data, "type");
    var id := Field(data, "id");
    if t == Str("result") && id in pending then
      var rest := pending - {id};
      var result := Field(data, "result");
      if result.Arr? then
        (Replace(Obj(SetField(data.fields, "result", Arr(ResultList(w, pending[id], result.items))))), rest)
      else
        (Keep, rest)
    else if t != Str("event") then
      (Keep, pending)
    else
      var event := FieldOr(data, "event", Obj([]));
      if id in subscriptions then
        if HasSection(event) then
          var filtered := FilteredSubscriptionEvent(w, event.fields);
          if filtered.None? then (Drop, pending)
          else (Replace(Obj(SetField(data.fields, "event", filtered.value))), pending)
        else
          (Keep, pending)
      else if Get(event.fields, "event_type") != Some(Str("state_changed")) then
        (Keep, pending)
      else
        var entityId := Field(FieldOr(event, "data", Obj([])), "entity_id");
        if !Truthy(entityId) then (Keep, pending)
        else if entityId.Str? && AnyMatch(w.entities, entityId.s) then (Keep, pending)
        else (Drop, pending)
  }

  /**
   * A result for a pending request removes that request, and is forwarded
   * as received unless its `result` is a list; a second result with the
   * same id is forwarded as received.
   */
  lemma TrackedResultHandledOnce(w: Whitelist, pending: map<Json, string>, subscriptions: set<Json>, data: Json)
    requires WellFormedServerMessage(data, subscriptions)
    requires Field(data, "type") == Str("result") && Field(data, "id") in pending
    ensures FilterSingle(w, pending, subscriptions, data).1 == pending - {Field(data, "id")}
    ensures !Field(data, "result").Arr? ==> FilterSingle(w, pending, subscriptions, data).0 == Keep
    ensures
      var after := FilterSingle(w, pending, subscriptions, data).1;
      FilterSingle(w, after, subscriptions, data) == (Keep, after)
  {
  }

  /**
   * A list result for a pending request is replaced by a copy whose
   * `result` is the filtered list for the request's kind; every other key
   * keeps its value.
   */
  lemma TrackedListResultFiltered(w: Whitelist, pending: map<Json, string>, subscriptions: set<Json>, data: Json)
    requires WellFormedServerMessage(data, subscriptions)
    requires Field(data, "type") == Str("result") && Field(data, "id") in pending
    requires Field(data, "result").Arr?
    ensures
      var o := FilterSingle(w, pending, subscriptions, data).0;
      o.Replace? && o.message.Obj? &&
      Get(o.message.fields, "result") ==
        Some(Arr(ResultList(w, pending[Field(data, "id")], Field(data, "result").items))) &&
      forall k | k != "result" :: Get(o.message.fields, k) == Get(data.fields, k)
  {
  }

  /** A message that is neither a tracked result nor an event is forwarded as received. */
  lemma OtherMessagesKept(w: Whitelist, pending: map<Json, string>, subscriptions: set<Json>, data: Json)
    requires WellFormedServerMessage(data, subscriptions)
    requires !(Field(data, "type") == Str("result") && Field(data, "id") in pending)
    requires Field(data, "type") != Str("event")
    ensures FilterSingle(w, pending, subscriptions, data) == (Keep, pending)
  {
  }

  /**
   * A `state_changed` event outside an entity subscription is dropped
   * exactly when it names an entity no pattern matches.
   */
  lemma StateChangedRule(w: Whitelist, pending: map<Json, string>, subscriptions: set<Json>, data: Json, e: string)
    requires WellFormedServerMessage(data, subscriptions)
    requires Field(data, "type") == Str("event") && Field(data, "id") !in subscriptions
    requires Get(FieldOr(data, "event", Obj([])).fields, "event_type") == Some(Str("state_changed"))
    requires Field(FieldOr(FieldOr(data, "event", Obj([])), "data", Obj([])), "entity_id") == Str(e) && e != ""
    ensures FilterSingle(w, pending, subscriptions, data).1 == pending
    ensures FilterSingle(w, pending, subscriptions, data).0 == Drop <==> !AnyMatch(w.entities, e)
    ensures FilterSingle(w, pending, subscriptions, data).0 != Drop ==> FilterSingle(w, pending, subscriptions, data).0 == Keep
  {
  }

  /**
   * An event of an entity subscription is dropped exactly when nothing of
   * it survives filtering, and otherwise carries the filtered event.
   */
  lemma SubscriptionEventRule(w: Whitelist, pending: map<Json, string>, subscriptions: set<Json>, data: Json)
    requires WellFormedServerMessage(data, subscriptions)
    requires Field(data, "type") == Str("event") && Field(data, "id") in subscriptions
    requires
      var event := FieldOr(data, "event", Obj([]));
      HasSection(event)
    ensures
      var event := FieldOr(data, "event", Obj([]));
      var o := FilterSingle(w, pending, subscriptions, data).0;
      (o == Drop <==> FilteredSubscriptionEvent(w, event.fields).None?) &&
      (o.Replace? ==>
        o.message.Obj? && Get(o.message.fields, "event") == FilteredSubscriptionEvent(w, event.fields))
    ensures FilterSingle(w, pending, subscriptions, data).1 == pending
  {
  }

  /**
   * An event of an entity subscription that names none of the sections is
   * forwarded as received, whether it is a dict, a list or a string.
   */
  lemma SubscriptionEventWithoutSectionKept(w: Whitelist, pending: map<Json, string>, subscriptions: set<Json>, data: Json)
    requires WellFormedServerMessage(data, subscriptions)
    requires Field(data, "type") == Str("event") && Field(data, "id") in subscriptions
    requires !HasSection(FieldOr(data, "event", Obj([])))
    ensures FilterSingle(w, pending, subscriptions, data) == (Keep, pending)
  {
  }

  /** Server messages only ever remove pending requests, and only a result removes its own id. */
  lemma SinglePendingShrinks(w: Whitelist, pending: map<Json, string>, subscriptions: set<Json>, data: Json)
    requires WellFormedServerMessage(data, subscriptions)
    ensures
      var after := FilterSingle(w, pending, subscriptions, data).1;
      after == pending ||
      (Field(data, "type") == Str("result") && Field(data, "id") in pending && after == pending - {Field(data, "id")})
  {
  }

  /** The state of the batch loop: the kept messages, the `modified` flag and the pending requests. */
  datatype BatchState = BatchState(kept: seq<Json>, modified: bool, pending: map<Json, string>)

  predicate WellFormedBatch(msgs: seq<Json>, subscriptions: set<Json>) {
    forall i | 0 <= i < |msgs| :: WellFormedServerMessage(msgs[i], subscriptions)
  }

  /** The batch loop of `filter_server_message` after the given messages. */
  function FilterBatch(w: Whitelist, pending: map<Json, string>, subscriptions: set<Json>, msgs: seq<Json>): BatchState
    requires WellFormedBatch(msgs, subscriptions)
    decreases |msgs|
  {
    if msgs == [] then BatchState([], false, pending)
    else
      var before := FilterBatch(w, pending, subscriptions, msgs[..|msgs| - 1]);
      var last := msgs[|msgs| - 1];
      var step := FilterSingle(w, before.pending, subscriptions, last);
      match step.0
      case Drop => BatchState(before.kept, true, step.1)
      case Replace(m) => BatchState(before.kept + [m], true, step.1)
      case Keep => BatchState(before.kept + [last], before.modified, step.1)
  }

  /** One more message adds at most one kept message, and adds its own when nothing is modified. */
  lemma BatchStep(w: Whitelist, pending: map<Json, string>, subscriptions: set<Json>, msgs: seq<Json>)
    requires msgs != [] && WellFormedBatch(msgs, subscriptions)
    ensures
      var before := FilterBatch(w, pending, subscriptions, msgs[..|msgs| - 1]);
      var after := FilterBatch(w, pending, subscriptions, msgs);
      |after.kept| <= |before.kept| + 1 &&
      (!after.modified ==> !before.modified && after.kept == before.kept + [msgs[|msgs| - 1]])
  {
  }

  /** A batch in which nothing was modified kept every message as received. */
  lemma {:induction false} UnmodifiedBatchIsOriginal(w: Whitelist, pending: map<Json, string>, subscriptions: set<Json>, msgs: seq<Json>)
    requires WellFormedBatch(msgs, subscriptions)
    ensures !FilterBatch(w, pending, subscriptions, msgs).modified ==> FilterBatch(w, pending, subscriptions, msgs).kept == msgs
    ensures |FilterBatch(w, pending, subscriptions, msgs).kept| <= |msgs|
    decreases |msgs|
  {
    if msgs != [] {
      var init := msgs[..|msgs| - 1];
      assert WellFormedBatch(init, subscriptions) by {
        forall i | 0 <= i < |init| ensures WellFormedServerMessage(init[i], subscriptions) {
          assert init[i] == msgs[i];
        }
      }
      UnmodifiedBatchIsOriginal(w, pending, subscriptions, init);
      BatchStep(w, pending, subscriptions, msgs);
      var before := FilterBatch(w, pending, subscriptions, init);
      var after := FilterBatch(w, pending, subscriptions, msgs);
      if !after.modified {
        assert after.kept == before.kept + [msgs[|msgs| - 1]] && before.kept == init;
        SplitLast(msgs);
      }
    }
  }

  /**
   * A batch never adds a pending request, never changes the type of one it
   * keeps, and removes only requests whose id a result in the batch carries.
   */
  lemma {:induction false} BatchPendingShrinks(w: Whitelist, pending: map<Json, string>, subscriptions: set<Json>, msgs: seq<Json>)
    requires WellFormedBatch(msgs, subscriptions)
    ensures
      var after := FilterBatch(w, pending, subscriptions, msgs).pending;
      after.Keys <= pending.Keys && forall id | id in after :: after[id] == pending[id]
    ensures
      var after := FilterBatch(w, pending, subscriptions, msgs).pending;
      forall id | id in pending && id !in after ::
        exists i | 0 <= i < |msgs| ::
          msgs[i].Obj? && Field(msgs[i], "type") == Str("result") && Field(msgs[i], "id") == id
    decreases |msgs|
  {
    if msgs != [] {
      var init := msgs[..|msgs| - 1];
      var last := msgs[|msgs| - 1];
      BatchPendingShrinks(w, pending, subscriptions, init);
      var before := FilterBatch(w, pending, subscriptions, init);
      SinglePendingShrinks(w, before.pending, subscriptions, last);
      var after := FilterBatch(w, pending, subscriptions, msgs).pending;
      assert after == FilterSingle(w, before.pending, subscriptions, last).1;
      forall id | id in pending && id !in after
        ensures exists i | 0 <= i < |msgs| ::
          msgs[i].Obj? && Field(msgs[i], "type") == Str("result") && Field(msgs[i], "id") == id
      {
        if id in before.pending {
          assert msgs[|msgs| - 1] == last;
        } else {
          var i :| 0 <= i < |init| &&
            init[i].Obj? && Field(init[i], "type") == Str("result") && Field(init[i], "id") == id;
          assert msgs[i] == init[i];
        }
      }
    }
  }

  /** What is sent on to the client: the message as received, a rewritten message, or nothing. */
  datatype Forwarded = Original | Rewritten(message: Json) | Dropped

  /** The decoded server messages `filter_server_message` handles without raising. */
  predicate WellFormedServerInput(data: Json, subscriptions: set<Json>) {
    if data.Arr? then WellFormedBatch(data.items, subscriptions) else WellFormedServerMessage(data, subscriptions)
  }

  /**
   * `filter_server_message` on a decoded message (none when the text is
   * not JSON), with the pending requests after it.
   */
  function ServerOutcome(w: Whitelist, pending: map<Json, string>, subscriptions: set<Json>, message: Option<Json>): (Forwarded, map<Json, string>)
    requires message.Some? ==> WellFormedServerInput(message.value, subscriptions)
  {
    if message.None? then (Original, pending)
    else if message.value.Arr? then
      var b := FilterBatch(w, pending, subscriptions, message.value.items);
      if b.kept == [] then (Dropped, b.pending)
      else if !b.modified then (Original, b.pending)
      else (Rewritten(Arr(b.kept)), b.pending)
    else
      var step := FilterSingle(w, pending, subscriptions, message.value);
      match step.0
      case Drop => (Dropped, step.1)
      case Replace(m) => (Rewritten(m), step.1)
      case Keep => (Original, step.1)
  }

  /**
   * A batch goes on as received only when every message in it was kept
   * as received; an empty batch, or one whose every message was dropped,
   * is not sent at all.
   */
  lemma BatchForwarding(w: Whitelist, pending: map<Json, string>, subscriptions: set<Json>, msgs: seq<Json>)
    requires WellFormedBatch(msgs, subscriptions)
    ensures
      var b := FilterBatch(w, pending, subscriptions, msgs);
      var out := ServerOutcome(w, pending, subscriptions, Some(Arr(msgs))).0;
      (out == Original ==> b.kept == msgs && msgs != []) &&
      (out == Dropped <==> b.kept == []) &&
      (out.Rewritten? ==> out.message == Arr(b.kept) && b.modified)
    ensures ServerOutcome(w, pending, subscriptions, Some(Arr([]))) == (Dropped, pending)
  {
    UnmodifiedBatchIsOriginal(w, pending, subscriptions, msgs);
  }

  /** Text that is not JSON goes on as received. */
  lemma MalformedPassesThrough(w: Whitelist, pending: map<Json, string>, subscriptions: set<Json>)
    ensures ServerOutcome(w, pending, subscriptions, None) == (Original, pending)
  {
  }
}
