/**
 * The whitelist store, `WhitelistConfig` (ha_api_limiter/config.py:33-108).
 *
 * It holds endpoint templates and entity patterns, and the compiled
 * matchers of the templates. The WebSocket filter also reads device and
 * area patterns and three lists of user overrides from it; those members
 * are not part of config.py as it stands and are modelled here as plain
 * lists that start empty and that only the filter reads.
 *
 * The YAML file is an abstract record: `load` receives the record that
 * `yaml.safe_load` would return (or nothing when the file does not
 * exist), and `SaveRecord` is the record that `save` would dump.
 */
module Config {
  import opened Wrappers
  import opened Strings
  import opened Glob
  import opened Template

  /** The YAML document: each top-level key present or absent. */
  datatype WhitelistFile = WhitelistFile(endpoints: Option<seq<string>>, entities: Option<seq<string>>)

  /** The lists the filters and the gate consult, at one moment. */
  datatype Whitelist = Whitelist(
    endpoints: seq<string>,
    entities: seq<string>,
    devices: seq<string>,
    areas: seq<string>,
    allowedWsTypes: seq<string>,
    allowedEventTypes: seq<string>,
    allowedServices: seq<string>)

  /** Some endpoint template admits the path. */
  predicate EndpointAllowed(endpoints: seq<string>, path: string) {
    exists i | 0 <= i < |endpoints| :: Matches(endpoints[i], path)
  }

  /** The list after an `add_*` call: the item is appended unless it is already listed. */
  function WithAdded(xs: seq<string>, x: string): (r: seq<string>)
    ensures xs <= r
    ensures Elems(r) == Elems(xs) + {x}
    ensures forall i | |xs| <= i < |r| :: r[i] !in r[..i]
  {
    if x in xs then xs
    else
      assert (xs + [x])[..|xs|] == xs;
      xs + [x]
  }

  /** Adding an item twice is adding it once. */
  lemma WithAddedIdempotent(xs: seq<string>, x: string)
    ensures WithAdded(WithAdded(xs, x), x) == WithAdded(xs, x)
  {
    assert x in WithAdded(xs, x) by {
      assert x in Elems(WithAdded(xs, x));
    }
  }

  /** The record `save` writes: both lists sorted, without duplicates. */
  function Record(endpoints: seq<string>, entities: seq<string>): (f: WhitelistFile)
    ensures f.endpoints.Some? && StrictlySorted(f.endpoints.value) && Elems(f.endpoints.value) == Elems(endpoints)
    ensures f.entities.Some? && StrictlySorted(f.entities.value) && Elems(f.entities.value) == Elems(entities)
  {
    WhitelistFile(Some(SortedUnique(endpoints)), Some(SortedUnique(entities)))
  }

  /** What `load` takes from a record: a missing key gives an empty list. */
  function Defaulted(f: WhitelistFile): (seq<string>, seq<string>) {
    (f.endpoints.GetOr([]), f.entities.GetOr([]))
  }

  /**
   * Loading a saved record gives lists with the same elements as before
   * the save, and saving those again writes the identical record.
   */
  lemma SaveLoadRoundTrip(endpoints: seq<string>, entities: seq<string>)
    ensures Elems(Defaulted(Record(endpoints, entities)).0) == Elems(endpoints)
    ensures Elems(Defaulted(Record(endpoints, entities)).1) == Elems(entities)
    ensures Record(Defaulted(Record(endpoints, entities)).0, Defaulted(Record(endpoints, entities)).1)
      == Record(endpoints, entities)
  {
    SortedUniqueIdempotent(endpoints);
    SortedUniqueIdempotent(entities);
  }

  /** Loading an empty document gives empty lists. */
  lemma EmptyDocumentLoadsEmpty()
    ensures Defaulted(WhitelistFile(None, None)) == ([], [])
  {
  }

  class WhitelistConfig {
    const configPath: Option<string>
    var endpoints: seq<string>
    var entities: seq<string>
    /** `_endpoint_patterns`: the compiled form of each template. */
    var endpointPatterns: seq<seq<Token>>
    var devices: seq<string>
    var areas: seq<string>
    var allowedWsTypes: seq<string>
    var allowedEventTypes: seq<string>
    var allowedServices: seq<string>

    /** One compiled matcher per template, in the same order. */
    ghost predicate Valid()
      reads this
    {
      |endpointPatterns| == |endpoints| &&
      forall i | 0 <= i < |endpoints| :: endpointPatterns[i] == Tokenize(endpoints[i])
    }

    /** The lists only the WebSocket filter reads. */
    function Extras(): (seq<string>, seq<string>, seq<string>, seq<string>, seq<string>)
      reads this
    {
      (devices, areas, allowedWsTypes, allowedEventTypes, allowedServices)
    }

    function View(): Whitelist
      reads this
    {
      Whitelist(endpoints, entities, devices, areas, allowedWsTypes, allowedEventTypes, allowedServices)
    }

    constructor(configPath: Option<string>)
      ensures this.configPath == configPath
      ensures View() == Whitelist([], [], [], [], [], [], [])
      ensures Valid()
    {
      this.configPath := configPath;
      endpoints := [];
      entities := [];
      endpointPatterns := [];
      devices := [];
      areas := [];
      allowedWsTypes := [];
      allowedEventTypes := [];
      allowedServices := [];
    }

    /**
     * `load`: with a path and an existing file, both lists are replaced by
     * the file's (missing keys give empty lists) and the matchers are
     * rebuilt; otherwise nothing changes.
     */
    method Load(stored: Option<WhitelistFile>)
      modifies this
      ensures configPath.Some? && stored.Some? ==>
        (endpoints, entities) == Defaulted(stored.value) && Valid()
      ensures configPath.None? || stored.None? ==>
        endpoints == old(endpoints) && entities == old(entities) &&
        endpointPatterns == old(endpointPatterns)
      ensures Extras() == old(Extras())
    {
      if configPath.Some? && stored.Some? {
        endpoints := stored.value.endpoints.GetOr([]);
        entities := stored.value.entities.GetOr([]);
        CompileEndpointPatterns();
      }
    }

    /** `save`: the record written, or nothing when there is no path. */
    function SaveRecord(): (r: Option<WhitelistFile>)
      reads this
      ensures r.None? <==> configPath.None?
      ensures r.Some? ==> r.value == Record(endpoints, entities)
    {
      if configPath.None? then None else Some(Record(endpoints, entities))
    }

    /** `_compile_endpoint_patterns`: rebuilds the matchers from the templates. */
    method CompileEndpointPatterns()
      modifies this
      ensures Valid()
      ensures endpoints == old(endpoints) && entities == old(entities)
      ensures Extras() == old(Extras())
    {
      endpointPatterns := [];
      var i := 0;
      while i < |endpoints|
        invariant 0 <= i <= |endpoints|
        invariant |endpointPatterns| == i
        invariant forall k | 0 <= k < i :: endpointPatterns[k] == Tokenize(endpoints[k])
        invariant endpoints == old(endpoints) && entities == old(entities)
        invariant Extras() == old(Extras())
      {
        endpointPatterns := endpointPatterns + [Tokenize(endpoints[i])];
        i := i + 1;
      }
    }

    /**
     * `add_endpoint`: appends a template that is not already listed and
     * rebuilds the matchers; a listed template leaves everything as it was.
     */
    method AddEndpoint(endpoint: string) returns (added: bool)
      modifies this
      ensures added <==> endpoint !in old(endpoints)
      ensures endpoints == WithAdded(old(endpoints), endpoint)
      ensures added ==> Valid()
      ensures !added ==> endpointPatterns == old(endpointPatterns)
      ensures entities == old(entities)
      ensures Extras() == old(Extras())
    {
      if endpoint !in endpoints {
        endpoints := endpoints + [endpoint];
        CompileEndpointPatterns();
        return true;
      }
      return false;
    }

    /** `add_entity`: the same on the entity list, by exact membership only. */
    method AddEntity(entityId: string) returns (added: bool)
      modifies this
      ensures added <==> entityId !in old(entities)
      ensures entities == WithAdded(old(entities), entityId)
      ensures endpoints == old(endpoints) && endpointPatterns == old(endpointPatterns)
      ensures Extras() == old(Extras())
    {
      if entityId !in entities {
        entities := entities + [entityId];
        return true;
      }
      return false;
    }

    /**
     * `is_endpoint_allowed`: tries the compiled matchers in order. With the
     * matchers in step with the templates, the answer is whether some
     * template admits the whole path.
     */
    method IsEndpointAllowed(path: string) returns (allowed: bool)
      ensures allowed <==> exists i | 0 <= i < |endpointPatterns| :: FullMatch(endpointPatterns[i], path)
      ensures Valid() ==> (allowed <==> EndpointAllowed(endpoints, path))
    {
      var i := 0;
      while i < |endpointPatterns|
        invariant 0 <= i <= |endpointPatterns|
        invariant forall k | 0 <= k < i :: !FullMatch(endpointPatterns[k], path)
      {
        if FullMatch(endpointPatterns[i], path) {
          return true;
        }
        i := i + 1;
      }
      return false;
    }

    /** `is_entity_allowed`: some entity pattern glob-matches the whole id. */
    method IsEntityAllowed(entityId: string) returns (allowed: bool)
      ensures allowed <==> AnyMatch(entities, entityId)
    {
      allowed := MatchesAny(entities, entityId);
    }

    /** `is_device_allowed`: the same glob test on the device patterns. */
    method IsDeviceAllowed(deviceId: string) returns (allowed: bool)
      ensures allowed <==> AnyMatch(devices, deviceId)
    {
      allowed := MatchesAny(devices, deviceId);
    }

    /** `is_area_allowed`: the same glob test on the area patterns. */
    method IsAreaAllowed(areaId: string) returns (allowed: bool)
      ensures allowed <==> AnyMatch(areas, areaId)
    {
      allowed := MatchesAny(areas, areaId);
    }

    /** `to_dict`: both lists as they stand, unsorted. */
    function ToDict(): (d: WhitelistFile)
      reads this
      ensures Defaulted(d) == (endpoints, entities)
    {
      WhitelistFile(Some(endpoints), Some(entities))
    }
  }
}
