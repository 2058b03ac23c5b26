/**
 * The limit-mode HTTP gate, `Limiter.check_request`
 * (ha_api_limiter/limiter.py:20-73): the `/health` bypass, then the
 * endpoint templates, then the entity patterns for the two path shapes
 * that name an entity. The HTTP method plays no part.
 *
 * In the service the gate runs before a request is forwarded
 * (ha_api_limiter/main.py:94-101).
 */
module Limiter {
  import opened Wrappers
  import opened Strings
  import opened Glob
  import opened Template
  import opened Config
  import opened PathShapes
  import opened LearnedTemplates

  datatype CheckResult = CheckResult(allowed: bool, reason: string)

  const HealthPath: string := "/health"

  /** `_extract_entity_from_path`: the entity of a states path, else of a camera path. */
  function ExtractEntityFromPath(path: string): (r: Option<string>)
    ensures r.Some? ==> IsEntityId(r.value)
    ensures r.Some? ==>
      path == StatesPrefix + r.value || path == StatesPrefix + r.value + "\n" ||
      path == CameraPrefix + r.value || path == CameraPrefix + r.value + "\n"
  {
    var states := EntityAfter(StatesPrefix, path);
    if states.Some? then states else EntityAfter(CameraPrefix, path)
  }

  /** Both entity path shapes yield their entity. */
  lemma ExtractEntityComplete(e: string)
    requires IsEntityId(e)
    ensures ExtractEntityFromPath(StatesPrefix + e) == Some(e)
    ensures ExtractEntityFromPath(CameraPrefix + e) == Some(e)
  {
    EntityAfterComplete(StatesPrefix, e);
    EntityAfterComplete(CameraPrefix, e);
    CameraPathIsNoStatesPath(e);
  }

  lemma CameraPathIsNoStatesPath(e: string)
    ensures EntityAfter(StatesPrefix, CameraPrefix + e).None?
  {
    var p := CameraPrefix + e;
    assert p[5] == 'c';
    assert DollarBody(p)[5] == 'c';
  }

  /** `check_request` as a decision over the whitelist at the time of the call. */
  function Decide(w: Whitelist, path: string): CheckResult {
    if path == HealthPath then CheckResult(true, "Health check endpoint")
    else if !EndpointAllowed(w.endpoints, path) then
      CheckResult(false, "Endpoint not in whitelist: " + path)
    else
      var entity := ExtractEntityFromPath(path);
      if entity.Some? && !AnyMatch(w.entities, entity.value) then
        CheckResult(false, "Entity not in whitelist: " + entity.value)
      else
        CheckResult(true, "Allowed by whitelist")
  }

  /**
   * A request passes exactly when it is the health check, or some template
   * admits its path and the path names no entity or an allowed one.
   */
  lemma DecisionCharacterized(w: Whitelist, path: string)
    ensures Decide(w, path).allowed <==>
      path == HealthPath ||
      (EndpointAllowed(w.endpoints, path) &&
       (ExtractEntityFromPath(path).None? || AnyMatch(w.entities, ExtractEntityFromPath(path).value)))
  {
  }

  /** The health check passes whatever the whitelist holds. */
  lemma HealthAlwaysAllowed(w: Whitelist)
    ensures Decide(w, HealthPath).allowed
    ensures Decide(w, HealthPath).reason == "Health check endpoint"
  {
  }

  /** A path no template admits is refused on the endpoint, before any entity is looked at. */
  lemma UnlistedEndpointRefused(w: Whitelist, path: string)
    requires path != HealthPath && !EndpointAllowed(w.endpoints, path)
    ensures Decide(w, path) == CheckResult(false, "Endpoint not in whitelist: " + path)
    ensures forall entities :: Decide(w.(entities := entities), path) == Decide(w, path)
  {
  }

  /** An admitted path naming an entity no pattern matches is refused on the entity. */
  lemma UnlistedEntityRefused(w: Whitelist, path: string, e: string)
    requires path != HealthPath && EndpointAllowed(w.endpoints, path)
    requires ExtractEntityFromPath(path) == Some(e) && !AnyMatch(w.entities, e)
    ensures Decide(w, path) == CheckResult(false, "Entity not in whitelist: " + e)
  {
  }

  /**
   * With `/api/states/{entity_id}` whitelisted, a state request for an
   * entity passes exactly when an entity pattern matches that entity.
   */
  lemma StatesRequestFollowsEntityPatterns(w: Whitelist, e: string)
    requires StatesTemplate in w.endpoints
    requires IsEntityId(e)
    ensures Decide(w, StatesPrefix + e).allowed <==> AnyMatch(w.entities, e)
  {
    EntityIdChars(e);
    StatesTemplateAdmits(e);
    var i :| 0 <= i < |w.endpoints| && w.endpoints[i] == StatesTemplate;
    assert Matches(w.endpoints[i], StatesPrefix + e);
    ExtractEntityComplete(e);
    assert StatesPrefix + e != HealthPath by {
      assert (StatesPrefix + e)[1] == 'a';
    }
  }

  /** The gate as the service holds it: a reference to the live whitelist. */
  class Limiter {
    const whitelist: WhitelistConfig

    constructor(whitelist: WhitelistConfig)
      ensures this.whitelist == whitelist
    {
      this.whitelist := whitelist;
    }

    /**
     * `check_request`: consults the whitelist through its own queries and
     * changes nothing; the method argument is ignored.
     */
    method CheckRequest(path: string, httpMethod: string) returns (r: CheckResult)
      requires whitelist.Valid()
      ensures r == Decide(whitelist.View(), path)
    {
      if path == HealthPath {
        return CheckResult(true, "Health check endpoint");
      }
      var endpointOk := whitelist.IsEndpointAllowed(path);
      if !endpointOk {
        return CheckResult(false, "Endpoint not in whitelist: " + path);
      }
      var entity := ExtractEntityFromPath(path);
      if entity.Some? {
        var entityOk := whitelist.IsEntityAllowed(entity.value);
        if !entityOk {
          return CheckResult(false, "Entity not in whitelist: " + entity.value);
        }
      }
      return CheckResult(true, "Allowed by whitelist");
    }
  }
}
