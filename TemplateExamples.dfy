/**
 * The template `/api/services/{domain}/{service}` read both ways: as the
 * placeholder syntax intends, and as ha_api_limiter/config.py:70 compiles it.
 */
module TemplateExamples {
  import opened Template
  import opened TemplateRegex

  lemma PlaceholderHalf()
    ensures Render([Placeholder("domain"), Placeholder("service")]) == "/{domain}/{service}"
  {
    RenderAppend([Placeholder("domain")], [Placeholder("service")]);
    assert [Placeholder("domain")] + [Placeholder("service")] == [Placeholder("domain"), Placeholder("service")];
  }

  lemma FixedHalf()
    ensures Render([Fixed("api"), Fixed("services")]) == "/api/services"
  {
    RenderAppend([Fixed("api")], [Fixed("services")]);
    assert [Fixed("api")] + [Fixed("services")] == [Fixed("api"), Fixed("services")];
  }

  lemma TemplateHalves()
    ensures "/api/services" + "/{domain}/{service}" == "/api/services/{domain}/{service}"
  {
  }

  function ServiceSegments(): seq<Segment> {
    [Fixed("api"), Fixed("services"), Placeholder("domain"), Placeholder("service")]
  }

  lemma ServiceTemplateText()
    ensures Render(ServiceSegments()) == "/api/services/{domain}/{service}"
  {
    PlaceholderHalf();
    FixedHalf();
    TemplateHalves();
    RenderAppend([Fixed("api"), Fixed("services")], [Placeholder("domain"), Placeholder("service")]);
    assert [Fixed("api"), Fixed("services")] + [Placeholder("domain"), Placeholder("service")] == ServiceSegments();
  }

  lemma ServiceSegmentsWellFormed()
    ensures forall i | 0 <= i < |ServiceSegments()| :: WellFormedSegment(ServiceSegments()[i])
  {
  }

  lemma CallFront()
    ensures Join(["api", "services"]) == "/api/services"
  {
    JoinAppend(["api"], ["services"]);
    assert ["api"] + ["services"] == ["api", "services"];
  }

  lemma CallBack()
    ensures Join(["light", "turn_on"]) == "/light/turn_on"
  {
    JoinAppend(["light"], ["turn_on"]);
    assert ["light"] + ["turn_on"] == ["light", "turn_on"];
  }

  lemma CallHalves()
    ensures "/api/services" + "/light/turn_on" == "/api/services/light/turn_on"
  {
  }

  lemma CallPath()
    ensures Join(["api", "services", "light", "turn_on"]) == "/api/services/light/turn_on"
  {
    CallFront();
    CallBack();
    CallHalves();
    JoinAppend(["api", "services"], ["light", "turn_on"]);
    assert ["api", "services"] + ["light", "turn_on"] == ["api", "services", "light", "turn_on"];
  }

  lemma ConfigPath()
    ensures Join(["api", "config"]) == "/api/config"
  {
    JoinAppend(["api"], ["config"]);
    assert ["api"] + ["config"] == ["api", "config"];
  }

  /** The intended matcher admits a service call path. */
  lemma ServiceTemplateAdmitsServiceCall()
    ensures Matches("/api/services/{domain}/{service}", "/api/services/light/turn_on")
  {
    CallPath();
    ServiceTemplateText();
    ServiceSegmentsWellFormed();
    CallPartsPlain();
    SegmentwiseMatching(ServiceSegments(), ["api", "services", "light", "turn_on"]);
    assert SegmentsAgree(ServiceSegments(), ["api", "services", "light", "turn_on"]);
  }

  lemma CallPartsPlain()
    ensures SlashFree(["api", "services", "light", "turn_on"])
    ensures forall i | 0 <= i < 4 :: '\n' !in ["api", "services", "light", "turn_on"][i]
  {
    var parts := ["api", "services", "light", "turn_on"];
    forall i | 0 <= i < 4
      ensures '/' !in parts[i] && '\n' !in parts[i]
    {
    }
  }

  /** The intended matcher rejects a path with a different segment count. */
  lemma ServiceTemplateRejectsConfig()
    ensures !Matches("/api/services/{domain}/{service}", "/api/config")
  {
    ConfigPath();
    ServiceTemplateText();
    ServiceSegmentsWellFormed();
    SegmentwiseMatching(ServiceSegments(), ["api", "config"]);
  }

  /** As written, the same template rejects the service call path. */
  lemma ServiceTemplateAsWrittenRejectsServiceCall()
    ensures !MatchesAsWritten("/api/services/{domain}/{service}", "/api/services/light/turn_on")
  {
    var t := "/api/services/{domain}/{service}";
    assert t[14] == '{' && t[21] == '}';
    BracePairMatchesNothingAsWritten(t, "/api/services/light/turn_on");
  }
}
