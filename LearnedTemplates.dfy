/**
 * The five templates that `_normalize_endpoint` writes
 * (ha_api_limiter/learner.py:37-56), read as endpoint templates
 * (ha_api_limiter/config.py:65-72): each admits exactly the paths with the
 * same fixed segments and a non-empty, slash-free segment in place of the
 * placeholder.
 */
module LearnedTemplates {
  import opened Strings
  import opened Template
  import opened PathShapes

  const StatesTemplate: string := "/api/states/{entity_id}"
  const ServicesTemplate: string := "/api/services/{domain}/{service}"
  const CameraTemplate: string := "/api/camera_proxy/{entity_id}"
  const HistoryTemplate: string := "/api/history/period/{timestamp}"
  const LogbookTemplate: string := "/api/logbook/{timestamp}"

  lemma RenderThree(a: string, b: string, name: string)
    ensures Render([Fixed(a), Fixed(b), Placeholder(name)]) == "/" + a + "/" + b + "/{" + name + "}"
  {
    var tail := [Placeholder(name)];
    var mid := [Fixed(b)] + tail;
    assert [Fixed(a)] + mid == [Fixed(a), Fixed(b), Placeholder(name)];
    assert Render(tail) == "/{" + name + "}" by {
      RenderOne(Placeholder(name));
    }
    assert Render(mid) == "/" + b + "/{" + name + "}" by {
      RenderCons(Fixed(b), tail);
    }
    RenderCons(Fixed(a), mid);
  }

  lemma JoinThree(a: string, b: string, c: string)
    ensures Join([a, b, c]) == "/" + a + "/" + b + "/" + c
  {
    var mid := [b] + [c];
    assert [a] + mid == [a, b, c];
    assert Join(mid) == "/" + b + "/" + c by {
      JoinOne(c);
      JoinCons(b, [c]);
    }
    JoinCons(a, mid);
  }

  /** Three segments, the last a placeholder, admit `/a/b/<x>` for every non-empty slash-free `x`. */
  lemma ThreeSegmentTemplate(a: string, b: string, name: string, x: string)
    requires IsPlain(a) && IsPlain(b) && '/' !in a && '/' !in b && '\n' !in a && '\n' !in b
    requires name != [] && '}' !in name
    requires x != [] && '/' !in x && '\n' !in x
    ensures Matches("/" + a + "/" + b + "/{" + name + "}", "/" + a + "/" + b + "/" + x)
  {
    var segs := [Fixed(a), Fixed(b), Placeholder(name)];
    var parts := [a, b, x];
    RenderThree(a, b, name);
    JoinThree(a, b, x);
    assert forall i | 0 <= i < |segs| :: WellFormedSegment(segs[i]);
    SegmentwiseMatching(segs, parts);
  }

  lemma StatesTemplateText()
    ensures StatesTemplate == "/" + "api" + "/" + "states" + "/{" + "entity_id" + "}"
    ensures StatesPrefix == "/" + "api" + "/" + "states" + "/"
  {
  }

  lemma CameraTemplateText()
    ensures CameraTemplate == "/" + "api" + "/" + "camera_proxy" + "/{" + "entity_id" + "}"
    ensures CameraPrefix == "/" + "api" + "/" + "camera_proxy" + "/"
  {
  }

  lemma LogbookTemplateText()
    ensures LogbookTemplate == "/" + "api" + "/" + "logbook" + "/{" + "timestamp" + "}"
    ensures LogbookPrefix == "/" + "api" + "/" + "logbook" + "/"
  {
  }

  /** `/api/states/{entity_id}` admits `/api/states/<x>` for every non-empty slash-free `x`. */
  lemma StatesTemplateAdmits(x: string)
    requires x != [] && '/' !in x && '\n' !in x
    ensures Matches(StatesTemplate, StatesPrefix + x)
  {
    StatesTemplateText();
    ThreeSegmentTemplate("api", "states", "entity_id", x);
    assert StatesPrefix + x == "/" + "api" + "/" + "states" + "/" + x;
  }

  /** `/api/camera_proxy/{entity_id}` admits `/api/camera_proxy/<x>`. */
  lemma CameraTemplateAdmits(x: string)
    requires x != [] && '/' !in x && '\n' !in x
    ensures Matches(CameraTemplate, CameraPrefix + x)
  {
    CameraTemplateText();
    ThreeSegmentTemplate("api", "camera_proxy", "entity_id", x);
    assert CameraPrefix + x == "/" + "api" + "/" + "camera_proxy" + "/" + x;
  }

  /** `/api/logbook/{timestamp}` admits `/api/logbook/<x>`. */
  lemma LogbookTemplateAdmits(x: string)
    requires x != [] && '/' !in x && '\n' !in x
    ensures Matches(LogbookTemplate, LogbookPrefix + x)
  {
    LogbookTemplateText();
    ThreeSegmentTemplate("api", "logbook", "timestamp", x);
    assert LogbookPrefix + x == "/" + "api" + "/" + "logbook" + "/" + x;
  }

  lemma RenderFour(a: string, b: string, c: string, name: string)
    ensures Render([Fixed(a), Fixed(b), Fixed(c), Placeholder(name)])
      == "/" + a + "/" + b + "/" + c + "/{" + name + "}"
  {
    var rest := [Fixed(b), Fixed(c), Placeholder(name)];
    assert [Fixed(a)] + rest == [Fixed(a), Fixed(b), Fixed(c), Placeholder(name)];
    RenderThree(b, c, name);
    RenderCons(Fixed(a), rest);
  }

  lemma JoinFour(a: string, b: string, c: string, d: string)
    ensures Join([a, b, c, d]) == "/" + a + "/" + b + "/" + c + "/" + d
  {
    var rest := [b, c, d];
    assert [a] + rest == [a, b, c, d];
    JoinThree(b, c, d);
    JoinCons(a, rest);
  }

  lemma HistoryTemplateText()
    ensures HistoryTemplate == "/" + "api" + "/" + "history" + "/" + "period" + "/{" + "timestamp" + "}"
    ensures HistoryPrefix == "/" + "api" + "/" + "history" + "/" + "period" + "/"
  {
  }

  /** Four segments, the last a placeholder, admit `/a/b/c/<x>` for every non-empty slash-free `x`. */
  lemma FourSegmentTemplate(a: string, b: string, c: string, name: string, x: string)
    requires IsPlain(a) && IsPlain(b) && IsPlain(c)
    requires '/' !in a && '/' !in b && '/' !in c && '\n' !in a && '\n' !in b && '\n' !in c
    requires name != [] && '}' !in name
    requires x != [] && '/' !in x && '\n' !in x
    ensures Matches("/" + a + "/" + b + "/" + c + "/{" + name + "}", "/" + a + "/" + b + "/" + c + "/" + x)
  {
    var segs := [Fixed(a), Fixed(b), Fixed(c), Placeholder(name)];
    var parts := [a, b, c, x];
    RenderFour(a, b, c, name);
    JoinFour(a, b, c, x);
    assert forall i | 0 <= i < |segs| :: WellFormedSegment(segs[i]);
    SegmentwiseMatching(segs, parts);
  }

  /** `/api/history/period/{timestamp}` admits `/api/history/period/<x>`. */
  lemma HistoryTemplateAdmits(x: string)
    requires x != [] && '/' !in x && '\n' !in x
    ensures Matches(HistoryTemplate, HistoryPrefix + x)
  {
    HistoryTemplateText();
    FourSegmentTemplate("api", "history", "period", "timestamp", x);
    assert HistoryPrefix + x == "/" + "api" + "/" + "history" + "/" + "period" + "/" + x;
  }

  lemma ServicesTemplateText()
    ensures ServicesTemplate == ("/" + "api" + "/" + "services") + ("/" + ("{" + "domain" + "}") + "/" + ("{" + "service" + "}"))
    ensures ServicesPrefix == ("/" + "api" + "/" + "services") + "/"
  {
  }

  lemma RenderPair(g1: Segment, g2: Segment)
    ensures Render([g1, g2]) == "/" + SegmentText(g1) + "/" + SegmentText(g2)
  {
    RenderOne(g2);
    RenderCons(g1, [g2]);
    assert [g1] + [g2] == [g1, g2];
  }

  lemma RenderTwoTwo(a: string, b: string, n1: string, n2: string)
    ensures Render([Fixed(a), Fixed(b)] + [Placeholder(n1), Placeholder(n2)])
      == ("/" + a + "/" + b) + ("/" + ("{" + n1 + "}") + "/" + ("{" + n2 + "}"))
  {
    RenderPair(Fixed(a), Fixed(b));
    RenderPair(Placeholder(n1), Placeholder(n2));
    RenderAppend([Fixed(a), Fixed(b)], [Placeholder(n1), Placeholder(n2)]);
  }

  lemma JoinPair(x: string, y: string)
    ensures Join([x, y]) == "/" + x + "/" + y
  {
    JoinOne(y);
    JoinCons(x, [y]);
    assert [x] + [y] == [x, y];
  }

  lemma JoinTwoTwo(a: string, b: string, x: string, y: string)
    ensures Join([a, b] + [x, y]) == ("/" + a + "/" + b) + ("/" + x + "/" + y)
  {
    JoinPair(a, b);
    JoinPair(x, y);
    JoinAppend([a, b], [x, y]);
  }

  /**
   * Two fixed segments followed by two placeholders admit `/a/b/<x>/<y>`
   * for every non-empty slash-free `x` and `y`.
   */
  lemma TwoFixedTwoParams(a: string, b: string, n1: string, n2: string, x: string, y: string)
    requires IsPlain(a) && IsPlain(b) && '/' !in a && '/' !in b && '\n' !in a && '\n' !in b
    requires n1 != [] && '}' !in n1 && n2 != [] && '}' !in n2
    requires x != [] && '/' !in x && '\n' !in x
    requires y != [] && '/' !in y && '\n' !in y
    ensures Matches(("/" + a + "/" + b) + ("/" + ("{" + n1 + "}") + "/" + ("{" + n2 + "}")),
                    ("/" + a + "/" + b) + ("/" + x + "/" + y))
  {
    var segs := [Fixed(a), Fixed(b)] + [Placeholder(n1), Placeholder(n2)];
    var parts := [a, b] + [x, y];
    RenderTwoTwo(a, b, n1, n2);
    JoinTwoTwo(a, b, x, y);
    forall i | 0 <= i < |segs|
      ensures WellFormedSegment(segs[i]) && Agrees(segs[i], parts[i])
      ensures '/' !in parts[i] && '\n' !in parts[i]
    {
      if i < 2 {
        assert segs[i] == [Fixed(a), Fixed(b)][i] && parts[i] == [a, b][i];
      } else {
        assert segs[i] == [Placeholder(n1), Placeholder(n2)][i - 2] && parts[i] == [x, y][i - 2];
      }
    }
    SegmentwiseMatching(segs, parts);
  }

  /** `/api/services/{domain}/{service}` admits `/api/services/<x>/<y>`. */
  lemma ServicesTemplateAdmits(x: string, y: string)
    requires x != [] && '/' !in x && '\n' !in x
    requires y != [] && '/' !in y && '\n' !in y
    ensures Matches(ServicesTemplate, ServicesPrefix + x + "/" + y)
  {
    ServicesTemplateText();
    var head := "/" + "api" + "/" + "services";
    TwoFixedTwoParams("api", "services", "domain", "service", x, y);
    Regroup(head, x, y);
  }

  lemma Regroup(head: string, x: string, y: string)
    ensures head + "/" + x + "/" + y == head + ("/" + x + "/" + y)
  {
  }
}
