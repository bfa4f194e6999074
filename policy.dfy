/**
 * `hcs_as_policy`: a scaling policy of a scaling group, created from the
 * options, updated in place when it drifts, deleted when absent.
 */
module AsPolicy {
  import opened Wrappers
  import opened Json
  import opened Diff
  import opened Query
  import opened Remote
  import opened Projection
  import opened Locator
  import opened Reconciler

  // ----- the request payloads -------------------------------------------------

  /** The sub-options of `scheduled_policy` (also their wire names). */
  const ScheduleKeys: set<string> := {"launch_time", "recurrence_type", "recurrence_value", "start_time", "end_time"}

  /** The sub-options of `policy_action` (also their wire names). */
  const ActionKeys: set<string> := {"operation", "instance_number"}

  /**
   * The shape `expand_scheduled_policy_opts` and `expand_policy_action_opts`
   * share: None for an unset or falsy sub-dict, and otherwise the dict of
   * its non-empty known sub-options (possibly `{}`).
   */
  function ExpandSubOptions(sub: Value, keys: set<string>): Value {
    if !Truthy(sub) then Null else Map(NonEmptyPart(keys, k => FieldOf(sub, k)))
  }

  /** The expansion is None exactly for a falsy sub-dict, and otherwise keeps only its non-empty known sub-options. */
  lemma ExpandSubOptionsShape(sub: Value, keys: set<string>)
    ensures var r := ExpandSubOptions(sub, keys);
            (r == Null <==> !Truthy(sub)) &&
            (r != Null ==>
               r.Map? && r.fields.Keys <= keys && NoEmptyValues(r.fields) &&
               forall k :: k in keys ==> Carries(r.fields, k, FieldOf(sub, k)))
  {
  }

  /** `expand_scheduled_policy_opts`. */
  function ExpandScheduledPolicyOpts(opts: map<string, Value>): Value {
    ExpandSubOptions(Get(opts, "scheduled_policy"), ScheduleKeys)
  }

  /** `expand_policy_action_opts`. */
  function ExpandPolicyActionOpts(opts: map<string, Value>): Value {
    ExpandSubOptions(Get(opts, "policy_action"), ActionKeys)
  }

  /** The keys of the read shape. */
  const ReadKeys: set<string> := {"scaling_group_id", "scaling_policy_id", "scaling_policy_name", "scaling_policy_type",
                                  "scaling_policy_action", "alarm_id", "scheduled_policy", "cool_down_time"}

  /** The keys of the create request: the read shape less the id. */
  const CreateKeys: set<string> := ReadKeys - {"scaling_policy_id"}

  /** The option a wire key (of the request and of the read shape) comes from. */
  function OptionOf(k: string): string {
    if k == "scaling_group_id" then "group_id"
    else if k == "scaling_policy_id" then "id"
    else if k == "scaling_policy_name" then "policy_name"
    else if k == "scaling_policy_type" then "policy_type"
    else if k == "scaling_policy_action" then "policy_action"
    else k
  }

  /** What `build_create_parameters` puts under each key. */
  function CreateValue(opts: map<string, Value>, k: string): Value {
    if k == "scheduled_policy" then ExpandScheduledPolicyOpts(opts)
    else if k == "scaling_policy_action" then ExpandPolicyActionOpts(opts)
    else Get(opts, OptionOf(k))
  }

  /** `build_create_parameters`: a dict (possibly empty) of the non-empty renamed options. */
  function CreateFields(opts: map<string, Value>): (p: map<string, Value>)
    ensures p.Keys <= CreateKeys && NoEmptyValues(p)
  {
    NonEmptyPart(CreateKeys, k => CreateValue(opts, k))
  }

  /** The create request body. */
  function CreateParams(opts: map<string, Value>): Value {
    Map(CreateFields(opts))
  }

  /**
   * The renaming table of the create request: the group id, name, type
   * and action under their wire names, the alarm id, schedule and cool
   * down time under their own, each only when not empty.
   */
  lemma CreateParamsRenames(opts: map<string, Value>)
    ensures var p := CreateFields(opts);
            Carries(p, "scaling_group_id", Get(opts, "group_id")) &&
            Carries(p, "scaling_policy_name", Get(opts, "policy_name")) &&
            Carries(p, "scaling_policy_type", Get(opts, "policy_type")) &&
            Carries(p, "alarm_id", Get(opts, "alarm_id")) &&
            Carries(p, "scheduled_policy", ExpandScheduledPolicyOpts(opts)) &&
            Carries(p, "scaling_policy_action", ExpandPolicyActionOpts(opts)) &&
            Carries(p, "cool_down_time", Get(opts, "cool_down_time"))
  {
  }

  /** `build_update_parameters`: the create request without `scaling_group_id`. */
  function UpdateParams(opts: map<string, Value>): Value {
    Map(CreateFields(opts) - {"scaling_group_id"})
  }

  /** The update request is the create request with exactly `scaling_group_id` removed. */
  lemma UpdateDropsOnlyGroup(opts: map<string, Value>)
    ensures var c := CreateParams(opts).fields;
            var u := UpdateParams(opts).fields;
            "scaling_group_id" !in u && u.Keys == c.Keys - {"scaling_group_id"} &&
            forall k :: k in u ==> u[k] == c[k]
  {
  }

  // ----- the read shape -------------------------------------------------------

  /**
   * A nested dict of the response in read shape: None when it is unset or
   * falsy, and otherwise its fixed sub-keys (None where missing); a
   * truthy value that is not a dict is a malformed response.
   */
  function ReadSub(v: Value, keys: set<string>): (r: Result<Value, Error>)
    ensures !Truthy(v) ==> r == Success(Null)
    ensures Truthy(v) && !v.Map? ==> r == Failure(MalformedResponse)
    ensures Truthy(v) && v.Map? ==>
              r.Success? && r.value.Map? && r.value.fields.Keys == keys &&
              forall k :: k in keys ==> r.value.fields[k] == Get(v.fields, k)
  {
    if !Truthy(v) then Success(Null)
    else if !v.Map? then Failure(MalformedResponse)
    else Success(Map(Shape(keys, k => Get(v.fields, k))))
  }

  /** What `fill_read_resp_body` puts under each key. */
  function ReadValue(b: map<string, Value>, action: Value, schedule: Value, k: string): Value {
    if k == "scaling_policy_action" then action
    else if k == "scheduled_policy" then schedule
    else Get(b, k)
  }

  /**
   * `fill_read_resp_body`: the 8 keys of the read shape, six copied from
   * the body and the action and schedule projected to their sub-keys; a
   * body that is not a dict, or a truthy action or schedule that is not,
   * is a malformed response.
   */
  function FillReadRespBody(body: Value): (r: Result<Value, Error>)
    ensures r.Success? <==>
              body.Map? &&
              (Truthy(Get(body.fields, "scaling_policy_action")) ==> Get(body.fields, "scaling_policy_action").Map?) &&
              (Truthy(Get(body.fields, "scheduled_policy")) ==> Get(body.fields, "scheduled_policy").Map?)
    ensures r.Failure? ==> r.error == MalformedResponse
    ensures r.Success? ==> r.value.Map? && r.value.fields.Keys == ReadKeys
  {
    if !body.Map? then Failure(MalformedResponse)
    else
      var b := body.fields;
      match ReadSub(Get(b, "scaling_policy_action"), ActionKeys)
      case Failure(e) => Failure(e)
      case Success(action) =>
        match ReadSub(Get(b, "scheduled_policy"), ScheduleKeys)
        case Failure(e) => Failure(e)
        case Success(schedule) => Success(Map(Shape(ReadKeys, k => ReadValue(b, action, schedule, k))))
  }

  /**
   * The read shape copies the ids, name, type, alarm id and cool down
   * time, and holds None for an unset action or schedule and their fixed
   * sub-keys otherwise.
   */
  lemma FillReadRespBodyShape(body: Value)
    requires FillReadRespBody(body).Success?
    ensures var r := FillReadRespBody(body).value.fields;
            var b := body.fields;
            (forall k :: k in ReadKeys - {"scaling_policy_action", "scheduled_policy"} ==> r[k] == Get(b, k)) &&
            r["scaling_policy_action"] == ReadSub(Get(b, "scaling_policy_action"), ActionKeys).value &&
            r["scheduled_policy"] == ReadSub(Get(b, "scheduled_policy"), ScheduleKeys).value
  {
  }

  // ----- identity, query, reconciliation ----------------------------------------

  /** `build_identity_object`: the read shape of the options, an unset option reading as None. */
  function Identity(opts: map<string, Value>): (obj: Value)
    ensures obj.Map? && obj.fields.Keys == ReadKeys
    ensures forall k :: k in ReadKeys ==> obj.fields[k] == Get(opts, OptionOf(k))
  {
    Map(Shape(ReadKeys, k => Get(opts, OptionOf(k))))
  }

  /** The options the query link is built from are plain values (as `type='str'` ensures). */
  predicate QueryScalar(opts: map<string, Value>) {
    IsScalar(Get(opts, "group_id")) && IsScalar(Get(opts, "policy_name")) && IsScalar(Get(opts, "policy_type"))
  }

  /** `build_path(module, "scaling_policy/{group_id}/list")`: the group's policy listing. */
  function ListPath(opts: map<string, Value>): string
    requires IsScalar(Get(opts, "group_id"))
  {
    "scaling_policy/" + PyStr(Get(opts, "group_id")) + "/list"
  }

  /** The listing link: the group's path and `build_query_link`'s filters. */
  function QueryLink(opts: map<string, Value>): (l: Link)
    requires IsScalar(Get(opts, "group_id"))
    ensures ScalarFilters(l.filters) <==> QueryScalar(opts)
    ensures l.path == ListPath(opts)
  {
    var l := Link(ListPath(opts), [("scaling_policy_name", Get(opts, "policy_name")),
                                   ("scaling_policy_type", Get(opts, "policy_type"))]);
    TwoScalarFilters("scaling_policy_name", Get(opts, "policy_name"), "scaling_policy_type", Get(opts, "policy_type"));
    l
  }

  /**
   * The query link lists under the group's path: the fixed paging
   * template, then the name and the type, each when truthy, False or 0.
   */
  lemma QueryLinkFilters(opts: map<string, Value>)
    requires QueryScalar(opts)
    ensures var name := Get(opts, "policy_name");
            var kind := Get(opts, "policy_type");
            PageTemplate(QueryLink(opts))
              == ListPath(opts) + QueryTemplate + Term("scaling_policy_name", name) + Term("scaling_policy_type", kind)
  {
    var name := Get(opts, "policy_name");
    var kind := Get(opts, "policy_type");
    TwoFilterPage(ListPath(opts), "scaling_policy_name", name, "scaling_policy_type", kind);
    assert QueryLink(opts) == Link(ListPath(opts), [("scaling_policy_name", name), ("scaling_policy_type", kind)]);
  }

  /** The module's place in the reconciler: a drifted policy is updated. */
  function Policy(): (res: Resource)
    ensures res.updatable && res.collection == "scaling_policy"
    ensures res.readId == "scaling_policy_id" && res.responseId == "scaling_policy_id"
  {
    Resource("scaling_policy", "scaling_policy_id", "scaling_policy_id", true,
             Identity, FillReadRespBody, CreateParams, UpdateParams)
  }

  /** `main` of `hcs_as_policy`. */
  method Run(t: Transport, opts: map<string, Value>, check: bool) returns (out: Result<Outcome, Error>)
    requires QueryScalar(opts)
    requires Locatable(Policy(), t.respond, opts, PageTemplate(QueryLink(opts)))
    modifies t`log
    ensures out == Reconciliation(Policy(), t.respond, opts, PageTemplate(QueryLink(opts)), check).0
    ensures t.log == old(t.log) + Reconciliation(Policy(), t.respond, opts, PageTemplate(QueryLink(opts)), check).1
  {
    out := Reconcile(t, Policy(), opts, PageTemplate(QueryLink(opts)), check);
  }

  /**
   * A present policy that differs from the options is updated by exactly
   * one request carrying the update payload, outside check mode; one that
   * matches is left alone with no request.
   */
  lemma DriftUpdates(respond: Request -> Result<Value, string>, opts: map<string, Value>, obj: Value, id: Value)
    requires Present(opts)
    ensures var p := opts["id" := id];
            var (out, calls) := Decide(Policy(), respond, opts, Some(obj), id, false);
            (!Matches(Identity(p), obj) ==>
               calls == [Update("scaling_policy", id, UpdateParams(p))] &&
               (out.Success? ==> out.value.changed && out.value.action == Some(UpdateAction))) &&
            (Matches(Identity(p), obj) ==> out == Success(Outcome(false, id, None)) && calls == [])
  {
    var p := opts["id" := id];
    if !Matches(Identity(p), obj) {
      DriftHandling(Policy(), respond, opts, obj, id, false);
    } else {
      NoOp(Policy(), respond, opts, Some(obj), id, false);
    }
  }

  // ----- reading back what was created ----------------------------------------

  /** A sub-dict option of the documented type: unset, or a dict of the known sub-options. */
  predicate TypedSub(sub: Value, keys: set<string>) {
    IsEmpty(sub) || (sub.Map? && sub.fields.Keys <= keys)
  }

  /** Options of the documented types. */
  predicate Typed(opts: map<string, Value>) {
    TypedSub(Get(opts, "scheduled_policy"), ScheduleKeys) && TypedSub(Get(opts, "policy_action"), ActionKeys)
  }

  /**
   * A sub-dict sent in the create request, stored and read back, meets
   * the option it came from.
   */
  lemma SubRoundTrip(p: map<string, Value>, k: string, sub: Value, keys: set<string>)
    requires TypedSub(sub, keys)
    requires Carries(p, k, ExpandSubOptions(sub, keys))
    ensures var read := ReadSub(Get(p, k), keys);
            read.Success? && Matches(sub, read.value)
  {
    var sent := ExpandSubOptions(sub, keys);
    ExpandSubOptionsShape(sub, keys);
    if !IsEmpty(sub) {
      var np := sent.fields;
      if np == map[] {
        forall j | j in sub.fields ensures IsEmpty(sub.fields[j]) {
          assert Carries(np, j, FieldOf(sub, j));
        }
        AllEmptyMatchesAnything(sub.fields, ReadSub(Get(p, k), keys).value);
      } else {
        var read := ReadSub(Get(p, k), keys).value;
        forall j | j in sub.fields && !IsEmpty(sub.fields[j]) ensures FieldOf(read, j) == sub.fields[j] {
          assert Carries(np, j, FieldOf(sub, j));
        }
        MatchesWhereNonEmptyAgree(sub.fields, read);
      }
    }
  }

  /** The six keys the response and the create request share, each carrying its option. */
  predicate CopiedAgree(opts: map<string, Value>, b: map<string, Value>) {
    Carries(b, "scaling_group_id", Get(opts, "group_id")) &&
    Carries(b, "scaling_policy_name", Get(opts, "policy_name")) &&
    Carries(b, "scaling_policy_type", Get(opts, "policy_type")) &&
    Carries(b, "alarm_id", Get(opts, "alarm_id")) &&
    Carries(b, "cool_down_time", Get(opts, "cool_down_time"))
  }

  /** One key of the read shape meets the same key of the identity object. */
  lemma ReadKeyMatches(opts: map<string, Value>, b: map<string, Value>, action: Value, schedule: Value, k: string)
    requires k in ReadKeys
    requires Matches(Get(opts, "id"), Get(b, "scaling_policy_id")) && CopiedAgree(opts, b)
    requires Matches(Get(opts, "policy_action"), action) && Matches(Get(opts, "scheduled_policy"), schedule)
    ensures Matches(Get(opts, OptionOf(k)), ReadValue(b, action, schedule, k))
  {
    if k !in {"scaling_policy_id", "scaling_policy_action", "scheduled_policy"} {
      CarriedMatches(b, k, Get(opts, OptionOf(k)));
    }
  }

  /**
   * A response body whose id, copied keys, action and schedule agree
   * with the options reads back as a record that matches the identity
   * object.
   */
  lemma ReadBodyMatches(opts: map<string, Value>, b: map<string, Value>)
    requires Matches(Get(opts, "id"), Get(b, "scaling_policy_id")) && CopiedAgree(opts, b)
    requires var a := ReadSub(Get(b, "scaling_policy_action"), ActionKeys);
             a.Success? && Matches(Get(opts, "policy_action"), a.value)
    requires var s := ReadSub(Get(b, "scheduled_policy"), ScheduleKeys);
             s.Success? && Matches(Get(opts, "scheduled_policy"), s.value)
    ensures FillReadRespBody(Map(b)).Success? && Matches(Identity(opts), FillReadRespBody(Map(b)).value)
  {
    var action := ReadSub(Get(b, "scaling_policy_action"), ActionKeys).value;
    var schedule := ReadSub(Get(b, "scheduled_policy"), ScheduleKeys).value;
    var read := FillReadRespBody(Map(b));
    assert read == Success(Map(Shape(ReadKeys, k => ReadValue(b, action, schedule, k))));
    ReadShapeMatches(opts, b, action, schedule);
  }

  /** The read shape built from agreeing body parts matches the identity object. */
  lemma ReadShapeMatches(opts: map<string, Value>, b: map<string, Value>, action: Value, schedule: Value)
    requires Matches(Get(opts, "id"), Get(b, "scaling_policy_id")) && CopiedAgree(opts, b)
    requires Matches(Get(opts, "policy_action"), action) && Matches(Get(opts, "scheduled_policy"), schedule)
    ensures Matches(Identity(opts), Map(Shape(ReadKeys, k => ReadValue(b, action, schedule, k))))
  {
    var read := Map(Shape(ReadKeys, k => ReadValue(b, action, schedule, k)));
    var fs := Identity(opts).fields;
    forall k | k in fs ensures Matches(fs[k], FieldOf(read, k)) {
      ReadKeyMatches(opts, b, action, schedule, k);
      assert fs[k] == Get(opts, OptionOf(k));
      assert FieldOf(read, k) == ReadValue(b, action, schedule, k);
    }
    MatchesByKeys(fs, read);
  }

  /**
   * What the module creates, read back, matches the module's own
   * identity object: the reconciler finds it again and sees no drift.
   */
  lemma CreatedIsRecognised(opts: map<string, Value>, x: Value)
    requires Typed(opts)
    requires IsEmpty(Get(opts, "id")) || Get(opts, "id") == x
    ensures var read := FillReadRespBody(Echo(CreateParams(opts), "scaling_policy_id", x));
            read.Success? && Matches(Identity(opts), read.value)
  {
    var p := CreateFields(opts);
    var b := p["scaling_policy_id" := x];
    assert Echo(CreateParams(opts), "scaling_policy_id", x) == Map(b);
    CreateParamsRenames(opts);
    CarriesPastUpdate(p, "scheduled_policy", ExpandScheduledPolicyOpts(opts), "scaling_policy_id", x);
    CarriesPastUpdate(p, "scaling_policy_action", ExpandPolicyActionOpts(opts), "scaling_policy_id", x);
    SubRoundTrip(b, "scheduled_policy", Get(opts, "scheduled_policy"), ScheduleKeys);
    SubRoundTrip(b, "scaling_policy_action", Get(opts, "policy_action"), ActionKeys);
    CarriesPastUpdate(p, "scaling_group_id", Get(opts, "group_id"), "scaling_policy_id", x);
    CarriesPastUpdate(p, "scaling_policy_name", Get(opts, "policy_name"), "scaling_policy_id", x);
    CarriesPastUpdate(p, "scaling_policy_type", Get(opts, "policy_type"), "scaling_policy_id", x);
    CarriesPastUpdate(p, "alarm_id", Get(opts, "alarm_id"), "scaling_policy_id", x);
    CarriesPastUpdate(p, "cool_down_time", Get(opts, "cool_down_time"), "scaling_policy_id", x);
    if !IsEmpty(Get(opts, "id")) {
      MatchesReflexive(x);
    }
    ReadBodyMatches(opts, b);
  }
}
