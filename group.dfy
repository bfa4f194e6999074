/**
 * `hcs_as_group`: a scaling group, created from the options, updated in
 * place when it drifts, deleted when absent.
 */
module AsGroup {
  import opened Wrappers
  import opened Json
  import opened Diff
  import opened Query
  import opened Remote
  import opened Projection
  import opened Locator
  import opened Reconciler

  // ----- networks and security groups -------------------------------------------

  /** `[{"id": i} for i in v]`: one reference per id, in order. */
  function Refs(ids: seq<Value>): (r: seq<Value>)
    ensures |r| == |ids|
    ensures forall i :: 0 <= i < |ids| ==> r[i] == Map(map["id" := ids[i]])
  {
    seq(|ids|, i requires 0 <= i < |ids| => Map(map["id" := ids[i]]))
  }

  /** The ids named by a list of references. */
  function RefIds(refs: seq<Value>): (ids: seq<Value>)
    ensures |ids| == |refs|
    ensures forall i :: 0 <= i < |refs| ==> ids[i] == FieldOf(refs[i], "id")
  {
    seq(|refs|, i requires 0 <= i < |refs| => FieldOf(refs[i], "id"))
  }

  /** Reading the ids back from the references gives the ids, in order. */
  lemma RefIdsInvertsRefs(ids: seq<Value>)
    ensures RefIds(Refs(ids)) == ids
  {
    var back := RefIds(Refs(ids));
    forall i | 0 <= i < |ids| ensures back[i] == ids[i] {
      assert Refs(ids)[i] == Map(map["id" := ids[i]]);
    }
  }

  /** `expand_create_networks`: None for an unset or empty list, else one `{"id": ...}` per id. */
  function ExpandNetworks(opts: map<string, Value>): (r: Value)
    ensures !Truthy(Get(opts, "networks")) <==> r == Null
    ensures r != Null ==> r.List? && r.items == Refs(Items(Get(opts, "networks")))
  {
    var v := Get(opts, "networks");
    if !Truthy(v) then Null else List(Refs(Items(v)))
  }

  /** `expand_create_security_groups`: the one security group as a one-element reference list. */
  function ExpandSecurityGroups(opts: map<string, Value>): (r: Value)
    ensures !Truthy(Get(opts, "security_group")) <==> r == Null
    ensures r != Null ==> r == List([Map(map["id" := Get(opts, "security_group")])])
  {
    var v := Get(opts, "security_group");
    if !Truthy(v) then Null else List([Map(map["id" := v])])
  }

  /**
   * The references the create request carries name exactly the listed
   * networks, in order, and the one security group.
   */
  lemma ReferencesNameTheOptions(opts: map<string, Value>)
    ensures var n := ExpandNetworks(opts);
            n != Null ==> RefIds(n.items) == Items(Get(opts, "networks"))
    ensures var s := ExpandSecurityGroups(opts);
            s != Null ==> RefIds(s.items) == [Get(opts, "security_group")]
  {
    RefIdsInvertsRefs(Items(Get(opts, "networks")));
    RefIdsInvertsRefs([Get(opts, "security_group")]);
  }

  // ----- the request payloads -------------------------------------------------

  /** The keys of the read shape. */
  const ReadKeys: set<string> := {"scaling_group_id", "scaling_group_status", "scaling_group_name",
                                  "scaling_configuration_id", "desire_instance_number", "min_instance_number",
                                  "max_instance_number", "cool_down_time", "health_periodic_audit_time",
                                  "available_zones", "vpc_id", "networks", "security_groups",
                                  "instance_terminate_policy", "delete_publicip"}

  /** The keys of the create request: the read shape less id and status, plus the audit method. */
  const CreateKeys: set<string> := {"scaling_group_name", "scaling_configuration_id", "desire_instance_number",
                                    "min_instance_number", "max_instance_number", "cool_down_time",
                                    "health_periodic_audit_time", "health_periodic_audit_method", "available_zones",
                                    "vpc_id", "networks", "security_groups", "instance_terminate_policy",
                                    "delete_publicip"}

  /** The audit method the module always pairs with an audit period. */
  const NovaAudit: Value := Str("NOVA_AUDIT")

  /** The option a wire key comes from. */
  function OptionOf(k: string): string {
    if k == "scaling_group_id" then "id"
    else if k == "scaling_group_name" then "group_name"
    else if k == "scaling_configuration_id" then "configuration_id"
    else k
  }

  /** What `build_create_parameters` puts under each key. */
  function CreateValue(opts: map<string, Value>, k: string): Value {
    if k == "networks" then ExpandNetworks(opts)
    else if k == "security_groups" then ExpandSecurityGroups(opts)
    else if k == "health_periodic_audit_method" then
      (if IsEmpty(Get(opts, "health_periodic_audit_time")) then Null else NovaAudit)
    else Get(opts, OptionOf(k))
  }

  /** `build_create_parameters`: a dict (possibly empty) of the non-empty renamed options. */
  function CreateFields(opts: map<string, Value>): (p: map<string, Value>)
    ensures p.Keys <= CreateKeys && NoEmptyValues(p)
  {
    NonEmptyPart(CreateKeys, k => CreateValue(opts, k))
  }

  /** The create request body. */
  function CreateParams(opts: map<string, Value>): Value {
    Map(CreateFields(opts))
  }

  /** Each key of the create request is there exactly when its value is not empty. */
  lemma CreateFieldsCarry(opts: map<string, Value>, k: string)
    requires k in CreateKeys
    ensures Carries(CreateFields(opts), k, CreateValue(opts, k))
  {
  }

  /**
   * The renaming table of the create request: the name and the
   * configuration id under their wire names, the sizes, cool down time,
   * zones, VPC, termination policy and public IP flag under their own,
   * the networks and the security group as references.
   */
  lemma CreateParamsRenames(opts: map<string, Value>)
    ensures var p := CreateFields(opts);
            Carries(p, "scaling_group_name", Get(opts, "group_name")) &&
            Carries(p, "scaling_configuration_id", Get(opts, "configuration_id")) &&
            Carries(p, "desire_instance_number", Get(opts, "desire_instance_number")) &&
            Carries(p, "min_instance_number", Get(opts, "min_instance_number")) &&
            Carries(p, "max_instance_number", Get(opts, "max_instance_number")) &&
            Carries(p, "cool_down_time", Get(opts, "cool_down_time")) &&
            Carries(p, "available_zones", Get(opts, "available_zones")) &&
            Carries(p, "vpc_id", Get(opts, "vpc_id")) &&
            Carries(p, "networks", ExpandNetworks(opts)) &&
            Carries(p, "security_groups", ExpandSecurityGroups(opts)) &&
            Carries(p, "instance_terminate_policy", Get(opts, "instance_terminate_policy")) &&
            Carries(p, "delete_publicip", Get(opts, "delete_publicip"))
  {
    CreateFieldsCarry(opts, "scaling_group_name");
    CreateFieldsCarry(opts, "scaling_configuration_id");
    CreateFieldsCarry(opts, "desire_instance_number");
    CreateFieldsCarry(opts, "min_instance_number");
    CreateFieldsCarry(opts, "max_instance_number");
    CreateFieldsCarry(opts, "cool_down_time");
    CreateFieldsCarry(opts, "available_zones");
    CreateFieldsCarry(opts, "vpc_id");
    CreateFieldsCarry(opts, "networks");
    CreateFieldsCarry(opts, "security_groups");
    CreateFieldsCarry(opts, "instance_terminate_policy");
    CreateFieldsCarry(opts, "delete_publicip");
  }

  /**
   * A non-empty audit period is sent together with the `NOVA_AUDIT`
   * method; an empty one sends neither.
   */
  lemma AuditPairing(opts: map<string, Value>)
    ensures var p := CreateFields(opts);
            var t := Get(opts, "health_periodic_audit_time");
            ("health_periodic_audit_time" in p <==> "health_periodic_audit_method" in p) &&
            ("health_periodic_audit_time" in p <==> !IsEmpty(t)) &&
            ("health_periodic_audit_time" in p ==>
               p["health_periodic_audit_time"] == t && p["health_periodic_audit_method"] == NovaAudit)
  {
    CreateFieldsCarry(opts, "health_periodic_audit_time");
    CreateFieldsCarry(opts, "health_periodic_audit_method");
  }

  /** `build_update_parameters`: the create request without `vpc_id`. */
  function UpdateParams(opts: map<string, Value>): Value {
    Map(CreateFields(opts) - {"vpc_id"})
  }

  /** The update request is the create request with exactly `vpc_id` removed. */
  lemma UpdateDropsOnlyVpc(opts: map<string, Value>)
    ensures var c := CreateParams(opts).fields;
            var u := UpdateParams(opts).fields;
            "vpc_id" !in u && u.Keys == c.Keys - {"vpc_id"} &&
            forall k :: k in u ==> u[k] == c[k]
  {
  }

  // ----- the read shape and the identity object ---------------------------------

  /** `fill_read_resp_body`: the 15 keys of the read shape copied from the body; a body that is not a dict is malformed. */
  function FillReadRespBody(body: Value): (r: Result<Value, Error>)
    ensures r.Success? <==> body.Map?
    ensures r.Failure? ==> r.error == MalformedResponse
    ensures r.Success? ==> r.value.Map? && r.value.fields.Keys == ReadKeys
    ensures r.Success? ==> forall k :: k in ReadKeys ==> r.value.fields[k] == Get(body.fields, k)
  {
    if !body.Map? then Failure(MalformedResponse)
    else Success(Map(Shape(ReadKeys, k => Get(body.fields, k))))
  }

  /** What `build_identity_object` puts under each key. */
  function IdentityValue(opts: map<string, Value>, k: string): Value {
    if k == "scaling_group_status" then Null
    else if k == "networks" then ExpandNetworks(opts)
    else if k == "security_groups" then ExpandSecurityGroups(opts)
    else Get(opts, OptionOf(k))
  }

  /**
   * `build_identity_object`: the read shape of the options, an unset
   * option reading as None, the status always None, and the networks and
   * security group as the references the create request sends.
   */
  function Identity(opts: map<string, Value>): (obj: Value)
    ensures obj.Map? && obj.fields.Keys == ReadKeys
    ensures forall k :: k in ReadKeys ==> obj.fields[k] == IdentityValue(opts, k)
  {
    Map(Shape(ReadKeys, k => IdentityValue(opts, k)))
  }

  /** The identity object asks nothing of the status, and holds networks and security groups in wire shape. */
  lemma IdentityShape(opts: map<string, Value>)
    ensures var obj := Identity(opts).fields;
            obj["scaling_group_status"] == Null &&
            obj["networks"] == CreateValue(opts, "networks") &&
            obj["security_groups"] == CreateValue(opts, "security_groups")
  {
  }

  /** The status of the remote group never makes it differ from the options. */
  lemma StatusNeverDrifts(opts: map<string, Value>, o: map<string, Value>, status: Value)
    ensures Matches(Identity(opts), Map(o)) <==> Matches(Identity(opts), Map(o["scaling_group_status" := status]))
  {
    IgnoredKeyIrrelevant(Identity(opts).fields, o, "scaling_group_status", status);
  }

  // ----- query, reconciliation ------------------------------------------------

  /** The options the query link filters on are plain values (as `type='str'` ensures). */
  predicate QueryScalar(opts: map<string, Value>) {
    IsScalar(Get(opts, "group_name")) && IsScalar(Get(opts, "configuration_id"))
  }

  /** The listing link: `scaling_group` and `build_query_link`'s filters. */
  function QueryLink(opts: map<string, Value>): (l: Link)
    ensures ScalarFilters(l.filters) <==> QueryScalar(opts)
  {
    var l := Link("scaling_group", [("scaling_group_name", Get(opts, "group_name")),
                                    ("scaling_configuration_id", Get(opts, "configuration_id"))]);
    TwoScalarFilters("scaling_group_name", Get(opts, "group_name"), "scaling_configuration_id", Get(opts, "configuration_id"));
    l
  }

  /**
   * The query link: the fixed paging template, then the group name and
   * the configuration id, each when truthy, False or 0.
   */
  lemma QueryLinkFilters(opts: map<string, Value>)
    requires QueryScalar(opts)
    ensures var name := Get(opts, "group_name");
            var conf := Get(opts, "configuration_id");
            BuildQueryLink(QueryLink(opts).filters)
              == QueryTemplate + Term("scaling_group_name", name) + Term("scaling_configuration_id", conf)
  {
    var name := Get(opts, "group_name");
    var conf := Get(opts, "configuration_id");
    TwoFilterLink("scaling_group_name", name, "scaling_configuration_id", conf);
    assert QueryLink(opts).filters == [("scaling_group_name", name), ("scaling_configuration_id", conf)];
  }

  /** The module's place in the reconciler: a drifted group is updated. */
  function Group(): (res: Resource)
    ensures res.updatable && res.collection == "scaling_group"
    ensures res.readId == "scaling_group_id" && res.responseId == "scaling_group_id"
  {
    Resource("scaling_group", "scaling_group_id", "scaling_group_id", true,
             Identity, FillReadRespBody, CreateParams, UpdateParams)
  }

  /** `main` of `hcs_as_group`. */
  method Run(t: Transport, opts: map<string, Value>, check: bool) returns (out: Result<Outcome, Error>)
    requires QueryScalar(opts)
    requires Locatable(Group(), t.respond, opts, PageTemplate(QueryLink(opts)))
    modifies t`log
    ensures out == Reconciliation(Group(), t.respond, opts, PageTemplate(QueryLink(opts)), check).0
    ensures t.log == old(t.log) + Reconciliation(Group(), t.respond, opts, PageTemplate(QueryLink(opts)), check).1
  {
    out := Reconcile(t, Group(), opts, PageTemplate(QueryLink(opts)), check);
  }

  // ----- reading back what was created ----------------------------------------

  /** Every key of the read shape but the id and the status is sent, with the value the identity object holds. */
  lemma IdentityAgreesWithCreate(opts: map<string, Value>, k: string)
    requires k in ReadKeys && k != "scaling_group_id" && k != "scaling_group_status"
    ensures k in CreateKeys && IdentityValue(opts, k) == CreateValue(opts, k)
  {
  }

  /** One key of what the module creates, read back, meets the same key of the identity object. */
  lemma ReadKeyMatches(opts: map<string, Value>, x: Value, k: string)
    requires IsEmpty(Get(opts, "id")) || Get(opts, "id") == x
    requires k in ReadKeys
    ensures Matches(IdentityValue(opts, k), Get(CreateFields(opts)["scaling_group_id" := x], k))
  {
    var p := CreateFields(opts);
    if k == "scaling_group_id" {
      if !IsEmpty(Get(opts, "id")) {
        MatchesReflexive(x);
      }
    } else if k != "scaling_group_status" {
      IdentityAgreesWithCreate(opts, k);
      CreateFieldsCarry(opts, k);
      CarriesPastUpdate(p, k, CreateValue(opts, k), "scaling_group_id", x);
      CarriedMatches(p["scaling_group_id" := x], k, CreateValue(opts, k));
    }
  }

  /**
   * What the module creates, read back, matches the module's own
   * identity object: the reconciler finds it again and sees no drift.
   */
  lemma CreatedIsRecognised(opts: map<string, Value>, x: Value)
    requires IsEmpty(Get(opts, "id")) || Get(opts, "id") == x
    ensures var read := FillReadRespBody(Echo(CreateParams(opts), "scaling_group_id", x));
            read.Success? && Matches(Identity(opts), read.value)
  {
    var b := CreateFields(opts)["scaling_group_id" := x];
    assert Echo(CreateParams(opts), "scaling_group_id", x) == Map(b);
    var read := FillReadRespBody(Map(b));
    forall k | k in ReadKeys ensures Matches(Identity(opts).fields[k], FieldOf(read.value, k)) {
      ReadKeyMatches(opts, x, k);
    }
  }
}
