/**
 * `hcs_as_configuration`: an auto-scaling configuration, created from the
 * options, never changed in place, deleted when absent.
 */
module AsConfiguration {
  import opened Wrappers
  import opened Json
  import opened Diff
  import opened Query
  import opened Remote
  import opened Projection
  import opened Locator
  import opened Reconciler

  // ----- the create request ---------------------------------------------------

  /** The sub-options of one disk (also its wire names and its read shape). */
  const DiskKeys: set<string> := {"disk_type", "volume_type", "size"}

  /** One disk of the create request: its non-empty sub-options. */
  function ExpandDisk(d: Value): (r: map<string, Value>)
    ensures r.Keys <= DiskKeys && NoEmptyValues(r)
    ensures forall k :: k in DiskKeys ==> Carries(r, k, FieldOf(d, k))
  {
    NonEmptyPart(DiskKeys, k => FieldOf(d, k))
  }

  /** A disk the request keeps: a non-empty dict of non-empty disk sub-options. */
  predicate RequestDisk(v: Value) {
    v.Map? && v.fields != map[] && v.fields.Keys <= DiskKeys && NoEmptyValues(v.fields)
  }

  /** The disks of the request, in order, leaving out any disk with nothing set. */
  function DisksFrom(ds: seq<Value>): (r: seq<Value>)
    ensures |r| <= |ds| && forall i :: 0 <= i < |r| ==> RequestDisk(r[i])
    decreases |ds|
  {
    if ds == [] then []
    else
      var e := ExpandDisk(ds[0]);
      var rest := DisksFrom(ds[1..]);
      if e != map[] then
        assert RequestDisk(Map(e));
        [Map(e)] + rest
      else rest
  }

  /** `expand_create_disks_param`: no disks for an unset or empty option. */
  function ExpandDisks(opts: map<string, Value>): seq<Value> {
    var v := Get(opts, "disks");
    if !Truthy(v) then [] else DisksFrom(Items(v))
  }

  /** When every disk has something set, none is dropped and the order is kept. */
  lemma {:induction false} DisksFromKeepsAll(ds: seq<Value>)
    requires forall i :: 0 <= i < |ds| ==> ExpandDisk(ds[i]) != map[]
    ensures |DisksFrom(ds)| == |ds|
    ensures forall i :: 0 <= i < |ds| ==> DisksFrom(ds)[i] == Map(ExpandDisk(ds[i]))
    decreases |ds|
  {
    if ds != [] {
      var tail := ds[1..];
      forall i | 0 <= i < |tail| ensures ExpandDisk(tail[i]) != map[] {
        assert tail[i] == ds[i + 1];
      }
      DisksFromKeepsAll(tail);
      var rest := DisksFrom(tail);
      var r := DisksFrom(ds);
      assert r == [Map(ExpandDisk(ds[0]))] + rest;
      forall i | 0 <= i < |ds| ensures r[i] == Map(ExpandDisk(ds[i])) {
        if i > 0 {
          assert r[i] == rest[i - 1] && tail[i - 1] == ds[i];
        }
      }
    }
  }

  /** The per-disk loop of `expand_create_disks_param`. */
  method ExpandCreateDisksParam(opts: map<string, Value>) returns (disks: seq<Value>)
    ensures disks == ExpandDisks(opts)
  {
    disks := [];
    var v := Get(opts, "disks");
    if !Truthy(v) {
      return;
    }
    var items := Items(v);
    var i := 0;
    assert items[0..] == items;
    while i < |items|
      invariant 0 <= i <= |items|
      invariant DisksFrom(items) == disks + DisksFrom(items[i..])
    {
      assert items[i..][1..] == items[i + 1..];
      var transformed := ExpandDisk(items[i]);
      if transformed != map[] {
        disks := disks + [Map(transformed)];
      }
      i := i + 1;
    }
    assert items[i..] == [];
    assert disks + [] == disks;
  }

  /** The sub-options of `public_ip.bandwidth`. */
  const BandwidthKeys: set<string> := {"charge_mode", "share", "size"}

  /** `expand_create_publicip_bandwidth`: the non-empty sub-options of a set bandwidth. */
  function ExpandBandwidth(opts: map<string, Value>): map<string, Value> {
    var raw := FieldOf(Get(opts, "public_ip"), "bandwidth");
    if IsEmpty(raw) then map[] else NonEmptyPart(BandwidthKeys, k => FieldOf(raw, k))
  }

  /**
   * The bandwidth is empty when the option is, and otherwise holds exactly
   * the non-empty `charge_mode`, `share` and `size`.
   */
  lemma ExpandBandwidthShape(opts: map<string, Value>)
    ensures var r := ExpandBandwidth(opts);
            var raw := FieldOf(Get(opts, "public_ip"), "bandwidth");
            r.Keys <= BandwidthKeys && NoEmptyValues(r) &&
            (IsEmpty(raw) ==> r == map[]) &&
            (!IsEmpty(raw) ==> forall k :: k in BandwidthKeys ==> Carries(r, k, FieldOf(raw, k)))
  {
  }

  /** The value `expand_create_publicip` puts under each key of the `eip` dict. */
  function EipValue(opts: map<string, Value>, k: string): Value {
    if k == "bandwidth" then Map(ExpandBandwidth(opts)) else FieldOf(Get(opts, "public_ip"), "type")
  }

  /** `expand_create_publicip`: the `eip` dict, or None when it would be empty. */
  function ExpandPublicIp(opts: map<string, Value>): Value {
    var r := NonEmptyPart({"bandwidth", "ip_type"}, k => EipValue(opts, k));
    if r == map[] then Null else Map(map["eip" := Map(r)])
  }

  /**
   * The public IP is None when neither the type nor a non-empty bandwidth
   * is set; otherwise `{"eip": ...}` with the type as `ip_type` and the
   * bandwidth as expanded, each only when not empty.
   */
  lemma ExpandPublicIpShape(opts: map<string, Value>)
    ensures var r := ExpandPublicIp(opts);
            var ipType := FieldOf(Get(opts, "public_ip"), "type");
            var bw := ExpandBandwidth(opts);
            (r == Null <==> IsEmpty(ipType) && bw == map[]) &&
            (r != Null ==>
               r.Map? && r.fields.Keys == {"eip"} && r.fields["eip"].Map? &&
               var eip := r.fields["eip"].fields;
               eip.Keys <= {"bandwidth", "ip_type"} && NoEmptyValues(eip) &&
               Carries(eip, "ip_type", ipType) && Carries(eip, "bandwidth", Map(bw)))
  {
    var r := NonEmptyPart({"bandwidth", "ip_type"}, k => EipValue(opts, k));
    assert "bandwidth" in r <==> ExpandBandwidth(opts) != map[];
  }

  /** The keys of `instance_config`. */
  const InstanceKeys: set<string> :=
    {"instance_id", "flavorRef", "imageRef", "disk", "key_name", "adminPass", "user_data", "metadata", "public_ip"}

  /** The option an `instance_config` key is copied from. */
  function OptionOf(w: string): string {
    if w == "flavorRef" then "flavor_id"
    else if w == "imageRef" then "image_id"
    else if w == "key_name" then "ssh_key_name"
    else if w == "adminPass" then "admin_pass"
    else if w == "metadata" then "server_metadata"
    else w
  }

  /** What `build_create_parameters` puts under each key of `instance_config`. */
  function InstanceValue(opts: map<string, Value>, w: string): Value {
    if w == "disk" then List(ExpandDisks(opts))
    else if w == "public_ip" then ExpandPublicIp(opts)
    else Get(opts, OptionOf(w))
  }

  /** The `instance_config` dict of the create request. */
  function InstanceConfig(opts: map<string, Value>): (c: map<string, Value>)
    ensures c.Keys <= InstanceKeys && NoEmptyValues(c)
  {
    NonEmptyPart(InstanceKeys, w => InstanceValue(opts, w))
  }

  /** Each key of `instance_config` is there exactly when its value is not empty. */
  lemma InstanceConfigCarries(opts: map<string, Value>, w: string)
    requires w in InstanceKeys
    ensures Carries(InstanceConfig(opts), w, InstanceValue(opts, w))
  {
  }

  /**
   * The create body around a name and an `instance_config`: the name at
   * the top level and the config under `instance_config`, each left out
   * when empty, and None when both are.
   */
  function Wrap(name: Value, c: map<string, Value>): (r: Value)
    ensures r == Null <==> IsEmpty(name) && c == map[]
    ensures r != Null ==>
              r.Map? && r.fields.Keys <= {"scaling_configuration_name", "instance_config"} && NoEmptyValues(r.fields) &&
              Carries(r.fields, "scaling_configuration_name", name) &&
              Carries(r.fields, "instance_config", Map(c))
  {
    var named: map<string, Value> := if IsEmpty(name) then map[] else map["scaling_configuration_name" := name];
    var params := if c != map[] then named["instance_config" := Map(c)] else named;
    if IsEmpty(name) && c == map[] then
      Null
    else
      assert !IsEmpty(name) ==> "scaling_configuration_name" in params;
      assert c != map[] ==> "instance_config" in params;
      assert params != map[];
      Map(params)
  }

  /**
   * `build_create_parameters`: the configuration name at the top level,
   * everything else under `instance_config` (left out when empty), and
   * None when nothing at all is set (`params` is empty exactly then).
   */
  function CreateParams(opts: map<string, Value>): (r: Value)
    ensures r == Null <==> IsEmpty(Get(opts, "configuration_name")) && InstanceConfig(opts) == map[]
    ensures r != Null ==>
              r.Map? && r.fields.Keys <= {"scaling_configuration_name", "instance_config"} && NoEmptyValues(r.fields) &&
              Carries(r.fields, "scaling_configuration_name", Get(opts, "configuration_name")) &&
              Carries(r.fields, "instance_config", Map(InstanceConfig(opts)))
  {
    Wrap(Get(opts, "configuration_name"), InstanceConfig(opts))
  }

  /**
   * The renaming table of `instance_config`: the ids, key name, password,
   * user data and metadata under their wire names, the disks as `disk`
   * and the public IP as expanded, each only when not empty.
   */
  lemma InstanceConfigRenames(opts: map<string, Value>)
    ensures var c := InstanceConfig(opts);
            Carries(c, "instance_id", Get(opts, "instance_id")) &&
            Carries(c, "flavorRef", Get(opts, "flavor_id")) &&
            Carries(c, "imageRef", Get(opts, "image_id")) &&
            Carries(c, "key_name", Get(opts, "ssh_key_name")) &&
            Carries(c, "adminPass", Get(opts, "admin_pass")) &&
            Carries(c, "user_data", Get(opts, "user_data")) &&
            Carries(c, "metadata", Get(opts, "server_metadata")) &&
            Carries(c, "disk", List(ExpandDisks(opts))) &&
            Carries(c, "public_ip", ExpandPublicIp(opts))
  {
    InstanceValueTable(opts);
    InstanceConfigCarries(opts, "instance_id");
    InstanceConfigCarries(opts, "flavorRef");
    InstanceConfigCarries(opts, "imageRef");
    InstanceConfigCarries(opts, "key_name");
    InstanceConfigCarries(opts, "adminPass");
    InstanceConfigCarries(opts, "user_data");
    InstanceConfigCarries(opts, "metadata");
    InstanceConfigCarries(opts, "disk");
    InstanceConfigCarries(opts, "public_ip");
  }

  /** The value each `instance_config` key is computed from. */
  lemma InstanceValueTable(opts: map<string, Value>)
    ensures InstanceValue(opts, "instance_id") == Get(opts, "instance_id")
    ensures InstanceValue(opts, "flavorRef") == Get(opts, "flavor_id")
    ensures InstanceValue(opts, "imageRef") == Get(opts, "image_id")
    ensures InstanceValue(opts, "key_name") == Get(opts, "ssh_key_name")
    ensures InstanceValue(opts, "adminPass") == Get(opts, "admin_pass")
    ensures InstanceValue(opts, "user_data") == Get(opts, "user_data")
    ensures InstanceValue(opts, "metadata") == Get(opts, "server_metadata")
    ensures InstanceValue(opts, "disk") == List(ExpandDisks(opts))
    ensures InstanceValue(opts, "public_ip") == ExpandPublicIp(opts)
  {
  }

  /**
   * The create request of a configuration with something under
   * `instance_config`: the name at the top level when set, and the
   * config, renamed as above, under `instance_config`.
   */
  lemma CreateParamsRenames(opts: map<string, Value>)
    requires InstanceConfig(opts) != map[]
    ensures var r := CreateParams(opts);
            r.Map? && "instance_config" in r.fields &&
            r.fields["instance_config"] == Map(InstanceConfig(opts)) &&
            Carries(r.fields, "scaling_configuration_name", Get(opts, "configuration_name"))
  {
    assert !IsEmpty(Map(InstanceConfig(opts)));
  }

  // ----- the read shape -------------------------------------------------------

  /** One disk of a response, in read shape. */
  function ReadDisk(item: map<string, Value>): (r: Value)
    ensures r.Map? && r.fields.Keys == DiskKeys
    ensures forall k :: k in DiskKeys ==> r.fields[k] == Get(item, k)
  {
    Map(Shape(DiskKeys, k => Get(item, k)))
  }

  /** The response disks in read shape; an item that is not a dict is a malformed response. */
  function ReadDiskItems(items: seq<Value>): (r: Result<seq<Value>, Error>)
    ensures r.Failure? <==> exists i :: 0 <= i < |items| && !items[i].Map?
    ensures r.Failure? ==> r.error == MalformedResponse
    ensures r.Success? ==> |r.value| == |items| && forall i :: 0 <= i < |items| ==> r.value[i] == ReadDisk(items[i].fields)
    decreases |items|
  {
    if items == [] then Success([])
    else if !items[0].Map? then Failure(MalformedResponse)
    else
      match ReadDiskItems(items[1..])
      case Failure(e) =>
        assert exists i :: 1 <= i < |items| && !items[i].Map? by {
          var j :| 0 <= j < |items[1..]| && !items[1..][j].Map?;
          assert items[j + 1] == items[1..][j];
        }
        Failure(e)
      case Success(rest) =>
        assert forall i :: 1 <= i < |items| ==> items[i] == items[1..][i - 1];
        Success([ReadDisk(items[0].fields)] + rest)
  }

  /**
   * `fill_read_resp_disks`: None for a missing or empty list, and
   * otherwise one read-shape disk per response disk, in order.
   */
  function ReadDisks(v: Value): Result<Value, Error> {
    if !Truthy(v) then Success(Null)
    else if !v.List? then Failure(MalformedResponse)
    else
      match ReadDiskItems(v.items)
      case Failure(e) => Failure(e)
      case Success(ds) => Success(List(ds))
  }

  /** The loop of `fill_read_resp_disks`. */
  method FillReadRespDisks(v: Value) returns (r: Result<Value, Error>)
    ensures r == ReadDisks(v)
  {
    if !Truthy(v) {
      return Success(Null);
    }
    if !v.List? {
      return Failure(MalformedResponse);
    }
    var disks := [];
    var i := 0;
    while i < |v.items|
      invariant 0 <= i <= |v.items|
      invariant |disks| == i && forall k :: 0 <= k < i ==> v.items[k].Map? && disks[k] == ReadDisk(v.items[k].fields)
    {
      var item := v.items[i];
      if !item.Map? {
        assert !v.items[i].Map?;
        return Failure(MalformedResponse);
      }
      disks := disks + [ReadDisk(item.fields)];
      i := i + 1;
    }
    var read := ReadDiskItems(v.items);
    assert read.Success? && read.value == disks;
    return Success(List(disks));
  }

  /** The keys of the read shape, which are also the option names. */
  const ReadKeys: set<string> := {"id", "configuration_name", "instance_id", "flavor_id", "image_id", "disks",
                                  "public_ip", "ssh_key_name", "admin_pass", "user_data", "server_metadata"}

  /** The `instance_config` key an option is read back from. */
  function WireOf(k: string): string {
    if k == "flavor_id" then "flavorRef"
    else if k == "image_id" then "imageRef"
    else if k == "ssh_key_name" then "key_name"
    else if k == "admin_pass" then "adminPass"
    else if k == "server_metadata" then "metadata"
    else k
  }

  /** What `fill_read_resp_body` puts under each key of the read shape. */
  function ReadValue(b: map<string, Value>, c: map<string, Value>, disks: Value, readPublicIp: Value -> Value,
                     k: string): Value
  {
    if k == "id" then Get(b, "scaling_configuration_id")
    else if k == "configuration_name" then Get(b, "scaling_configuration_name")
    else if k == "disks" then disks
    else if k == "public_ip" then readPublicIp(Get(c, "public_ip"))
    else Get(c, WireOf(k))
  }

  /**
   * `fill_read_resp_body`, with the reading of `instance_config.public_ip`
   * left as a parameter. It raises when `instance_config` is missing or
   * empty; a body that is not a dict, or an `instance_config` or disk
   * list of the wrong shape, is a malformed response.
   */
  function FillWith(body: Value, readPublicIp: Value -> Value): (r: Result<Value, Error>)
    ensures r == Failure(MissingInstanceConfig) <==> body.Map? && !Truthy(Get(body.fields, "instance_config"))
    ensures r.Success? ==> body.Map? && Get(body.fields, "instance_config").Map? && r.value.Map? && r.value.fields.Keys == ReadKeys
  {
    if !body.Map? then Failure(MalformedResponse)
    else
      var b := body.fields;
      var cb := Get(b, "instance_config");
      if !Truthy(cb) then Failure(MissingInstanceConfig)
      else if !cb.Map? then Failure(MalformedResponse)
      else
        var c := cb.fields;
        match ReadDisks(Get(c, "disk"))
        case Failure(e) => Failure(e)
        case Success(disks) => Success(Map(Shape(ReadKeys, k => ReadValue(b, c, disks, readPublicIp, k))))
  }

  /** `fill_read_resp_body` as written: `public_ip` is copied in its wire shape `{"eip": ...}`. */
  function FillReadRespBodyAsWritten(body: Value): Result<Value, Error> {
    FillWith(body, v => v)
  }

  /**
   * The corrected reading of the public IP: the wire shape
   * `{"eip": {"ip_type": t, "bandwidth": b}}` reads back in option shape
   * `{"type": t, "bandwidth": b}`; anything else is kept. The module has no
   * such step; it is what its identity comparison needs.
   */
  function ReadPublicIp(v: Value): (r: Value)
    ensures FieldOf(v, "eip").Map? ==>
              r.Map? && r.fields.Keys == {"type", "bandwidth"} &&
              r.fields["type"] == FieldOf(FieldOf(v, "eip"), "ip_type") &&
              r.fields["bandwidth"] == FieldOf(FieldOf(v, "eip"), "bandwidth")
    ensures !FieldOf(v, "eip").Map? ==> r == v
  {
    var eip := FieldOf(v, "eip");
    if eip.Map? then Map(Shape({"type", "bandwidth"}, k => if k == "type" then FieldOf(eip, "ip_type") else FieldOf(eip, k)))
    else v
  }

  /** The corrected `fill_read_resp_body`: the public IP is read back in option shape. */
  function FillReadRespBody(body: Value): Result<Value, Error> {
    FillWith(body, ReadPublicIp)
  }

  /**
   * The wire-to-option renaming of the read shape, with `public_ip`
   * copied as the response holds it, and the response disks: None when
   * the response lists none, and otherwise one per response disk, in order.
   */
  lemma FillReadRespBodyRenames(body: Value)
    requires FillReadRespBodyAsWritten(body).Success?
    ensures var r := FillReadRespBodyAsWritten(body).value.fields;
            var b := body.fields;
            var c := Get(b, "instance_config").fields;
            r["id"] == Get(b, "scaling_configuration_id") &&
            r["configuration_name"] == Get(b, "scaling_configuration_name") &&
            r["instance_id"] == Get(c, "instance_id") &&
            r["flavor_id"] == Get(c, "flavorRef") &&
            r["image_id"] == Get(c, "imageRef") &&
            r["ssh_key_name"] == Get(c, "key_name") &&
            r["admin_pass"] == Get(c, "adminPass") &&
            r["user_data"] == Get(c, "user_data") &&
            r["server_metadata"] == Get(c, "metadata") &&
            r["public_ip"] == Get(c, "public_ip") &&
            (!Truthy(Get(c, "disk")) ==> r["disks"] == Null) &&
            (Truthy(Get(c, "disk")) ==>
               Get(c, "disk").List? && r["disks"].List? && |r["disks"].items| == |Get(c, "disk").items| &&
               forall i :: 0 <= i < |r["disks"].items| ==>
                 Get(c, "disk").items[i].Map? && r["disks"].items[i] == ReadDisk(Get(c, "disk").items[i].fields))
  {
  }

  /**
   * The corrected reader fails exactly where the one as written does, and
   * otherwise reads the same record but for `public_ip`, which it reads
   * back in option shape.
   */
  lemma CorrectedReadsOnlyPublicIpAnew(body: Value)
    ensures FillReadRespBodyAsWritten(body).Failure? ==> FillReadRespBody(body) == FillReadRespBodyAsWritten(body)
    ensures FillReadRespBodyAsWritten(body).Success? ==>
              FillReadRespBody(body).Success? &&
              var w := FillReadRespBodyAsWritten(body).value.fields;
              var r := FillReadRespBody(body).value.fields;
              r.Keys == w.Keys && r["public_ip"] == ReadPublicIp(w["public_ip"]) &&
              forall k :: k in r && k != "public_ip" ==> r[k] == w[k]
  {
    FillWithReaders(body, v => v, ReadPublicIp);
  }

  /** Two readers of the public IP give the same record but for `public_ip`. */
  lemma FillWithReaders(body: Value, f: Value -> Value, g: Value -> Value)
    ensures FillWith(body, f).Failure? ==> FillWith(body, g) == FillWith(body, f)
    ensures FillWith(body, f).Success? ==>
              FillWith(body, g).Success? &&
              var w := FillWith(body, f).value.fields;
              var r := FillWith(body, g).value.fields;
              var c := Get(body.fields, "instance_config").fields;
              r.Keys == w.Keys && w["public_ip"] == f(Get(c, "public_ip")) && r["public_ip"] == g(Get(c, "public_ip")) &&
              forall k :: k in r && k != "public_ip" ==> r[k] == w[k]
  {
  }

  // ----- identity, query, reconciliation ----------------------------------------

  /** `build_identity_object`: the read shape of the options, an unset option reading as None. */
  function Identity(opts: map<string, Value>): (obj: Value)
    ensures obj.Map? && obj.fields.Keys == ReadKeys
    ensures forall k :: k in ReadKeys ==> obj.fields[k] == Get(opts, k)
  {
    Map(Shape(ReadKeys, k => Get(opts, k)))
  }

  /** The options the query link filters on are plain values (as `type='str'` ensures). */
  predicate QueryScalar(opts: map<string, Value>) {
    IsScalar(Get(opts, "configuration_name")) && IsScalar(Get(opts, "image_id"))
  }

  /** The listing link: `scaling_configuration` and `build_query_link`'s filters. */
  function QueryLink(opts: map<string, Value>): (l: Link)
    ensures ScalarFilters(l.filters) <==> QueryScalar(opts)
  {
    var l := Link("scaling_configuration", [("scaling_configuration_name", Get(opts, "configuration_name")),
                                            ("image_id", Get(opts, "image_id"))]);
    TwoScalarFilters("scaling_configuration_name", Get(opts, "configuration_name"), "image_id", Get(opts, "image_id"));
    l
  }

  /**
   * The query link: the fixed paging template, then the name when it is
   * truthy, False or 0, then the image id under the same rule.
   */
  lemma QueryLinkFilters(opts: map<string, Value>)
    requires QueryScalar(opts)
    ensures var name := Get(opts, "configuration_name");
            var image := Get(opts, "image_id");
            BuildQueryLink(QueryLink(opts).filters)
              == QueryTemplate + Term("scaling_configuration_name", name) + Term("image_id", image)
  {
    var name := Get(opts, "configuration_name");
    var image := Get(opts, "image_id");
    TwoFilterLink("scaling_configuration_name", name, "image_id", image);
    assert QueryLink(opts).filters == [("scaling_configuration_name", name), ("image_id", image)];
  }

  // ----- reading back what was created ----------------------------------------

  /** A `disks` option of the documented type: a list of disk dicts, each with something set. */
  predicate TypedDisks(ds: Value) {
    IsEmpty(ds) ||
    (ds.List? &&
     forall i :: 0 <= i < |ds.items| ==>
       ds.items[i].Map? && ds.items[i].fields.Keys <= DiskKeys && ExpandDisk(ds.items[i]) != map[])
  }

  /** A `public_ip` option of the documented type: `type` and a `bandwidth` dict of its sub-options. */
  predicate TypedPublicIp(pip: Value) {
    var bw := FieldOf(pip, "bandwidth");
    IsEmpty(pip) ||
    (pip.Map? && pip.fields.Keys <= {"type", "bandwidth"} && (IsEmpty(bw) || (bw.Map? && bw.fields.Keys <= BandwidthKeys)))
  }

  /** Options of the documented types. */
  predicate Typed(opts: map<string, Value>) {
    TypedDisks(Get(opts, "disks")) && TypedPublicIp(Get(opts, "public_ip"))
  }

  /** The id and the instance config of the object a provider returns for the create request. */
  lemma EchoShape(opts: map<string, Value>, x: Value)
    requires InstanceConfig(opts) != map[]
    ensures var b := Echo(CreateParams(opts), "scaling_configuration_id", x).fields;
            Get(b, "scaling_configuration_id") == x &&
            Get(b, "instance_config") == Map(InstanceConfig(opts)) &&
            Carries(b, "scaling_configuration_name", Get(opts, "configuration_name"))
  {
  }

  /** A request disk reads back as a disk that meets the option it came from. */
  lemma DiskRoundTrip(d: Value)
    requires d.Map? && d.fields.Keys <= DiskKeys
    ensures Matches(d, ReadDisk(ExpandDisk(d)))
  {
    var e := ExpandDisk(d);
    forall k | k in d.fields && !IsEmpty(d.fields[k])
      ensures FieldOf(ReadDisk(e), k) == d.fields[k]
    {
      assert Carries(e, k, FieldOf(d, k));
    }
    MatchesWhereNonEmptyAgree(d.fields, ReadDisk(e));
  }

  /** The disks of the create request read back as disks that meet the `disks` option. */
  lemma DisksRoundTrip(opts: map<string, Value>)
    requires TypedDisks(Get(opts, "disks"))
    ensures var sent := ExpandDisks(opts);
            var read := ReadDisks(if sent == [] then Null else List(sent));
            read.Success? && Matches(Get(opts, "disks"), read.value)
  {
    var ds := Get(opts, "disks");
    if !IsEmpty(ds) {
      var items := ds.items;
      DisksFromKeepsAll(items);
      var sent := ExpandDisks(opts);
      assert sent == DisksFrom(items);
      var read := ReadDiskItems(sent);
      assert read.Success?;
      forall i | 0 <= i < |items| ensures Matches(items[i], read.value[i]) {
        DiskRoundTrip(items[i]);
      }
    }
  }

  /** The bandwidth of the create request meets the `public_ip.bandwidth` option. */
  lemma BandwidthRoundTrip(opts: map<string, Value>)
    requires TypedPublicIp(Get(opts, "public_ip"))
    ensures var bw := ExpandBandwidth(opts);
            Matches(FieldOf(Get(opts, "public_ip"), "bandwidth"), if bw == map[] then Null else Map(bw))
  {
    var raw := FieldOf(Get(opts, "public_ip"), "bandwidth");
    var bw := ExpandBandwidth(opts);
    ExpandBandwidthShape(opts);
    if !IsEmpty(raw) {
      if bw == map[] {
        forall k | k in raw.fields ensures IsEmpty(raw.fields[k]) {
          assert Carries(bw, k, FieldOf(raw, k));
        }
        AllEmptyMatchesAnything(raw.fields, Null);
      } else {
        forall k | k in raw.fields && !IsEmpty(raw.fields[k])
          ensures FieldOf(Map(bw), k) == raw.fields[k]
        {
          assert Carries(bw, k, FieldOf(raw, k));
        }
        MatchesWhereNonEmptyAgree(raw.fields, Map(bw));
      }
    }
  }

  /** The public IP of the create request, read back in option shape, meets the `public_ip` option. */
  lemma PublicIpRoundTrip(opts: map<string, Value>)
    requires TypedPublicIp(Get(opts, "public_ip"))
    ensures Matches(Get(opts, "public_ip"), ReadPublicIp(ExpandPublicIp(opts)))
  {
    var pip := Get(opts, "public_ip");
    var sent := ExpandPublicIp(opts);
    var read := ReadPublicIp(sent);
    var bw := ExpandBandwidth(opts);
    ExpandPublicIpShape(opts);
    BandwidthRoundTrip(opts);
    if !IsEmpty(pip) {
      var bwRead := if bw == map[] then Null else Map(bw);
      forall k | k in pip.fields ensures Matches(pip.fields[k], FieldOf(read, k)) {
        if sent == Null {
          assert read == Null;
        } else {
          var eip := sent.fields["eip"].fields;
          assert FieldOf(sent, "eip") == Map(eip);
          if k == "type" {
            CarriedMatches(eip, "ip_type", FieldOf(pip, "type"));
          } else {
            assert Get(eip, "bandwidth") == bwRead;
          }
        }
      }
    }
  }

  /** `instance_config` holds the disks and the public IP as sent, None where there are none. */
  lemma InstanceConfigSent(opts: map<string, Value>)
    ensures var c := InstanceConfig(opts);
            var ds := ExpandDisks(opts);
            Get(c, "disk") == (if ds == [] then Null else List(ds)) &&
            Get(c, "public_ip") == ExpandPublicIp(opts)
  {
    InstanceConfigCarries(opts, "disk");
    InstanceConfigCarries(opts, "public_ip");
    ExpandPublicIpShape(opts);
  }

  /**
   * What the body holds for the id, the name, the disks, the public IP and
   * the plainly copied `instance_config` keys agrees with the options.
   */
  predicate BodyAgrees(opts: map<string, Value>, b: map<string, Value>, c: map<string, Value>, disks: Value) {
    Matches(Get(opts, "id"), Get(b, "scaling_configuration_id")) &&
    Carries(b, "scaling_configuration_name", Get(opts, "configuration_name")) &&
    Matches(Get(opts, "disks"), disks) &&
    Matches(Get(opts, "public_ip"), ReadPublicIp(Get(c, "public_ip"))) &&
    Carries(c, "instance_id", Get(opts, "instance_id")) && Carries(c, "flavorRef", Get(opts, "flavor_id")) &&
    Carries(c, "imageRef", Get(opts, "image_id")) && Carries(c, "key_name", Get(opts, "ssh_key_name")) &&
    Carries(c, "adminPass", Get(opts, "admin_pass")) && Carries(c, "user_data", Get(opts, "user_data")) &&
    Carries(c, "metadata", Get(opts, "server_metadata"))
  }

  /**
   * One key of the read shape meets the same key of the identity object,
   * given what the body holds for the id, the name, the disks, the public
   * IP and the plainly copied `instance_config` keys.
   */
  lemma ReadKeyRoundTrip(opts: map<string, Value>, b: map<string, Value>, c: map<string, Value>, disks: Value,
                         k: string)
    requires k in ReadKeys && BodyAgrees(opts, b, c, disks)
    ensures Matches(Get(opts, k), ReadValue(b, c, disks, ReadPublicIp, k))
  {
    if k == "configuration_name" {
      CarriedMatches(b, "scaling_configuration_name", Get(opts, "configuration_name"));
    } else if k !in {"id", "disks", "public_ip"} {
      CarriedMatches(c, WireOf(k), Get(opts, k));
    }
  }

  /**
   * A response body whose id, name, disks, public IP and plainly copied
   * `instance_config` keys agree with the options reads back as a record
   * that matches the identity object.
   */
  lemma ReadBodyMatches(opts: map<string, Value>, body: Value)
    requires body.Map? && Get(body.fields, "instance_config").Map?
    requires var b := body.fields;
             var c := Get(b, "instance_config").fields;
             c != map[] &&
             ReadDisks(Get(c, "disk")).Success? && Matches(Get(opts, "disks"), ReadDisks(Get(c, "disk")).value) &&
             Matches(Get(opts, "id"), Get(b, "scaling_configuration_id")) &&
             Carries(b, "scaling_configuration_name", Get(opts, "configuration_name")) &&
             Matches(Get(opts, "public_ip"), ReadPublicIp(Get(c, "public_ip"))) &&
             Carries(c, "instance_id", Get(opts, "instance_id")) && Carries(c, "flavorRef", Get(opts, "flavor_id")) &&
             Carries(c, "imageRef", Get(opts, "image_id")) && Carries(c, "key_name", Get(opts, "ssh_key_name")) &&
             Carries(c, "adminPass", Get(opts, "admin_pass")) && Carries(c, "user_data", Get(opts, "user_data")) &&
             Carries(c, "metadata", Get(opts, "server_metadata"))
    ensures FillReadRespBody(body).Success? && Matches(Identity(opts), FillReadRespBody(body).value)
  {
    var b := body.fields;
    var c := Get(b, "instance_config").fields;
    var disks := ReadDisks(Get(c, "disk")).value;
    var read := FillReadRespBody(body);
    assert read == Success(Map(Shape(ReadKeys, k => ReadValue(b, c, disks, ReadPublicIp, k))));
    assert BodyAgrees(opts, b, c, disks);
    ReadShapeMatches(opts, b, c, disks);
  }

  /** The read shape built from agreeing body parts matches the identity object. */
  lemma ReadShapeMatches(opts: map<string, Value>, b: map<string, Value>, c: map<string, Value>, disks: Value)
    requires BodyAgrees(opts, b, c, disks)
    ensures Matches(Identity(opts), Map(Shape(ReadKeys, k => ReadValue(b, c, disks, ReadPublicIp, k))))
  {
    var read := Map(Shape(ReadKeys, k => ReadValue(b, c, disks, ReadPublicIp, k)));
    var fs := Identity(opts).fields;
    forall k | k in fs ensures Matches(fs[k], FieldOf(read, k)) {
      ReadKeyRoundTrip(opts, b, c, disks, k);
      assert fs[k] == Get(opts, k);
      assert FieldOf(read, k) == ReadValue(b, c, disks, ReadPublicIp, k);
    }
    MatchesByKeys(fs, read);
  }

  /**
   * What the module creates, read back with the public IP in option
   * shape, matches the module's own identity object: the reconciler finds
   * it again and sees no drift.
   */
  lemma CreatedIsRecognised(opts: map<string, Value>, x: Value)
    requires Typed(opts) && InstanceConfig(opts) != map[]
    requires IsEmpty(Get(opts, "id")) || Get(opts, "id") == x
    ensures var read := FillReadRespBody(Echo(CreateParams(opts), "scaling_configuration_id", x));
            read.Success? && Matches(Identity(opts), read.value)
  {
    EchoShape(opts, x);
    CreateParamsRenames(opts);
    InstanceConfigRenames(opts);
    InstanceConfigSent(opts);
    DisksRoundTrip(opts);
    PublicIpRoundTrip(opts);
    if !IsEmpty(Get(opts, "id")) {
      MatchesReflexive(x);
    }
    ReadBodyMatches(opts, Echo(CreateParams(opts), "scaling_configuration_id", x));
  }

  /** As written, the read shape holds `instance_config.public_ip` exactly as the body does. */
  lemma AsWrittenKeepsWireShape(body: Value)
    requires body.Map? && Get(body.fields, "instance_config").Map?
    requires var c := Get(body.fields, "instance_config").fields;
             c != map[] && ReadDisks(Get(c, "disk")).Success?
    ensures var read := FillReadRespBodyAsWritten(body);
            read.Success? && FieldOf(read.value, "public_ip") == Get(Get(body.fields, "instance_config").fields, "public_ip")
  {
  }

  /**
   * As written, `fill_read_resp_body` copies `public_ip` in its wire shape
   * `{"eip": {"ip_type": ...}}` while the identity object holds the option
   * shape `{"type": ...}`: a configuration created with an IP type never
   * matches its own read-back.
   */
  lemma CreatedWithIpTypeNeverRecognisedAsWritten(opts: map<string, Value>, x: Value)
    requires Typed(opts)
    requires FieldOf(Get(opts, "public_ip"), "type").Str? && FieldOf(Get(opts, "public_ip"), "type") != Str("")
    ensures var read := FillReadRespBodyAsWritten(Echo(CreateParams(opts), "scaling_configuration_id", x));
            read.Success? && !Matches(Identity(opts), read.value)
  {
    var pip := Get(opts, "public_ip");
    var sent := ExpandPublicIp(opts);
    ExpandPublicIpShape(opts);
    AsWrittenReadsSentPublicIp(opts, x);
    var read := FillReadRespBodyAsWritten(Echo(CreateParams(opts), "scaling_configuration_id", x));
    assert FieldOf(sent, "type") == Null;
    assert !Matches(pip.fields["type"], FieldOf(sent, "type"));
    MismatchAt(pip.fields, sent, "type");
    MismatchAt(Identity(opts).fields, read.value, "public_ip");
  }

  /** As written, a created configuration with a public IP reads back with the `eip` dict that was sent. */
  lemma AsWrittenReadsSentPublicIp(opts: map<string, Value>, x: Value)
    requires Typed(opts) && ExpandPublicIp(opts) != Null
    ensures var read := FillReadRespBodyAsWritten(Echo(CreateParams(opts), "scaling_configuration_id", x));
            read.Success? && FieldOf(read.value, "public_ip") == ExpandPublicIp(opts)
  {
    ExpandPublicIpShape(opts);
    InstanceConfigSent(opts);
    assert "public_ip" in InstanceConfig(opts);
    EchoShape(opts, x);
    DisksRoundTrip(opts);
    AsWrittenKeepsWireShape(Echo(CreateParams(opts), "scaling_configuration_id", x));
  }


  /**
   * The module's place in the reconciler, as written: a drifted
   * configuration is rejected, never updated, and responses are read with
   * `public_ip` in wire shape.
   */
  function Configuration(): (res: Resource)
    ensures !res.updatable && res.collection == "scaling_configuration" && res.readId == "id"
    ensures res.responseId == "scaling_configuration_id"
    ensures forall body :: res.fill(body) == FillReadRespBodyAsWritten(body)
  {
    Resource("scaling_configuration", "id", "scaling_configuration_id", false,
             Identity, FillReadRespBodyAsWritten, CreateParams, CreateParams)
  }

  /** The corrected module: the same, but responses are read with `public_ip` in option shape. */
  function CorrectedConfiguration(): (res: Resource)
    ensures !res.updatable && res.collection == "scaling_configuration" && res.readId == "id"
    ensures res.responseId == "scaling_configuration_id"
    ensures forall body :: res.fill(body) == FillReadRespBody(body)
  {
    Resource("scaling_configuration", "id", "scaling_configuration_id", false,
             Identity, FillReadRespBody, CreateParams, CreateParams)
  }

  /** `main` of `hcs_as_configuration`. */
  method Run(t: Transport, opts: map<string, Value>, check: bool) returns (out: Result<Outcome, Error>)
    requires QueryScalar(opts)
    requires Locatable(Configuration(), t.respond, opts, PageTemplate(QueryLink(opts)))
    modifies t`log
    ensures out == Reconciliation(Configuration(), t.respond, opts, PageTemplate(QueryLink(opts)), check).0
    ensures t.log == old(t.log) + Reconciliation(Configuration(), t.respond, opts, PageTemplate(QueryLink(opts)), check).1
  {
    out := Reconcile(t, Configuration(), opts, PageTemplate(QueryLink(opts)), check);
  }

  /**
   * An existing configuration that differs from the options fails with
   * "Cannot change option", whether or not in check mode, and nothing is
   * sent.
   */
  lemma CannotChangeExisting(respond: Request -> Result<Value, string>, opts: map<string, Value>,
                             obj: Value, id: Value, check: bool)
    requires Present(opts) && !Matches(Identity(opts["id" := id]), obj)
    ensures Decide(Configuration(), respond, opts, Some(obj), id, check) == (Failure(CannotChange(id)), [])
  {
    DriftHandling(Configuration(), respond, opts, obj, id, check);
  }

  /**
   * As written, `main` given the id of a configuration it created with an
   * IP type reads it back, sees drift and fails with "Cannot change
   * option", in check mode and out of it.
   */
  lemma AsWrittenMainRejectsOwnCreation(respond: Request -> Result<Value, string>, opts: map<string, Value>,
                                        x: Value, template: string, check: bool)
    requires Present(opts) && Typed(opts) && Truthy(x) && Get(opts, "id") == x
    requires FieldOf(Get(opts, "public_ip"), "type").Str? && FieldOf(Get(opts, "public_ip"), "type") != Str("")
    requires respond(Read("scaling_configuration", x)) == Success(Echo(CreateParams(opts), "scaling_configuration_id", x))
    ensures Reconciliation(Configuration(), respond, opts, template, check)
              == (Failure(CannotChange(x)), [Read("scaling_configuration", x)])
  {
    var body := Echo(CreateParams(opts), "scaling_configuration_id", x);
    CreatedWithIpTypeNeverRecognisedAsWritten(opts, x);
    var obj := FillReadRespBodyAsWritten(body).value;
    RejectById(Configuration(), respond, opts, template, check, body, obj);
  }

  /**
   * As written, a listing page that holds a configuration created with an
   * IP type keeps nothing of it, so a search for it finds nothing and
   * `main` creates it again.
   */
  lemma AsWrittenSearchSkipsOwnCreation(opts: map<string, Value>, x: Value)
    requires Typed(opts)
    requires FieldOf(Get(opts, "public_ip"), "type").Str? && FieldOf(Get(opts, "public_ip"), "type") != Str("")
    ensures FilterMatches(Identity(opts), FillReadRespBodyAsWritten,
                          [Echo(CreateParams(opts), "scaling_configuration_id", x)]) == Success([])
  {
    var body := Echo(CreateParams(opts), "scaling_configuration_id", x);
    CreatedWithIpTypeNeverRecognisedAsWritten(opts, x);
    FilterOne(Identity(opts), FillReadRespBodyAsWritten, body);
  }

  /**
   * Corrected, `main` given the id of a configuration it created reads it
   * back, sees no drift and reports nothing changed, sending nothing else.
   */
  lemma CorrectedMainKeepsOwnCreation(respond: Request -> Result<Value, string>, opts: map<string, Value>,
                                      x: Value, template: string, check: bool)
    requires Present(opts) && Typed(opts) && InstanceConfig(opts) != map[] && Truthy(x) && Get(opts, "id") == x
    requires respond(Read("scaling_configuration", x)) == Success(Echo(CreateParams(opts), "scaling_configuration_id", x))
    ensures Reconciliation(CorrectedConfiguration(), respond, opts, template, check)
              == (Success(Outcome(false, x, None)), [Read("scaling_configuration", x)])
  {
    var body := Echo(CreateParams(opts), "scaling_configuration_id", x);
    CreatedIsRecognised(opts, x);
    var obj := FillReadRespBody(body).value;
    KeepById(CorrectedConfiguration(), respond, opts, template, check, body, obj);
  }

  /** The module never issues an update. */
  lemma NeverUpdates(respond: Request -> Result<Value, string>, opts: map<string, Value>,
                     found: Option<Value>, id: Value, check: bool)
    ensures var calls := Decide(Configuration(), respond, opts, found, id, check).1;
            forall i :: 0 <= i < |calls| ==> !calls[i].Update?
  {
  }
}
