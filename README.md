# Auto-scaling modules of the HCS Ansible collection, modelled in Dafny

The model covers three Ansible modules and a separate client helper
module, `module_utils/hcs_utils.py`.
`hcs_as_configuration`, `hcs_as_policy` and `hcs_as_group` each keep one
auto-scaling object of a Huawei Cloud Stack tenant in the state the
playbook's options describe. Each invocation does the same things:

- It locates the remote object, by its `id` or by a paged listing search
  for the identity object (`build_identity_object`).
- It creates, updates, deletes or leaves that object, or fails.
- In check mode it only reports whether anything would change.

The modules differ in their payload builders (`build_create_parameters`
and the `expand_*` helpers), their response readers
(`fill_read_resp_body`), their identity objects and their query links.
The three modules import their `Config` from `ansible.module_utils.hwc_utils`
and do not call `hcs_utils`. That module is modelled on its own: its
helpers merge default HTTP headers into a request's headers, and they
look up and cache service endpoints. As in the source, the cache key
leaves out whether the project or the domain client asked.

Layout, one Dafny module per file:

- `json.dfy` (`Json`): option, payload and response values, with key
  lookup, emptiness (`is_empty_value`) and Python truthiness.
- `diff.dfy` (`Diff`): the meaning assumed for `are_different_dicts`. It
  is a sparse overlay: an empty desired value asks for nothing, and a
  dict asks only about its own keys.
- `query.dfy` (`Query`): covers three things:
  - `build_query_link`;
  - Python's `str()` of a filter value;
  - `link.format(start_number=n)` for a bare `{start_number}` field, and
    the unpaired-brace errors (see "Left out" for the field syntax that
    is not covered).
- `remote.dfy` (`Remote`): the requests the `send_*_request` helpers issue,
  the ways an invocation fails, and a transport object that logs every
  request.
- `projection.dfy` (`Projection`): the "copy every non-empty value" step
  the builders share.
- `locator.dfy` (`Locator`): `search_resource`. The paging loop is a
  method, and it is proved to compute a specification function of the
  provider's answers.
- `reconciler.dfy` (`Reconciler`): the decision table of `main`, as
  functions and as methods proved against them.
- `configuration.dfy`, `policy.dfy`, `group.dfy` (`AsConfiguration`,
  `AsPolicy`, `AsGroup`): the per-module builders, readers, identity
  objects and query links. Each also has its `main`, and round-trip
  lemmas proving that what a module creates is recognised again as the
  same object with no drift. For the configuration, `main` is modelled as
  written, and that round trip fails when a public IP type is set (see
  "Findings"). A separately named corrected reader, and the corrected
  `main` built on it, carry the intended round trip.
- `hcs_utils.dfy` (`HcsUtils`): `_ServiceClient` and its header merge,
  and `Config` with its endpoint cache and client choice.

Terms used below:

- The "read shape" is the dict `fill_read_resp_body` returns. Its keys
  are the option names.
- "Corrected" marks a member that models what the code evidently
  intends where the code as written differs. Each such member is paired
  with an "as written" one, and the "Findings" table lists both.
- `Matches(d, o)` stands for `not are_different_dicts(d, o)`.
- `Echo(body, k, x)` is the object the provider returns for a create
  request: the body as sent, with the new id `x` under `k`.

## Model

| member | source | states |
|---|---|---|
| Json.FalsyIsEmptyOrZero | library/hcs_as_configuration.py:227 | A value is falsy exactly when it is empty per `is_empty_value`, or is 0 or False. |
| Json.IsEmpty | library/hcs_as_configuration.py:420 | `is_empty_value`, as documented (None, "", [] and {}); used by `FalsyIsEmptyOrZero` and every builder lemma. |
| Json.Truthy | library/hcs_as_configuration.py:411 | Python truthiness (`if not v`); related to emptiness by `FalsyIsEmptyOrZero`. |
| Diff.Matches | library/hcs_as_configuration.py:255 | `not are_different_dicts(desired, observed)` as a sparse overlay; stated by the `Diff` lemmas below. |
| Diff.MatchesReflexive | library/hcs_as_configuration.py:255 | Every value matches itself. |
| Diff.AllEmptyMatchesAnything | library/hcs_as_configuration.py:255 | A desired dict whose values are all empty matches any observed value. |
| Diff.MatchesWhereNonEmptyAgree | library/hcs_as_configuration.py:255 | A desired dict matches any observed value that agrees with it on every non-empty key. |
| Diff.IgnoredKeyIrrelevant | library/hcs_as_configuration.py:255 | Changing an observed key that the desired dict leaves out, or leaves empty, never changes the verdict. |
| Diff.MismatchAt | library/hcs_as_configuration.py:255 | One unmet non-empty desired key makes the whole dict unmet. |
| Projection.NonEmptyPart | library/hcs_as_policy.py:377-413 | The builder dict holds exactly the table keys whose value is non-empty, each with its value. |
| Projection.CarriedMatches | library/hcs_as_policy.py:377-413 | A value the builder carries under a key is matched by what is found under that key. |
| Query.IntToString | library/hcs_as_policy.py:528-545 | `str(i)` is non-empty decimal digits, with a leading '-' exactly for negative numbers. |
| Query.PyStr | library/hcs_as_policy.py:531-538 | `str(v)` of a filter value; stated by `IntToString` and `RenderFalsyFilters`. |
| Query.Render | library/hcs_as_policy.py:531-538 | `str(v) if v else str(v).lower()`; stated by `RenderFalsyFilters`. |
| Query.BuildQueryLink | library/hcs_as_policy.py:528-545 | `build_query_link`; stated by `TermsAreSuffix`, `QueryLinkShape` and `TwoFilterLink`. |
| Query.Lower | library/hcs_as_policy.py:534 | `lower()` keeps the length and lowers exactly the ASCII capitals. |
| Query.Terms | library/hcs_as_policy.py:528-545 | There is at most one `name=value` term per filter. |
| Query.AmpJoin | library/hcs_as_policy.py:542-543 | `"&" + "&".join(ts)` for a non-empty list, and nothing for an empty one, puts `&` in front of each term. |
| Query.TermsAreSuffix | library/hcs_as_policy.py:528-545 | The joined terms equal the reference tail: `&name=value` for exactly the included filters, in order. |
| Query.QueryLinkShape | library/hcs_as_policy.py:528-545 | The link is the fixed `?limit=10&start_number={start_number}` template followed by that tail. |
| Query.TwoFilterLink | library/hcs_as_policy.py:528-545 | With two filters, the link is the template, then the first filter's term, then the second's; a term is present only when its value is truthy, False or 0. |
| Query.TwoFilterPage | library/hcs_as_policy.py:304-306 | A page link over two filters is the path, the template, then each included filter in order. |
| Query.RenderFalsyFilters | library/hcs_as_policy.py:531-538 | False is written `false`; 0 and True are written as `str()` prints them; None and "" are left out. |
| Query.Find | library/hcs_as_policy.py:311 | `find` returns the first occurrence at or after the start, or none. |
| Query.FormatBraceFreePrefix | library/hcs_as_policy.py:311 | `format` copies text without braces unchanged in front of what follows. |
| Query.FormatField | library/hcs_as_policy.py:311 | `format` replaces `{start_number}` with the decimal digits of the start number. |
| Query.Format | library/hcs_as_policy.py:311 | `link.format(start_number=n)` for a bare field; stated by the `Format…` lemmas. The field syntax not covered is under "Left out". |
| Query.FormatBraceFree | library/hcs_as_policy.py:311 | `format` returns brace-free text unchanged. |
| Query.FormatLink | library/hcs_as_policy.py:304-311 | For a brace-free path and filters, formatting gives the path, `?limit=10&start_number=`, the digits and the filter terms. |
| Query.FormatLinkTextRaises | library/hcs_as_policy.py:304-311 | A filter value ending in an unpaired `}` makes the format step raise instead of producing a URL. |
| Remote.Transport.Send | library/hcs_as_policy.py:425-488 | A request is answered by the provider's response function and is appended to the log. |
| Locator.FilterMatchesSound | library/hcs_as_policy.py:316-319 | Filtering a page keeps at most its items, and every item kept matches the identity object. |
| Locator.FilterOne | library/hcs_as_policy.py:316-319 | A single item is kept exactly when it is filled and matches, and a malformed item fails the page. |
| Locator.ReadPage | library/hcs_as_policy.py:311-319 | One page of the search; stated by `ReadPageMatches` and `PageRequests`. |
| Locator.Collect | library/hcs_as_policy.py:310-324 | The paging loop as a function of the pages, defined on every listing whose search stops (either break) and counting down to the stopping page; stated by `CollectStops`, `CollectRequests` and `CollectMatches`. |
| Locator.Search | library/hcs_as_policy.py:299-326 | `search_resource`; stated by `SearchMatches`, `SearchRequests` and `SearchStops`. |
| Locator.PageRequests | library/hcs_as_policy.py:311-312 | A page issues one list request at its formatted URL, or none when formatting raised. |
| Locator.CollectAdvance | library/hcs_as_policy.py:310-324 | A page that leaves at most one match continues the search at the next page, with `start_number` 10 higher. |
| Locator.CollectStop | library/hcs_as_policy.py:310-324 | An error or an empty page ends the search with the outcome of that page. |
| Locator.CollectRequests | library/hcs_as_policy.py:310-324 | Request `i` of the search is the request of page `i`. |
| Locator.CollectStops | library/hcs_as_policy.py:310-324 | The search stops at the first empty page, or at the first page where more than one item has matched. Every earlier page listed items, and the result is every match up to the stop. |
| Locator.SearchMatches | library/hcs_as_policy.py:299-326 | Every object the search returns matches the identity object. |
| Locator.SearchRequests | library/hcs_as_policy.py:299-326 | The search issues only list requests; request `i` is at the URL formatted with `start_number = 10*i`. |
| Locator.SearchStops | library/hcs_as_policy.py:299-326 | The stopping rule above holds for the whole search, from its first page. |
| Locator.AppendTo | library/hcs_as_policy.py:316-319 | Appending to a result keeps an error, and prepends the items to a success. |
| Locator.MatchItems | library/hcs_as_policy.py:316-319 | The per-item loop computes the filter specification: fill each item, keep it when it matches, and stop at the first malformed item. |
| Locator.FetchPage | library/hcs_as_policy.py:311-319 | One pass of the loop body yields page `j` of the listing and logs exactly its request. |
| Locator.SearchResource | library/hcs_as_policy.py:299-326 | The paging loop returns the specified search result and logs exactly the specified requests. |
| Locator.SearchPages | library/hcs_as_policy.py:310-326 | The `while True` loop over any listing whose search stops: it returns the result of `Collect` from page 0 and logs exactly its requests. It exits at a failing page, at an empty page (`if not r: break`) and once more than one item has matched (`if len(result) > 1: break`). |
| Locator.EndOf | library/hcs_as_policy.py:321-322 | A page by which the search stops: it is empty or fails, or the pages up to it match more than one item in all. |
| Locator.NotStoppedBefore | library/hcs_as_policy.py:313-322 | While every page so far listed items and they matched at most one in all, neither break has been taken, so the search has not passed its stopping page. |
| Locator.CollectFromStart | library/hcs_as_policy.py:310-324 | The search from page 0 is the search from page `j` with the matches of pages 0 .. j - 1, after their requests. |
| Locator.CollectEndsAt | library/hcs_as_policy.py:311-322 | A failing page, an empty page, or a page that brings the matches above one ends the search from page 0 there, with that outcome. |
| Locator.CollectGoesOn | library/hcs_as_policy.py:321-324 | A page that leaves at most one match moves the search to the next page, one page further on and still before its stopping page. |
| Locator.CollectStopsFromStart | library/hcs_as_policy.py:310-326 | A successful search from page 0 stops at its last page, by the rule of `CollectStops`. |
| Reconciler.Ids | library/hcs_as_policy.py:204-208 | The ambiguity message lists each match's id, in search order. |
| Reconciler.Locate | library/hcs_as_policy.py:197-212 | Locating the object; stated by `LocateReadsOnly`, `LocatedMatches` and `AmbiguousFails`. |
| Reconciler.Decide | library/hcs_as_policy.py:216-242 | The decision table of `main`; stated by `DecideChanges`, `CheckModePredicts`, `DriftHandling`, `NoOp` and `CreateTakesResponseId`. |
| Reconciler.Reconciliation | library/hcs_as_policy.py:189-242 | One invocation: locate, then decide; stated by `ReconcileById`, `CheckModeIssuesNoMutation` and `AmbiguousFails`. |
| Reconciler.ReconcileById | library/hcs_as_policy.py:197-200 | With an id, `main` reads that object, fills it, and decides on it; the read is the first request. |
| Reconciler.RejectById | library/hcs_as_policy.py:222-228 | With an id, an object that reads back drifted, for a module that cannot update, fails with "Cannot change option" after the read alone. |
| Reconciler.KeepById | library/hcs_as_policy.py:216-221 | With an id, an object that reads back as described gives `changed=False`, with nothing sent after the read. |
| Reconciler.DecideChanges | library/hcs_as_policy.py:216-242 | At most one request is issued, and it is a mutation. `changed` holds exactly when a create, update or delete is due. Check mode issues nothing and records no action. Otherwise a run records an action exactly when it sent a request. |
| Reconciler.CheckModePredicts | library/hcs_as_policy.py:216-242 | Check mode gives the real run's `changed` verdict and sends nothing. |
| Reconciler.DriftHandling | library/hcs_as_policy.py:222-228 | A drifted present object is rejected with no request when the module cannot update it. Otherwise it is updated by exactly one request. |
| Reconciler.NoOp | library/hcs_as_policy.py:216-239 | A matching present object, or an absent object that is not there, gives `changed=False` and no request. |
| Reconciler.CreateTakesResponseId | library/hcs_as_policy.py:264-270 | A create sends the create body and reports the id from the response. |
| Reconciler.LocateReadsOnly | library/hcs_as_policy.py:197-212 | Locating issues one read by id, or the search's list requests, and never a mutation. |
| Reconciler.AmbiguousFails | library/hcs_as_policy.py:202-208 | More than one match fails with every match's id, and nothing is mutated. |
| Reconciler.LocatedMatches | library/hcs_as_policy.py:210-212 | A located object matches the identity object, and its id becomes `params['id']`. |
| Reconciler.CheckModeIssuesNoMutation | library/hcs_as_policy.py:189-242 | In check mode the whole invocation sends no mutation. |
| Reconciler.Call | library/hcs_as_policy.py:425-435 | A provider error becomes an API error naming the call; a response is passed through; the call is logged. |
| Reconciler.LocateResource | library/hcs_as_policy.py:197-212 | Locating returns the specified object and id, and logs exactly the specified requests. |
| Reconciler.Apply | library/hcs_as_policy.py:216-242 | The decision part computes the decision table and logs exactly its requests. |
| Reconciler.Reconcile | library/hcs_as_policy.py:189-242 | `main` computes the specified reconciliation and logs exactly its requests. |
| AsConfiguration.ExpandDisk | library/hcs_as_configuration.py:404-434 | A request disk holds exactly the non-empty disk sub-options, each with its value. |
| AsConfiguration.ExpandDisks | library/hcs_as_configuration.py:404-434 | `expand_create_disks_param`; stated by `DisksFrom`, `DisksFromKeepsAll` and the loop `ExpandCreateDisksParam`. |
| AsConfiguration.DisksFrom | library/hcs_as_configuration.py:404-434 | The disks keep the input order; each is a non-empty dict of non-empty sub-options. |
| AsConfiguration.DisksFromKeepsAll | library/hcs_as_configuration.py:404-434 | When every disk has something set, no disk is dropped and each is its expansion. |
| AsConfiguration.ExpandCreateDisksParam | library/hcs_as_configuration.py:404-434 | The loop over the `disks` option computes the specified disk list. |
| AsConfiguration.ExpandBandwidthShape | library/hcs_as_configuration.py:454-473 | The bandwidth is empty for an empty option, and otherwise holds exactly its non-empty `charge_mode`, `share` and `size`. |
| AsConfiguration.ExpandBandwidth | library/hcs_as_configuration.py:454-473 | `expand_create_publicip_bandwidth`; stated by `ExpandBandwidthShape`. |
| AsConfiguration.ExpandPublicIp | library/hcs_as_configuration.py:437-451 | `expand_create_publicip`; stated by `ExpandPublicIpShape`. |
| AsConfiguration.ExpandPublicIpShape | library/hcs_as_configuration.py:437-451 | The public IP is None exactly when neither a type nor a bandwidth is set. Otherwise it is `{"eip": r}`, with the type as `ip_type` and the bandwidth in `r` when non-empty. |
| AsConfiguration.InstanceConfig | library/hcs_as_configuration.py:346-401 | `instance_config` holds only known keys, and none of them empty. |
| AsConfiguration.InstanceConfigCarries | library/hcs_as_configuration.py:346-401 | Each `instance_config` key is present exactly when its value is non-empty. |
| AsConfiguration.InstanceConfigRenames | library/hcs_as_configuration.py:346-401 | Gives the renaming table of `instance_config`: `flavor_id→flavorRef`, `image_id→imageRef`, `ssh_key_name→key_name`, `admin_pass→adminPass`, `server_metadata→metadata`, `disks→disk`, and the expanded public IP, each present exactly when non-empty. |
| AsConfiguration.InstanceValueTable | library/hcs_as_configuration.py:346-401 | Names the option each `instance_config` key is computed from. |
| AsConfiguration.Wrap | library/hcs_as_configuration.py:346-401 | The outer body is None exactly when both the name and the config are empty. Otherwise it holds each under its key when non-empty. |
| AsConfiguration.CreateParams | library/hcs_as_configuration.py:346-401 | The body is None exactly when the name is empty and nothing else is set. Otherwise it holds the name and `instance_config`, each when non-empty. |
| AsConfiguration.CreateParamsRenames | library/hcs_as_configuration.py:346-401 | When `instance_config` has something set, the body holds it under `instance_config` and holds the name under `scaling_configuration_name` when non-empty. |
| AsConfiguration.ReadDisk | library/hcs_as_configuration.py:555-568 | A response disk reads back as exactly the disk keys, each copied. |
| AsConfiguration.ReadDiskItems | library/hcs_as_configuration.py:555-568 | Reading fails, as malformed, exactly when some disk is not a dict; otherwise it gives one read-shape disk per item, in order. |
| AsConfiguration.FillReadRespDisks | library/hcs_as_configuration.py:555-568 | The loop computes the specified disk reading: None for no disks. |
| AsConfiguration.ReadDisks | library/hcs_as_configuration.py:555-568 | `fill_read_resp_disks`; stated by `ReadDiskItems` and the loop `FillReadRespDisks`. |
| AsConfiguration.FillWith | library/hcs_as_configuration.py:528-552 | It raises the "instance_config is missing" error exactly for a dict body without a truthy `instance_config`. A success has exactly the read-shape keys. |
| AsConfiguration.ReadPublicIp | library/hcs_as_configuration.py:547 | Corrected: `{"eip": {"ip_type": t, "bandwidth": b}}`, the wire shape, reads back as `{"type": t, "bandwidth": b}`, the option shape; anything else is kept. The source has no such step: it copies the value unchanged. |
| AsConfiguration.FillReadRespBodyRenames | library/hcs_as_configuration.py:528-552 | As written: the read shape renames the wire keys back to the option names, copies `public_ip` exactly as the response holds it, and reads the disks as above. |
| AsConfiguration.FillReadRespBodyAsWritten | library/hcs_as_configuration.py:528-552 | `fill_read_resp_body` as written, with `public_ip` copied unchanged; its properties are stated by `FillWith` and `FillReadRespBodyRenames`. |
| AsConfiguration.FillReadRespBody | library/hcs_as_configuration.py:547 | Corrected `fill_read_resp_body`, reading `public_ip` back with `ReadPublicIp`; its properties are stated by `FillWith` and `CorrectedReadsOnlyPublicIpAnew`. |
| AsConfiguration.CorrectedReadsOnlyPublicIpAnew | library/hcs_as_configuration.py:528-552 | The corrected reader fails exactly where the one as written does. Otherwise it gives the same keys and values, except that `public_ip` is read back in option shape. |
| AsConfiguration.FillWithReaders | library/hcs_as_configuration.py:528-552 | Two readers of `public_ip` give the same outcome and the same record on every key but `public_ip`, where each applies its reader to the response value. |
| AsConfiguration.Identity | library/hcs_as_configuration.py:275-288 | The identity object has exactly the read-shape keys, each holding its option or None. |
| AsConfiguration.QueryLink | library/hcs_as_configuration.py:322-323 | The search link is `scaling_configuration` with the name and image filters. |
| AsConfiguration.QueryLinkFilters | library/hcs_as_configuration.py:571-592 | The link is the template, then `&scaling_configuration_name=…`, then `&image_id=…`, each when included. |
| AsConfiguration.EchoShape | library/hcs_as_configuration.py:291-297 | The created object holds the new id and the `instance_config` that was sent. |
| AsConfiguration.DiskRoundTrip | library/hcs_as_configuration.py:404-434 | A disk option, expanded and read back, matches itself. |
| AsConfiguration.DisksRoundTrip | library/hcs_as_configuration.py:555-568 | The disks sent, read back, match the `disks` option. |
| AsConfiguration.BandwidthRoundTrip | library/hcs_as_configuration.py:454-473 | The bandwidth sent matches the `public_ip.bandwidth` option. |
| AsConfiguration.PublicIpRoundTrip | library/hcs_as_configuration.py:437-451 | The public IP sent, read back in option shape, matches the `public_ip` option. |
| AsConfiguration.InstanceConfigSent | library/hcs_as_configuration.py:346-401 | `instance_config` holds the disks and the public IP as sent, or they are absent. |
| AsConfiguration.ReadKeyRoundTrip | library/hcs_as_configuration.py:528-552 | Corrected reader: each read-shape key matches the identity object's key, given agreeing body parts. |
| AsConfiguration.ReadShapeMatches | library/hcs_as_configuration.py:528-552 | Corrected reader: a read shape built from agreeing body parts matches the identity object. |
| AsConfiguration.ReadBodyMatches | library/hcs_as_configuration.py:528-552 | Corrected reader: a body that agrees with the options reads back as a match of the identity object. |
| AsConfiguration.CreatedIsRecognised | library/hcs_as_configuration.py:240-257 | Corrected reader: the configuration the module creates reads back as a match of its identity object, so it would be found again with no drift. |
| AsConfiguration.AsWrittenKeepsWireShape | library/hcs_as_configuration.py:547 | As written, `public_ip` is copied in the stored wire form. |
| AsConfiguration.AsWrittenReadsSentPublicIp | library/hcs_as_configuration.py:547 | As written, a created configuration with a public IP reads back with the `{"eip": …}` dict that was sent. |
| AsConfiguration.CreatedWithIpTypeNeverRecognisedAsWritten | library/hcs_as_configuration.py:547 | As written, a configuration created with an IP type never matches its own read-back. |
| AsConfiguration.Configuration | library/hcs_as_configuration.py:253-258 | As written: a drifted configuration is rejected, never updated; the id is read from `scaling_configuration_id`; responses are read by `FillReadRespBodyAsWritten`. |
| AsConfiguration.CorrectedConfiguration | library/hcs_as_configuration.py:253-258 | Corrected: the same module, with responses read by the corrected `FillReadRespBody`. |
| AsConfiguration.Run | library/hcs_as_configuration.py:220-272 | `main` as written computes the reconciliation for this module, with the as-written reader. |
| AsConfiguration.CannotChangeExisting | library/hcs_as_configuration.py:253-258 | A drifted existing configuration fails with "Cannot change option", in check mode too, and sends nothing. |
| AsConfiguration.NeverUpdates | library/hcs_as_configuration.py:247-264 | The module never sends an update. |
| AsConfiguration.AsWrittenMainRejectsOwnCreation | library/hcs_as_configuration.py:240-258 | As written: given the id of a configuration it created with an IP type, `main` reads it, fails with "Cannot change option" in both modes, and sends nothing after the read. |
| AsConfiguration.AsWrittenSearchSkipsOwnCreation | library/hcs_as_configuration.py:333-336 | As written: a listing page holding a configuration created with an IP type keeps nothing, so the search misses it and `main` creates it again. |
| AsConfiguration.CorrectedMainKeepsOwnCreation | library/hcs_as_configuration.py:240-257 | Corrected: given the id of a configuration it created, `main` reads it, reports `changed=False` and sends nothing after the read. |
| AsPolicy.ExpandSubOptionsShape | library/hcs_as_policy.py:329-374 | `scheduled_policy` and `policy_action` expand to None exactly when the option is falsy, and otherwise to their non-empty known sub-options. |
| AsPolicy.ExpandSubOptions | library/hcs_as_policy.py:329-374 | The sub-dict expansion; stated by `ExpandSubOptionsShape`. |
| AsPolicy.CreateParams | library/hcs_as_policy.py:377-413 | `build_create_parameters`; stated by `CreateFields` and `CreateParamsRenames`. |
| AsPolicy.UpdateParams | library/hcs_as_policy.py:416-422 | `build_update_parameters` under Python 2; stated by `UpdateDropsOnlyGroup`. |
| AsPolicy.CreateFields | library/hcs_as_policy.py:377-413 | The create body holds only known keys, and none of them empty. |
| AsPolicy.CreateParamsRenames | library/hcs_as_policy.py:377-413 | Gives the renaming table `group_id→scaling_group_id`, `policy_name/type/action→scaling_policy_*`, with alarm, schedule and cool-down under their own names, each when non-empty. |
| AsPolicy.UpdateDropsOnlyGroup | library/hcs_as_policy.py:416-422 | The update body is the create body with exactly `scaling_group_id` removed. |
| AsPolicy.ReadSub | library/hcs_as_policy.py:491-525 | A nested response dict is None when falsy and malformed when it is not a dict; otherwise it gives exactly its fixed sub-keys. |
| AsPolicy.FillReadRespBody | library/hcs_as_policy.py:491-525 | It succeeds exactly for a dict body whose action and schedule are falsy or dicts; otherwise the response is malformed. A success has exactly the 8 read-shape keys. |
| AsPolicy.FillReadRespBodyShape | library/hcs_as_policy.py:491-525 | The read shape copies six keys and projects the action and the schedule. |
| AsPolicy.Identity | library/hcs_as_policy.py:245-261 | The identity object has exactly the read-shape keys, each holding its option or None. |
| AsPolicy.QueryLink | library/hcs_as_policy.py:304-306 | The search link is the group's `scaling_policy/{group_id}/list` path with the name and type filters. |
| AsPolicy.ListPath | library/hcs_as_policy.py:304 | `build_path(module, "scaling_policy/{group_id}/list")`; part of `QueryLinkFilters`. |
| AsPolicy.QueryLinkFilters | library/hcs_as_policy.py:528-545 | The link is the path, the template, then `&scaling_policy_name=…` and `&scaling_policy_type=…`, each when included. |
| AsPolicy.Policy | library/hcs_as_policy.py:222-228 | A drifted policy is updated; the id is read from `scaling_policy_id`. |
| AsPolicy.Run | library/hcs_as_policy.py:189-242 | `main` computes the reconciliation for this module. |
| AsPolicy.DriftUpdates | library/hcs_as_policy.py:222-228 | A drifted policy gets exactly one update request carrying the update body. A matching policy gets nothing. |
| AsPolicy.SubRoundTrip | library/hcs_as_policy.py:329-374 | A sub-dict sent and read back matches its option. |
| AsPolicy.ReadKeyMatches | library/hcs_as_policy.py:491-525 | Each read-shape key matches the identity object's key, given agreeing body parts. |
| AsPolicy.ReadShapeMatches | library/hcs_as_policy.py:491-525 | A read shape built from agreeing body parts matches the identity object. |
| AsPolicy.ReadBodyMatches | library/hcs_as_policy.py:491-525 | A body that agrees with the options reads back as a match of the identity object. |
| AsPolicy.CreatedIsRecognised | library/hcs_as_policy.py:216-229 | The policy the module creates reads back as a match of its identity object, so it is found again with no drift. |
| AsGroup.Refs | library/hcs_as_group.py:373-378 | There is one `{"id": i}` reference per id, in order. |
| AsGroup.RefIds | library/hcs_as_group.py:218-242 | The ids named by the references, in order. |
| AsGroup.RefIdsInvertsRefs | library/hcs_as_group.py:373-378 | Reading the ids back from the references gives the listed ids. |
| AsGroup.ExpandNetworks | library/hcs_as_group.py:373-378 | The networks are None exactly when the option is falsy, and otherwise one reference per listed id. |
| AsGroup.ExpandSecurityGroups | library/hcs_as_group.py:381-386 | The security group is None exactly when the option is falsy, and otherwise a one-element reference list. |
| AsGroup.ReferencesNameTheOptions | library/hcs_as_group.py:373-386 | The references sent name exactly the networks, in order, and the security group. |
| AsGroup.CreateFields | library/hcs_as_group.py:309-370 | The create body holds only known keys, and none of them empty. |
| AsGroup.CreateParams | library/hcs_as_group.py:309-370 | `build_create_parameters`; stated by `CreateFields`, `CreateFieldsCarry` and `CreateParamsRenames`. |
| AsGroup.UpdateParams | library/hcs_as_group.py:389-395 | `build_update_parameters` under Python 2; stated by `UpdateDropsOnlyVpc`. |
| AsGroup.CreateFieldsCarry | library/hcs_as_group.py:309-370 | Each create key is present exactly when its value is non-empty. |
| AsGroup.CreateParamsRenames | library/hcs_as_group.py:309-370 | Gives the renaming table `group_name→scaling_group_name`, `configuration_id→scaling_configuration_id`, the other fields under their own names, and the networks and the security group as references. |
| AsGroup.AuditPairing | library/hcs_as_group.py:340-343 | A non-empty audit period is sent together with `NOVA_AUDIT`; an empty one sends neither. |
| AsGroup.UpdateDropsOnlyVpc | library/hcs_as_group.py:389-395 | The update body is the create body with exactly `vpc_id` removed. |
| AsGroup.FillReadRespBody | library/hcs_as_group.py:464-487 | It succeeds exactly for a dict body, and then copies all 15 read-shape keys; anything else is malformed. |
| AsGroup.Identity | library/hcs_as_group.py:218-242 | The identity object has exactly the read-shape keys. |
| AsGroup.IdentityValue | library/hcs_as_group.py:218-242 | What the identity object holds under each key; stated by `IdentityShape` and `IdentityAgreesWithCreate`. |
| AsGroup.IdentityShape | library/hcs_as_group.py:218-242 | The identity object's status is None, and it holds the networks and the security group as the references sent. |
| AsGroup.StatusNeverDrifts | library/hcs_as_group.py:218-242 | The remote group's status never makes it differ from the options. |
| AsGroup.QueryLink | library/hcs_as_group.py:285-286 | The search link is `scaling_group` with the name and configuration filters. |
| AsGroup.QueryLinkFilters | library/hcs_as_group.py:490-511 | The link is the template, then `&scaling_group_name=…` and `&scaling_configuration_id=…`, each when included. |
| AsGroup.Group | library/hcs_as_group.py:195-201 | A drifted group is updated; the id is read from `scaling_group_id`. |
| AsGroup.Run | library/hcs_as_group.py:162-215 | `main` computes the reconciliation for this module. |
| AsGroup.ReadKeyMatches | library/hcs_as_group.py:464-487 | Each key of the created group, read back, matches the identity object's key. |
| AsGroup.IdentityAgreesWithCreate | library/hcs_as_group.py:218-242 | Every read-shape key except the id and the status is sent, with the value the identity object holds for it. |
| AsGroup.CreatedIsRecognised | library/hcs_as_group.py:189-202 | The group the module creates reads back as a match of its identity object, so it is found again with no drift. |
| HcsUtils.DefaultHeader | module_utils/hcs_utils.py:26-29 | The default header is exactly `User-Agent: Huawei-Ansible-MM-<product>` and `Accept: application/json`. |
| HcsUtils.MergedShape | module_utils/hcs_utils.py:59-67 | Merging adds each default key the caller lacks, keeps the caller's values and adds nothing else. |
| HcsUtils.MergedIdempotent | module_utils/hcs_utils.py:59-67 | Merging the defaults twice is the same as merging them once. |
| HcsUtils.Merged | module_utils/hcs_utils.py:59-67 | The merged header; stated by `MergedShape` and `MergedIdempotent`. |
| HcsUtils.ServiceClient.constructor | module_utils/hcs_utils.py:23-29 | A new client holds its client, its endpoint and a fresh default header. |
| HcsUtils.ServiceClient.SetEndpoint | module_utils/hcs_utils.py:35-37 | The setter replaces the endpoint. |
| HcsUtils.ServiceClient.Header | module_utils/hcs_utils.py:59-67 | A non-empty header dict gets the missing defaults written in place and is returned. Anything else returns the default header, with nothing changed. |
| HcsUtils.CacheKeyFormat | module_utils/hcs_utils.py:116 | The cache key is `<service_type>.<region>`; a missing or empty region reads as "". |
| HcsUtils.NormalizeShape | module_utils/hcs_utils.py:132-133 | The URL ends with `/`, at most one `/` is appended, and normalising again changes nothing. |
| HcsUtils.NoneEndpointRaisesAsWritten | module_utils/hcs_utils.py:121-133 | As written, a catalogue that returns None makes `url[-1]` raise, instead of reporting the missing endpoint. |
| HcsUtils.ResolveReportsMissing | module_utils/hcs_utils.py:121-137 | Corrected: both None and "" are reported as "Can not find the endpoint". A URL found is returned normalised; a lookup error is reported as "Getting endpoint … failed". |
| HcsUtils.ResolveAgreesBesideNone | module_utils/hcs_utils.py:121-133 | The lookup as written and the corrected one agree on every catalogue answer except None. For None the first raises at `url[-1]` and the second reports "Can not find". |
| HcsUtils.ResolveAsWritten | module_utils/hcs_utils.py:121-133 | One catalogue answer, resolved as written; stated by `NoneEndpointRaisesAsWritten` and `ResolveAgreesBesideNone`. |
| HcsUtils.Resolve | module_utils/hcs_utils.py:121-137 | Corrected resolution of one catalogue answer; stated by `ResolveReportsMissing`. |
| HcsUtils.CacheHitNoLookup | module_utils/hcs_utils.py:118-119 | A cache hit returns the stored URL, asks the catalogue nothing and keeps the cache. |
| HcsUtils.EmptyEndpointLeavesCache | module_utils/hcs_utils.py:128-130 | A miss answered with "" fails with "Can not find the endpoint", caches nothing, and counts as a lookup. |
| HcsUtils.NoneEndpointLeavesCache | module_utils/hcs_utils.py:121-133 | As written: a miss answered with None raises at `url[-1]`, caches nothing, and counts as a lookup. |
| HcsUtils.LookupEndpoint | module_utils/hcs_utils.py:115-137 | `_get_service_endpoint` on a cache, as written; stated by `CacheHitNoLookup`, the two `…LeavesCache` lemmas and `LookupKeepsCacheValid`. |
| HcsUtils.CacheKey | module_utils/hcs_utils.py:116 | The cache key; stated by `CacheKeyFormat`. |
| HcsUtils.Normalize | module_utils/hcs_utils.py:132-133 | The trailing-slash step; stated by `NormalizeShape`. |
| HcsUtils.LookupKeepsCacheValid | module_utils/hcs_utils.py:115-137 | Every cached URL ends with `/`. A success is cached under its key and nothing else changes; a failure changes nothing. |
| HcsUtils.ClientFor | module_utils/hcs_utils.py:87-89 | The domain client is chosen exactly when the service level is "domain". |
| HcsUtils.Config.GetServiceEndpoint | module_utils/hcs_utils.py:115-137 | As written, the method computes the specified lookup (None raises at `url[-1]`), keeps the cache invariant, and records a catalogue lookup exactly on a miss. |
| HcsUtils.Config.Client | module_utils/hcs_utils.py:86-93 | It uses the chosen client's endpoint and returns a fresh service client with the product's default header, or the lookup's error. It keeps the cache invariant, and records a catalogue lookup exactly on a miss. |

## Left out

- The `send_*_request` helpers, keystoneauth sessions and authentication are not modelled. The model replaces them with a transport that answers each request by a fixed function and logs it. Message texts of errors and `fail_json` are kept only as which error occurred.
- `ansible.module_utils.hwc_utils` is not part of this model, so its helpers are modelled by their documented behaviour:
  - `navigate_value`: a missing key or a non-dict reads as None;
  - `is_empty_value`;
  - `are_different_dicts`, as the sparse overlay in `Diff.Matches`. Scalars are compared as values of distinct kinds, so `1` and `True` (or `0` and `False`) differ, where Python's `==` finds them equal;
  - `build_path`;
  - `HwcClientException`.
- `build_module`, argument validation and `HcsModule` are not modelled: options arrive as an already-validated map. The `type='str'` options that the query links embed are assumed to be scalars (the `QueryScalar` requires of each `Run`).
- Locator.SearchResource: requires that the search stops (`ListingEnds`): some page is empty or fails, or the pages up to some page match more than one item in all. These are the loop's own exits (library/hcs_as_policy.py:313-314 and :321-322, library/hcs_as_group.py:301-302, library/hcs_as_configuration.py:338-339). Only a listing that never returns an empty page and never matches a second item is excluded. On such a listing the source loops without bound.
- AsConfiguration.ExpandCreateDisksParam: a truthy `disks` value that is not a list is read as having no elements. Argument validation declares `disks` a list of dicts (library/hcs_as_configuration.py:198), so such a value never arrives. What `navigate_value` would do with one is not visible here.
- AsGroup.ExpandNetworks: a truthy `networks` value that is not a list is read as having no elements. The comprehension would instead give one reference per character of a string or per key of a dict. Argument validation declares `networks` a list (library/hcs_as_group.py:151), so such a value never arrives.
- AsPolicy.UpdateParams: follows Python 2, where `dict.has_key` exists (library/hcs_as_policy.py:419). Under Python 3 that call raises AttributeError, so every update fails through `fail_json` before anything is sent. The model sends the update body.
- AsGroup.UpdateParams: follows Python 2's `dict.has_key` in the same way (library/hcs_as_group.py:392). Under Python 3 every group update fails before it is sent.
- Query.Format: only a bare `{start_number}` field is formatted. A format spec (`{start_number:d}`), a conversion (`{start_number!r}`) or an attribute (`{start_number.real}`) after the name is read as an error, where Python formats it. Such a field can only come from a filter value that contains braces.
- The payload builders are functions, not methods: the source builds each dict with straight-line assignments to a fresh local dict, with no loop and no shared state.
- The round-trip lemmas (`CreatedIsRecognised`) assume the provider stores a create body as sent, plus the new id (`Echo`). The provider's actual storage and defaults are not visible here.
- `Config._validate` and `_gen_provider_client` (credentials, sessions) are not modelled: `GetServiceEndpoint` and `Client` take the catalogue lookup as a function parameter.
- The `get`/`post`/`put`/`delete` wrappers of `_ServiceClient` are not modelled beyond `Header`: they only forward to the session.

## Findings

| source | as written | input that shows it | evidently intended | confidence | as-written member | corrected member |
|---|---|---|---|---|---|---|
| library/hcs_as_configuration.py:547 | `fill_read_resp_body` copies `instance_config.public_ip` in its wire shape `{"eip": {"ip_type": …, "bandwidth": …}}`, but `build_identity_object` holds the option shape `{"type": …, "bandwidth": …}` | a `public_ip` option of `{"type": "5_bgp"}`: the created configuration reads back with `{"eip": {"ip_type": "5_bgp"}}`, which does not match | the public IP is read back in option shape, so a configuration is recognised again; as written, a search finds nothing and creates a duplicate, and a read by id fails with "Cannot change option" | high, not executed | AsConfiguration.CreatedWithIpTypeNeverRecognisedAsWritten | AsConfiguration.CreatedIsRecognised |
| module_utils/hcs_utils.py:121-133 | only `url == ""` is reported as a missing endpoint; a catalogue answer of None reaches `url[-1]` and raises a TypeError | `get_endpoint` returning None for a service type the catalogue lacks | None is reported as "Can not find the endpoint for …", like "" | medium, not executed | HcsUtils.NoneEndpointRaisesAsWritten | HcsUtils.ResolveReportsMissing |
