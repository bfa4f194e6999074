/**
 * The desired-state step every auto-scaling module's `main` performs:
 * locate the remote object (by explicit id, or by searching for the
 * identity object), then create, update, delete or leave it, or fail.
 * Check mode reports whether anything would change without issuing the
 * mutating call.
 */
module Reconciler {
  import opened Wrappers
  import opened Json
  import opened Diff
  import opened Query
  import opened Remote
  import opened Locator

  /** `result['action']`. */
  datatype Action = CreateAction | UpdateAction | DeleteAction

  /** What `exit_json` reports: `changed`, `id`, and `action` when one was taken. */
  datatype Outcome = Outcome(changed: bool, id: Value, action: Option<Action>)

  /**
   * What distinguishes one module from another: the collection its
   * requests address, the read-shape key holding the id, the key of the
   * id in a create or update response, whether a drifted object is
   * updated (policy, group) or rejected (configuration), and its
   * `build_identity_object`, `fill_read_resp_body`,
   * `build_create_parameters` and `build_update_parameters`.
   */
  datatype Resource = Resource(
    collection: string,
    readId: string,
    responseId: string,
    updatable: bool,
    identity: map<string, Value> -> Value,
    fill: Value -> Result<Value, Error>,
    createBody: map<string, Value> -> Value,
    updateBody: map<string, Value> -> Value)

  /** `module.params['state'] == 'present'`. */
  predicate Present(opts: map<string, Value>) {
    Get(opts, "state") == Str("present")
  }

  /** The ids listed in the "Found more than one resource" message, in search order. */
  function Ids(found: seq<Value>, key: string): (ids: seq<Value>)
    ensures |ids| == |found|
    ensures forall i :: 0 <= i < |found| ==> ids[i] == FieldOf(found[i], key)
  {
    seq(|found|, i requires 0 <= i < |found| => FieldOf(found[i], key))
  }

  /** The search is only run when no id is given, and then the listing must end. */
  ghost predicate Locatable(res: Resource, respond: Request -> Result<Value, string>, opts: map<string, Value>,
                            template: string)
  {
    !Truthy(Get(opts, "id")) ==> ListingEnds(respond, PageFormat(template), res.identity(opts), res.fill)
  }

  /**
   * Locating the remote object: the object found (if any) in read shape and
   * the id `module.params['id']` then holds, and the requests issued.
   * With an id, the object is read and filled; otherwise the search
   * decides: more than one match fails listing every id, one match
   * supplies the object and its id, none leaves the id as it was.
   */
  ghost function Locate(res: Resource, respond: Request -> Result<Value, string>, opts: map<string, Value>,
                        template: string): (Result<(Option<Value>, Value), Error>, seq<Request>)
    requires Locatable(res, respond, opts, template)
  {
    var id := Get(opts, "id");
    if Truthy(id) then
      var req := Read(res.collection, id);
      match respond(req)
      case Failure(e) => (Failure(ApiError("read", e)), [req])
      case Success(body) =>
        match res.fill(body)
        case Failure(e) => (Failure(e), [req])
        case Success(obj) => (Success((Some(obj), id)), [req])
    else
      var (r, calls) := Search(respond, PageFormat(template), res.identity(opts), res.fill);
      match r
      case Failure(e) => (Failure(e), calls)
      case Success(found) =>
        if |found| > 1 then (Failure(Ambiguous(Ids(found, res.readId))), calls)
        else if |found| == 1 then (Success((Some(found[0]), FieldOf(found[0], res.readId))), calls)
        else (Success((None, id)), calls)
  }

  /**
   * The decision table of `main`, once the object is located: `found`
   * is the object in read shape (None when there is none), `id` the id
   * `module.params['id']` holds. The result, and the mutating request
   * issued (none in check mode).
   */
  function Decide(res: Resource, respond: Request -> Result<Value, string>, opts: map<string, Value>,
                  found: Option<Value>, id: Value, check: bool): (Result<Outcome, Error>, seq<Request>)
  {
    var params := opts["id" := id];
    if Present(opts) then
      if found.None? then
        if check then (Success(Outcome(true, id, None)), [])
        else
          var req := Create(res.collection, res.createBody(params));
          match respond(req)
          case Failure(e) => (Failure(ApiError("create", e)), [req])
          case Success(r) => (Success(Outcome(true, FieldOf(r, res.responseId), Some(CreateAction))), [req])
      else if Matches(res.identity(params), found.value) then (Success(Outcome(false, id, None)), [])
      else if !res.updatable then (Failure(CannotChange(id)), [])
      else if check then (Success(Outcome(true, id, None)), [])
      else
        var req := Update(res.collection, id, res.updateBody(params));
        match respond(req)
        case Failure(e) => (Failure(ApiError("update", e)), [req])
        case Success(r) => (Success(Outcome(true, FieldOf(r, res.responseId), Some(UpdateAction))), [req])
    else if found.None? then (Success(Outcome(false, id, None)), [])
    else if check then (Success(Outcome(true, id, None)), [])
    else
      var req := Delete(res.collection, id);
      match respond(req)
      case Failure(e) => (Failure(ApiError("delete", e)), [req])
      case Success(_) => (Success(Outcome(true, id, Some(DeleteAction))), [req])
  }

  /** One invocation of the module: locate, then decide. */
  ghost function Reconciliation(res: Resource, respond: Request -> Result<Value, string>, opts: map<string, Value>,
                                template: string, check: bool): (Result<Outcome, Error>, seq<Request>)
    requires Locatable(res, respond, opts, template)
  {
    var (loc, calls) := Locate(res, respond, opts, template);
    match loc
    case Failure(e) => (Failure(e), calls)
    case Success((found, id)) =>
      var (out, more) := Decide(res, respond, opts, found, id, check);
      (out, calls + more)
  }

  // ----- the decision table ---------------------------------------------------

  /** The object the options describe should exist and be as described (or it cannot be changed). */
  predicate Needed(res: Resource, opts: map<string, Value>, found: Option<Value>, id: Value) {
    if Present(opts) then found.None? || (res.updatable && !Matches(res.identity(opts["id" := id]), found.value))
    else found.Some?
  }

  /**
   * At most one request is issued, and it is a mutation; `changed` holds
   * exactly when a create, update or delete is due; in check mode no
   * request is issued and no action recorded; outside it, a successful
   * run records an action exactly when it issued a request.
   */
  lemma DecideChanges(res: Resource, respond: Request -> Result<Value, string>, opts: map<string, Value>,
                      found: Option<Value>, id: Value, check: bool)
    ensures var (out, calls) := Decide(res, respond, opts, found, id, check);
            |calls| <= 1 && (forall i :: 0 <= i < |calls| ==> IsMutation(calls[i])) &&
            (out.Success? ==> (out.value.changed <==> Needed(res, opts, found, id))) &&
            (check ==> calls == [] && (out.Success? ==> out.value.action == None)) &&
            (!check && out.Success? ==> (out.value.action.Some? <==> calls != []))
  {
  }

  /** Check mode predicts the real run: same verdict on `changed`, no requests. */
  lemma CheckModePredicts(res: Resource, respond: Request -> Result<Value, string>, opts: map<string, Value>,
                          found: Option<Value>, id: Value)
    ensures var (dry, dryCalls) := Decide(res, respond, opts, found, id, true);
            var (wet, _) := Decide(res, respond, opts, found, id, false);
            dryCalls == [] &&
            (wet.Success? ==> dry.Success? && dry.value.changed == wet.value.changed) &&
            (dry.Failure? ==> wet == dry)
  {
    DecideChanges(res, respond, opts, found, id, true);
    DecideChanges(res, respond, opts, found, id, false);
  }

  /**
   * A present object that differs from the options is rejected when the
   * module cannot update it (configuration: "Cannot change option"), with
   * no request, and updated by exactly one request otherwise.
   */
  lemma DriftHandling(res: Resource, respond: Request -> Result<Value, string>, opts: map<string, Value>,
                      obj: Value, id: Value, check: bool)
    requires Present(opts) && !Matches(res.identity(opts["id" := id]), obj)
    ensures var (out, calls) := Decide(res, respond, opts, Some(obj), id, check);
            (!res.updatable ==> out == Failure(CannotChange(id)) && calls == []) &&
            (res.updatable && !check ==>
               calls == [Update(res.collection, id, res.updateBody(opts["id" := id]))] &&
               (out.Success? ==> out.value.changed && out.value.action == Some(UpdateAction)))
  {
  }

  /** Nothing to do: a present object that matches, or an absent one that is not there. */
  lemma NoOp(res: Resource, respond: Request -> Result<Value, string>, opts: map<string, Value>,
             found: Option<Value>, id: Value, check: bool)
    requires !Needed(res, opts, found, id)
    requires Present(opts) && found.Some? ==> Matches(res.identity(opts["id" := id]), found.value)
    ensures Decide(res, respond, opts, found, id, check) == (Success(Outcome(false, id, None)), [])
  {
  }

  /** A create stores the id the create response carries. */
  lemma CreateTakesResponseId(res: Resource, respond: Request -> Result<Value, string>, opts: map<string, Value>,
                              id: Value)
    requires Present(opts)
    ensures var req := Create(res.collection, res.createBody(opts["id" := id]));
            var (out, calls) := Decide(res, respond, opts, None, id, false);
            calls == [req] &&
            (respond(req).Success? ==> out == Success(Outcome(true, FieldOf(respond(req).value, res.responseId), Some(CreateAction))))
  {
  }

  // ----- locating -------------------------------------------------------------

  /**
   * Locating issues no mutation: a read of the given id, or the listing
   * requests of the search, one per page in order.
   */
  lemma LocateReadsOnly(res: Resource, respond: Request -> Result<Value, string>, opts: map<string, Value>,
                        template: string)
    requires Locatable(res, respond, opts, template)
    ensures var calls := Locate(res, respond, opts, template).1;
            (Truthy(Get(opts, "id")) ==> calls == [Read(res.collection, Get(opts, "id"))]) &&
            (!Truthy(Get(opts, "id")) ==>
               forall i :: 0 <= i < |calls| ==>
                 PageFormat(template)(i).Success? && calls[i] == ListPage(PageFormat(template)(i).value)) &&
            forall i :: 0 <= i < |calls| ==> !IsMutation(calls[i])
  {
    if !Truthy(Get(opts, "id")) {
      var urls := PageFormat(template);
      SearchRequests(respond, urls, res.identity(opts), res.fill);
      assert Locate(res, respond, opts, template).1 == Search(respond, urls, res.identity(opts), res.fill).1;
    }
  }

  /**
   * An ambiguous search fails with every match's id, and neither creates
   * nor deletes anything.
   */
  lemma AmbiguousFails(res: Resource, respond: Request -> Result<Value, string>, opts: map<string, Value>,
                       template: string, check: bool)
    requires Locatable(res, respond, opts, template)
    requires !Truthy(Get(opts, "id"))
    requires var r := Search(respond, PageFormat(template), res.identity(opts), res.fill).0;
             r.Success? && |r.value| > 1
    ensures var found := Search(respond, PageFormat(template), res.identity(opts), res.fill).0.value;
            var (out, calls) := Reconciliation(res, respond, opts, template, check);
            out == Failure(Ambiguous(Ids(found, res.readId))) &&
            forall i :: 0 <= i < |calls| ==> !IsMutation(calls[i])
  {
    LocateReadsOnly(res, respond, opts, template);
  }

  /** The object a search locates matches the identity object, and its id is the one stored. */
  lemma LocatedMatches(res: Resource, respond: Request -> Result<Value, string>, opts: map<string, Value>,
                       template: string)
    requires Locatable(res, respond, opts, template)
    requires !Truthy(Get(opts, "id"))
    ensures var loc := Locate(res, respond, opts, template).0;
            loc.Success? && loc.value.0.Some? ==>
              Matches(res.identity(opts), loc.value.0.value) && loc.value.1 == FieldOf(loc.value.0.value, res.readId)
  {
    SearchMatches(respond, PageFormat(template), res.identity(opts), res.fill);
  }

  /**
   * With an id, `main` reads that object first: a failed read or fill
   * ends the invocation after the read alone, and otherwise the decision
   * is taken on the filled object, its requests following the read.
   */
  lemma ReconcileById(res: Resource, respond: Request -> Result<Value, string>, opts: map<string, Value>,
                      template: string, check: bool)
    requires Truthy(Get(opts, "id"))
    ensures Locatable(res, respond, opts, template)
    ensures var id := Get(opts, "id");
            var req := Read(res.collection, id);
            var run := Reconciliation(res, respond, opts, template, check);
            (respond(req).Failure? ==> run == (Failure(ApiError("read", respond(req).error)), [req])) &&
            (respond(req).Success? && res.fill(respond(req).value).Failure? ==>
               run == (Failure(res.fill(respond(req).value).error), [req])) &&
            (respond(req).Success? && res.fill(respond(req).value).Success? ==>
               var d := Decide(res, respond, opts, Some(res.fill(respond(req).value).value), id, check);
               run == (d.0, [req] + d.1))
  {
  }

  /**
   * With an id, a module that cannot update an object that reads back
   * drifted fails with "Cannot change option" after the read alone.
   */
  lemma RejectById(res: Resource, respond: Request -> Result<Value, string>, opts: map<string, Value>,
                   template: string, check: bool, body: Value, obj: Value)
    requires Present(opts) && Truthy(Get(opts, "id")) && !res.updatable
    requires respond(Read(res.collection, Get(opts, "id"))) == Success(body) && res.fill(body) == Success(obj)
    requires !Matches(res.identity(opts), obj)
    ensures Locatable(res, respond, opts, template)
    ensures Reconciliation(res, respond, opts, template, check)
              == (Failure(CannotChange(Get(opts, "id"))), [Read(res.collection, Get(opts, "id"))])
  {
    var id := Get(opts, "id");
    UpdateSame(opts, "id", id);
    DriftHandling(res, respond, opts, obj, id, check);
    assert [Read(res.collection, id)] + [] == [Read(res.collection, id)];
  }

  /**
   * With an id, an object that reads back as the options describe is
   * left alone: nothing is sent after the read and nothing changes.
   */
  lemma KeepById(res: Resource, respond: Request -> Result<Value, string>, opts: map<string, Value>,
                 template: string, check: bool, body: Value, obj: Value)
    requires Present(opts) && Truthy(Get(opts, "id"))
    requires respond(Read(res.collection, Get(opts, "id"))) == Success(body) && res.fill(body) == Success(obj)
    requires Matches(res.identity(opts), obj)
    ensures Locatable(res, respond, opts, template)
    ensures Reconciliation(res, respond, opts, template, check)
              == (Success(Outcome(false, Get(opts, "id"), None)), [Read(res.collection, Get(opts, "id"))])
  {
    var id := Get(opts, "id");
    UpdateSame(opts, "id", id);
    NoOp(res, respond, opts, Some(obj), id, check);
    assert [Read(res.collection, id)] + [] == [Read(res.collection, id)];
  }

  /** In check mode the whole invocation issues no mutation. */
  lemma CheckModeIssuesNoMutation(res: Resource, respond: Request -> Result<Value, string>, opts: map<string, Value>,
                                  template: string)
    requires Locatable(res, respond, opts, template)
    ensures var calls := Reconciliation(res, respond, opts, template, true).1;
            forall i :: 0 <= i < |calls| ==> !IsMutation(calls[i])
  {
    LocateReadsOnly(res, respond, opts, template);
    var (loc, calls) := Locate(res, respond, opts, template);
    if loc.Success? {
      DecideChanges(res, respond, opts, loc.value.0, loc.value.1, true);
      assert calls + [] == calls;
    }
  }

  // ----- the methods ----------------------------------------------------------

  /** Send `req` and report a provider error as `ApiError(api, ...)`. */
  method Call(t: Transport, req: Request, api: string) returns (r: Result<Value, Error>)
    modifies t`log
    ensures t.log == old(t.log) + [req]
    ensures t.respond(req).Success? ==> r == Success(t.respond(req).value)
    ensures t.respond(req).Failure? ==> r == Failure(ApiError(api, t.respond(req).error))
  {
    var x := t.Send(req);
    if x.Failure? {
      return Failure(ApiError(api, x.error));
    }
    return Success(x.value);
  }

  /** `read_resource` or `search_resource`, and the checks on the search result. */
  method LocateResource(t: Transport, res: Resource, opts: map<string, Value>, template: string)
      returns (loc: Result<(Option<Value>, Value), Error>)
    requires Locatable(res, t.respond, opts, template)
    modifies t`log
    ensures loc == Locate(res, t.respond, opts, template).0
    ensures t.log == old(t.log) + Locate(res, t.respond, opts, template).1
  {
    var id := Get(opts, "id");
    if Truthy(id) {
      var body := Call(t, Read(res.collection, id), "read");
      if body.Failure? {
        return Failure(body.error);
      }
      var obj := res.fill(body.value);
      if obj.Failure? {
        return Failure(obj.error);
      }
      return Success((Some(obj.value), id));
    }
    var found := SearchResource(t, template, res.identity(opts), res.fill);
    if found.Failure? {
      return Failure(found.error);
    }
    var v := found.value;
    if |v| > 1 {
      return Failure(Ambiguous(Ids(v, res.readId)));
    }
    if |v| == 1 {
      return Success((Some(v[0]), FieldOf(v[0], res.readId)));
    }
    return Success((None, id));
  }

  /** The decision part of `main`: create, update, delete, or nothing. */
  method Apply(t: Transport, res: Resource, opts: map<string, Value>, found: Option<Value>, id: Value, check: bool)
      returns (out: Result<Outcome, Error>)
    modifies t`log
    ensures out == Decide(res, t.respond, opts, found, id, check).0
    ensures t.log == old(t.log) + Decide(res, t.respond, opts, found, id, check).1
  {
    var params := opts["id" := id];
    if Present(opts) {
      if found.None? {
        if check {
          return Success(Outcome(true, id, None));
        }
        var r := Call(t, Create(res.collection, res.createBody(params)), "create");
        if r.Failure? {
          return Failure(r.error);
        }
        return Success(Outcome(true, FieldOf(r.value, res.responseId), Some(CreateAction)));
      }
      if Matches(res.identity(params), found.value) {
        return Success(Outcome(false, id, None));
      }
      if !res.updatable {
        return Failure(CannotChange(id));
      }
      if check {
        return Success(Outcome(true, id, None));
      }
      var r := Call(t, Update(res.collection, id, res.updateBody(params)), "update");
      if r.Failure? {
        return Failure(r.error);
      }
      return Success(Outcome(true, FieldOf(r.value, res.responseId), Some(UpdateAction)));
    }
    if found.None? {
      return Success(Outcome(false, id, None));
    }
    if check {
      return Success(Outcome(true, id, None));
    }
    var r := Call(t, Delete(res.collection, id), "delete");
    if r.Failure? {
      return Failure(r.error);
    }
    return Success(Outcome(true, id, Some(DeleteAction)));
  }

  /** `main`: locate the object, then act on it. */
  method Reconcile(t: Transport, res: Resource, opts: map<string, Value>, template: string, check: bool)
      returns (out: Result<Outcome, Error>)
    requires Locatable(res, t.respond, opts, template)
    modifies t`log
    ensures out == Reconciliation(res, t.respond, opts, template, check).0
    ensures t.log == old(t.log) + Reconciliation(res, t.respond, opts, template, check).1
  {
    ghost var log0 := t.log;
    var loc := LocateResource(t, res, opts, template);
    if loc.Failure? {
      return Failure(loc.error);
    }
    var (found, id) := loc.value;
    out := Apply(t, res, opts, found, id, check);
    AppendAssoc(log0, Locate(res, t.respond, opts, template).1, Decide(res, t.respond, opts, found, id, check).1);
  }
}
