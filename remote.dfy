/**
 * The provider's REST control plane as the modules see it through their
 * `send_*_request` helpers: a request goes out, a response body or a
 * provider error comes back. Every request sent is recorded in a ghost log
 * so that contracts can say which calls an operation issues.
 */
module Remote {
  import opened Wrappers
  import opened Json

  /**
   * A list request carries the page URL the module formats; read, create,
   * update and delete address a collection (`scaling_configuration`,
   * `scaling_policy`, `scaling_group`) and, except create, an id.
   */
  datatype Request =
    | ListPage(url: string)
    | Read(collection: string, id: Value)
    | Create(collection: string, body: Value)
    | Update(collection: string, id: Value, body: Value)
    | Delete(collection: string, id: Value)

  predicate IsMutation(r: Request) {
    r.Create? || r.Update? || r.Delete?
  }

  /** Why an invocation fails; every one of these ends it with `fail_json`. */
  datatype Error =
    | ApiError(api: string, detail: string)  // a send_* helper reports a provider error
    | FormatError(field: string)             // `link.format(...)` raises on this text
    | MalformedResponse                      // a body of the wrong shape (AttributeError, TypeError)
    | MissingInstanceConfig                  // "instance_config is missing in response body"
    | Ambiguous(ids: seq<Value>)             // "Found more than one resource(...)"
    | CannotChange(id: Value)                // "Cannot change option for an existing ... configuration(...)."

  /**
   * The transport: the provider's answers are a fixed function of the
   * request (`respond`), and `log` records every request in order.
   * A list response is the page (the `scaling_*s` list), a read response
   * the object, a create or update response the body returned.
   */
  class Transport {
    const respond: Request -> Result<Value, string>
    ghost var log: seq<Request>

    constructor (respond: Request -> Result<Value, string>)
      ensures this.respond == respond && log == []
    {
      this.respond := respond;
      log := [];
    }

    method Send(req: Request) returns (r: Result<Value, string>)
      modifies this`log
      ensures log == old(log) + [req]
      ensures r == respond(req)
    {
      r := respond(req);
      log := log + [req];
    }
  }
}
