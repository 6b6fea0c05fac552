/**
 * An external service (the Dropbox SDK, the HTTP transport, the Stripe SDK) seen from
 * the handlers: every call is appended to a call log, and the reply is whatever the
 * service answers to that call given the calls it has already received. The answer
 * may depend on the history, so a provider whose `create` succeeds once and then
 * reports "already exists" is expressible.
 */
module Services {

  class Service<C, R> {
    /** How the service answers a call, given every call it received before. */
    const respond: (seq<C>, C) -> R
    /** Every call made so far, oldest first. */
    var calls: seq<C>

    constructor (respond: (seq<C>, C) -> R)
      ensures this.respond == respond && calls == []
    {
      this.respond := respond;
      calls := [];
    }

    /** Issues one call. */
    method Call(c: C) returns (r: R)
      modifies this
      ensures calls == old(calls) + [c]
      ensures r == respond(old(calls), c)
    {
      r := respond(calls, c);
      calls := calls + [c];
    }
  }
}
