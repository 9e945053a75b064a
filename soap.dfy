/**
 * The interface of the shared SOAP library as the imaging layer uses it. Its
 * envelope assembly (namespaces, WS-Security nonce, timestamp and digest) and
 * its HTTP transport and response parsing are not part of this model: an
 * envelope is the record of what the layer hands to `createRequest`, and the
 * device's answers come from an oracle fixed when the client is made.
 */
module Soap {

  import opened JsValues
  import opened Promises

  /**
   * The envelope `soap.createRequest({body, xmlns, diff, username, password})`
   * builds, identified by those inputs.
   */
  datatype Envelope = Envelope(body: string, xmlns: seq<string>, diff: JsValue, username: JsValue, password: JsValue)

  /** One `soap.makeRequest(category, serviceAddress, methodName, envelope)` call. */
  datatype Request = Request(category: string, serviceAddress: JsValue, methodName: string, envelope: Envelope)

  class SoapClient {
    /** Every request dispatched so far, in order. */
    var sent: seq<Request>
    /** How the device answers the n-th request (counting from 0). */
    const respond: (nat, Request) -> Settlement

    constructor (respond: (nat, Request) -> Settlement)
      ensures sent == [] && this.respond == respond
    {
      sent := [];
      this.respond := respond;
    }

    /** Sends one request; the returned promise settles with the device's answer. */
    method MakeRequest(category: string, serviceAddress: JsValue, methodName: string, envelope: Envelope)
      returns (s: Settlement)
      modifies this
      ensures sent == old(sent) + [Request(category, serviceAddress, methodName, envelope)]
      ensures s == respond(|old(sent)|, Request(category, serviceAddress, methodName, envelope))
    {
      var req := Request(category, serviceAddress, methodName, envelope);
      s := respond(|sent|, req);
      sent := sent + [req];
    }
  }
}
