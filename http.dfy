/** The HTTP side of the binding: requests, responses and the network they travel over. */
module Http {
  import opened Values

  /** A `requests.Session` object: the order in which it was created and whether
      HTTPS connections through it are forced to TLS 1.0. Its cookie jar lives on
      the remote side of the model. */
  datatype Transport = Transport(serial: nat, tlsOne: bool)

  datatype Verb = GET | POST

  /** NTLM credentials attached to a request. */
  datatype Credentials = Ntlm(username: string, password: string)

  /** One request: the session object it goes through, the HTTP method, the URL,
      the query parameters, the form fields of a POST body and the optional NTLM
      credentials. Every request the core sends has certificate checks disabled. */
  datatype Request = Request(
    via: Transport,
    verb: Verb,
    url: string,
    query: map<string, string>,
    form: map<string, string>,
    auth: Option<Credentials>)

  /** An `<input>` element: its `name` and `value` attributes, when present. */
  datatype Input = Input(name: Option<string>, value: Option<string>)

  /** A `<form>` element: its `action` attribute, when present, and the input
      elements inside it in document order. */
  datatype Form = Form(action: Option<string>, inputs: seq<Input>)

  /** One response: the final URL, the status code and reason phrase, the headers
      (names lower-cased, as requests' header dictionary ignores their case), the
      forms an HTML parser finds in the body in document order, and the body
      decoded as JSON (`None` when it is not JSON). */
  datatype Response = Response(
    url: string,
    status: int,
    reason: string,
    headers: map<string, string>,
    forms: seq<Form>,
    json: Option<Json>)

  /** The remote side: the response to the request sent as the n-th one (counting from 0). */
  type Oracle = (nat, Request) -> Response

  /** The network and the local resources the binding opens: every request sent
      so far, how many session objects have been created, and every cookie-jar
      save in order. */
  class Network {
    const reply: Oracle
    var sent: seq<Request>
    var created: nat
    var saved: seq<Transport>

    constructor (reply: Oracle)
      ensures this.reply == reply
      ensures sent == [] && created == 0 && saved == []
    {
      this.reply := reply;
      sent := [];
      created := 0;
      saved := [];
    }

    /** Creates a fresh session object (a new `requests.Session`). */
    method Open(tlsOne: bool) returns (t: Transport)
      modifies this
      ensures t == Transport(old(created), tlsOne)
      ensures created == old(created) + 1
      ensures sent == old(sent) && saved == old(saved)
    {
      t := Transport(created, tlsOne);
      created := created + 1;
    }

    /** Sends `req` and returns the answer the remote side gives to it. */
    method Send(req: Request) returns (resp: Response)
      modifies this
      ensures resp == reply(|old(sent)|, req)
      ensures sent == old(sent) + [req]
      ensures created == old(created) && saved == old(saved)
    {
      resp := reply(|sent|, req);
      sent := sent + [req];
    }

    /** Writes the cookie jar of session object `t` to its file. */
    method SaveCookies(t: Transport)
      modifies this
      ensures saved == old(saved) + [t]
      ensures sent == old(sent) && created == old(created)
    {
      saved := saved + [t];
    }
  }
}
