/**
 * The two objects of net/http the client touches: a request whose header
 * is changed in place before it is sent, and the transport that sends it.
 * The transport is an oracle: it records every request it is given, as it
 * was at that moment, and answers with whatever its server says.
 */
module Http {
  import opened Wire

  class HttpRequest {
    const verb: string
    const url: string
    const body: Body
    var header: map<string, string>

    /** `http.NewRequestWithContext`: a request with an empty header. */
    constructor (verb: string, url: string, body: Body)
      ensures this.verb == verb && this.url == url && this.body == body
      ensures header == map[]
    {
      this.verb := verb;
      this.url := url;
      this.body := body;
      header := map[];
    }

    /** The request as a transport would see it now. */
    function Snapshot(): Sent
      reads this
    {
      Sent(verb, url, header, body)
    }
  }

  class Transport {
    const server: Server
    var sent: seq<Sent>

    constructor (server: Server)
      ensures sent == []
    {
      this.server := server;
      sent := [];
    }

    /** `httpClient.Do`: send the request as it stands and return the server's answer. */
    method Do(req: HttpRequest) returns (x: Exchange)
      modifies this
      ensures sent == old(sent) + [req.Snapshot()]
      ensures x == server(|old(sent)|, req.Snapshot())
    {
      x := server(|sent|, req.Snapshot());
      sent := sent + [req.Snapshot()];
    }
  }
}
