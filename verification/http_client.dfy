/**
  The process-wide asynchronous HTTP client: created on first use, recreated
  once closed, and closed at shutdown. Connection settings (headers, timeout,
  redirects, pool limits) are fixed at creation and not modelled.
*/
module HttpClient {

  /** An `httpx.AsyncClient`, reduced to whether it has been closed. */
  class AsyncClient {
    var isClosed: bool

    constructor()
      ensures !isClosed
    {
      isClosed := false;
    }

    /** `aclose()`. */
    method Close()
      modifies this
      ensures isClosed
    {
      isClosed := true;
    }
  }

  /** The three states of the singleton. */
  datatype ClientState = NoClient | Open | Closed

  /** The module-global `_client`. */
  class ClientSingleton {
    var client: AsyncClient?

    constructor()
      ensures client == null
    {
      client := null;
    }

    function State(): ClientState
      reads this, client
    {
      if client == null then NoClient else if client.isClosed then Closed else Open
    }

    /** `get_http_client()`. */
    method GetHttpClient() returns (c: AsyncClient)
      modifies this
      // the caller always gets an open client, which is now the singleton
      ensures client == c && !c.isClosed && State() == Open
      // an open client is reused
      ensures old(State()) == Open ==> c == old(client)
      // a missing or closed client is replaced by a new one
      ensures old(State()) != Open ==> fresh(c)
    {
      if client == null || client.isClosed {
        client := new AsyncClient();
      }
      c := client;
    }

    /** `close_http_client()`. */
    method CloseHttpClient()
      modifies this, client
      // an open client is closed and forgotten, so the next get builds a new one
      ensures old(State()) == Open ==> old(client).isClosed && client == null && State() == NoClient
      // otherwise nothing happens
      ensures old(State()) != Open ==> client == old(client) && State() == old(State())
    {
      if client != null && !client.isClosed {
        client.Close();
        client := null;
      }
    }
  }
}
