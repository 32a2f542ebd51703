/**
 * What the adapter consumes from its host: the router's message and route
 * types, a transport registry entry, the network connection it writes to,
 * and the process log. Their own behaviour is outside the model; each class
 * records the calls made on it so that the adapter's use of them can be stated.
 */
module Host {
  import opened Wrappers
  import opened Json

  datatype Config = Config(image: string, hostname: string)

  datatype Container = Container(name: string, id: string, config: Config)

  /** One log record delivered by the router. */
  datatype Message = Message(data: string, container: Container)

  /**
   * A configured destination. The router derives the transport name from the
   * adapter string; here the route carries it already, None when unspecified.
   */
  datatype Route = Route(
    adapter: string,
    address: string,
    transport: Option<string>,
    options: map<string, string>)

  /** The route's transport name, or `dflt` when the route names none. */
  function AdapterTransport(route: Route, dflt: string): (name: string)
    ensures route.transport.None? ==> name == dflt
    ensures route.transport.Some? ==> name == route.transport.value
  {
    match route.transport
    case None => dflt
    case Some(t) => t
  }

  /** How a connection answers writes: the k-th write (counting from 0) fails with `network[k]`, if present. */
  type WriteOutcome = imap<nat, Error>

  /** The error the k-th write meets, if any. */
  function WriteError(network: WriteOutcome, k: nat): (e: Option<Error>)
    ensures e.Some? <==> k in network
    ensures e.Some? ==> e.value == network[k]
  {
    if k in network then Some(network[k]) else None
  }

  /** An open connection (net.Conn); `attempts` lists every write made on it. */
  class Conn {
    const network: WriteOutcome
    var attempts: seq<Bytes>

    constructor (network: WriteOutcome)
      ensures this.network == network && attempts == []
    {
      this.network := network;
      attempts := [];
    }

    /** One write attempt; the outcome is the network's and never retried. */
    method Write(data: Bytes) returns (err: Option<Error>)
      modifies this
      ensures attempts == old(attempts) + [data]
      ensures err == WriteError(network, |old(attempts)|)
    {
      err := WriteError(network, |attempts|);
      attempts := attempts + [data];
    }
  }

  /**
   * A registered transport; `dials` lists every dial made through it. The
   * outcome of the n-th dial (counting from 0) is `dialer(n, address, options)`,
   * so repeated dials of one address may differ.
   */
  class Transport {
    const dialer: (nat, string, map<string, string>) -> Result<WriteOutcome>
    var dials: seq<(string, map<string, string>)>

    constructor (dialer: (nat, string, map<string, string>) -> Result<WriteOutcome>)
      ensures this.dialer == dialer && dials == []
    {
      this.dialer := dialer;
      dials := [];
    }

    /** Opens a connection to `address`, or fails with the dialer's error. */
    method Dial(address: string, options: map<string, string>) returns (r: Result<Conn>)
      modifies this
      ensures dials == old(dials) + [(address, options)]
      ensures dialer(|old(dials)|, address, options).Err? ==> r == Err(dialer(|old(dials)|, address, options).error)
      ensures dialer(|old(dials)|, address, options).Ok? ==>
        r.Ok? && fresh(r.value) && r.value.network == dialer(|old(dials)|, address, options).value && r.value.attempts == []
    {
      var outcome := dialer(|dials|, address, options);
      dials := dials + [(address, options)];
      match outcome
      case Err(e) =>
        r := Err(e);
      case Ok(network) =>
        var conn := new Conn(network);
        r := Ok(conn);
    }
  }

  /** The text log.Println prints for a prefix and an error. */
  function PrintedLine(prefix: string, err: Error): string
  {
    prefix + " " + err.message
  }

  /** The process log; `lines` is everything printed to it, in order. */
  class Logger {
    var lines: seq<string>

    constructor ()
      ensures lines == []
    {
      lines := [];
    }

    /** log.Println(prefix, err): one more line, the two operands joined by one space. */
    method Println(prefix: string, err: Error)
      modifies this
      ensures lines == old(lines) + [PrintedLine(prefix, err)]
    {
      lines := lines + [PrintedLine(prefix, err)];
    }
  }
}
