/**
 * The Logstash adapter: turns each router message into one JSON object,
 * merging the route's static `fields` option, and writes it to the
 * connection, logging and skipping any message that fails to encode or send.
 */
module Logstash {
  import opened Wrappers
  import opened Json
  import opened Host

  /** The outgoing message before encoding; `fields` is the raw option string. */
  datatype LogstashMessage = LogstashMessage(
    message: string,
    name: string,
    id: string,
    image: string,
    hostname: string,
    fields: string)

  // ---------------------------------------------------------------------------
  // Decoding the `fields` option
  // ---------------------------------------------------------------------------

  /**
   * The `fields` option as an object, or None for "no extra fields": the
   * empty string, a syntax error, and any JSON text that does not decode into
   * a map (a `null` leaves the map nil without an error; an array, string,
   * number or boolean is a type error).
   */
  function UnmarshalObjectString(jsonString: string, parse: string -> Option<JsonValue>): (r: Option<JsonObject>)
    ensures r.Some? <==> jsonString != "" && parse(jsonString).Some? && parse(jsonString).value.JObject?
    ensures r.Some? ==> parse(jsonString) == Some(JObject(r.value))
  {
    if jsonString == "" then None
    else
      match parse(jsonString)
      case None => None
      case Some(JObject(members)) => Some(members)
      case Some(_) => None
  }

  // ---------------------------------------------------------------------------
  // The outgoing document
  // ---------------------------------------------------------------------------

  /** The five keys every outgoing document carries. */
  const FixedKeys: set<string> := {"message", "docker.name", "docker.id", "docker.image", "docker.hostname"}

  /** The five fixed keys, each mapped to the message's own value. */
  function FixedFields(m: LogstashMessage): JsonObject
  {
    map[
      "message" := JString(m.message),
      "docker.name" := JString(m.name),
      "docker.id" := JString(m.id),
      "docker.image" := JString(m.image),
      "docker.hostname" := JString(m.hostname)]
  }

  /** The JSON tags of LogstashMessage's fields, in declaration order; "-" omits a field. */
  const Tags: seq<string> := ["message", "docker.name", "docker.id", "docker.image", "docker.hostname", "-"]

  /** LogstashMessage's field values, in declaration order. */
  function FieldValues(m: LogstashMessage): seq<string>
  {
    [m.message, m.name, m.id, m.image, m.hostname, m.fields]
  }

  /**
   * How encoding/json turns a struct of string fields into an object: the
   * fields in declaration order, one key per tag, a "-" tag skipped.
   */
  function StructObject(acc: JsonObject, tags: seq<string>, values: seq<string>): JsonObject
    requires |tags| == |values|
    decreases |tags|
  {
    if tags == [] then acc
    else if tags[0] == "-" then StructObject(acc, tags[1..], values[1..])
    else StructObject(acc[tags[0] := JString(values[0])], tags[1..], values[1..])
  }

  /** The struct branch of MarshalJSON: the message as a plain struct, without its `fields` string. */
  function FallbackDocument(m: LogstashMessage): JsonObject
  {
    StructObject(map[], Tags, FieldValues(m))
  }

  /**
   * The plain struct marshals to exactly the five fixed keys with the
   * message's values; the `fields` string has no key of its own.
   */
  lemma FallbackIsFixedFields(m: LogstashMessage)
    ensures FallbackDocument(m) == FixedFields(m)
    ensures FallbackDocument(m).Keys == FixedKeys
  {
  }

  /** The object `fields` with the five fixed keys written over it. */
  function Merged(fields: JsonObject, m: LogstashMessage): JsonObject
  {
    fields + FixedFields(m)
  }

  /**
   * The object MarshalJSON prints: the decoded `fields` object with the fixed
   * keys merged in, or the plain struct when `fields` gives no object.
   * Either way the five fixed keys carry the message's values.
   */
  function DocumentOf(m: LogstashMessage, parse: string -> Option<JsonValue>): (d: JsonObject)
    ensures FixedKeys <= d.Keys
    ensures d["message"] == JString(m.message) && d["docker.name"] == JString(m.name)
    ensures d["docker.id"] == JString(m.id) && d["docker.image"] == JString(m.image)
    ensures d["docker.hostname"] == JString(m.hostname)
  {
    match UnmarshalObjectString(m.fields, parse)
    case Some(fields) => Merged(fields, m)
    case None => FixedFields(m)
  }

  /** json.Marshal(&msg): the bytes of the document, or the library's error. */
  function Encode(m: LogstashMessage, json: Codec): (r: Result<Bytes>)
    ensures UnmarshalObjectString(m.fields, json.parse).None? ==> r == json.marshal(FixedFields(m))
    ensures UnmarshalObjectString(m.fields, json.parse).Some? ==>
      r == json.marshal(UnmarshalObjectString(m.fields, json.parse).value + FixedFields(m))
  {
    json.marshal(DocumentOf(m, json.parse))
  }

  /**
   * LogstashMessage.MarshalJSON. With a decoded `fields` object it writes the
   * five fixed keys into that object one by one and prints it; otherwise it
   * prints the message as a plain struct.
   */
  method MarshalJSON(m: LogstashMessage, json: Codec) returns (r: Result<Bytes>)
    ensures r == Encode(m, json)
  {
    var fields := UnmarshalObjectString(m.fields, json.parse);
    if fields.Some? {
      var obj := fields.value;
      obj := obj["message" := JString(m.message)];
      obj := obj["docker.name" := JString(m.name)];
      obj := obj["docker.id" := JString(m.id)];
      obj := obj["docker.image" := JString(m.image)];
      obj := obj["docker.hostname" := JString(m.hostname)];
      assert obj == Merged(fields.value, m);
      return json.marshal(obj);
    }
    FallbackIsFixedFields(m);
    return json.marshal(FallbackDocument(m));
  }

  // ---------------------------------------------------------------------------
  // Properties of the document
  // ---------------------------------------------------------------------------

  /** An empty `fields` option always takes the struct branch. */
  lemma EmptyFieldsFallback(m: LogstashMessage, parse: string -> Option<JsonValue>)
    requires m.fields == ""
    ensures UnmarshalObjectString(m.fields, parse) == None
    ensures DocumentOf(m, parse) == FixedFields(m)
  {
  }

  /**
   * Without a decoded object the document has exactly the five fixed keys and
   * does not depend on the `fields` string at all: any other string that
   * gives no object yields the same document.
   */
  lemma FallbackIgnoresFields(m: LogstashMessage, other: string, parse: string -> Option<JsonValue>)
    requires UnmarshalObjectString(m.fields, parse).None?
    requires UnmarshalObjectString(other, parse).None?
    ensures DocumentOf(m, parse).Keys == FixedKeys
    ensures DocumentOf(m, parse) == DocumentOf(m.(fields := other), parse)
  {
  }

  /**
   * With a decoded object, the document's keys are the object's keys plus the
   * five fixed ones; the fixed keys carry the message's values whatever the
   * object held under them, and every other key keeps its decoded value.
   */
  lemma MergeKeepsOtherKeys(m: LogstashMessage, parse: string -> Option<JsonValue>, fields: JsonObject)
    requires UnmarshalObjectString(m.fields, parse) == Some(fields)
    ensures DocumentOf(m, parse).Keys == fields.Keys + FixedKeys
    ensures forall k :: k in fields && k !in FixedKeys ==> DocumentOf(m, parse)[k] == fields[k]
    ensures forall k :: k in FixedKeys ==> DocumentOf(m, parse)[k] == FixedFields(m)[k]
  {
  }

  // ---------------------------------------------------------------------------
  // From router message to document
  // ---------------------------------------------------------------------------

  /** The route's `fields` option; a missing option reads as the empty string. */
  function FieldsOption(route: Route): (s: string)
    ensures "fields" !in route.options ==> s == ""
    ensures "fields" in route.options ==> s == route.options["fields"]
  {
    if "fields" in route.options then route.options["fields"] else ""
  }

  /** The LogstashMessage that Stream builds for one router message. */
  function ToLogstashMessage(m: Message, fields: string): (msg: LogstashMessage)
    ensures msg.message == m.data && msg.name == m.container.name && msg.id == m.container.id
    ensures msg.image == m.container.config.image && msg.hostname == m.container.config.hostname
    ensures msg.fields == fields
  {
    LogstashMessage(m.data, m.container.name, m.container.id, m.container.config.image, m.container.config.hostname, fields)
  }

  /** The five fixed keys for a router message, as the record's own values. */
  function RecordFields(m: Message): JsonObject
  {
    map[
      "message" := JString(m.data),
      "docker.name" := JString(m.container.name),
      "docker.id" := JString(m.container.id),
      "docker.image" := JString(m.container.config.image),
      "docker.hostname" := JString(m.container.config.hostname)]
  }

  /**
   * End to end, for a route whose `fields` option is missing, empty or gives
   * no object: the document is the record's data and container metadata
   * under the five fixed keys, and nothing else.
   */
  lemma RecordDocumentFallback(m: Message, route: Route, parse: string -> Option<JsonValue>)
    requires UnmarshalObjectString(FieldsOption(route), parse).None?
    ensures DocumentOf(ToLogstashMessage(m, FieldsOption(route)), parse) == RecordFields(m)
  {
  }

  /**
   * End to end, for a route whose `fields` option decodes to an object: the
   * document is that object overwritten by the record's five fixed keys.
   */
  lemma RecordDocumentMerged(m: Message, route: Route, parse: string -> Option<JsonValue>, fields: JsonObject)
    requires UnmarshalObjectString(FieldsOption(route), parse) == Some(fields)
    ensures DocumentOf(ToLogstashMessage(m, FieldsOption(route)), parse) == fields + RecordFields(m)
  {
  }

  /** The record of the end-to-end scenarios: "hello" from container web1 (abc123, nginx, host1). */
  function ScenarioRecord(): Message
  {
    Message("hello", Container("web1", "abc123", Config("nginx", "host1")))
  }

  /** With no `fields` option, or an empty one, the record's document is exactly its five values. */
  lemma ScenarioEmptyFields(route: Route, parse: string -> Option<JsonValue>)
    requires "fields" !in route.options || route.options["fields"] == ""
    ensures DocumentOf(ToLogstashMessage(ScenarioRecord(), FieldsOption(route)), parse)
         == map["message" := JString("hello"), "docker.name" := JString("web1"), "docker.id" := JString("abc123"),
                "docker.image" := JString("nginx"), "docker.hostname" := JString("host1")]
  {
  }

  /** With `fields` set to {"env":"prod"}, the record's document is that key plus its five values. */
  lemma ScenarioEnvFields(route: Route, parse: string -> Option<JsonValue>)
    requires "fields" in route.options && route.options["fields"] == "{\"env\":\"prod\"}"
    requires parse("{\"env\":\"prod\"}") == Some(JObject(map["env" := JString("prod")]))
    ensures DocumentOf(ToLogstashMessage(ScenarioRecord(), FieldsOption(route)), parse)
         == map["env" := JString("prod"),
                "message" := JString("hello"), "docker.name" := JString("web1"), "docker.id" := JString("abc123"),
                "docker.image" := JString("nginx"), "docker.hostname" := JString("host1")]
  {
  }

  // ---------------------------------------------------------------------------
  // The forwarding loop
  // ---------------------------------------------------------------------------

  /** How the forwarding loop encodes each router message. */
  type Encoder = Message -> Result<Bytes>

  /** The encoder of a route: build the LogstashMessage with the route's `fields` option, then marshal it. */
  function RouteEncoder(route: Route, json: Codec): (encode: Encoder)
    ensures var f := UnmarshalObjectString(FieldsOption(route), json.parse);
      forall m :: encode(m) == json.marshal(if f.Some? then f.value + RecordFields(m) else RecordFields(m))
  {
    m => Encode(ToLogstashMessage(m, FieldsOption(route)), json)
  }

  /** The per-message outcome of encoding, one per message, in stream order. */
  function Encodings(ms: seq<Message>, encode: Encoder): seq<Result<Bytes>>
  {
    if ms == [] then [] else [encode(ms[0])] + Encodings(ms[1..], encode)
  }

  /** Encodings lines up with the stream: the i-th outcome is the i-th message's encoding. */
  lemma {:induction false} EncodingsAt(ms: seq<Message>, encode: Encoder)
    ensures |Encodings(ms, encode)| == |ms|
    ensures forall i :: 0 <= i < |ms| ==> Encodings(ms, encode)[i] == encode(ms[i])
  {
    if ms != [] {
      EncodingsAt(ms[1..], encode);
    }
  }

  /** Encoding one more message of the stream appends its outcome. */
  lemma EncodingsSnoc(ms: seq<Message>, i: nat, encode: Encoder)
    requires i < |ms|
    ensures Encodings(ms[..i + 1], encode) == Encodings(ms[..i], encode) + [encode(ms[i])]
  {
    EncodingsAt(ms[..i + 1], encode);
    EncodingsAt(ms[..i], encode);
  }

  /** What one outcome writes: its bytes when it encoded, nothing otherwise. */
  function Sent(r: Result<Bytes>): seq<Bytes>
  {
    match r
    case Ok(b) => [b]
    case Err(_) => []
  }

  /** The line log.Println("logstash:", err) prints. */
  function LogLine(e: Error): string
  {
    PrintedLine("logstash:", e)
  }

  /** What one outcome logs: its encode error, or the error of its write (the k-th), if any. */
  function Logged(r: Result<Bytes>, network: WriteOutcome, k: nat): seq<string>
  {
    match r
    case Err(e) => [LogLine(e)]
    case Ok(_) =>
      match WriteError(network, k)
      case Some(e) => [LogLine(e)]
      case None => []
  }

  /** The bytes the loop writes for a run of encoding outcomes: each success, in order; failures are skipped. */
  function Attempts(rs: seq<Result<Bytes>>): seq<Bytes>
  {
    if rs == [] then [] else Sent(rs[0]) + Attempts(rs[1..])
  }

  /**
   * The lines the loop logs for a run of encoding outcomes: one for each
   * failed encoding, one for each failed write; `k` counts earlier writes.
   */
  function LogLines(rs: seq<Result<Bytes>>, network: WriteOutcome, k: nat): seq<string>
  {
    if rs == [] then [] else Logged(rs[0], network, k) + LogLines(rs[1..], network, k + |Sent(rs[0])|)
  }

  /** Outcomes `a` then `b` write `a`'s payloads then `b`'s. */
  lemma {:induction false} AttemptsAppend(a: seq<Result<Bytes>>, b: seq<Result<Bytes>>)
    ensures Attempts(a + b) == Attempts(a) + Attempts(b)
  {
    if a == [] {
      assert a + b == b;
    } else {
      assert (a + b)[0] == a[0];
      assert (a + b)[1..] == a[1..] + b;
      AttemptsAppend(a[1..], b);
    }
  }

  /** Outcomes `a` then `b` log `a`'s lines then `b`'s, `b`'s writes numbered after `a`'s. */
  lemma {:induction false} LogLinesAppend(a: seq<Result<Bytes>>, b: seq<Result<Bytes>>, network: WriteOutcome, k: nat)
    ensures LogLines(a + b, network, k) == LogLines(a, network, k) + LogLines(b, network, k + |Attempts(a)|)
  {
    if a == [] {
      assert a + b == b;
    } else {
      var k' := k + |Sent(a[0])|;
      calc {
        LogLines(a + b, network, k);
        { assert (a + b)[0] == a[0] && (a + b)[1..] == a[1..] + b; }
        Logged(a[0], network, k) + LogLines(a[1..] + b, network, k');
        { LogLinesAppend(a[1..], b, network, k'); }
        Logged(a[0], network, k) + (LogLines(a[1..], network, k') + LogLines(b, network, k' + |Attempts(a[1..])|));
        Logged(a[0], network, k) + LogLines(a[1..], network, k') + LogLines(b, network, k + |Attempts(a)|);
      }
    }
  }

  /**
   * The loop's invariant on the connection is kept by one more message: after
   * the attempts of `outcomes`, what the next outcome writes gives the attempts
   * of `outcomes + [r]`.
   */
  lemma ForwardAttempts(attempts0: seq<Bytes>, outcomes: seq<Result<Bytes>>, r: Result<Bytes>, attempts1: seq<Bytes>, attempts2: seq<Bytes>)
    requires attempts1 == attempts0 + Attempts(outcomes)
    requires attempts2 == attempts1 + Sent(r)
    ensures attempts2 == attempts0 + Attempts(outcomes + [r])
  {
    var x, y := Attempts(outcomes), Sent(r);
    calc {
      attempts2;
      { SameThenAppend(attempts1, attempts0 + x, y); }
      attempts0 + x + y;
      { AppendAssoc(attempts0, x, y); }
      attempts0 + (x + y);
      { AttemptsAppend(outcomes, [r]);
        assert [r][1..] == [];
        SameAfterPrefix(attempts0, x + y, Attempts(outcomes + [r])); }
      attempts0 + Attempts(outcomes + [r]);
    }
  }

  /**
   * The loop's invariant on the log is kept by one more message: after the
   * lines of `outcomes`, what the next outcome logs (its write numbered `k`,
   * after the earlier ones) gives the lines of `outcomes + [r]`.
   */
  lemma ForwardLines(lines0: seq<string>, outcomes: seq<Result<Bytes>>, r: Result<Bytes>, network: WriteOutcome, k0: nat, k: nat,
                     lines1: seq<string>, lines2: seq<string>)
    requires k == k0 + |Attempts(outcomes)|
    requires lines1 == lines0 + LogLines(outcomes, network, k0)
    requires lines2 == lines1 + Logged(r, network, k)
    ensures lines2 == lines0 + LogLines(outcomes + [r], network, k0)
  {
    var x, y := LogLines(outcomes, network, k0), Logged(r, network, k);
    calc {
      lines2;
      { SameThenAppend(lines1, lines0 + x, y); }
      lines0 + x + y;
      { AppendAssoc(lines0, x, y); }
      lines0 + (x + y);
      { NextOutcome(outcomes, r, network, k0);
        SameAfterPrefix(lines0, x + y, LogLines(outcomes + [r], network, k0)); }
      lines0 + LogLines(outcomes + [r], network, k0);
    }
  }

  // The three lemmas below only restate congruence and associativity of `+`;
  // they are there as hints that keep the solver fast in ForwardAttempts and ForwardLines.

  /** Equal prefixes stay equal with the same suffix. */
  lemma SameThenAppend<T>(a: seq<T>, b: seq<T>, y: seq<T>)
    requires a == b
    ensures a + y == b + y
  {
  }

  /** Equal suffixes stay equal behind the same prefix. */
  lemma SameAfterPrefix<T>(p: seq<T>, a: seq<T>, b: seq<T>)
    requires a == b
    ensures p + a == p + b
  {
  }

  /** Concatenation regroups freely. */
  lemma AppendAssoc<T>(x: seq<T>, y: seq<T>, z: seq<T>)
    ensures x + y + z == x + (y + z)
  {
  }

  /** One more outcome adds what it writes and what it logs, its write numbered after the earlier ones. */
  lemma NextOutcome(rs: seq<Result<Bytes>>, r: Result<Bytes>, network: WriteOutcome, k: nat)
    ensures Attempts(rs + [r]) == Attempts(rs) + Sent(r)
    ensures LogLines(rs + [r], network, k) == LogLines(rs, network, k) + Logged(r, network, k + |Attempts(rs)|)
  {
    assert [r][1..] == [];
    AttemptsAppend(rs, [r]);
    LogLinesAppend(rs, [r], network, k);
  }

  /**
   * A payload is written exactly when some message encodes to it: write
   * attempts are made for successful encodings and for nothing else.
   */
  lemma {:induction false} AttemptsAreSuccesses(rs: seq<Result<Bytes>>, b: Bytes)
    ensures b in Attempts(rs) <==> exists i :: 0 <= i < |rs| && rs[i] == Ok(b)
  {
    if rs != [] {
      AttemptsAreSuccesses(rs[1..], b);
      if b in Attempts(rs[1..]) {
        var i :| 0 <= i < |rs[1..]| && rs[1..][i] == Ok(b);
        assert rs[i + 1] == Ok(b);
      }
      if exists i :: 0 <= i < |rs| && rs[i] == Ok(b) {
        var i :| 0 <= i < |rs| && rs[i] == Ok(b);
        if i > 0 {
          assert rs[1..][i - 1] == Ok(b);
        }
      }
    }
  }

  /** When every message encodes, there is one write per message, in input order. */
  lemma {:induction false} AttemptsAllEncoded(rs: seq<Result<Bytes>>)
    requires forall i :: 0 <= i < |rs| ==> rs[i].Ok?
    ensures |Attempts(rs)| == |rs|
    ensures forall i :: 0 <= i < |rs| ==> Attempts(rs)[i] == rs[i].value
  {
    if rs != [] {
      assert forall i :: 0 <= i < |rs[1..]| ==> rs[1..][i] == rs[i + 1];
      AttemptsAllEncoded(rs[1..]);
    }
  }

  /**
   * A message that fails to encode is dropped and nothing else changes: the
   * outcomes after it are written just as if it had not been there.
   */
  lemma SkipOnEncodeError(a: seq<Result<Bytes>>, e: Error, b: seq<Result<Bytes>>)
    ensures Attempts(a + [Err(e)] + b) == Attempts(a) + Attempts(b)
  {
    var failed: seq<Result<Bytes>> := [Err(e)];
    assert failed[1..] == [];
    AttemptsAppend(a + failed, b);
    AttemptsAppend(a, failed);
  }

  /**
   * Every message leaves a trace: a write attempt or a log line; and at most
   * one log line each, so never more log lines than messages.
   */
  lemma {:induction false} EveryOutcomeAccounted(rs: seq<Result<Bytes>>, network: WriteOutcome, k: nat)
    ensures |Attempts(rs)| <= |rs|
    ensures |rs| <= |Attempts(rs)| + |LogLines(rs, network, k)|
    ensures |LogLines(rs, network, k)| <= |rs|
  {
    if rs != [] {
      EveryOutcomeAccounted(rs[1..], network, k + |Sent(rs[0])|);
    }
  }

  /**
   * Three messages of which the second fails to encode: exactly two writes,
   * the first message's bytes and then the third's.
   */
  lemma SecondOfThreeFailsToEncode(m1: Message, m2: Message, m3: Message, encode: Encoder)
    requires encode(m1).Ok? && encode(m2).Err? && encode(m3).Ok?
    ensures Attempts(Encodings([m1, m2, m3], encode)) == [encode(m1).value, encode(m3).value]
  {
    var rs := Encodings([m1, m2, m3], encode);
    EncodingsAt([m1, m2, m3], encode);
    assert rs == [encode(m1)] + [encode(m2)] + [encode(m3)];
    SkipOnEncodeError([encode(m1)], encode(m2).error, [encode(m3)]);
    assert [encode(m1)][1..] == [] && [encode(m3)][1..] == [];
  }

  /** The adapter: its route and the connection opened for it. */
  class LogstashAdapter {
    const conn: Conn
    const route: Route

    constructor (route: Route, conn: Conn)
      ensures this.route == route && this.conn == conn
    {
      this.route := route;
      this.conn := conn;
    }

    /**
     * One pass of Stream's loop: build the LogstashMessage for `m`, encode it,
     * and write it; an encode error is logged and nothing is written, a write
     * error is logged after the one attempt. Returns the encoding outcome.
     */
    method Forward(m: Message, json: Codec, logger: Logger) returns (js: Result<Bytes>)
      modifies conn, logger
      ensures js == RouteEncoder(route, json)(m)
      ensures conn.attempts == old(conn.attempts) + Sent(js)
      ensures logger.lines == old(logger.lines) + Logged(js, conn.network, |old(conn.attempts)|)
    {
      var msg := LogstashMessage(
        m.data,
        m.container.name,
        m.container.id,
        m.container.config.image,
        m.container.config.hostname,
        FieldsOption(route));
      assert msg == ToLogstashMessage(m, FieldsOption(route));
      js := MarshalJSON(msg, json);
      if js.Err? {
        logger.Println("logstash:", js.error);
        return;
      }
      var err := conn.Write(js.value);
      if err.Some? {
        logger.Println("logstash:", err.value);
        return;
      }
    }

    /**
     * Forwards every message of `logstream` in order, one Forward each: an
     * encode or write error on one message never stops the messages after it.
     */
    method Stream(logstream: seq<Message>, json: Codec, logger: Logger)
      modifies conn, logger
      ensures conn.attempts == old(conn.attempts) + Attempts(Encodings(logstream, RouteEncoder(route, json)))
      ensures logger.lines
           == old(logger.lines) + LogLines(Encodings(logstream, RouteEncoder(route, json)), conn.network, |old(conn.attempts)|)
    {
      ghost var encode := RouteEncoder(route, json);
      ghost var k0 := |conn.attempts|;
      ghost var outcomes: seq<Result<Bytes>> := [];
      for i := 0 to |logstream|
        invariant outcomes == Encodings(logstream[..i], encode)
        invariant conn.attempts == old(conn.attempts) + Attempts(outcomes)
        invariant logger.lines == old(logger.lines) + LogLines(outcomes, conn.network, k0)
      {
        ghost var attempts, lines := conn.attempts, logger.lines;
        var js := Forward(logstream[i], json, logger);
        ForwardAttempts(old(conn.attempts), outcomes, js, attempts, conn.attempts);
        ForwardLines(old(logger.lines), outcomes, js, conn.network, k0, |attempts|, lines, logger.lines);
        EncodingsSnoc(logstream, i, encode);
        outcomes := outcomes + [js];
      }
      assert logstream[..|logstream|] == logstream;
    }
  }

  /**
   * NewLogstashAdapter: looks up the route's transport ("udp" by default) in
   * the registry and dials the route's address with it. An unknown transport
   * fails without dialing anything; a failed dial returns the dial's error.
   */
  method NewLogstashAdapter(route: Route, transports: map<string, Transport>) returns (r: Result<LogstashAdapter>)
    modifies transports.Values
    ensures AdapterTransport(route, "udp") !in transports ==>
      r == Err(Error("unable to find adapter: " + route.adapter)) && unchanged(transports.Values)
    ensures AdapterTransport(route, "udp") in transports ==>
      var t := transports[AdapterTransport(route, "udp")];
      && t.dials == old(t.dials) + [(route.address, route.options)]
      && (forall u :: u in transports.Values && u != t ==> unchanged(u))
      && (t.dialer(|old(t.dials)|, route.address, route.options).Err? ==>
            r == Err(t.dialer(|old(t.dials)|, route.address, route.options).error))
      && (t.dialer(|old(t.dials)|, route.address, route.options).Ok? ==>
            && r.Ok? && fresh(r.value) && r.value.route == route && fresh(r.value.conn)
            && r.value.conn.network == t.dialer(|old(t.dials)|, route.address, route.options).value
            && r.value.conn.attempts == [])
  {
    var name := AdapterTransport(route, "udp");
    if name !in transports {
      return Err(Error("unable to find adapter: " + route.adapter));
    }
    var transport := transports[name];
    var conn := transport.Dial(route.address, route.options);
    if conn.Err? {
      return Err(conn.error);
    }
    var adapter := new LogstashAdapter(route, conn.value);
    return Ok(adapter);
  }
}
