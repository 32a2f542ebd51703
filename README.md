# logspout-logstash adapter, modelled in Dafny

This project models the Logstash adapter for logspout (`logstash.go`). The
adapter receives container log records from the logspout router. It turns
each record into one JSON document and writes that document to a network
connection (UDP by default).

- **Fields decoding** (`UnmarshalObjectString`). The route option `fields` is
  a JSON text. It either decodes to an object or means "no extra fields".
  The empty string, a syntax error, `null` and any non-object JSON value all
  mean "no extra fields".
- **Document construction** (`LogstashMessage.MarshalJSON`):
  - With a decoded object, the five fixed keys `message`, `docker.name`,
    `docker.id`, `docker.image` and `docker.hostname` are written over it.
  - Without one, the message is printed as a plain struct. Its `Fields`
    string is tagged `json:"-"` and never appears.
- **Forwarding** (`LogstashAdapter.Stream`). Records are handled in order.
  An encode error is logged and the record is skipped. Otherwise there is
  exactly one write attempt, and a write error is logged and skipped. No
  error stops the loop.
- **Construction** (`NewLogstashAdapter`). The route's transport (`"udp"`
  when unspecified) is looked up in the registry. An unknown name fails
  before any dial. A failed dial returns the dial's error. Otherwise the
  adapter holds the route and the new connection.

Modules:

- `Wrappers` holds `Option`, `Result` and `Error`.
- `Json` holds decoded JSON values. Its `Codec` stands for the encoding/json
  library: `parse` and `marshal` are function values that every property
  is quantified over.
- `Host` holds the router's `Message` and `Route`, and three classes. `Conn`
  is the connection and records every write attempt. `Transport` is a
  registry entry and records every dial. `Logger` is the process log and
  records every printed line. Whether the k-th write fails is the
  connection's `network` map, fixed when it is dialed.
- `Logstash` holds the adapter itself.

The forwarding loop is specified by two functions of the encoding outcomes,
in stream order:

- `Attempts` gives the payloads written: every success, in order, and
  nothing for a failure.
- `LogLines` gives the lines logged: one per encode failure, and one per
  failed write.

`Stream` is proved to produce exactly these. The lemmas about `Attempts` and
`LogLines` state the ordering and skip-on-error properties.

## Model

| member | source | states |
|---|---|---|
| Logstash.UnmarshalObjectString | logstash.go:74-86 | An object comes back exactly when the string is non-empty and parses to a JSON object, and it is that object; the empty string, a parse failure, `null` and any other JSON value give none |
| Logstash.DocumentOf | logstash.go:89-107 | Whichever branch is taken, the document has the five fixed keys, each carrying the message's own value |
| Logstash.MarshalJSON | logstash.go:89-107 | The five in-place assignments on the decoded object, or the plain struct, give the same object as the document `DocumentOf` describes, and that object is what is marshalled |
| Logstash.FallbackIsFixedFields | logstash.go:65-72 | Marshalling the struct by its tags, with `Fields` tagged "-", gives exactly the five fixed keys with the message's values; `Fields` has no key |
| Logstash.EmptyFieldsFallback | logstash.go:77-91 | An empty `fields` decodes to nothing, so the document is the five-key fallback |
| Logstash.FallbackIgnoresFields | logstash.go:82-106 | When `fields` gives no object, the document has exactly the five fixed keys and is the same for any other string that gives no object |
| Logstash.MergeKeepsOtherKeys | logstash.go:90-97 | With a decoded object, the key set is the object's keys plus the five fixed keys; fixed keys are overwritten with the message's values; every other key keeps its decoded value |
| Logstash.ToLogstashMessage | logstash.go:43-50 | The message takes its text from the record's data, its name and id from the container, its image and hostname from the container's config, and keeps the given `fields` string |
| Logstash.Encode | logstash.go:51 | `json.Marshal(&msg)`: the five fixed keys alone when `fields` gives no object, otherwise the decoded object with the five keys written over it |
| Logstash.RouteEncoder | logstash.go:43-51 | The route's encoder marshals, for every record, the record's five values alone, or the route's decoded `fields` object overwritten by them |
| Logstash.FieldsOption | logstash.go:49 | The `fields` option read from the route's options, the empty string when the key is missing |
| Logstash.RecordDocumentFallback | logstash.go:43-50 | End to end, when `fields` gives no object, the document is the record's data, container name, id, image and hostname under the five keys, and nothing else |
| Logstash.RecordDocumentMerged | logstash.go:43-50 | End to end, when `fields` decodes to an object, the document is that object overwritten by the record's five values |
| Logstash.ScenarioEmptyFields | logstash.go:43-51 | Record hello/web1/abc123/nginx/host1 with a missing or empty `fields` gives exactly the five-key document |
| Logstash.ScenarioEnvFields | logstash.go:43-51 | The same record with `fields` = `{"env":"prod"}` gives the five keys plus `env`: `prod` |
| Logstash.EncodingsAt | logstash.go:42-51 | The encoding outcomes line up one to one with the records in stream order |
| Logstash.EncodingsSnoc | logstash.go:42-51 | Handling one more record appends exactly its outcome |
| Logstash.AttemptsAppend | logstash.go:42-61 | Outcomes a then b give a's writes then b's writes |
| Logstash.LogLinesAppend | logstash.go:52-59 | Outcomes a then b log a's lines then b's lines, and b's writes are numbered after a's |
| Logstash.NextOutcome | logstash.go:42-61 | One more outcome adds only its own write and its own log line |
| Logstash.ForwardAttempts | logstash.go:42-61 | One pass of the loop extends the write trace of the earlier outcomes to the trace of the outcomes including this one |
| Logstash.ForwardLines | logstash.go:52-59 | One pass of the loop extends the log of the earlier outcomes to the log of the outcomes including this one |
| Logstash.AttemptsAreSuccesses | logstash.go:51-56 | A payload is written if and only if some record encoded to it |
| Logstash.AttemptsAllEncoded | logstash.go:42-61 | When every record encodes, there is exactly one write per record, in input order |
| Logstash.SkipOnEncodeError | logstash.go:52-54 | A record that fails to encode is dropped and later records are written as if it were absent |
| Logstash.EveryOutcomeAccounted | logstash.go:42-61 | Every record leaves a write attempt or a log line; there are at most as many writes as records and at most as many log lines as records |
| Logstash.SecondOfThreeFailsToEncode | logstash.go:42-61 | Of three records where the second fails to encode, exactly two writes happen: the first record's bytes, then the third's |
| Logstash.LogstashAdapter.Forward | logstash.go:43-60 | One record: the outcome is the route's encoding of it; exactly one write if it encoded, none otherwise; it logs the encode error or the write's error, else nothing |
| Logstash.LogstashAdapter.Stream | logstash.go:41-62 | The connection receives exactly `Attempts` of the records' encodings, in order, and the log receives exactly `LogLines`; write errors do not change which writes are made |
| Logstash.LogstashAdapter.constructor | logstash.go:34-37 | The adapter holds the route and the connection |
| Logstash.NewLogstashAdapter | logstash.go:23-38 | An unknown transport (default "udp") gives "unable to find adapter: " plus the adapter name, with no dial; otherwise exactly one dial with the route's address and options; its error is returned, or a new adapter on a new connection with no writes |
| Host.Conn.Write | logstash.go:56 | One write: appended to the attempts, with the network's outcome for that attempt |
| Host.Transport.Dial | logstash.go:29 | One recorded dial; the outcome the dialer gives for this dial (by its number, address and options): its error, or a new connection with no writes |
| Host.Logger.Println | logstash.go:53 | Exactly one more line, the prefix and the error joined by a space |

## Left out

- Parsing and printing JSON are library code. `Codec` takes them as given, so the model says nothing about byte layout, escaping or number precision.
- Logstash.MarshalJSON: both branches go through one `marshal` of an object, so the model's bytes match the library's only up to key order. encoding/json prints the struct in field declaration order and a map with its keys sorted.
- Logstash.MarshalJSON: encoding/json's handling of a custom marshaller is not modelled. It compacts and validates the output, and it wraps a failure in its own error type. The model takes `json.marshal` of the document to be `json.Marshal(&msg)`.
- Logstash.LogstashAdapter.Forward: the logged encode error is the library's error as `marshal` returns it, without encoding/json's wrapping text.
- The `init` registration with the router's adapter factories (logstash.go:12-14) is a load-time side effect on the host's registry.
- The router derives the transport name from the adapter string in `route.AdapterTransport`, which is not part of this model. `Route` carries the transport name directly, None when none is given.
- The channel `logstream` is a finite sequence. Blocking receives and closing the channel are not modelled. The loop ends when the sequence ends.
- Host.Logger.Println: the date and time header that the standard logger puts before each line, and the newline after it, are not modelled.
- Host.Conn.Write: the byte count that `Write` returns is ignored by the adapter and not modelled.
- A nil `*Message`, nil container or nil route would make the Go code panic. Values in the model are never nil.
- Idempotence of encoding: the encoder is a function of the record and the `fields` string, so encoding twice gives the same result by construction. No lemma states it.
- The `Alias` type in the fallback branch only stops Go from calling `MarshalJSON` again. It is modelled as marshalling the struct by its field tags.

A missing `fields` option reads as the empty string. A `fields` of `null`, an array, a string, a number or a boolean also falls back.
