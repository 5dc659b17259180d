# service-bus-hero, modelled in Dafny

service-bus-hero is an interactive command-line tool for Azure Service Bus
topics. It lists subscription statistics, drains a subscription's
dead-letter queue (DLQ) into a line-delimited JSON (`.jsonl`) file, resends
or clears every DLQ in the namespace, and keeps the current connection
string, topic and subscription in a process-wide `AppContext`.

This project models the sequential core of the tool:

- `Codec` (`codec.dfy`): the received message, the persisted
  `SerializableMessage` record, the outbound message, `stateToString`, the
  record construction and `TransformMessage`.
- `FileStore` (`file_store.dfy`): the `.jsonl` file filter, the scan for the
  last path separator, the writer's loop and the reader's decode loop.
- `Topics` (`topics.dfy`): the broker as oracles. These are the
  administrative directory (topics, subscriptions, statistics), the
  per-subscription resend and clear operations, and the dead-letter
  receiver.
- `Commands` (`commands.dfy`): the bulk resend and clear operator, the
  statistics listing, topic and subscription selection, the connection
  string prompt and the drain command's setup and report.
- `AppState` (`app_context.dfy`): the `AppContext` class and its three
  mutators.
- `Wrappers` (`wrappers.dfy`): `Option` (a Go nil pointer), `Result` (a Go
  `(value, error)` pair) and `Outcome` (a Go `error`).

Modelling choices:

- Go channels become sequences: a stream of records goes in, and a count or
  an error comes out.
- The operating system, `encoding/json`, the broker and the prompts are
  oracles, passed as values with function-typed fields.
- Error values are their messages, with the source's own prefixes
  (`"could not fetch topics: " + e`).
- Names are `seq<char>`. The source scans and slices file names by byte.
  The separators `/` and `\` and the suffix `.jsonl` are ASCII, and ASCII
  bytes never occur inside a multi-byte UTF-8 character. So, for a valid
  UTF-8 name, the character view gives the same directory prefix before
  the last separator and the same verdict of the `.jsonl` filter as the
  byte view. The index of the separator and the length of the name are
  counted in characters, not bytes, and can differ from Go's (for "é/x",
  Go's index is 2 and `LastSeparator` is 1). The filter's verdict agrees
  because a name that ends in the six ASCII characters ".jsonl" is longer
  than six bytes exactly when it is longer than six characters.
- Message bodies are `seq<byte>`. A Go string is a byte string, so
  `string(body)` and `[]byte(s)` keep the bytes unchanged.

Three behaviours of the code that the model deliberately follows:

- The writer returns 0, not the number of messages already written, when any
  step fails (io/io.go:123-133).
- The drain command therefore reports 0 after a failed write, and returns
  no error (commands.go:168-192), provided the message producer finishes
  (see `WriteDLQMessagesToFile` under "## Left out").
- The statistics listing aborts on the first fetch error, while the bulk
  operator skips failures (commands.go:113-122 against 204-227).

## Model

| member | source | states |
|---|---|---|
| `AppState.AppContext.constructor` | main.go:10 | the global context starts with all three fields empty |
| `AppState.AppContext.SetConnectionString` | app-context.go:17-19 | only the connection string changes; topic and subscription stay |
| `AppState.AppContext.SetTopic` | app-context.go:21-23 | afterwards the topic equals the argument whatever it was; the other two fields stay |
| `AppState.AppContext.Clear` | app-context.go:25-28 | the new state is `Cleared` of the old one: connection string and topic emptied, subscription untouched |
| `AppState.Cleared` | app-context.go:25-28 | the cleared state has empty connection string and topic and the old subscription |
| `AppState.ClearedIdempotent` | app-context.go:25-28 | clearing twice gives the same state as clearing once |
| `AppState.ClearedForgetsOnlyConnectionAndTopic` | app-context.go:25-28 | two states clear to the same state iff their subscriptions agree |
| `Codec.StateToString` | io/io.go:196-207 | 0, 1 and 2 name Active, Deferred and Scheduled, and only they do; every other code is Unknown |
| `Codec.StateNamesDistinguishKnownStates` | io/io.go:196-207 | two codes share a name iff they are equal or both unknown |
| `Codec.ToSerializableMessage` | io/io.go:94-119 | every field other than the state (payload, properties, lock token, delivery count, sequence numbers, dead-letter metadata, times and routing fields) is copied unchanged into its own field of the record, and the record holds the state's name |
| `Codec.ToSerializableMessageLosesOnlyStateCode` | io/io.go:94-119 | two messages give the same record iff they agree on every field except the state and their states have the same name, so nothing else is lost |
| `Codec.TransformMessage` | io/io.go:175-194 | the body is always copied; subject and correlation id are set iff present and non-empty, and then equal the record's; properties are copied, nil stays nil; no other outbound field is set |
| `Codec.TransformIgnoresBrokerFields` | io/io.go:175-194 | records that agree on body, subject, correlation id and properties publish the same message, so no broker-assigned field reaches the broker |
| `Codec.TransformTreatsEmptyAsAbsent` | io/io.go:181-187 | an empty subject or correlation id publishes exactly as a missing one |
| `Codec.RoundTrip` | io/io.go:94-119 | with a non-empty subject and correlation id, transforming the record gives back body, subject, correlation id and properties (nil properties stay nil), and nothing else |
| `FileStore.JsonlNames` | io/io.go:53-58 | no more names are listed than the directory has entries |
| `FileStore.JsonlNamesAppend` | io/io.go:53-58 | filtering distributes over concatenation: directory order is kept and each entry is judged alone |
| `FileStore.JsonlNamesMembership` | io/io.go:55 | a name is listed iff some entry is not a directory, has that name, is longer than 6 characters and ends in ".jsonl" |
| `FileStore.BareExtensionExcluded` | io/io.go:55 | a file named exactly ".jsonl" is not listed |
| `FileStore.ListJsonlFiles` | io/io.go:38-61 | failing to open or to read the directory is an error with the source's message; otherwise the result is the filtered names, an empty list being a normal result |
| `FileStore.LastSeparator` | io/io.go:65-72 | the result is -1 or the index of a '/' or '\\', and no separator follows it |
| `FileStore.ParentDir` | io/io.go:74-75 | there is no directory iff the name has no separator; otherwise it is the prefix before the last separator |
| `FileStore.LastSeparatorIndex` | io/io.go:66-72 | the backward scan returns the index of the last separator, or -1 |
| `FileStore.WriteLinesSucceedsIff` | io/io.go:90-134 | writing succeeds iff every message is serialised and both of its writes succeed |
| `FileStore.WriteLinesStopsAtFailure` | io/io.go:122-133 | after the first failure, later messages change neither the error nor the file |
| `FileStore.WriteLinesAppendOnly` | io/io.go:128-133 | what was written for a prefix of the stream is a prefix of the final file, so nothing is rolled back |
| `FileStore.WriteLinesOneLinePerMessage` | io/io.go:88-136 | if writing succeeds and the encoder emits no raw newline, the file holds exactly one line per message |
| `FileStore.WriteRecord` | io/io.go:121-133 | one record's step of the writer: its JSON and then a newline are appended to the file; a failed encoding, JSON write or newline write ends the step with that prefixed error and keeps only what was already written |
| `FileStore.WriteLinesInOrder` | io/io.go:88-136 | the loop writes each message's JSON and then a newline, in arrival order, until the first failure; it returns the number of messages on success and 0 on failure |
| `FileStore.WriteMessagesToJsonLinesFile` | io/io.go:63-137 | directories are created only when the name has a separator, for the prefix before it; a failed mkdir or create gives that error and no file; otherwise the file holds the lines written; the count is the number of messages on success and 0 on any failure |
| `FileStore.LeadingRecords` | io/io.go:159-169 | the decoded prefix holds only records and stops at the first decode error or at the end |
| `FileStore.DecodeStopsAtFirstError` | io/io.go:161-167 | no record after a decode error is yielded |
| `FileStore.ReadMessagesFromJsonLinesFile` | io/io.go:154-170 | the records yielded are the decoded records before end of file or the first error, in order; end of file, or a decoder error whose text is "EOF", gives no error, and any other decode error is reported exactly once |
| `Commands.EligibleInTopicMembership` | commands.go:210-223 | within a topic, a subscription is operated on iff it is listed, its statistics were fetched and its dead-letter count is non-zero |
| `Commands.EligiblePairsMembership` | commands.go:203-227 | a pair is operated on iff its topic is listed, the topic's subscriptions were listed and include it, its statistics were fetched and its dead-letter count is non-zero, whatever failed elsewhere |
| `Commands.ZeroDeadLettersNeverOperated` | commands.go:217-219 | a pair with an empty dead-letter queue is never passed to resend or clear |
| `Commands.SuccessTotalAppend` | commands.go:229 | the running total over two runs of pairs is the sum of their totals |
| `Commands.FailedPairAddsNothing` | commands.go:224-229 | a pair whose operation failed adds nothing to the total |
| `Commands.PartialFailureIsolation` | commands.go:210-231 | when the first of two subscriptions fails to resend, the second is still resent and the total is its count alone |
| `Commands.OperateOnTopic` | commands.go:210-231 | the inner loop operates on exactly the eligible subscriptions, in order, and totals the successful counts |
| `Commands.OperateOnAllDLQ` | commands.go:195-235 | only failing to list the topics is an error; otherwise the pairs operated on are the eligible ones in order and the total is the sum of the successful counts |
| `Commands.ResendAllDLQMessages` | commands.go:195-236 | the bulk loop with the resend operation: skips empty queues, continues past failures, sums the resent counts, and fails only when the topics cannot be listed |
| `Commands.ClearAllDLQMessages` | commands.go:238-279 | the same behaviour with the clear operation |
| `Commands.TopicRowsFailsIff` | commands.go:118-122 | listing one topic fails iff some subscription's statistics cannot be fetched |
| `Commands.TopicRowsContent` | commands.go:118-130 | a successful listing has a row exactly for each shown subscription (all of them, or with `dlqOnly` those with dead letters), with its fetched counts |
| `Commands.TopicRowsAllShown` | commands.go:124-130 | without `dlqOnly` every subscription gets one row, in order |
| `Commands.TopicRowsInOrder` | commands.go:118-131 | a successful listing of one topic is exactly the in-order filter of its subscriptions to those shown, one row each with its fetched counts, with or without `dlqOnly` |
| `Commands.TopicRowsAbortIsFinal` | commands.go:119-122 | after the first statistics error, later subscriptions change nothing |
| `Commands.WriteTopicSubscriptionsStats` | commands.go:112-133 | failing to list subscriptions is an error; otherwise the rows, or the first statistics error |
| `Commands.AllRowsFailsIff` | commands.go:73-78 | the listing over all topics fails iff some topic's subscriptions or some subscription's statistics cannot be fetched |
| `Commands.AllRowsAbortIsFinal` | commands.go:73-78 | after the first error, later topics change nothing |
| `Commands.AllRowsInOrder` | commands.go:73-78 | a successful full listing is each topic's in-order filtered rows, concatenated in topic order |
| `Commands.ListStats` | commands.go:64-86 | a topic listing error, the first per-topic error, a flush error, or the rows of every topic in order |
| `Commands.ListTopicStatByTopics` | commands.go:64-86 | the full listing without the dead-letter filter |
| `Commands.ListDLQStats` | commands.go:88-110 | the full listing showing only subscriptions with dead letters |
| `Commands.SelectTopic` | commands.go:31-46 | on a listing or prompt error the context is unchanged; otherwise only the topic changes, to the selection |
| `Commands.SelectSubscription` | commands.go:48-62 | the same for the subscription of the current topic |
| `Commands.GetConnectionString` | commands.go:16-29 | returns at once when a connection string is set; otherwise a failed prompt ends the process and a successful one sets only the connection string |
| `Commands.DefaultFileName` | commands.go:153 | the default name starts with the topic and a dash, and ends in "-dlq-messages.jsonl" |
| `Commands.DefaultFileNameIsListed` | commands.go:153 | the default name passes the `.jsonl` filter |
| `Commands.WriteDLQMessagesToFile` | commands.go:135-193 | asks for a topic or subscription only when that field is empty; only selection and file-name prompt failures return an error, each with its prefix, and a failed subscription selection leaves the subscription as it was; otherwise the report is the writer's count on success and 0 on failure, for the chosen file name |

## Left out

- `PublishMessages` (commands.go:281-335) is not modelled. It routes between file prompts, then hands a channel to `topics.PublishMessagesToTopic`, which is not defined in the source. Its conversion step, `TransformMessage`, and the reader are modelled.
- The 100-message publish batching and the batched, target-count drain loop are not part of the source. `FetchDLQMessages` (topics/topics.go:86-119) does a single receive and is an oracle here (`Broker.fetchDLQMessages`).
- `topics.ResendDLQMessages` and `topics.ClearDLQMessages` are not defined in the source. They are oracles with the signature used at their call sites.
- `prompts.EnterCustomFileName` and `prompts.SelectFileOrCustom` are not defined in the source, and they belong only to `PublishMessages`.
- Goroutines, `sync.WaitGroup` and channels are sequential here: the writer consumes a sequence, and the reader yields a sequence of records and a sequence of errors. The error-channel drains only log, so they are dropped.
- The reader's open-failure path (io/io.go:141-147) sends on an unbuffered channel that nobody reads yet, so it blocks. It is not modelled as returning an error.
- `encoding/json` is an oracle: `marshal` may fail per record, and each decode call's outcome is given, with end of file once the outcomes run out. So the model makes no claim about the bytes of a JSON line. In particular, `encoding/json` replaces invalid UTF-8 in a body, so a round trip through the file itself is not claimed; `RoundTrip` is about the two conversions.
- `WriteLinesOneLinePerMessage` assumes that the encoder never emits a raw newline byte (`EncodesOnOneLine`). It is an assumption about `json.Marshal`, which escapes newlines.
- `os.Open`, `Readdir`, `MkdirAll`, `Create` and `Write` are oracles that succeed or fail. A short write is not told apart from a failed one. A failed `Write` adds no bytes in the model, while `os.File.Write` may already have written part of the buffer before it returns its error; so `WriteMessagesToJsonLinesFile`'s `file` and `WriteLinesAppendOnly` describe the file without such partial bytes.
- File names that are not valid UTF-8 cannot be held in a `seq<char>`, and a Go string can hold them; the separator scan and the `.jsonl` filter are modelled only for valid UTF-8 names.
- `time.Now` and its formatting are not modelled: the drain command takes the formatted timestamp as a parameter. `time.Time` and `time.Duration` fields, and application-property values, are `Opaque`.
- Printing is not modelled: `fmt` output, the `tabwriter` table, `PrintContext`, the main.go menu and prompts/prompts.go. The statistics commands return their rows, and the drain command returns the line it would print.
- The commands read the global `appContext`; here they take it as a parameter. The broker calls' connection-string argument is implicit in the oracle.
- `WriteDLQMessagesToFile`: the report of 0 after a failed write, with no error, assumes that the producer behind `FetchDLQMessages` finishes and closes its error channel even when nobody reads its message channel any more. The writer returns early without draining the message channel (io/io.go:77-132); a producer that then blocks on a send never closes the error channel, so the drain loop of commands.go:180-185 and `wg.Wait()` at commands.go:188 never return and nothing is reported. The model does not capture that hang.
- main.go:62 calls `WriteDLQMessagesToFile()` without the receive mode; here the receive mode is a parameter.
- `OperateOnAllDLQ`: running totals are unbounded integers, so a Go `int` overflow of the sum is not modelled.
- The directory oracle answers each query the same way each time, so a topic listed twice gets the same subscriptions.
- `ReceivedMessage` holds only the fields that the record construction reads; the SDK's other fields (for example the raw AMQP message) are left out.
