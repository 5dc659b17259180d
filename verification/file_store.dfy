/** The file side of io/io.go: listing `.jsonl` files, writing drained
    messages one JSON line each, and decoding records back. The operating
    system and `encoding/json` are oracles; channels are sequences. */
module FileStore {
  import opened Wrappers
  import opened Codec

  // ---------------------------------------------------------------------
  // Listing candidate files
  // ---------------------------------------------------------------------

  /** One entry of the working directory. */
  datatype DirEntry = DirEntry(name: string, isDir: bool)

  /** What opening and reading the working directory gives. */
  datatype DirListing = OpenFailed(error: string) | ReadFailed(error: string) | Listed(entries: seq<DirEntry>)

  /** A regular file whose name is longer than six characters and ends in
      ".jsonl" (so a file named exactly ".jsonl" is not a candidate). */
  predicate IsJsonlFile(e: DirEntry) {
    !e.isDir && |e.name| > 6 && e.name[|e.name| - 6..] == ".jsonl"
  }

  /** The names of the candidate entries, in directory order. */
  function JsonlNames(entries: seq<DirEntry>): (names: seq<string>)
    ensures |names| <= |entries|
  {
    if entries == [] then []
    else
      var e := entries[|entries| - 1];
      var rest := JsonlNames(entries[..|entries| - 1]);
      if IsJsonlFile(e) then rest + [e.name] else rest
  }

  lemma JsonlNamesSnoc(entries: seq<DirEntry>, e: DirEntry)
    ensures JsonlNames(entries + [e]) == JsonlNames(entries) + (if IsJsonlFile(e) then [e.name] else [])
  {
    assert (entries + [e])[..|entries|] == entries;
  }

  /** Filtering distributes over concatenation: the order of the directory
      is kept and each entry is judged on its own. */
  lemma {:induction false} JsonlNamesAppend(a: seq<DirEntry>, b: seq<DirEntry>)
    ensures JsonlNames(a + b) == JsonlNames(a) + JsonlNames(b)
    decreases |b|
  {
    if b == [] {
      assert a + b == a;
    } else {
      var b' := b[..|b| - 1];
      assert (a + b)[..|a + b| - 1] == a + b';
      JsonlNamesAppend(a, b');
    }
  }

  /** A name is listed iff some entry with that name is a candidate. */
  lemma {:induction false} JsonlNamesMembership(entries: seq<DirEntry>, name: string)
    ensures name in JsonlNames(entries) <==>
            exists i :: 0 <= i < |entries| && IsJsonlFile(entries[i]) && entries[i].name == name
  {
    if entries != [] {
      var init := entries[..|entries| - 1];
      JsonlNamesMembership(init, name);
      if exists i :: 0 <= i < |init| && IsJsonlFile(init[i]) && init[i].name == name {
        var i :| 0 <= i < |init| && IsJsonlFile(init[i]) && init[i].name == name;
        assert entries[i] == init[i];
      }
      if exists i :: 0 <= i < |entries| && IsJsonlFile(entries[i]) && entries[i].name == name {
        var i :| 0 <= i < |entries| && IsJsonlFile(entries[i]) && entries[i].name == name;
        if i < |init| { assert init[i] == entries[i]; }
      }
    }
  }

  /** A file named exactly ".jsonl" is never offered. */
  lemma BareExtensionExcluded()
    ensures !IsJsonlFile(DirEntry(".jsonl", false))
  {
  }

  /** Lists the candidate files of the working directory; an empty list is
      a normal result, only failing to open or read the directory is an
      error. */
  method ListJsonlFiles(dir: DirListing) returns (r: Result<seq<string>>)
    ensures dir.OpenFailed? ==> r == Err("failed to open directory: " + dir.error)
    ensures dir.ReadFailed? ==> r == Err("failed to read directory: " + dir.error)
    ensures dir.Listed? ==> r == Ok(JsonlNames(dir.entries))
  {
    if dir.OpenFailed? {
      return Err("failed to open directory: " + dir.error);
    }
    if dir.ReadFailed? {
      return Err("failed to read directory: " + dir.error);
    }
    var entries := dir.entries;
    var jsonlFiles: seq<string> := [];
    for i := 0 to |entries|
      invariant jsonlFiles == JsonlNames(entries[..i])
    {
      assert entries[..i + 1] == entries[..i] + [entries[i]];
      JsonlNamesSnoc(entries[..i], entries[i]);
      var e := entries[i];
      if !e.isDir && |e.name| > 6 && e.name[|e.name| - 6..] == ".jsonl" {
        jsonlFiles := jsonlFiles + [e.name];
      }
    }
    assert entries[..|entries|] == entries;
    return Ok(jsonlFiles);
  }

  // ---------------------------------------------------------------------
  // The parent directory of the output file
  // ---------------------------------------------------------------------

  predicate IsSeparator(c: char) {
    c == '/' || c == '\\'
  }

  /** The index of the last '/' or '\\' in `s`, or -1 when there is none. */
  function LastSeparator(s: string): (k: int)
    ensures -1 <= k < |s|
    ensures k >= 0 ==> IsSeparator(s[k])
    ensures forall j :: k < j < |s| ==> !IsSeparator(s[j])
  {
    if s == [] then -1
    else if IsSeparator(s[|s| - 1]) then |s| - 1
    else LastSeparator(s[..|s| - 1])
  }

  /** The directory the writer creates before the file: the prefix before
      the last separator, or none when the name has no separator. */
  function ParentDir(filename: string): (d: Option<string>)
    ensures d.None? <==> forall j :: 0 <= j < |filename| ==> !IsSeparator(filename[j])
    ensures d.Some? ==> |d.value| < |filename| && IsSeparator(filename[|d.value|])
                        && filename[..|d.value|] == d.value
    ensures d.Some? ==> forall j :: |d.value| < j < |filename| ==> !IsSeparator(filename[j])
  {
    var k := LastSeparator(filename);
    if k == -1 then None else Some(filename[..k])
  }

  /** The backward scan of the writer: finds the last separator. */
  method LastSeparatorIndex(filename: string) returns (lastSlashIndex: int)
    ensures lastSlashIndex == LastSeparator(filename)
  {
    lastSlashIndex := -1;
    var i := |filename| - 1;
    while i >= 0
      invariant -1 <= i < |filename|
      invariant forall j :: i < j < |filename| ==> !IsSeparator(filename[j])
    {
      if filename[i] == '/' || filename[i] == '\\' {
        lastSlashIndex := i;
        break;
      }
      i := i - 1;
    }
    LastSeparatorUnique(filename, lastSlashIndex);
  }

  /** The last separator is determined by its two defining properties. */
  lemma LastSeparatorUnique(s: string, k: int)
    requires -1 <= k < |s|
    requires k >= 0 ==> IsSeparator(s[k])
    requires forall j :: k < j < |s| ==> !IsSeparator(s[j])
    ensures k == LastSeparator(s)
  {
  }

  // ---------------------------------------------------------------------
  // Writing drained messages as JSON lines
  // ---------------------------------------------------------------------

  const NewLine: byte := 10

  /** The operating system and the JSON encoder as the writer sees them.
      `write(n)` is the outcome of the n-th `Write` call on the created file
      (0-based): message i is written by calls 2i (its JSON) and 2i+1 (the
      newline). */
  datatype WriterEnv = WriterEnv(
    mkdirAll: string -> Outcome,
    create: string -> Outcome,
    write: nat -> Outcome,
    marshal: SerializableMessage -> Result<seq<byte>>)

  /** The state of the file after handing it messages in order: the first
      failure, if any, and the bytes that reached the file. */
  datatype Progress = Progress(failure: Option<string>, bytes: seq<byte>)

  /** The file after one more message, the one at position `k`: nothing
      happens after a failure; otherwise the message's JSON and then a
      newline are written, stopping at the first step that fails. */
  function WriteStep(prev: Progress, record: SerializableMessage, k: nat, env: WriterEnv): (next: Progress)
  {
    if prev.failure.Some? then prev
    else match env.marshal(record)
      case Err(e) => Progress(Some("failed to serialize message: " + e), prev.bytes)
      case Ok(json) =>
        if env.write(2 * k).Fail? then
          Progress(Some("failed to write message to file: " + env.write(2 * k).error), prev.bytes)
        else if env.write(2 * k + 1).Fail? then
          Progress(Some("failed to write newline to file: " + env.write(2 * k + 1).error), prev.bytes + json)
        else Progress(None, prev.bytes + json + [NewLine])
  }

  /** The file after the messages `ms` (at positions 0, 1, ...): writing
      stops at the first failure and keeps what was already written. */
  function WriteLines(ms: seq<ReceivedMessage>, env: WriterEnv): (p: Progress)
  {
    if ms == [] then Progress(None, [])
    else WriteStep(WriteLines(ms[..|ms| - 1], env), ToSerializableMessage(ms[|ms| - 1]), |ms| - 1, env)
  }

  lemma WriteLinesSnoc(ms: seq<ReceivedMessage>, m: ReceivedMessage, env: WriterEnv)
    ensures WriteLines(ms + [m], env) == WriteStep(WriteLines(ms, env), ToSerializableMessage(m), |ms|, env)
  {
    assert (ms + [m])[..|ms|] == ms;
  }

  /** One more message of the stream is one more step of the writer. */
  lemma WriteLinesPrefixStep(ms: seq<ReceivedMessage>, i: nat, env: WriterEnv)
    requires i < |ms|
    ensures WriteLines(ms[..i + 1], env) == WriteStep(WriteLines(ms[..i], env), ToSerializableMessage(ms[i]), i, env)
  {
    assert ms[..i + 1] == ms[..i] + [ms[i]];
    WriteLinesSnoc(ms[..i], ms[i], env);
  }

  /** Message `i` of the stream is serialised and both of its writes succeed. */
  predicate MessageWritten(ms: seq<ReceivedMessage>, env: WriterEnv, i: nat)
    requires i < |ms|
  {
    && env.marshal(ToSerializableMessage(ms[i])).Ok?
    && env.write(2 * i).Pass?
    && env.write(2 * i + 1).Pass?
  }

  /** Writing succeeds iff every message is serialised and written. */
  lemma {:induction false} WriteLinesSucceedsIff(ms: seq<ReceivedMessage>, env: WriterEnv)
    ensures WriteLines(ms, env).failure.None? <==> forall i :: 0 <= i < |ms| ==> MessageWritten(ms, env, i)
  {
    if ms != [] {
      var init := ms[..|ms| - 1];
      WriteLinesSucceedsIff(init, env);
      WriteLinesStep(ms, env);
      forall i | 0 <= i < |init|
        ensures MessageWritten(init, env, i) == MessageWritten(ms, env, i)
      {
        MessageWrittenInPrefix(ms, |ms| - 1, i, env);
      }
    }
  }

  /** Whether a message is written does not depend on what follows it. */
  lemma MessageWrittenInPrefix(ms: seq<ReceivedMessage>, k: nat, i: nat, env: WriterEnv)
    requires i < k <= |ms|
    ensures MessageWritten(ms[..k], env, i) == MessageWritten(ms, env, i)
  {
    assert ms[..k][i] == ms[i];
  }

  /** Once a failure has happened, later messages change nothing. */
  lemma {:induction false} WriteLinesStopsAtFailure(ms: seq<ReceivedMessage>, k: nat, env: WriterEnv)
    requires k <= |ms|
    requires WriteLines(ms[..k], env).failure.Some?
    ensures WriteLines(ms, env) == WriteLines(ms[..k], env)
    decreases |ms| - k
  {
    if k < |ms| {
      var init := ms[..|ms| - 1];
      assert init[..k] == ms[..k];
      WriteLinesStopsAtFailure(init, k, env);
    } else {
      assert ms[..k] == ms;
    }
  }

  /** Nothing written is rolled back: the bytes after a prefix of the
      stream are a prefix of the bytes after the whole stream. */
  lemma {:induction false} WriteLinesAppendOnly(ms: seq<ReceivedMessage>, k: nat, env: WriterEnv)
    requires k <= |ms|
    ensures WriteLines(ms[..k], env).bytes <= WriteLines(ms, env).bytes
    decreases |ms| - k
  {
    if k == |ms| {
      assert ms[..k] == ms;
    } else {
      var init := ms[..|ms| - 1];
      assert init[..k] == ms[..k];
      WriteLinesAppendOnly(init, k, env);
      WriteLinesStep(ms, env);
    }
  }

  /** One more message: the earlier bytes stay, and the stream is still
      clean iff it was clean and the new message was written in full. */
  lemma WriteLinesStep(ms: seq<ReceivedMessage>, env: WriterEnv)
    requires ms != []
    ensures WriteLines(ms[..|ms| - 1], env).bytes <= WriteLines(ms, env).bytes
    ensures WriteLines(ms, env).failure.None? <==>
            WriteLines(ms[..|ms| - 1], env).failure.None? && MessageWritten(ms, env, |ms| - 1)
  {
    WriteStepExtends(WriteLines(ms[..|ms| - 1], env), ToSerializableMessage(ms[|ms| - 1]), |ms| - 1, env);
  }

  lemma WriteStepExtends(prev: Progress, record: SerializableMessage, k: nat, env: WriterEnv)
    ensures prev.bytes <= WriteStep(prev, record, k, env).bytes
    ensures WriteStep(prev, record, k, env).failure.None? <==>
            && prev.failure.None?
            && env.marshal(record).Ok?
            && env.write(2 * k).Pass?
            && env.write(2 * k + 1).Pass?
  {
    var r := env.marshal(record);
    if prev.failure.None? && r.Ok? {
      assert prev.bytes <= prev.bytes + r.value;
      assert prev.bytes <= prev.bytes + r.value + [NewLine];
    }
  }

  function CountNewLines(bs: seq<byte>): (n: nat)
    ensures n <= |bs|
  {
    if bs == [] then 0
    else CountNewLines(bs[..|bs| - 1]) + (if bs[|bs| - 1] == NewLine then 1 else 0)
  }

  lemma {:induction false} CountNewLinesAppend(a: seq<byte>, b: seq<byte>)
    ensures CountNewLines(a + b) == CountNewLines(a) + CountNewLines(b)
    decreases |b|
  {
    if b == [] {
      assert a + b == a;
    } else {
      var b' := b[..|b| - 1];
      assert (a + b)[..|a + b| - 1] == a + b';
      CountNewLinesAppend(a, b');
    }
  }

  /** The JSON encoder escapes newlines inside strings, so an encoded
      record never contains a raw newline byte. */
  ghost predicate EncodesOnOneLine(marshal: SerializableMessage -> Result<seq<byte>>) {
    forall r :: marshal(r).Ok? ==> NewLine !in marshal(r).value
  }

  /** One line per message: when writing succeeds and the encoder never
      emits a raw newline, the file holds exactly as many lines as messages. */
  lemma {:induction false} WriteLinesOneLinePerMessage(ms: seq<ReceivedMessage>, env: WriterEnv)
    requires EncodesOnOneLine(env.marshal)
    requires WriteLines(ms, env).failure.None?
    ensures CountNewLines(WriteLines(ms, env).bytes) == |ms|
  {
    if ms != [] {
      var init := ms[..|ms| - 1];
      var json := env.marshal(ToSerializableMessage(ms[|ms| - 1])).value;
      WriteLinesOneLinePerMessage(init, env);
      NoNewLineCountsZero(json);
      CountNewLinesAppend(WriteLines(init, env).bytes, json);
      CountNewLinesAppend(WriteLines(init, env).bytes + json, [NewLine]);
    }
  }

  lemma {:induction false} NoNewLineCountsZero(bs: seq<byte>)
    requires NewLine !in bs
    ensures CountNewLines(bs) == 0
  {
    if bs != [] {
      assert bs[|bs| - 1] in bs;
      NoNewLineCountsZero(bs[..|bs| - 1]);
    }
  }

  /** Writes each received message as one JSON line of `filename`, first
      creating the directories before its last separator. Returns the
      number of messages written; on any failure it returns 0 and the
      error, leaving what was already written in the file.
      `mkdirPath` is the path given to `MkdirAll`, if it was called;
      `file` is the content of the created file, if it was created. */
  method WriteMessagesToJsonLinesFile(messages: seq<ReceivedMessage>, filename: string, env: WriterEnv)
    returns (count: nat, err: Option<string>, mkdirPath: Option<string>, file: Option<seq<byte>>)
    ensures mkdirPath == ParentDir(filename)
    ensures err.Some? ==> count == 0
    ensures err.None? ==> count == |messages|
    ensures mkdirPath.Some? && env.mkdirAll(mkdirPath.value).Fail? ==>
              err == Some("failed to create directories: " + env.mkdirAll(mkdirPath.value).error) && file.None?
    ensures (mkdirPath.None? || env.mkdirAll(mkdirPath.value).Pass?) && env.create(filename).Fail? ==>
              err == Some("failed to create file: " + env.create(filename).error) && file.None?
    ensures (mkdirPath.None? || env.mkdirAll(mkdirPath.value).Pass?) && env.create(filename).Pass? ==>
              file == Some(WriteLines(messages, env).bytes) && err == WriteLines(messages, env).failure
  {
    var lastSlashIndex := LastSeparatorIndex(filename);
    mkdirPath := None;
    if lastSlashIndex != -1 {
      var dir := filename[..lastSlashIndex];
      mkdirPath := Some(dir);
      var made := env.mkdirAll(dir);
      if made.Fail? {
        return 0, Some("failed to create directories: " + made.error), mkdirPath, None;
      }
    }

    var created := env.create(filename);
    if created.Fail? {
      return 0, Some("failed to create file: " + created.error), mkdirPath, None;
    }

    var count', failure, bytes := WriteLinesInOrder(messages, env);
    return count', failure, mkdirPath, Some(bytes);
  }

  /** The loop over the stream: each message is serialised and written
      with its newline, in arrival order, until the first failure. */
  method WriteLinesInOrder(messages: seq<ReceivedMessage>, env: WriterEnv)
    returns (count: nat, err: Option<string>, bytes: seq<byte>)
    ensures WriteLines(messages, env) == Progress(err, bytes)
    ensures err.Some? ==> count == 0
    ensures err.None? ==> count == |messages|
  {
    count, err, bytes := 0, None, [];
    var i := 0;
    while i < |messages| && err.None?
      invariant 0 <= i <= |messages|
      invariant WriteLines(messages[..i], env) == Progress(err, bytes)
    {
      var message := ToSerializableMessage(messages[i]);
      err, bytes := WriteRecord(message, i, env, bytes);
      WriteLinesPrefixStep(messages, i, env);
      i := i + 1;
    }
    if err.Some? {
      // the source returns 0 as soon as a write fails
      WriteLinesStopsAtFailure(messages, i, env);
    } else {
      assert messages[..i] == messages;
      count := i;
    }
  }

  /** The body of the writer's loop for the record at position `i`: JSON
      encoding, the write of the JSON, then the write of the newline, each
      failure ending the step; `bytes` is the file before, `after` the file
      after. */
  method WriteRecord(message: SerializableMessage, i: nat, env: WriterEnv, bytes: seq<byte>)
    returns (failure: Option<string>, after: seq<byte>)
    ensures WriteStep(Progress(None, bytes), message, i, env) == Progress(failure, after)
  {
    failure, after := None, bytes;
    var jsonBytes := env.marshal(message);
    if jsonBytes.Err? {
      return Some("failed to serialize message: " + jsonBytes.error), after;
    }
    var written := env.write(2 * i);
    if written.Fail? {
      return Some("failed to write message to file: " + written.error), after;
    }
    after := after + jsonBytes.value;
    var newline := env.write(2 * i + 1);
    if newline.Fail? {
      return Some("failed to write newline to file: " + newline.error), after;
    }
    after := after + [NewLine];
  }

  // ---------------------------------------------------------------------
  // Reading records back
  // ---------------------------------------------------------------------

  /** What one call of the JSON decoder gives; once these are used up the
      decoder reports end of file. A failure whose text is "EOF" also ends
      the stream quietly, as the source compares the error's text. */
  datatype DecodeOutcome = Decoded(record: SerializableMessage) | DecodeFailed(error: string)

  /** The number of records decoded before the first failure or the end. */
  function LeadingRecords(decoder: seq<DecodeOutcome>): (n: nat)
    ensures n <= |decoder|
    ensures forall i :: 0 <= i < n ==> decoder[i].Decoded?
    ensures n < |decoder| ==> decoder[n].DecodeFailed?
  {
    if decoder == [] || decoder[0].DecodeFailed? then 0
    else 1 + LeadingRecords(decoder[1..])
  }

  /** No record after a decode error is ever yielded. */
  lemma DecodeStopsAtFirstError(decoder: seq<DecodeOutcome>, k: nat)
    requires k < |decoder| && decoder[k].DecodeFailed?
    ensures LeadingRecords(decoder) <= k
  {
  }

  /** Decodes records until end of file or the first decode error; the
      error, if any, is reported once and nothing is yielded after it. An
      error whose text is "EOF" is end of file. */
  method ReadMessagesFromJsonLinesFile(decoder: seq<DecodeOutcome>)
    returns (records: seq<SerializableMessage>, errors: seq<string>)
    ensures |records| == LeadingRecords(decoder)
    ensures forall i :: 0 <= i < |records| ==> decoder[i] == Decoded(records[i])
    ensures |records| < |decoder| && decoder[|records|].error != "EOF" ==>
              errors == ["failed to decode message: " + decoder[|records|].error]
    ensures |records| == |decoder| || decoder[|records|].error == "EOF" ==> errors == []
  {
    records, errors := [], [];
    var i := 0;
    while true
      invariant 0 <= i <= |decoder|
      invariant |records| == i
      invariant forall j :: 0 <= j < i ==> decoder[j] == Decoded(records[j])
      invariant LeadingRecords(decoder) == i + LeadingRecords(decoder[i..])
      decreases |decoder| - i
    {
      if i == |decoder| {
        break;
      }
      match decoder[i]
      case DecodeFailed(e) =>
        if e == "EOF" {
          break;
        }
        errors := ["failed to decode message: " + e];
        return;
      case Decoded(message) =>
        assert decoder[i..][1..] == decoder[i + 1..];
        records := records + [message];
        i := i + 1;
    }
  }
}
