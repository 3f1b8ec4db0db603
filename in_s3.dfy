/** The S3 input plugin: the extractor registry, configure's checks, the
    options of the S3 and SQS clients, the key `process` reads from an S3
    event notification, and the poll loop that decides, message by message,
    what is skipped, processed, deleted, and when polling stops. */
module InS3 {
  import opened Basics

  // ---------------------------------------------------------------------
  // Extractors and their registry

  /** The extractors built into the plugin. */
  datatype ExtractorKind = GzipExtractor | TextExtractor | JsonExtractor

  function Ext(k: ExtractorKind): string
  {
    match k
    case GzipExtractor => "gz"
    case TextExtractor => "txt"
    case JsonExtractor => "json"
  }

  function ContentType(k: ExtractorKind): string
  {
    match k
    case GzipExtractor => "application/x-gzip"
    case TextExtractor => "text/plain"
    case JsonExtractor => "application/json"
  }

  /** The body of an object as the extractor hands it on. Text and JSON
      objects are read as they are; gzip objects go through `gunzip`. */
  function Extract(k: ExtractorKind, contents: string, gunzip: string -> Result<string, string>)
    : Result<string, string>
  {
    match k
    case GzipExtractor => gunzip(contents)
    case TextExtractor => Success(contents)
    case JsonExtractor => Success(contents)
  }

  /** TextExtractor, and JsonExtractor by inheriting its `extract`, pass the
      object's contents on unchanged; only gzip decodes. */
  lemma ExtractPlainIsIdentity(k: ExtractorKind, contents: string, gunzip: string -> Result<string, string>)
    ensures k != GzipExtractor ==> Extract(k, contents, gunzip) == Success(contents)
    ensures k == GzipExtractor ==> Extract(k, contents, gunzip) == gunzip(contents)
  {
  }

  /** The extractors shipped in files of their own, each of which is meant to
      register itself through `register_extractor` when it is loaded. */
  datatype AddOnExtractor = GzipCommandExtractor | LzoExtractor | Lzma2Extractor | ZstExtractor

  function AddOnName(a: AddOnExtractor): string
  {
    match a
    case GzipCommandExtractor => "gzip_command"
    case LzoExtractor => "lzo"
    case Lzma2Extractor => "lzma2"
    case ZstExtractor => "zst"
  }

  predicate IsAddOnName(name: string)
  {
    name == "gzip_command" || name == "lzo" || name == "lzma2" || name == "zst"
  }

  /** Why a lookup fails: no extractor of that name anywhere, or the add-on
      file was found but raised while it was loaded: its call to
      `register_extractor` raises, and the zst file, which reopens
      `Fluent::Plugin::S3Input` where `Extractor` does not resolve, raises
      before it gets there. */
  datatype LookupError = UnknownExtractor(name: string) | LoadRaised(name: string)

  /** The NoMethodError `register_extractor` raises: Registry has no `regster`. */
  const RegsterMissing := "undefined method `regster' for the s3_extractor_type registry"

  /** `S3Input.register_extractor`: it calls `regster`, a method the registry
      does not have, so every call raises and nothing is registered. */
  method RegisterExtractor(registry: Registry, name: string, kind: ExtractorKind)
    returns (r: Outcome<string>)
    ensures r == Fail(RegsterMissing)
  {
    r := Fail(RegsterMissing);
  }

  /** EXTRACTOR_REGISTRY: names mapped to extractors. */
  class Registry {
    var entries: map<string, ExtractorKind>

    constructor()
      ensures entries == map[]
    {
      entries := map[];
    }

    method Register(name: string, kind: ExtractorKind)
      modifies this
      ensures entries == old(entries)[name := kind]
      ensures Lookup(name) == Success(kind)
      ensures forall n :: n != name ==> Lookup(n) == old(Lookup(n))
    {
      entries := entries[name := kind];
    }

    /** A registered name yields its extractor. Otherwise the registry loads the
        plugin file of that name: loading an add-on file raises; for any other
        name there is no file and the lookup raises. */
    function Lookup(name: string): (r: Result<ExtractorKind, LookupError>)
      reads this
    {
      if name in entries then Success(entries[name])
      else if IsAddOnName(name) then Failure(LoadRaised(name))
      else Failure(UnknownExtractor(name))
    }
  }

  /** The rows registered when the plugin is loaded, in that order. */
  const BuiltinRows: seq<(string, ExtractorKind)> :=
    [("gzip", GzipExtractor), ("text", TextExtractor), ("json", JsonExtractor)]

  /** The map that registering `rows` in order produces; a later row wins. */
  function RowsMap(rows: seq<(string, ExtractorKind)>): map<string, ExtractorKind>
  {
    if rows == [] then map[] else RowsMap(rows[..|rows| - 1])[rows[|rows| - 1].0 := rows[|rows| - 1].1]
  }

  /** The built-in registry has exactly gzip, text and json, with the
      extensions and MIME types the plugin declares. */
  lemma BuiltinRegistryRows()
    ensures RowsMap(BuiltinRows) == map["gzip" := GzipExtractor, "text" := TextExtractor, "json" := JsonExtractor]
    ensures Ext(GzipExtractor) == "gz" && ContentType(GzipExtractor) == "application/x-gzip"
    ensures Ext(TextExtractor) == "txt" && ContentType(TextExtractor) == "text/plain"
    ensures Ext(JsonExtractor) == "json" && ContentType(JsonExtractor) == "application/json"
  {
    var one, two := BuiltinRows[..1], BuiltinRows[..2];
    assert one[..0] == [];
    assert RowsMap(one) == map["gzip" := GzipExtractor];
    assert two[..1] == one;
    assert RowsMap(two) == map["gzip" := GzipExtractor, "text" := TextExtractor];
    assert BuiltinRows[..2] == two;
  }

  /** Building EXTRACTOR_REGISTRY: one `register` per row. */
  method NewExtractorRegistry() returns (registry: Registry)
    ensures fresh(registry)
    ensures registry.entries == RowsMap(BuiltinRows)
  {
    registry := new Registry();
    for i := 0 to |BuiltinRows|
      invariant registry.entries == RowsMap(BuiltinRows[..i])
    {
      assert BuiltinRows[..i + 1][..i] == BuiltinRows[..i];
      registry.Register(BuiltinRows[i].0, BuiltinRows[i].1);
    }
    assert BuiltinRows[..|BuiltinRows|] == BuiltinRows;
  }

  // ---------------------------------------------------------------------
  // configure

  /** The extractor configure settles on and the warning it logs, if any. */
  datatype ExtractorChoice = ExtractorChoice(kind: ExtractorKind, warning: Option<string>)

  /** A failed lookup is rescued: configure warns and uses TextExtractor. */
  function ChooseExtractor(storeAs: string, lookup: Result<ExtractorKind, LookupError>): (c: ExtractorChoice)
    ensures lookup.Success? ==> c.kind == lookup.value
    ensures c.warning.None? <==> lookup.Success?
  {
    match lookup
    case Success(k) => ExtractorChoice(k, None)
    case Failure(_) => ExtractorChoice(TextExtractor, Some(storeAs + " not found. Use 'text' instead"))
  }

  /** With the built-in registry, gzip, text and json select their own
      extractor without a warning; every other store_as, the add-on names
      included, falls back to TextExtractor with a warning and no error. */
  lemma ChooseFromBuiltins(storeAs: string, registry: Registry)
    requires registry.entries == RowsMap(BuiltinRows)
    ensures var c := ChooseExtractor(storeAs, registry.Lookup(storeAs));
            && (storeAs == "gzip" ==> c == ExtractorChoice(GzipExtractor, None))
            && (storeAs == "text" ==> c == ExtractorChoice(TextExtractor, None))
            && (storeAs == "json" ==> c == ExtractorChoice(JsonExtractor, None))
            && (storeAs != "gzip" && storeAs != "text" && storeAs != "json" ==>
                  c == ExtractorChoice(TextExtractor, Some(storeAs + " not found. Use 'text' instead")))
  {
    BuiltinRegistryRows();
  }

  /** No add-on extractor is ever selected: its name reaches the registry
      only by loading its file, which always raises. */
  lemma AddOnNeverSelected(a: AddOnExtractor, registry: Registry)
    requires registry.entries == RowsMap(BuiltinRows)
    ensures registry.Lookup(AddOnName(a)) == Failure(LoadRaised(AddOnName(a)))
    ensures ChooseExtractor(AddOnName(a), registry.Lookup(AddOnName(a))).kind == TextExtractor
  {
    BuiltinRegistryRows();
  }

  /** The configure step as written: the rescue clause calls
      `TextExtractor.new` without the `log:` keyword its initializer
      requires, so the fallback itself raises ArgumentError. */
  function ChooseExtractorAsWritten(lookup: Result<ExtractorKind, LookupError>): (r: Result<ExtractorKind, string>)
    ensures r.Success? <==> lookup.Success?
    ensures r.Success? ==> r.value == lookup.value
  {
    match lookup
    case Success(k) => Success(k)
    case Failure(_) => Failure("ArgumentError: missing keyword: log")
  }

  /** store_as unknown: the code as written raises where the warning promises
      a text fallback. */
  lemma AsWrittenFallbackRaises()
    ensures ChooseExtractorAsWritten(Failure(UnknownExtractor("unknown"))).Failure?
    ensures ChooseExtractor("unknown", Failure(UnknownExtractor("unknown"))).kind == TextExtractor
  {
  }

  datatype InputConfigError = QueueNameRequired

  function InputErrorMessage(e: InputConfigError): string
  {
    match e
    case QueueNameRequired => "sqs_queue_name is required"
  }

  /** The typed parameters as the base class parses them. `s3Region` is None
      only when it is set to nil explicitly: its default is the AWS_REGION
      environment variable or "us-east-1". */
  datatype InputParams = InputParams(
    awsKeyId: Option<string>,
    awsSecKey: Option<string>,
    s3Bucket: string,
    s3Region: Option<string>,
    storeAs: string,
    proxyUri: Option<string>,
    useServerSideEncryption: Option<string>,
    queueName: Option<string>,
    skipDelete: bool,
    waitTimeSeconds: int,
    tag: string)

  /** The declared defaults, with `awsRegion` the value of AWS_REGION. */
  function DefaultInputParams(bucket: string, queueName: Option<string>, awsRegion: Option<string>)
    : (p: InputParams)
    ensures p.storeAs == "gzip" && p.tag == "input.s3" && !p.skipDelete && p.waitTimeSeconds == 20
    ensures p.s3Region == Some(if awsRegion.Some? then awsRegion.value else "us-east-1")
  {
    InputParams(None, None, bucket, Some(if awsRegion.Some? then awsRegion.value else "us-east-1"),
                "gzip", None, None, queueName, false, 20, "input.s3")
  }

  // ---------------------------------------------------------------------
  // The key `process` reads from a notification body

  /** True when `sub` occurs in `s`. */
  predicate Contains(s: string, sub: string)
  {
    exists i :: 0 <= i <= |s| && OccursAt(s, sub, i)
  }

  predicate OccursAt(s: string, sub: string, i: nat)
  {
    i + |sub| <= |s| && s[i..i + |sub|] == sub
  }

  /** `value[key]` for a String key, as Ruby evaluates it on what Yajl can
      return: a Hash gives the entry or nil, a String gives the key when it
      occurs in it or nil, nil and booleans have no `[]`, and an Array or an
      Integer refuses a String index. */
  function Index(v: Json, key: string): (r: Result<Json, string>)
  {
    match v
    case JObj(m) => Success(if key in m then m[key] else JNull)
    case JStr(s) => Success(if Contains(s, key) then JStr(key) else JNull)
    case JNull => Failure("NoMethodError: undefined method `[]' for nil")
    case JBool(_) => Failure("NoMethodError: undefined method `[]' for a boolean")
    case JArr(_) => Failure("TypeError: no implicit conversion of String into Integer")
    case JNum(_) => Failure("TypeError: no implicit conversion of String into Integer")
  }

  /** `value.first[key]`. An Array gives its first element (nil when empty);
      a non-empty Hash gives a [key, value] pair, an Array, which refuses a
      String index; an empty Hash gives nil; no other value has `first`. */
  function FirstThenIndex(v: Json, key: string): Result<Json, string>
  {
    match v
    case JArr(items) => if items == [] then Index(JNull, key) else Index(items[0], key)
    case JObj(m) => if m == map[] then Index(JNull, key) else Index(JArr([]), key)
    case _ => Failure("NoMethodError: undefined method `first'")
  }

  /** The S3 calls, the gzip reader and the record parser `process` relies on. */
  datatype Services = Services(
    getObject: string -> Result<string, string>,
    gunzip: string -> Result<string, string>,
    parse: string -> Result<Json, string>)

  datatype Event = Event(tag: string, time: int, record: Json)

  /** The object `process` fetched and the event it emitted. */
  datatype Fetched = Fetched(key: string, event: Event)

  /** `process(body)`: the key of the first record, the object under that key,
      extracted and parsed, emitted under the configured tag at time `now`. The
      SDK refuses an object key that is not a String. */
  function Process(body: Json, kind: ExtractorKind, env: Services, tag: string, now: int)
    : Result<Fetched, string>
  {
    var records :- Index(body, "Records");
    var s3 :- FirstThenIndex(records, "s3");
    var obj :- Index(s3, "object");
    var key :- Index(obj, "key");
    if !key.JStr? then Failure("ArgumentError: expected the object key to be a String")
    else
      var contents :- env.getObject(key.s);
      var text :- Extract(kind, contents, env.gunzip);
      var record :- env.parse(text);
      Success(Fetched(key.s, Event(tag, now, record)))
  }

  /** `body["Records"][0]["s3"]["object"]` is present, each step through a Hash. */
  predicate HasObjectEntry(body: Json)
  {
    && body.JObj? && "Records" in body.fields
    && var records := body.fields["Records"];
    && records.JArr? && |records.items| > 0
    && var first := records.items[0];
    && first.JObj? && "s3" in first.fields
    && var s3 := first.fields["s3"];
    && s3.JObj? && "object" in s3.fields
  }

  function ObjectEntry(body: Json): Json
    requires HasObjectEntry(body)
  {
    body.fields["Records"].items[0].fields["s3"].fields["object"]
  }

  /** `body["Records"][0]["s3"]["object"]["key"]` is the String `key`, each
      step through a Hash; the body may hold any other fields. */
  predicate HasObjectKey(body: Json, key: string)
  {
    && HasObjectEntry(body)
    && var obj := ObjectEntry(body);
    && obj.JObj? && "key" in obj.fields && obj.fields["key"] == JStr(key)
  }

  /** The object `process` fetches, once the services have answered. */
  function Fetch(key: string, kind: ExtractorKind, env: Services): Result<Json, string>
  {
    var contents :- env.getObject(key);
    var text :- Extract(kind, contents, env.gunzip);
    env.parse(text)
  }

  /** `process` asks S3 for the object key exactly as the notification spells
      it, with no URL decoding, and emits what the parser returns for the
      extracted object under the configured tag; when the GET, the extraction
      or the parse fails, `process` fails with that error and emits nothing. */
  lemma ProcessUsesKeyVerbatim(body: Json, key: string, kind: ExtractorKind, env: Services, tag: string, now: int)
    requires HasObjectKey(body, key)
    ensures Fetch(key, kind, env).Success? ==>
              Process(body, kind, env, tag, now) == Success(Fetched(key, Event(tag, now, Fetch(key, kind, env).value)))
    ensures Fetch(key, kind, env).Failure? ==> Process(body, kind, env, tag, now) == Failure(Fetch(key, kind, env).error)
  {
  }

  /** A failed GET, extraction or parse makes `process` fail: nothing is emitted. */
  lemma ProcessFailsWithServices(body: Json, key: string, kind: ExtractorKind, env: Services, tag: string, now: int)
    requires HasObjectKey(body, key)
    ensures env.getObject(key).Failure? ==> Process(body, kind, env, tag, now).Failure?
    ensures env.getObject(key).Success? && Extract(kind, env.getObject(key).value, env.gunzip).Failure? ==>
              Process(body, kind, env, tag, now).Failure?
    ensures env.getObject(key).Success? && Extract(kind, env.getObject(key).value, env.gunzip).Success?
            && env.parse(Extract(kind, env.getObject(key).value, env.gunzip).value).Failure? ==>
              Process(body, kind, env, tag, now).Failure?
  {
  }

  /** "s3" does not contain "object", and "object" does not contain "key", so
      a String met at the s3 or object step indexes to nil further on. */
  lemma StepNamesDoNotNest()
    ensures !Contains("s3", "object")
    ensures !Contains("object", "key")
  {
    var o := "object";
    assert o[0] != 'k' && o[1] != 'k' && o[2] != 'k' && o[3] != 'k';
    assert o[0..3][0] == o[0] && o[1..4][0] == o[1] && o[2..5][0] == o[2] && o[3..6][0] == o[3];
    assert !OccursAt(o, "key", 0) && !OccursAt(o, "key", 1) && !OccursAt(o, "key", 2);
    assert !OccursAt(o, "key", 3) && !OccursAt(o, "key", 4) && !OccursAt(o, "key", 5);
    assert !OccursAt(o, "key", 6);
  }

  /** Conversely, `process` succeeds only when the first record holds s3.object,
      each step through a Hash, and either that object is a Hash holding the
      fetched key as a String, or it is a String containing "key", which
      String#[] returns, so that the object named "key" is fetched. */
  lemma ProcessNeedsObjectKey(body: Json, kind: ExtractorKind, env: Services, tag: string, now: int)
    requires Process(body, kind, env, tag, now).Success?
    ensures var k := Process(body, kind, env, tag, now).value.key;
            && HasObjectEntry(body)
            && (HasObjectKey(body, k)
                || (k == "key" && ObjectEntry(body).JStr? && Contains(ObjectEntry(body).s, "key")))
  {
    StepNamesDoNotNest();
    var records := Index(body, "Records").value;
    var s3 := FirstThenIndex(records, "s3").value;
    var obj := Index(s3, "object").value;
    var key := Index(obj, "key").value;
    assert key.JStr?;
    assert obj.JObj? || obj.JStr?;
    assert s3.JObj?;
    assert records.JArr? && |records.items| > 0 && records.items[0].JObj?;
    assert body.JObj?;
  }

  // ---------------------------------------------------------------------
  // The poll loop of `run`

  /** A received SQS message: its id and its body as Yajl loads it, or the
      parse error. */
  datatype Message = Message(id: string, body: Result<Json, string>)

  /** What reaches the poll loop: a receive returning a batch (at time `now`),
      a receive whose SDK call raises (`run` has no rescue around `poll`, so
      the error ends `run` and is not logged by it), or `shutdown` clearing
      the running flag from another thread. */
  datatype PollEvent = Receive(batch: seq<Message>, now: int) | ReceiveFailed(error: string) | Shutdown

  /** What the poll block does with one message. */
  datatype Handled =
    | Skipped
    | Processed(body: Json, outcome: Result<Fetched, string>)
    | Failed(error: string)

  /** The poll block: load the body, skip it without a truthy Records (the
      test notification S3 sends), otherwise call `process`; a raise is
      rescued. */
  function Handle(m: Message, kind: ExtractorKind, env: Services, tag: string, now: int): Handled
  {
    match m.body
    case Failure(e) => Failed(e)
    case Success(body) =>
      match Index(body, "Records")
      case Failure(e) => Failed(e)
      case Success(records) =>
        if !Truthy(records) then Skipped else Processed(body, Process(body, kind, env, tag, now))
  }

  /** The state `run` changes: the running flag, whether polling has stopped,
      the receive requests made, the bodies handed to `process`, the events
      emitted, the ids of deleted messages and the warnings logged. */
  datatype PollState = PollState(
    running: bool,
    stopped: bool,
    requests: nat,
    processed: seq<Json>,
    emitted: seq<Event>,
    deleted: seq<string>,
    warnings: seq<string>)

  /** The configuration and services the poll loop works with. */
  datatype PollConfig = PollConfig(kind: ExtractorKind, env: Services, tag: string, skipDelete: bool)

  /** The rescue clause: log a warning and clear the running flag. */
  function Rescued(st: PollState, e: string): PollState
  {
    st.(running := false, warnings := st.warnings + [e])
  }

  /** The messages of a batch in order. The result is the new state and
      whether the block raised, which throws :skip_delete and ends the batch. */
  function HandleBatch(st: PollState, ms: seq<Message>, cfg: PollConfig, now: int): (PollState, bool)
    decreases |ms|
  {
    if ms == [] then (st, false)
    else match Handle(ms[0], cfg.kind, cfg.env, cfg.tag, now)
      case Skipped => HandleBatch(st, ms[1..], cfg, now)
      case Processed(body, Success(f)) =>
        HandleBatch(st.(processed := st.processed + [body], emitted := st.emitted + [f.event]), ms[1..], cfg, now)
      case Processed(body, Failure(e)) => (Rescued(st.(processed := st.processed + [body]), e), true)
      case Failed(e) => (Rescued(st, e), true)
  }

  function Ids(ms: seq<Message>): (ids: seq<string>)
    ensures |ids| == |ms| && forall k :: 0 <= k < |ms| ==> ids[k] == ms[k].id
  {
    if ms == [] then [] else [ms[0].id] + Ids(ms[1..])
  }

  /** One event of the loop. Polling that has stopped stays stopped; shutdown
      still clears the flag. Before each request the before_request hook stops
      polling if the flag is clear. A receive that raises ends polling with the
      flag as it was. For a batch that did not raise, the poller deletes its
      messages unless skip_delete is set. */
  function Step(st: PollState, ev: PollEvent, cfg: PollConfig): PollState
  {
    match ev
    case Shutdown => st.(running := false)
    case ReceiveFailed(_) =>
      if st.stopped then st
      else if !st.running then st.(stopped := true)
      else st.(requests := st.requests + 1, stopped := true)
    case Receive(batch, now) =>
      if st.stopped then st
      else if !st.running then st.(stopped := true)
      else
        var (after, raised) := HandleBatch(st.(requests := st.requests + 1), batch, cfg, now);
        if raised || cfg.skipDelete || batch == [] then after else after.(deleted := after.deleted + Ids(batch))
  }

  /** The loop over a sequence of events. */
  function Poll(st: PollState, evs: seq<PollEvent>, cfg: PollConfig): PollState
    decreases |evs|
  {
    if evs == [] then st else Poll(Step(st, evs[0], cfg), evs[1..], cfg)
  }

  /** Once stopped, polling never resumes: nothing changes but the flag,
      which is clear exactly when it was clear or a shutdown came since. */
  lemma {:induction false} StoppedStaysStopped(st: PollState, evs: seq<PollEvent>, cfg: PollConfig)
    requires st.stopped
    ensures Poll(st, evs, cfg) == st.(running := st.running && Shutdown !in evs)
    decreases |evs|
  {
    if evs != [] {
      var next := Step(st, evs[0], cfg);
      assert next == st.(running := st.running && evs[0] != Shutdown);
      StoppedStaysStopped(next, evs[1..], cfg);
      assert evs == [evs[0]] + evs[1..];
    }
  }

  /** A receive that raises ends polling: after it, whatever comes next, only
      its one request is counted, nothing more is handed to `process`,
      emitted, deleted or logged, and the flag stays set unless a shutdown
      comes. */
  lemma ReceiveFailedEndsPolling(st: PollState, e: string, rest: seq<PollEvent>, cfg: PollConfig)
    requires st.running && !st.stopped
    ensures var final := Poll(st, [ReceiveFailed(e)] + rest, cfg);
            && final.stopped && final.requests == st.requests + 1
            && final.processed == st.processed && final.emitted == st.emitted
            && final.deleted == st.deleted && final.warnings == st.warnings
            && (final.running <==> Shutdown !in rest)
  {
    var evs := [ReceiveFailed(e)] + rest;
    assert evs[0] == ReceiveFailed(e) && evs[1..] == rest;
    StoppedStaysStopped(st.(requests := st.requests + 1, stopped := true), rest, cfg);
  }

  /** Handling a batch never sets the flag, never adds requests or deletions,
      and only appends to what was processed, emitted and logged; a raise
      clears the flag. */
  lemma {:induction false} HandleBatchGrows(st: PollState, ms: seq<Message>, cfg: PollConfig, now: int)
    ensures var (after, raised) := HandleBatch(st, ms, cfg, now);
            && after.requests == st.requests && after.deleted == st.deleted && after.stopped == st.stopped
            && (after.running ==> st.running)
            && (raised ==> !after.running)
            && (!raised ==> after.running == st.running)
            && st.processed <= after.processed && st.emitted <= after.emitted && st.warnings <= after.warnings
    decreases |ms|
  {
    if ms != [] {
      var h := Handle(ms[0], cfg.kind, cfg.env, cfg.tag, now);
      if h.Skipped? {
        HandleBatchGrows(st, ms[1..], cfg, now);
      } else if h.Processed? && h.outcome.Success? {
        var st' := st.(processed := st.processed + [h.body], emitted := st.emitted + [h.outcome.value.event]);
        HandleBatchGrows(st', ms[1..], cfg, now);
      }
    }
  }

  /** A batch whose messages all lack Records calls `process` for none of
      them, emits nothing and logs nothing. */
  lemma {:induction false} SkippedBatchCallsNothing(st: PollState, ms: seq<Message>, cfg: PollConfig, now: int)
    requires forall k :: 0 <= k < |ms| ==> ms[k].body.Success? && Index(ms[k].body.value, "Records") == Success(JNull)
    ensures HandleBatch(st, ms, cfg, now) == (st, false)
    decreases |ms|
  {
    if ms != [] {
      assert Handle(ms[0], cfg.kind, cfg.env, cfg.tag, now) == Skipped;
      SkippedBatchCallsNothing(st, ms[1..], cfg, now);
    }
  }

  /** A batch in which handling raises is not deleted, the flag is cleared,
      and the next receive, whether it would return or raise, stops polling
      without a request. */
  lemma RaiseSkipsDeleteAndStops(st: PollState, batch: seq<Message>, now: int, next: PollEvent, cfg: PollConfig)
    requires st.running && !st.stopped
    requires HandleBatch(st.(requests := st.requests + 1), batch, cfg, now).1
    requires !next.Shutdown?
    ensures var after := Step(st, Receive(batch, now), cfg);
            && !after.running && after.deleted == st.deleted && after.requests == st.requests + 1
            && Step(after, next, cfg) == after.(stopped := true)
  {
    HandleBatchGrows(st.(requests := st.requests + 1), batch, cfg, now);
  }

  /** Once the flag is clear, whatever comes next, no message is handed to
      `process`, nothing is emitted or deleted and no request is made. */
  lemma {:induction false} NotRunningDoesNothing(st: PollState, evs: seq<PollEvent>, cfg: PollConfig)
    requires !st.running
    ensures var final := Poll(st, evs, cfg);
            && final.processed == st.processed && final.emitted == st.emitted
            && final.deleted == st.deleted && final.requests == st.requests && !final.running
    decreases |evs|
  {
    if evs != [] {
      NotRunningDoesNothing(Step(st, evs[0], cfg), evs[1..], cfg);
    }
  }

  /** With skip_delete set the loop never deletes a message. */
  lemma {:induction false} SkipDeleteNeverDeletes(st: PollState, evs: seq<PollEvent>, cfg: PollConfig)
    requires cfg.skipDelete
    ensures Poll(st, evs, cfg).deleted == st.deleted
    decreases |evs|
  {
    if evs != [] {
      var ev := evs[0];
      if ev.Receive? && !st.stopped && st.running {
        HandleBatchGrows(st.(requests := st.requests + 1), ev.batch, cfg, ev.now);
      }
      SkipDeleteNeverDeletes(Step(st, ev, cfg), evs[1..], cfg);
    }
  }

  // ---------------------------------------------------------------------
  // The plugin object

  class S3Input {
    var params: InputParams
    var extractor: Option<ExtractorKind>
    var running: bool
    var stopped: bool
    var requests: nat
    var processed: seq<Json>
    var emitted: seq<Event>
    var deleted: seq<string>
    var warnings: seq<string>

    /** A new plugin has no extractor yet. */
    constructor(p: InputParams)
      ensures params == p && extractor == None && !running && !stopped
      ensures requests == 0 && processed == [] && emitted == [] && deleted == [] && warnings == []
    {
      params := p;
      extractor := None;
      running := false;
      stopped := false;
      requests := 0;
      processed := [];
      emitted := [];
      deleted := [];
      warnings := [];
    }

    function State(): PollState
      reads this
    {
      PollState(running, stopped, requests, processed, emitted, deleted, warnings)
    }

    /** `configure` with `p` parsed by the base class and `registry` the
        extractor registry: a missing queue name is an error; otherwise the
        extractor is looked up, a failed lookup falling back to text. */
    method Configure(p: InputParams, registry: Registry) returns (r: Outcome<InputConfigError>)
      modifies this
      ensures params == p
      ensures r.Fail? ==> InputErrorMessage(r.error) == "sqs_queue_name is required"
      ensures p.queueName.None? ==> r == Fail(QueueNameRequired) && extractor == old(extractor)
                                    && warnings == old(warnings)
      ensures p.queueName.Some? ==>
                var c := ChooseExtractor(p.storeAs, registry.Lookup(p.storeAs));
                && r == Pass && extractor == Some(c.kind)
                && warnings == old(warnings) + (if c.warning.Some? then [c.warning.value] else [])
      ensures running == old(running) && stopped == old(stopped) && requests == old(requests)
      ensures processed == old(processed) && emitted == old(emitted) && deleted == old(deleted)
    {
      params := p;
      if p.queueName.None? {
        return Fail(QueueNameRequired);
      }
      var found := registry.Lookup(p.storeAs);
      if found.Success? {
        extractor := Some(found.value);
      } else {
        warnings := warnings + [p.storeAs + " not found. Use 'text' instead"];
        extractor := Some(TextExtractor);
      }
      r := Pass;
    }

    /** The options of the S3 client. */
    method CreateS3ClientOptions() returns (options: map<string, OptionValue>)
      ensures "access_key_id" in options <==> params.awsKeyId.Some? && params.awsSecKey.Some?
      ensures "secret_access_key" in options <==> params.awsKeyId.Some? && params.awsSecKey.Some?
      ensures "access_key_id" in options ==>
                options["access_key_id"] == Str(params.awsKeyId.value)
                && options["secret_access_key"] == Str(params.awsSecKey.value)
      ensures "region" in options <==> params.s3Region.Some?
      ensures "region" in options ==> options["region"] == Str(params.s3Region.value)
      ensures "proxy_uri" in options <==> params.proxyUri.Some?
      ensures "proxy_uri" in options ==> options["proxy_uri"] == Str(params.proxyUri.value)
      ensures "s3_server_side_encryption" in options <==> params.useServerSideEncryption.Some?
      ensures "s3_server_side_encryption" in options ==>
                options["s3_server_side_encryption"] == Sym(params.useServerSideEncryption.value)
      ensures forall k :: k in options ==>
                k == "access_key_id" || k == "secret_access_key" || k == "region" || k == "proxy_uri"
                || k == "s3_server_side_encryption"
    {
      options := map[];
      if params.awsKeyId.Some? && params.awsSecKey.Some? {
        options := options["access_key_id" := Str(params.awsKeyId.value)];
        options := options["secret_access_key" := Str(params.awsSecKey.value)];
      }
      if params.s3Region.Some? {
        options := options["region" := Str(params.s3Region.value)];
      }
      if params.proxyUri.Some? {
        options := options["proxy_uri" := Str(params.proxyUri.value)];
      }
      if params.useServerSideEncryption.Some? {
        options := options["s3_server_side_encryption" := Sym(params.useServerSideEncryption.value)];
      }
    }

    /** The options of the SQS client: credentials and region only. */
    method CreateSqsClientOptions() returns (options: map<string, OptionValue>)
      ensures "access_key_id" in options <==> params.awsKeyId.Some? && params.awsSecKey.Some?
      ensures "secret_access_key" in options <==> params.awsKeyId.Some? && params.awsSecKey.Some?
      ensures "access_key_id" in options ==>
                options["access_key_id"] == Str(params.awsKeyId.value)
                && options["secret_access_key"] == Str(params.awsSecKey.value)
      ensures "region" in options <==> params.s3Region.Some?
      ensures "region" in options ==> options["region"] == Str(params.s3Region.value)
      ensures forall k :: k in options ==> k == "access_key_id" || k == "secret_access_key" || k == "region"
    {
      options := map[];
      if params.awsKeyId.Some? && params.awsSecKey.Some? {
        options := options["access_key_id" := Str(params.awsKeyId.value)];
        options := options["secret_access_key" := Str(params.awsSecKey.value)];
      }
      if params.s3Region.Some? {
        options := options["region" := Str(params.s3Region.value)];
      }
    }

    /** The poll block applied to the messages of one batch, in order, until
        one raises. */
    method HandleMessages(batch: seq<Message>, cfg: PollConfig, now: int) returns (raised: bool)
      modifies this
      ensures (State(), raised) == HandleBatch(old(State()), batch, cfg, now)
      ensures params == old(params) && extractor == old(extractor) && stopped == old(stopped)
    {
      raised := false;
      var j := 0;
      while j < |batch| && !raised
        invariant 0 <= j <= |batch|
        invariant params == old(params) && extractor == old(extractor) && stopped == old(stopped)
        invariant raised ==> HandleBatch(old(State()), batch, cfg, now) == (State(), true)
        invariant !raised ==> HandleBatch(old(State()), batch, cfg, now) == HandleBatch(State(), batch[j..], cfg, now)
        decreases |batch| - j
      {
        assert batch[j..][1..] == batch[j + 1..];
        var h := Handle(batch[j], cfg.kind, cfg.env, cfg.tag, now);
        match h {
          case Skipped =>
          case Processed(body, outcome) =>
            processed := processed + [body];
            if outcome.Success? {
              emitted := emitted + [outcome.value.event];
            } else {
              warnings := warnings + [outcome.error];
              running := false;
              raised := true;
            }
          case Failed(e) =>
            warnings := warnings + [e];
            running := false;
            raised := true;
        }
        j := j + 1;
      }
      if !raised {
        assert batch[j..] == [];
      }
    }

    /** One event of `run`: what the poll loop does with it, as Step says. */
    method HandleEvent(ev: PollEvent, cfg: PollConfig)
      modifies this
      ensures params == old(params) && extractor == old(extractor)
      ensures State() == Step(old(State()), ev, cfg)
    {
      match ev {
        case Shutdown =>
          running := false;
        case ReceiveFailed(_) =>
          if !stopped {
            if running {
              requests := requests + 1;
            }
            stopped := true;
          }
        case Receive(batch, now) =>
          if stopped {
          } else if !running {
            stopped := true;
          } else {
            requests := requests + 1;
            var raised := HandleMessages(batch, cfg, now);
            if !raised && !cfg.skipDelete && batch != [] {
              deleted := deleted + Ids(batch);
            }
          }
      }
    }

    /** `run` over the events `evs`. Once polling has stopped (the hook threw
        :stop_polling or a receive raised) later receives do nothing, while a
        shutdown still clears the flag. */
    method Run(evs: seq<PollEvent>, env: Services)
      requires extractor.Some?
      modifies this
      ensures params == old(params) && extractor == old(extractor)
      ensures State() == Poll(old(State()), evs, PollConfig(old(extractor).value, env, params.tag, params.skipDelete))
    {
      var cfg := PollConfig(extractor.value, env, params.tag, params.skipDelete);
      var i := 0;
      while i < |evs|
        invariant 0 <= i <= |evs|
        invariant params == old(params) && extractor == old(extractor)
        invariant Poll(old(State()), evs, cfg) == Poll(State(), evs[i..], cfg)
        decreases |evs| - i
      {
        assert evs[i..][1..] == evs[i + 1..];
        HandleEvent(evs[i], cfg);
        i := i + 1;
      }
    }
  }
}
