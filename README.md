# fluent-plugin-s3, modelled in Dafny

This project models the decision logic of the Fluentd S3 plugins. The
AWS SDK, compression and process calls around that logic become inputs of
the model.

- **Output plugin** (`out_s3.rb`, modules `KeyTemplate` and `OutS3`).
  - `configure` applies the `format_json`, `output_data_type` and `use_ssl` rules.
  - `start` builds the S3 client options.
  - `format` adds the tag and time fields to the record in place and then
    builds the line: an optional `time<TAB>tag<TAB>` prefix, the dumped record
    and a newline. The record is a Ruby Hash, which keeps insertion order: a
    key it already holds keeps its place, and a new tag or time key comes
    after all the existing fields. Only the record's own keys are ordered; a
    Hash nested inside it is a JSON object without key order.
  - `write` expands the object-key template for indices 0, 1, 2, … and
    uploads the gzip-compressed chunk under the first key that does not exist
    yet.
  - The template expansion is the regular-expression substitution
    `%{[^}]+}`. The model proves that well-formed templates expand piece by
    piece. A template is well-formed when its literal text holds no `%`. For
    well-formed templates the model states the termination of the probe both
    ways: one with `%{index}` always reaches a free key, and one without it
    whose key exists never does.
- **Input plugin** (`in_s3.rb`, module `InS3`).
  - The extractor registry and its built-in rows.
  - `configure`: a missing queue name is an error, and a failed extractor
    lookup falls back to text with a warning.
  - The S3 and SQS client options.
  - The key that `process` reads from an S3 event notification, for any
    body with a String at `Records[0].s3.object.key`, and what else can make
    it succeed.
  - The poll loop of `run`: a message without `Records` is skipped. A raise
    clears the running flag and keeps the batch from being deleted. The next
    request then stops polling. A receive that raises ends polling with the
    flag still set, since `run` has no rescue around `poll`.
  - A separate specification function (`Poll`) defines the loop.
    `S3Input.Run` is proved equal to it.
- **Parquet compressor** (`s3_compressor_parquet.rb`, module
  `S3CompressorParquet`).
  - `configure`: codec validation, the upper-cased codec name, and `json`
    mapped to `jsonl`.
  - `ext` and `content_type`.
  - The exact `columnify` argument vector, proved to read back into its
    settings.
  - `compress`: which source file it uses and how it checks the exit status.
- **Shared values** (module `Basics`): results, a JSON value model with
  Ruby's nil and truthiness, an insertion-ordered Hash for the top-level record, and Ruby's
  `Integer#to_s` with a proof that it reads back.

Where the tests disagree with the code, the model follows the code:

- `test/test_out_s3.rb:222-226` and `test/out_s3.rb:179-185` use a
  `%{hostname}` placeholder. The value map at `out_s3.rb:111-116` has no
  hostname, so the placeholder expands to nothing.
- `test/test_out_s3.rb:136-204` expect `format json` and `format ltsv` to
  change the line. The code acts only on a `format_json` key and on
  `output_data_type` (`out_s3.rb:39-59`).
- `test/test_out_s3.rb:38-61` check a `@compressor` and an `s3_endpoint`
  rejection. Neither exists in this `out_s3.rb`.
- `test/test_in_s3.rb:78-83` expects a ConfigError for an unknown `store_as`.
  The code rescues the failed lookup (`in_s3.rb:45-50`), and the model's
  `S3Input.Configure` falls back to text. See Findings for what the rescue
  clause does as written.
- `test/test_in_s3.rb:186-191` expects one event per line. `process` emits
  one event for the whole object (`in_s3.rb:137-145`).
- `process` uses the notification's object key verbatim, with no URL
  decoding.

## Model

| member | source | states |
|---|---|---|
| Basics.NatToString | lib/fluent/plugin/out_s3.rb:115 | Integer#to_s of an index or size is a non-empty run of decimal digits with no leading zero |
| Basics.NatToStringInjective | lib/fluent/plugin/out_s3.rb:115 | distinct indices give distinct numerals, because the numeral reads back to its number |
| Basics.HashGet | lib/fluent/plugin/out_s3.rb:96-99 | Hash#[] on an insertion-ordered record: a value is found exactly when the key is present |
| Basics.HashPut | lib/fluent/plugin/out_s3.rb:96-99 | Hash#[]= on an insertion-ordered record: an existing key is set in place, a new key is appended; HashPutSpec states its effect |
| Basics.HashPutKeepsDistinct | lib/fluent/plugin/out_s3.rb:96-99 | `h[key] = value` on a Hash whose keys are distinct leaves them distinct |
| Basics.HashPutSpec | lib/fluent/plugin/out_s3.rb:96-99 | after `h[key] = value` the key order is unchanged if the key was present and has the key appended otherwise, the key reads the value, and every other key reads as before |
| Basics.Upcase | lib/fluent/plugin/s3_compressor_parquet.rb:31 | String#upcase keeps the length and upper-cases each ASCII letter |
| KeyTemplate.FindClose | lib/fluent/plugin/out_s3.rb:117 | the `[^}]+}` part of the match: the position of the first `}` at or after the scan start, within the text; its exact meaning is FindCloseSpec |
| KeyTemplate.PlaceholderAt | lib/fluent/plugin/out_s3.rb:117 | the match of `%{[^}]+}` at the start of the text, covering at least four characters; its exact meaning is PlaceholderAtSpec |
| KeyTemplate.Lookup | lib/fluent/plugin/out_s3.rb:118 | the block's value `values_for_s3_object_key[name]`, with nil interpolated as the empty string; AbsentNameExpandsToNothing states the effect of an absent name |
| KeyTemplate.Expand | lib/fluent/plugin/out_s3.rb:117-119 | the gsub with the lookup block, left to right without rescanning replacements; text holding no `%` comes back unchanged, and ExpandBuild relates it to the piece-wise rendering |
| KeyTemplate.FindCloseSpec | lib/fluent/plugin/out_s3.rb:117 | the match closes at the first `}` after the opening, or no `}` follows |
| KeyTemplate.PlaceholderAtSpec | lib/fluent/plugin/out_s3.rb:117 | a match at the start of the text is exactly a prefix of the form `%{` non-empty run without `}` then `}`, and none exists otherwise |
| KeyTemplate.ExpandLiteralPrefix | lib/fluent/plugin/out_s3.rb:117-119 | text without `%` is copied unchanged by the substitution |
| KeyTemplate.ExpandFieldPrefix | lib/fluent/plugin/out_s3.rb:117-119 | a `%{name}` token is replaced by the map value for name, and expansion continues after the token |
| KeyTemplate.ExpandBuild | lib/fluent/plugin/out_s3.rb:117-119 | for any well-formed template, gsub equals the piece-wise rendering: literals copied, each field replaced by its value |
| KeyTemplate.AbsentNameExpandsToNothing | lib/fluent/plugin/out_s3.rb:117-119 | a placeholder whose name is missing from the map, such as hostname, contributes nothing |
| KeyTemplate.KeyValues | lib/fluent/plugin/out_s3.rb:111-116 | the value map of one probe, with the index written by Integer#to_s; KeyValuesNames states which names it holds |
| KeyTemplate.ObjectKey | lib/fluent/plugin/out_s3.rb:111-119 | the key tried at one probe index: the template expanded over that probe's values; DefaultObjectKey and IndexFieldMakesKeysDistinct state its values |
| KeyTemplate.KeyValuesNames | lib/fluent/plugin/out_s3.rb:111-116 | the key values hold exactly path, time_slice, file_extension and index; hostname looks up as empty |
| KeyTemplate.DefaultObjectKey | lib/fluent/plugin/out_s3.rb:30 | the default template yields path ++ chunk key ++ "_" ++ index ++ ".gz" |
| KeyTemplate.DefaultFirstKey | lib/fluent/plugin/out_s3.rb:30 | at index 0 the default template yields path ++ chunk key ++ "_0.gz" |
| KeyTemplate.DefaultKeysDistinct | lib/fluent/plugin/out_s3.rb:109-121 | the default template gives every probe index its own key |
| KeyTemplate.IndexFieldMakesKeysDistinct | lib/fluent/plugin/out_s3.rb:109-121 | any well-formed template with an index field gives distinct keys at distinct indices |
| KeyTemplate.NoIndexFieldNoFreeKey | lib/fluent/plugin/out_s3.rb:109-121 | for a well-formed template without an index field the key never changes, so once it exists every probe finds an object and the loop has no exit |
| KeyTemplate.FreeIndexExists | lib/fluent/plugin/out_s3.rb:109-121 | when keys are distinct, a finite set of existing objects leaves some index free, so the probe terminates |
| OutS3.DefaultParams | lib/fluent/plugin/out_s3.rb:17-32 | defaults: empty path, default key format, json output, tag/time prefix on, tag and time keys off |
| OutS3.ConfigureSettings | lib/fluent/plugin/out_s3.rb:39-70 | the fields configure sets, or the ConfigError it raises, from the parsed parameters, the raw configuration and whether ltsv loads; its rules are FormatJsonForcesJson, OutputDataTypeRule and UseSslRule |
| OutS3.FormatJsonForcesJson | lib/fluent/plugin/out_s3.rb:39-42 | a format_json key, whatever its value, turns the prefix off and forces json with the Yajl dumper; only a bad use_ssl can still fail |
| OutS3.OutputDataTypeRule | lib/fluent/plugin/out_s3.rb:44-59 | without format_json, an output_data_type other than json or ltsv is a ConfigError, and so is ltsv when the gem does not load; otherwise the matching dumper is chosen; each error carries its message |
| OutS3.BoolValue | lib/fluent/plugin/out_s3.rb:65 | Config.bool_value on a non-empty value: true/yes read as true, false/no as false, anything else as nil; UseSslRule states how configure uses it |
| OutS3.UseSslRule | lib/fluent/plugin/out_s3.rb:61-70 | use_ssl keeps its prior value (true) when absent, is true when empty, follows bool_value otherwise, and a value bool_value cannot read is a ConfigError with the "'true' or 'false' is required" message |
| OutS3.S3Output.constructor | lib/fluent/plugin/out_s3.rb:7-15 | a new plugin has use_ssl on |
| OutS3.S3Output.Configure | lib/fluent/plugin/out_s3.rb:36-73 | the new fields are those of the configure rules, and every rule violation is returned as its ConfigError |
| OutS3.S3Output.Start | lib/fluent/plugin/out_s3.rb:75-87 | the options hold the credentials only when both are set, s3_endpoint only when set, and always use_ssl, and nothing else |
| OutS3.StampedFields | lib/fluent/plugin/out_s3.rb:95-100 | the record after the tag and time mixins, stored as Hash assignments; StampedFieldsSpec states its effect |
| OutS3.StampedFieldsSpec | lib/fluent/plugin/out_s3.rb:95-100 | format writes only the tag key (when include_tag_key) and the time key (when include_time_key); every other field reads as before, and the time wins when both keys coincide; existing keys keep their places, and a new tag key and then a new time key follow all existing fields |
| OutS3.StampedFieldsAppendInOrder | lib/fluent/plugin/out_s3.rb:95-100 | with both mixins on and the default keys, {"a"=>1} becomes a, tag, time in that order, the order the tests expect of the dump |
| OutS3.StampedFieldsUnchanged | lib/fluent/plugin/out_s3.rb:95-100 | with both mixins off the record is unchanged |
| OutS3.FormatLine | lib/fluent/plugin/out_s3.rb:104-105 | the line built from the time string, the tag and the dump; FormatLineShape and FormatLineSplits state its shape |
| OutS3.FormatLineShape | lib/fluent/plugin/out_s3.rb:102-105 | the line always ends in a newline, preceded by the optional prefix and the dump; without the prefix it is exactly the dump and a newline |
| OutS3.FormatLineSplits | lib/fluent/plugin/out_s3.rb:104-105 | when time string and tag hold no tab, splitting the prefixed line at its first two tabs gives back the time string, the tag and the dump |
| OutS3.S3Output.Format | lib/fluent/plugin/out_s3.rb:89-106 | the record is updated by the tag and time rules and the returned line is built from the updated record's dump; a record with distinct keys keeps them distinct |
| OutS3.IsProbeResult | lib/fluent/plugin/out_s3.rb:109-121 | the key the probe loop ends on: the expansion at the least index whose key is not among the existing objects |
| OutS3.ProbeResultUnique | lib/fluent/plugin/out_s3.rb:109-121 | the least free index is unique, so the probe's key is determined |
| OutS3.ProbeResultDefaultEmpty | lib/fluent/plugin/out_s3.rb:108-121 | in an empty bucket the default template's probe picks path ++ chunk key ++ "_0.gz" |
| OutS3.S3Output.Write | lib/fluent/plugin/out_s3.rb:108-133 | the key used is the expansion at the least index whose object does not exist, so it is never an existing key; the upload is the gzip of the chunk as application/x-gzip |
| InS3.Ext | lib/fluent/plugin/in_s3.rb:185-217 | the extension of each built-in extractor; BuiltinRegistryRows states the values |
| InS3.ContentType | lib/fluent/plugin/in_s3.rb:189-221 | the MIME type of each built-in extractor; BuiltinRegistryRows states the values |
| InS3.Extract | lib/fluent/plugin/in_s3.rb:193-211 | what each extractor's extract returns, JsonExtractor inheriting TextExtractor's; ExtractPlainIsIdentity states it |
| InS3.ExtractPlainIsIdentity | lib/fluent/plugin/in_s3.rb:193-221 | text and json extractors return the contents unchanged; only gzip decodes |
| InS3.RegisterExtractor | lib/fluent/plugin/in_s3.rb:233-235 | register_extractor always raises NoMethodError (the `regster` call) and registers nothing |
| InS3.Registry.constructor | lib/fluent/plugin/in_s3.rb:224 | a new registry holds no entries |
| InS3.Registry.Lookup | lib/fluent/plugin/in_s3.rb:46 | the registry lookup: a registered name's extractor, otherwise a failure, for the add-on names because their files raise while loading; ChooseFromBuiltins and AddOnNeverSelected state its results |
| InS3.Registry.Register | lib/fluent/plugin/in_s3.rb:229-231 | after register, looking up the name yields the extractor, and every other name looks up as before |
| InS3.BuiltinRegistryRows | lib/fluent/plugin/in_s3.rb:184-231 | the registry holds exactly gzip (gz, application/x-gzip), text (txt, text/plain) and json (json, application/json) |
| InS3.NewExtractorRegistry | lib/fluent/plugin/in_s3.rb:224-231 | the registration loop yields the map of the three rows in order |
| InS3.ChooseExtractor | lib/fluent/plugin/in_s3.rb:45-50 | the rescue taken as its warning describes: a found extractor is kept with no warning, and a failed lookup gives TextExtractor and a warning |
| InS3.ChooseFromBuiltins | lib/fluent/plugin/in_s3.rb:45-50 | gzip, text and json select their own extractor with no warning; any other store_as gives TextExtractor with the "not found. Use 'text' instead" warning and no error |
| InS3.AddOnNeverSelected | lib/fluent/plugin/in_s3.rb:233-235 | the add-on extractors (gzip_command, lzo, lzma2, zst) raise while their files load and are never selected |
| InS3.ChooseExtractorAsWritten | lib/fluent/plugin/in_s3.rb:45-50 | the lines as written: a found extractor is kept, and a failed lookup raises, since the rescue's `TextExtractor.new` lacks `log:` |
| InS3.AsWrittenFallbackRaises | lib/fluent/plugin/in_s3.rb:45-50 | as written, the rescue clause raises for store_as unknown, where the intended fallback selects text |
| InS3.DefaultInputParams | lib/fluent/plugin/in_s3.rb:17-34 | defaults: store_as gzip, tag input.s3, skip_delete off, wait 20s, region from AWS_REGION or us-east-1 |
| InS3.Index | lib/fluent/plugin/in_s3.rb:138-139 | Ruby's `value[key]` on what Yajl returns; ProcessNeedsObjectKey states what it lets through |
| InS3.FirstThenIndex | lib/fluent/plugin/in_s3.rb:138 | Ruby's `value.first[key]`; ProcessNeedsObjectKey states what it lets through |
| InS3.Fetch | lib/fluent/plugin/in_s3.rb:141-143 | the object's GET, then extraction, then parsing, failing at the first step that fails; ProcessUsesKeyVerbatim and ProcessFailsWithServices state how process uses it |
| InS3.Process | lib/fluent/plugin/in_s3.rb:137-145 | process: key lookup, GET, extraction, parse and the emitted event; its lemmas are ProcessUsesKeyVerbatim, ProcessFailsWithServices and ProcessNeedsObjectKey |
| InS3.ProcessUsesKeyVerbatim | lib/fluent/plugin/in_s3.rb:137-145 | for any body, whatever its other fields, with the String key at Records[0].s3.object.key, process fetches that key exactly as given and emits the parsed, extracted object under the tag at the current time, or fails with the service's error |
| InS3.ProcessFailsWithServices | lib/fluent/plugin/in_s3.rb:141-143 | for such a body, a failed GET, extraction or parse makes process fail |
| InS3.ProcessNeedsObjectKey | lib/fluent/plugin/in_s3.rb:138-139 | process succeeds only when Records[0].s3.object is reached through Hashes and either holds the fetched key as a String or is a String containing "key", in which case the object named "key" is fetched |
| InS3.Handle | lib/fluent/plugin/in_s3.rb:94-103 | the poll block on one message: a load or index error is rescued, a body without truthy Records is skipped, any other body goes to process; SkippedBatchCallsNothing and HandleBatchGrows state its effect |
| InS3.Rescued | lib/fluent/plugin/in_s3.rb:98-101 | the rescue clause: the warning is logged and running is cleared; HandleBatchGrows and RaiseSkipsDeleteAndStops state its effect on the loop |
| InS3.HandleBatch | lib/fluent/plugin/in_s3.rb:93-103 | the block over a batch in order, ending at the first raise; HandleBatchGrows states its effect |
| InS3.Step | lib/fluent/plugin/in_s3.rb:88-103 | one request of the poller: before_request stops polling when running is false; otherwise a receive that raises ends polling with running unchanged, and a received batch is handled and, unless it raised or skip_delete is set, deleted; RaiseSkipsDeleteAndStops and ReceiveFailedEndsPolling state it |
| InS3.Poll | lib/fluent/plugin/in_s3.rb:86-105 | the poll loop over a sequence of events; StoppedStaysStopped, ReceiveFailedEndsPolling, NotRunningDoesNothing and SkipDeleteNeverDeletes state its properties |
| InS3.SkippedBatchCallsNothing | lib/fluent/plugin/in_s3.rb:96 | messages without Records never reach process: nothing processed, emitted or logged |
| InS3.HandleBatchGrows | lib/fluent/plugin/in_s3.rb:93-104 | handling a batch only appends to processed, emitted and warnings, never sets the flag, and a raise clears it |
| InS3.RaiseSkipsDeleteAndStops | lib/fluent/plugin/in_s3.rb:90-103 | a raise clears running and skips deletion of the batch, and the next request, whether its receive would return or raise, stops polling |
| InS3.NotRunningDoesNothing | lib/fluent/plugin/in_s3.rb:90-92 | once running is false, no further request, processing, emission or deletion happens |
| InS3.StoppedStaysStopped | lib/fluent/plugin/in_s3.rb:86-105 | once polling has stopped nothing further happens except that a shutdown clears running: the final state is the stopped one with running kept exactly when no shutdown came |
| InS3.ReceiveFailedEndsPolling | lib/fluent/plugin/in_s3.rb:86-105 | a receive that raises while running ends polling: one more request is counted, nothing more is processed, emitted, deleted or logged, and running stays true unless a shutdown follows |
| InS3.SkipDeleteNeverDeletes | lib/fluent/plugin/in_s3.rb:87-89 | with skip_delete set no message is ever deleted |
| InS3.S3Input.constructor | lib/fluent/plugin/in_s3.rb:7-15 | a new plugin has no extractor |
| InS3.S3Input.Configure | lib/fluent/plugin/in_s3.rb:38-55 | a missing queue name returns the error whose message is "sqs_queue_name is required"; otherwise the looked-up extractor, or text plus a warning |
| InS3.S3Input.CreateS3ClientOptions | lib/fluent/plugin/in_s3.rb:107-118 | credentials only when both are set; region, proxy_uri and s3_server_side_encryption (as a symbol) only when present; nothing else |
| InS3.S3Input.CreateSqsClientOptions | lib/fluent/plugin/in_s3.rb:120-129 | credentials only when both are set, region only when present, nothing else |
| InS3.S3Input.HandleMessages | lib/fluent/plugin/in_s3.rb:93-104 | the poll block applied to a batch updates the state as the batch specification does |
| InS3.S3Input.HandleEvent | lib/fluent/plugin/in_s3.rb:90-103 | the object state after one event is what the poll-loop step gives, and the parameters and extractor are unchanged |
| InS3.S3Input.Run | lib/fluent/plugin/in_s3.rb:86-105 | the state after run equals the poll-loop specification over the same events |
| S3CompressorParquet.DefaultCompressParams | lib/fluent/plugin/s3_compressor_parquet.rb:8-21 | defaults: snappy, page 8192, row group 128·1024·1024, msgpack, avro |
| S3CompressorParquet.ConfiguredValues | lib/fluent/plugin/s3_compressor_parquet.rb:25-36 | the codec name and record type configure stores, or the error it raises; CodecsAcceptedAndRefused, StoredCodecIsUpcased and JsonBecomesJsonl state its rules |
| S3CompressorParquet.CodecsAcceptedAndRefused | lib/fluent/plugin/s3_compressor_parquet.rb:27-29 | lzo, brotli and lz4 are refused with "unsupported compression codec: <codec>"; uncompressed, snappy, gzip and zstd are accepted |
| S3CompressorParquet.StoredCodecIsUpcased | lib/fluent/plugin/s3_compressor_parquet.rb:31 | the stored codec is the upper-cased name (snappy gives SNAPPY) |
| S3CompressorParquet.JsonBecomesJsonl | lib/fluent/plugin/s3_compressor_parquet.rb:32-36 | json becomes jsonl, every other record type is kept, and json is never stored |
| S3CompressorParquet.ColumnifyArgv | lib/fluent/plugin/s3_compressor_parquet.rb:70-80 | the argument vector given to columnify; ColumnifyArgvReadsBack states that it carries every setting |
| S3CompressorParquet.ColumnifyArgvReadsBack | lib/fluent/plugin/s3_compressor_parquet.rb:70-80 | the argv is 16 words starting with columnify, with the source last, and reading it back gives codec, sizes, record type, schema type, schema file, output and source |
| S3CompressorParquet.ParquetCompressor.constructor | lib/fluent/plugin/s3_compressor_parquet.rb:5-21 | a new compressor holds its buffer type and the parsed `<compress>` section |
| S3CompressorParquet.ParquetCompressor.Configure | lib/fluent/plugin/s3_compressor_parquet.rb:23-37 | a missing columnify or a refused codec is returned as its error; otherwise the upper-cased codec and the normalised record type are stored |
| S3CompressorParquet.ParquetCompressor.Ext | lib/fluent/plugin/s3_compressor_parquet.rb:39-41 | the extension is parquet |
| S3CompressorParquet.ParquetCompressor.ContentType | lib/fluent/plugin/s3_compressor_parquet.rb:43-45 | the content type is application/octet-stream |
| S3CompressorParquet.ParquetCompressor.Compress | lib/fluent/plugin/s3_compressor_parquet.rb:47-66 | a file buffer's chunk path is the source, otherwise a temporary file holding the chunk; the argv is the columnify vector for that source; the call fails exactly when the status is not success, with stdout, stderr and status |

## Left out

- AWS SDK calls. `exists?`, the object upload, S3 GET, `get_queue_url`, the QueuePoller, `bucket.exists?` and `check_apikeys` are not modelled.
  - Object existence is a fixed set of keys, with no concurrent writers.
  - The S3 GET is a function from key to outcome.
  - The poller is a finite sequence of receive, failed-receive and shutdown events.
- The QueuePoller is not part of this model. The model assumes three things about it:
  - it runs `before_request` before each receive;
  - it yields the messages of a batch in order;
  - `:skip_delete` skips deleting the whole batch.
- Zlib (GzipWriter, GzipReader), Yajl, LTSV, the record parser and the TimeFormatter are foreign libraries. They appear as function parameters: gzip, gunzip, dump, parse and formatTime.
  - Yajl.load of a message body is given as its parse outcome.
  - JSON numbers are integers only.
- The configuration framework is not part of this model: config_param parsing, the `<sqs>` section check, enum and size validation, and the `:secret` flag.
  - The parsed parameters are inputs.
  - Codecs, record types and schema types are enumerations, so invalid names cannot occur.
- Config.bool_value is not part of this model. It is assumed to read true/yes as true, false/no as false and anything else as nil.
- Fluent::Registry is not part of this model. Its assumed behaviour:
  - a registered name is returned;
  - otherwise it loads the plugin file of that name;
  - loading an add-on file raises: `register_extractor` raises, and the zst file raises even earlier, because `Extractor` does not resolve in `Fluent::Plugin::S3Input` (s3_extractor_zst.rb:1-3);
  - any other name raises.
- The Compressor base class is not part of this model.
  - `check_command` is reduced to whether columnify is on PATH. Its message follows `Extractor#check_command` (in_s3.rb:172-181), with the second argument `-h` used as the algorithm name.
  - `@buffer_type` is a constructor argument.
- Threads: `start`/`shutdown` are left out because they are concurrency. The shutdown's flag write becomes a Shutdown event between requests. `Engine.now` is an input of each receive.
- Where the tempfiles live and how they are removed is left out. `compress` records the contents of its temporary file, and `write` records the gzip of the chunk data.
- The add-on extractors and compressors only shell out, so their commands, extensions and MIME types are left out. Only their names are modelled, because no add-on extractor can be selected.
- after_write_hooks/sqs.rb and lib/fluent/log-ext.rb are I/O- and logger-only. Logging is a list of warnings.
- OutS3.S3Output.Configure: once configure has raised, the fields are not specified, because Fluentd discards a plugin whose configure raises.
- InS3.S3Input.Run: covers a finite prefix of the otherwise endless poll loop. Events after polling has stopped stand for what the object still sees once `run` has returned: only a shutdown changes anything.
- InS3.Poll: the error of a receive that raises is not recorded, because `run` does not log it; how the thread reports it is left to Ruby.
- InS3.Process: error texts describe the Ruby exception rather than reproduce its message. A non-String object key is assumed to be refused by the SDK.
- Notification bodies are JSON objects as maps, without key order, because `process` only indexes them by name.
- Nested Hashes: a Hash value inside a record is a JSON object as a map, so the model does not keep its key order. Two records that differ only in the key order of a nested Hash are one value, and `dump` (Yajl) gives them the same line, while Yajl would print that Hash in its insertion order. Only the record's top-level keys keep their order.
- InS3.FirstThenIndex: for a non-empty Hash, `first` gives a key/value pair. The model does not say which pair, because the pair's String indexing raises either way.

## Findings

| source | as written | input that shows it | evidently intended | confidence | as-written member | corrected member |
|---|---|---|---|---|---|---|
| lib/fluent/plugin/in_s3.rb:47-49 | the rescue clause calls `TextExtractor.new` without the `log:` keyword, which `Extractor#initialize(log:, **options)` (in_s3.rb:152) requires, so the fallback raises ArgumentError | `store_as unknown` | warn and fall back to TextExtractor, as the warning text says | not executed; follows from Ruby's required keyword arguments | InS3.ChooseExtractorAsWritten | InS3.ChooseExtractor |
| lib/fluent/plugin/in_s3.rb:233-235 | `register_extractor` calls `regster`, which the registry does not define, so every call raises NoMethodError | loading s3_extractor_lzo.rb, which calls `register_extractor('lzo', …)` | register the extractor under its name | not executed; the method name is misspelt | InS3.RegisterExtractor | InS3.Registry.Register |
