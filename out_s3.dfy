/** The S3 output plugin: the configure rules for the dumper and use_ssl, the
    options handed to the S3 client, the line written for each event, and the
    object key that `write` settles on by probing indices 0, 1, 2, ... */
module OutS3 {
  import opened Basics
  import opened KeyTemplate

  /** The record dumper configure selects: Yajl for json, LTSV for ltsv. */
  datatype Dumper = YajlDump | LtsvDump

  /** The typed parameters as the base class parses them from the configuration. */
  datatype Params = Params(
    path: string,
    includeTagKey: bool,
    tagKey: string,
    includeTimeKey: bool,
    timeKey: string,
    awsKeyId: Option<string>,
    awsSecKey: Option<string>,
    s3Bucket: string,
    s3Endpoint: Option<string>,
    keyFormat: string,
    outputDataType: string,
    includeTagAndTime: bool)

  /** The declared defaults; s3_bucket has none and must be given. */
  function DefaultParams(bucket: string): (p: Params)
    ensures p.keyFormat == DefaultKeyFormat && p.outputDataType == "json" && p.includeTagAndTime
    ensures p.path == "" && !p.includeTagKey && !p.includeTimeKey
  {
    Params("", false, "tag", false, "time", None, None, bucket, None, DefaultKeyFormat, "json", true)
  }

  datatype ConfigError = LtsvNotInstalled | UnsupportedOutputDataType | UseSslNotBoolean

  const LtsvNotInstalledText := "You must install ltsv.gem to use 'ltsv' for output_data_type option on s3 output"
  const UnsupportedOutputDataTypeText :=
    "Currently only 'json' and 'ltsv' are supported for output_data_type option on s3 output"
  const UseSslNotBooleanText := "'true' or 'false' is required for use_ssl option on s3 output"

  /** The message of the ConfigError raised. */
  function ErrorMessage(e: ConfigError): string
  {
    match e
    case LtsvNotInstalled => LtsvNotInstalledText
    case UnsupportedOutputDataType => UnsupportedOutputDataTypeText
    case UseSslNotBoolean => UseSslNotBooleanText
  }

  /** Fluentd's Config.bool_value on a non-empty string; None stands for nil. */
  function BoolValue(s: string): Option<bool>
  {
    if s == "true" || s == "yes" then Some(true)
    else if s == "false" || s == "no" then Some(false)
    else None
  }

  /** The fields configure sets after the base class has parsed the parameters. */
  datatype Settings = Settings(includeTagAndTime: bool, outputDataType: string, dumper: Dumper,
                               useSsl: bool)

  /** The effect of configure on the plugin's own fields. `conf` is the raw
      configuration hash, `ltsvAvailable` whether `require 'ltsv'` succeeds and
      `useSsl` the value the field holds before configure. */
  function ConfigureSettings(p: Params, conf: map<string, string>, ltsvAvailable: bool, useSsl: bool)
    : (r: Result<Settings, ConfigError>)
  {
    var forced := "format_json" in conf;
    var includeTagAndTime := if forced then false else p.includeTagAndTime;
    var dataType := if forced then "json" else p.outputDataType;
    if dataType == "ltsv" && !ltsvAvailable then Failure(LtsvNotInstalled)
    else if dataType != "json" && dataType != "ltsv" then Failure(UnsupportedOutputDataType)
    else
      var dumper := if dataType == "json" then YajlDump else LtsvDump;
      if "use_ssl" in conf && conf["use_ssl"] != "" && BoolValue(conf["use_ssl"]).None? then
        Failure(UseSslNotBoolean)
      else
        var ssl := if "use_ssl" !in conf then useSsl
                   else conf["use_ssl"] == "" || BoolValue(conf["use_ssl"]) == Some(true);
        Success(Settings(includeTagAndTime, dataType, dumper, ssl))
  }

  /** A format_json key, whatever its value, turns the tag/time prefix off and
      forces JSON output, even over output_data_type ltsv. */
  lemma FormatJsonForcesJson(p: Params, conf: map<string, string>, ltsvAvailable: bool, useSsl: bool)
    requires "format_json" in conf
    ensures var r := ConfigureSettings(p, conf, ltsvAvailable, useSsl);
            r.Success? || r.error == UseSslNotBoolean
    ensures var r := ConfigureSettings(p, conf, ltsvAvailable, useSsl);
            r.Success? ==> !r.value.includeTagAndTime && r.value.outputDataType == "json"
                           && r.value.dumper == YajlDump
  {
  }

  /** Without format_json the parsed output_data_type decides: json and ltsv
      (when the gem loads) are accepted with their own dumper, anything else is
      a configuration error. */
  lemma OutputDataTypeRule(p: Params, conf: map<string, string>, ltsvAvailable: bool, useSsl: bool)
    requires "format_json" !in conf
    ensures var r := ConfigureSettings(p, conf, ltsvAvailable, useSsl);
            (r == Failure(UnsupportedOutputDataType) <==> p.outputDataType != "json" && p.outputDataType != "ltsv")
            && (r == Failure(LtsvNotInstalled) <==> p.outputDataType == "ltsv" && !ltsvAvailable)
    ensures var r := ConfigureSettings(p, conf, ltsvAvailable, useSsl);
            r.Success? ==> r.value.includeTagAndTime == p.includeTagAndTime
                           && r.value.outputDataType == p.outputDataType
                           && r.value.dumper == (if p.outputDataType == "json" then YajlDump else LtsvDump)
    ensures var r := ConfigureSettings(p, conf, ltsvAvailable, useSsl);
            (r.Failure? && r.error != UseSslNotBoolean) ==>
              ErrorMessage(r.error)
              == if p.outputDataType == "ltsv" then LtsvNotInstalledText else UnsupportedOutputDataTypeText
  {
  }


  /** use_ssl stays as it was (true from the constructor) when absent, is true
      when empty, follows bool_value otherwise, and a value bool_value cannot
      read is a configuration error. */
  lemma UseSslRule(p: Params, conf: map<string, string>, ltsvAvailable: bool, useSsl: bool)
    requires ConfigureSettings(p, conf, ltsvAvailable, useSsl) != Failure(LtsvNotInstalled)
    requires ConfigureSettings(p, conf, ltsvAvailable, useSsl) != Failure(UnsupportedOutputDataType)
    ensures var r := ConfigureSettings(p, conf, ltsvAvailable, useSsl);
            (r == Failure(UseSslNotBoolean)
             <==> "use_ssl" in conf && conf["use_ssl"] != "" && BoolValue(conf["use_ssl"]).None?)
    ensures var r := ConfigureSettings(p, conf, ltsvAvailable, useSsl);
            r.Success? ==>
              && ("use_ssl" !in conf ==> r.value.useSsl == useSsl)
              && ("use_ssl" in conf && conf["use_ssl"] == "" ==> r.value.useSsl)
              && ("use_ssl" in conf && conf["use_ssl"] != "" ==> Some(r.value.useSsl) == BoolValue(conf["use_ssl"]))
    ensures var r := ConfigureSettings(p, conf, ltsvAvailable, useSsl);
            r.Failure? ==> ErrorMessage(r.error) == UseSslNotBooleanText
  {
  }

  // ---------------------------------------------------------------------
  // The line `format` writes for one event

  /** The record after the tag and time mixins: the tag is stored under the tag
      key when include_tag_key is set, then the time string under the time key
      when include_time_key is set. */
  function StampedFields(p: Params, fields: seq<(string, Json)>, tag: string, timeStr: string)
    : seq<(string, Json)>
  {
    var withTag := if p.includeTagKey then HashPut(fields, p.tagKey, JStr(tag)) else fields;
    if p.includeTimeKey then HashPut(withTag, p.timeKey, JStr(timeStr)) else withTag
  }

  /** The tag key and the time key are the only fields the mixins may write;
      the time wins when both keys coincide. A key the record already holds
      keeps its place; a new tag key, then a new time key, follow all the
      fields the record had. */
  lemma StampedFieldsSpec(p: Params, fields: seq<(string, Json)>, tag: string, timeStr: string)
    ensures var r := StampedFields(p, fields, tag, timeStr);
            var addedTag := if p.includeTagKey && p.tagKey !in Keys(fields) then [p.tagKey] else [];
            var addedTime := if p.includeTimeKey && p.timeKey !in Keys(fields) + addedTag then [p.timeKey] else [];
            && Keys(r) == Keys(fields) + addedTag + addedTime
            && (forall k :: (!(p.includeTagKey && k == p.tagKey) && !(p.includeTimeKey && k == p.timeKey))
                  ==> HashGet(r, k) == HashGet(fields, k))
            && (p.includeTimeKey ==> HashGet(r, p.timeKey) == Some(JStr(timeStr)))
            && ((p.includeTagKey && !(p.includeTimeKey && p.timeKey == p.tagKey))
                  ==> HashGet(r, p.tagKey) == Some(JStr(tag)))
  {
    var withTag := if p.includeTagKey then HashPut(fields, p.tagKey, JStr(tag)) else fields;
    var addedTag := if p.includeTagKey && p.tagKey !in Keys(fields) then [p.tagKey] else [];
    if p.includeTagKey {
      HashPutSpec(fields, p.tagKey, JStr(tag));
    }
    assert Keys(withTag) == Keys(fields) + addedTag;
    if p.includeTimeKey {
      HashPutSpec(withTag, p.timeKey, JStr(timeStr));
    }
  }

  /** With both mixins off the record is left as it was. */
  lemma StampedFieldsUnchanged(p: Params, fields: seq<(string, Json)>, tag: string, timeStr: string)
    requires !p.includeTagKey && !p.includeTimeKey
    ensures StampedFields(p, fields, tag, timeStr) == fields
  {
  }

  /** The record {"a"=>1} with both mixins on, under the default keys, becomes
      {"a"=>1, "tag"=>tag, "time"=>time}: the new fields come after "a". */
  lemma StampedFieldsAppendInOrder(p: Params, tag: string, timeStr: string)
    requires p.includeTagKey && p.tagKey == "tag" && p.includeTimeKey && p.timeKey == "time"
    ensures StampedFields(p, [("a", JNum(1))], tag, timeStr)
            == [("a", JNum(1)), ("tag", JStr(tag)), ("time", JStr(timeStr))]
  {
    var a: seq<(string, Json)> := [("a", JNum(1))];
    assert a[1..] == [];
    assert "a"[0] != "tag"[0] && "a"[0] != "time"[0] && "tag"[1] != "time"[1];
    assert a[0].0 != "tag";
    var withTag := HashPut(a, "tag", JStr(tag));
    assert withTag == [a[0]] + HashPut([], "tag", JStr(tag));
    var last: seq<(string, Json)> := [("tag", JStr(tag))];
    assert withTag[1..] == last && last[1..] == [];
    assert HashPut(last, "time", JStr(timeStr)) == [("tag", JStr(tag)), ("time", JStr(timeStr))];
  }

  /** The line: an optional "time<TAB>tag<TAB>" prefix, the dumped record, a newline. */
  function FormatLine(includeTagAndTime: bool, timeStr: string, tag: string, data: string): string
  {
    (if includeTagAndTime then timeStr + "\t" + tag + "\t" else "") + data + "\n"
  }

  /** Every line ends in a newline, and without the prefix it is the dump alone. */
  lemma FormatLineShape(includeTagAndTime: bool, timeStr: string, tag: string, data: string)
    ensures var line := FormatLine(includeTagAndTime, timeStr, tag, data);
            |line| > 0 && line[|line| - 1] == '\n' && line[..|line| - 1] == (if includeTagAndTime then timeStr + "\t" + tag + "\t" else "") + data
    ensures !includeTagAndTime ==> FormatLine(includeTagAndTime, timeStr, tag, data) == data + "\n"
  {
  }

  /** The text before the first tab and the text after it (None: no tab). */
  function SplitAtTab(s: string): (r: Option<(string, string)>)
    ensures r.Some? ==> s == r.value.0 + "\t" + r.value.1 && '\t' !in r.value.0
    ensures r.None? ==> '\t' !in s
  {
    if s == [] then None
    else if s[0] == '\t' then Some(([], s[1..]))
    else match SplitAtTab(s[1..])
      case None => None
      case Some(pair) => Some(([s[0]] + pair.0, pair.1))
  }

  lemma {:induction false} SplitAtTabPrefix(a: string, b: string)
    requires '\t' !in a
    ensures SplitAtTab(a + "\t" + b) == Some((a, b))
    decreases |a|
  {
    if a == [] {
      assert a + "\t" + b == "\t" + b;
      assert ("\t" + b)[1..] == b;
    } else {
      assert (a + "\t" + b)[1..] == a[1..] + "\t" + b;
      SplitAtTabPrefix(a[1..], b);
      assert [a[0]] + a[1..] == a;
    }
  }

  /** When neither the time string nor the tag holds a tab, a prefixed line
      splits at its first two tabs back into the time string, the tag and the
      dump followed by the newline. */
  lemma FormatLineSplits(timeStr: string, tag: string, data: string)
    requires '\t' !in timeStr && '\t' !in tag
    ensures SplitAtTab(FormatLine(true, timeStr, tag, data)) == Some((timeStr, tag + "\t" + (data + "\n")))
    ensures SplitAtTab(tag + "\t" + (data + "\n")) == Some((tag, data + "\n"))
  {
    var rest := tag + "\t" + (data + "\n");
    assert FormatLine(true, timeStr, tag, data) == timeStr + "\t" + rest;
    SplitAtTabPrefix(timeStr, rest);
    SplitAtTabPrefix(tag, data + "\n");
  }

  // ---------------------------------------------------------------------
  // The object key `write` chooses

  /** `key` is the expansion at the least probe index whose object is not in `existing`. */
  ghost predicate IsProbeResult(key: string, format: string, path: string, timeSlice: string,
                                existing: set<string>)
  {
    exists n: nat ::
      && key == ObjectKey(format, path, timeSlice, n)
      && key !in existing
      && forall j: nat :: j < n ==> ObjectKey(format, path, timeSlice, j) in existing
  }

  /** The probe has one answer: two least free indices coincide. */
  lemma ProbeResultUnique(k1: string, k2: string, format: string, path: string, timeSlice: string,
                          existing: set<string>)
    requires IsProbeResult(k1, format, path, timeSlice, existing)
    requires IsProbeResult(k2, format, path, timeSlice, existing)
    ensures k1 == k2
  {
    var n1: nat :| k1 == ObjectKey(format, path, timeSlice, n1) && k1 !in existing
                && forall j: nat :: j < n1 ==> ObjectKey(format, path, timeSlice, j) in existing;
    var n2: nat :| k2 == ObjectKey(format, path, timeSlice, n2) && k2 !in existing
                && forall j: nat :: j < n2 ==> ObjectKey(format, path, timeSlice, j) in existing;
    assert !(n1 < n2);
    assert !(n2 < n1);
  }

  /** In an empty bucket the default format gives path + chunk key + "_0.gz". */
  lemma ProbeResultDefaultEmpty(key: string, path: string, timeSlice: string)
    requires IsProbeResult(key, DefaultKeyFormat, path, timeSlice, {})
    ensures key == path + timeSlice + "_0.gz"
  {
    var n: nat :| key == ObjectKey(DefaultKeyFormat, path, timeSlice, n)
               && forall j: nat :: j < n ==> ObjectKey(DefaultKeyFormat, path, timeSlice, j) in {};
    var first := ObjectKey(DefaultKeyFormat, path, timeSlice, 0);
    assert n == 0;
    DefaultFirstKey(path, timeSlice);
  }

  /** The upload `write` performs: the object key, the gzip-compressed chunk
      and the content type. */
  datatype PutRequest = PutRequest(key: string, body: string, contentType: string)

  /** A record Hash that `format` updates in place; its entries are kept in
      insertion order. */
  class EventRecord {
    var fields: seq<(string, Json)>

    constructor(fields0: seq<(string, Json)>)
      ensures fields == fields0
    {
      fields := fields0;
    }
  }

  class S3Output {
    var params: Params
    var includeTagAndTime: bool
    var outputDataType: string
    var useSsl: bool
    var dumper: Option<Dumper>

    /** A new plugin has use_ssl on and no dumper yet. */
    constructor()
      ensures useSsl && dumper == None
    {
      params := DefaultParams("");
      includeTagAndTime := true;
      outputDataType := "json";
      useSsl := true;
      dumper := None;
    }

    /** `p` holds the parameters as the base class parsed them, `conf` the raw
        configuration hash and `ltsvAvailable` whether the ltsv gem loads. */
    method Configure(p: Params, conf: map<string, string>, ltsvAvailable: bool)
      returns (r: Outcome<ConfigError>)
      modifies this
      ensures params == p
      ensures var s := ConfigureSettings(p, conf, ltsvAvailable, old(useSsl));
              match s
              case Failure(e) => r == Fail(e)
              case Success(v) =>
                && r == Pass
                && includeTagAndTime == v.includeTagAndTime && outputDataType == v.outputDataType
                && dumper == Some(v.dumper) && useSsl == v.useSsl
    {
      params := p;
      includeTagAndTime := p.includeTagAndTime;
      outputDataType := p.outputDataType;
      if "format_json" in conf {
        includeTagAndTime := false;
        outputDataType := "json";
      }
      if outputDataType == "ltsv" && !ltsvAvailable {
        return Fail(LtsvNotInstalled);
      }
      if outputDataType == "json" {
        dumper := Some(YajlDump);
      } else if outputDataType == "ltsv" {
        dumper := Some(LtsvDump);
      } else {
        return Fail(UnsupportedOutputDataType);
      }
      if "use_ssl" in conf {
        var value := conf["use_ssl"];
        if value == "" {
          useSsl := true;
        } else {
          var b := BoolValue(value);
          if b.None? {
            return Fail(UseSslNotBoolean);
          }
          useSsl := b.value;
        }
      }
      r := Pass;
    }

    /** The options hash given to the S3 client. */
    method Start() returns (options: map<string, OptionValue>)
      ensures "access_key_id" in options <==> params.awsKeyId.Some? && params.awsSecKey.Some?
      ensures "secret_access_key" in options <==> params.awsKeyId.Some? && params.awsSecKey.Some?
      ensures "access_key_id" in options ==>
                options["access_key_id"] == Str(params.awsKeyId.value)
                && options["secret_access_key"] == Str(params.awsSecKey.value)
      ensures "s3_endpoint" in options <==> params.s3Endpoint.Some?
      ensures "s3_endpoint" in options ==> options["s3_endpoint"] == Str(params.s3Endpoint.value)
      ensures "use_ssl" in options && options["use_ssl"] == Flag(useSsl)
      ensures forall k :: k in options ==>
                k == "access_key_id" || k == "secret_access_key" || k == "s3_endpoint" || k == "use_ssl"
    {
      options := map[];
      if params.awsKeyId.Some? && params.awsSecKey.Some? {
        options := options["access_key_id" := Str(params.awsKeyId.value)];
        options := options["secret_access_key" := Str(params.awsSecKey.value)];
      }
      if params.s3Endpoint.Some? {
        options := options["s3_endpoint" := Str(params.s3Endpoint.value)];
      }
      options := options["use_ssl" := Flag(useSsl)];
    }

    /** Formats one event. `formatTime` is the configured time formatter and
        `dump` the dumper chosen by configure, applied to the updated record. */
    method Format(tag: string, time: int, record: EventRecord, formatTime: int -> string,
                  dump: (Dumper, seq<(string, Json)>) -> string)
      returns (line: string)
      requires dumper.Some? && DistinctKeys(record.fields)
      modifies record
      ensures DistinctKeys(record.fields)
      ensures record.fields == StampedFields(params, old(record.fields), tag, formatTime(time))
      ensures line == FormatLine(includeTagAndTime, formatTime(time), tag, dump(dumper.value, record.fields))
    {
      var timeStr := "";
      if params.includeTimeKey || includeTagAndTime {
        timeStr := formatTime(time);
      }
      if params.includeTagKey {
        HashPutKeepsDistinct(record.fields, params.tagKey, JStr(tag));
        record.fields := HashPut(record.fields, params.tagKey, JStr(tag));
      }
      if params.includeTimeKey {
        HashPutKeepsDistinct(record.fields, params.timeKey, JStr(timeStr));
        record.fields := HashPut(record.fields, params.timeKey, JStr(timeStr));
      }
      var data := dump(dumper.value, record.fields);
      var prefix := "";
      if includeTagAndTime {
        prefix := timeStr + "\t" + tag + "\t";
      }
      line := prefix + data + "\n";
    }

    /** Writes a chunk: probes keys at indices 0, 1, 2, ... against the objects
        in `existing` and uploads the gzip-compressed chunk under the first key
        that is not there. The loop exits only if some index is free (see
        FreeIndexExists and NoIndexFieldNoFreeKey). */
    method Write(chunkKey: string, chunkData: string, existing: set<string>, gzip: string -> string)
      returns (req: PutRequest)
      requires exists i: nat :: ObjectKey(params.keyFormat, params.path, chunkKey, i) !in existing
      ensures IsProbeResult(req.key, params.keyFormat, params.path, chunkKey, existing)
      ensures req.body == gzip(chunkData) && req.contentType == "application/x-gzip"
    {
      ghost var free: nat :| ObjectKey(params.keyFormat, params.path, chunkKey, free) !in existing;
      var i: nat := 0;
      var key := Expand(params.keyFormat, KeyValues(params.path, chunkKey, i));
      i := i + 1;
      while key in existing
        invariant 1 <= i <= free + 1
        invariant key == ObjectKey(params.keyFormat, params.path, chunkKey, i - 1)
        invariant forall j: nat :: j < i - 1 ==> ObjectKey(params.keyFormat, params.path, chunkKey, j) in existing
        decreases free + 1 - i
      {
        key := Expand(params.keyFormat, KeyValues(params.path, chunkKey, i));
        i := i + 1;
      }
      req := PutRequest(key, gzip(chunkData), "application/x-gzip");
    }
  }
}
