/** The Parquet compressor of the S3 output: its configure checks, its
    extension and MIME type, the argument vector it gives `columnify`, and
    the choice of source file and status check in `compress`. */
module S3CompressorParquet {
  import opened Basics

  datatype Codec = Uncompressed | Snappy | Gzip | Lzo | Brotli | Lz4 | Zstd

  /** The codec's symbol name, as `to_s` gives it. */
  function CodecName(c: Codec): string
  {
    match c
    case Uncompressed => "uncompressed"
    case Snappy => "snappy"
    case Gzip => "gzip"
    case Lzo => "lzo"
    case Brotli => "brotli"
    case Lz4 => "lz4"
    case Zstd => "zstd"
  }

  datatype RecordType = Avro | Csv | Jsonl | Msgpack | Tsv | Json

  function RecordTypeName(t: RecordType): string
  {
    match t
    case Avro => "avro"
    case Csv => "csv"
    case Jsonl => "jsonl"
    case Msgpack => "msgpack"
    case Tsv => "tsv"
    case Json => "json"
  }

  /** Reads a record type name back. */
  function RecordTypeFromName(s: string): Option<RecordType>
  {
    if s == "avro" then Some(Avro)
    else if s == "csv" then Some(Csv)
    else if s == "jsonl" then Some(Jsonl)
    else if s == "msgpack" then Some(Msgpack)
    else if s == "tsv" then Some(Tsv)
    else if s == "json" then Some(Json)
    else None
  }

  datatype SchemaType = AvroSchema | BigQuerySchema

  function SchemaTypeName(t: SchemaType): string
  {
    match t
    case AvroSchema => "avro"
    case BigQuerySchema => "bigquery"
  }

  function SchemaTypeFromName(s: string): Option<SchemaType>
  {
    if s == "avro" then Some(AvroSchema) else if s == "bigquery" then Some(BigQuerySchema) else None
  }

  /** The names read back give the values that were written. */
  lemma NamesReadBack(t: RecordType, s: SchemaType)
    ensures RecordTypeFromName(RecordTypeName(t)) == Some(t)
    ensures SchemaTypeFromName(SchemaTypeName(s)) == Some(s)
  {
  }

  /** The parameters of the `<compress>` section, parsed by the base class. */
  datatype CompressParams = CompressParams(
    codec: Codec,
    pageSize: nat,
    rowGroupSize: nat,
    recordType: RecordType,
    schemaType: SchemaType,
    schemaFile: string)

  /** The declared defaults; schema_file has none and must be given. */
  function DefaultCompressParams(schemaFile: string): (p: CompressParams)
    ensures p.codec == Snappy && p.pageSize == 8192 && p.rowGroupSize == 128 * 1024 * 1024
    ensures p.recordType == Msgpack && p.schemaType == AvroSchema && p.schemaFile == schemaFile
  {
    CompressParams(Snappy, 8192, 134217728, Msgpack, AvroSchema, schemaFile)
  }

  datatype ParquetError =
    | ColumnifyMissing
    | UnsupportedCodec(codec: Codec)
    | ColumnifyFailed(stdout: string, stderr: string, status: string)

  function ErrorMessage(e: ParquetError): string
  {
    match e
    case ColumnifyMissing => "'columnify' utility must be in PATH for -h compression"
    case UnsupportedCodec(c) => "unsupported compression codec: " + CodecName(c)
    case ColumnifyFailed(out, err, status) =>
      "failed to execute columnify command. stdout=" + out + " stderr=" + err + " status=" + status
  }

  /** The codec name and record type configure stores. `columnifyInPath` says
      whether running `columnify` finds the program. */
  function ConfiguredValues(p: CompressParams, columnifyInPath: bool): Result<(string, RecordType), ParquetError>
  {
    if !columnifyInPath then Failure(ColumnifyMissing)
    else if p.codec == Lzo || p.codec == Brotli || p.codec == Lz4 then Failure(UnsupportedCodec(p.codec))
    else Success((Upcase(CodecName(p.codec)), if p.recordType == Json then Jsonl else p.recordType))
  }

  /** lzo, brotli and lz4 are refused, with the codec in the message;
      uncompressed, snappy, gzip and zstd are accepted. */
  lemma CodecsAcceptedAndRefused(p: CompressParams)
    ensures var r := ConfiguredValues(p, true);
            (r.Failure? <==> p.codec in {Lzo, Brotli, Lz4})
            && (r.Failure? ==> ErrorMessage(r.error) == "unsupported compression codec: " + CodecName(p.codec))
  {
  }

  /** The stored codec is the upper-cased symbol name, e.g. SNAPPY for snappy. */
  lemma StoredCodecIsUpcased(p: CompressParams)
    requires ConfiguredValues(p, true).Success?
    ensures var name := ConfiguredValues(p, true).value.0;
            |name| == |CodecName(p.codec)|
            && forall k :: 0 <= k < |name| ==> name[k] == UpcaseChar(CodecName(p.codec)[k])
    ensures p.codec == Snappy ==> ConfiguredValues(p, true).value.0 == "SNAPPY"
  {
    if p.codec == Snappy {
      var n := Upcase("snappy");
      assert |n| == 6;
      assert n[0] == 'S' && n[1] == 'N' && n[2] == 'A' && n[3] == 'P' && n[4] == 'P' && n[5] == 'Y';
      assert n == "SNAPPY";
    }
  }

  /** A record type of json becomes jsonl; every other type is kept. */
  lemma JsonBecomesJsonl(p: CompressParams)
    requires ConfiguredValues(p, true).Success?
    ensures var t := ConfiguredValues(p, true).value.1;
            (p.recordType == Json ==> t == Jsonl) && (p.recordType != Json ==> t == p.recordType)
            && t != Json
  {
  }

  // ---------------------------------------------------------------------
  // The columnify command line

  /** The argument vector of `columnify`: each flag followed by its value,
      then `-output` and the destination, and the source path last. */
  function ColumnifyArgv(codec: string, p: CompressParams, recordType: RecordType, src: string, dst: string)
    : seq<string>
  {
    ["columnify",
     "-parquetCompressionCodec", codec,
     "-parquetPageSize", NatToString(p.pageSize),
     "-parquetRowGroupSize", NatToString(p.rowGroupSize),
     "-recordType", RecordTypeName(recordType),
     "-schemaType", SchemaTypeName(p.schemaType),
     "-schemaFile", p.schemaFile,
     "-output", dst,
     src]
  }

  /** What a command line of that shape asks columnify to do. */
  datatype ColumnifyRequest = ColumnifyRequest(
    codec: string,
    pageSize: nat,
    rowGroupSize: nat,
    recordType: RecordType,
    schemaType: SchemaType,
    schemaFile: string,
    output: string,
    source: string)

  /** Reads a command line of the columnify shape; None for any other. */
  function ReadArgv(argv: seq<string>): Option<ColumnifyRequest>
  {
    if |argv| != 16 then None
    else if argv[0] != "columnify" || argv[1] != "-parquetCompressionCodec" || argv[3] != "-parquetPageSize"
         || argv[5] != "-parquetRowGroupSize" || argv[7] != "-recordType" || argv[9] != "-schemaType"
         || argv[11] != "-schemaFile" || argv[13] != "-output" then None
    else match (RecordTypeFromName(argv[8]), SchemaTypeFromName(argv[10]))
      case (Some(rt), Some(st)) =>
        Some(ColumnifyRequest(argv[2], ParseDecimal(argv[4]), ParseDecimal(argv[6]), rt, st, argv[12],
                              argv[14], argv[15]))
      case _ => None
  }

  /** The command line carries every setting, the destination and the source
      so that they read back unchanged: sizes as decimal numerals, the source
      as the last argument. */
  lemma ColumnifyArgvReadsBack(codec: string, p: CompressParams, recordType: RecordType, src: string, dst: string)
    ensures var argv := ColumnifyArgv(codec, p, recordType, src, dst);
            && |argv| == 16 && argv[0] == "columnify" && argv[15] == src
            && ReadArgv(argv)
               == Some(ColumnifyRequest(codec, p.pageSize, p.rowGroupSize, recordType, p.schemaType, p.schemaFile,
                                        dst, src))
  {
    ParseNatToString(p.pageSize);
    ParseNatToString(p.rowGroupSize);
    NamesReadBack(recordType, p.schemaType);
  }

  // ---------------------------------------------------------------------
  // The compressor object

  /** A buffer chunk: the file behind it (for a file buffer) and its bytes. */
  datatype Chunk = Chunk(path: string, data: string)

  /** What `Open3.capture3` returns: the outputs and the exit status. */
  datatype ProcessStatus = ProcessStatus(stdout: string, stderr: string, success: bool, inspect: string)

  /** One `compress` call: the file columnify reads, what went into a
      temporary file (removed afterwards) if one was needed, the command line
      and whether the call raised. */
  datatype CompressRun = CompressRun(source: string, tempContents: Option<string>, argv: seq<string>,
                                     outcome: Outcome<ParquetError>)

  class ParquetCompressor {
    var bufferType: string
    var compress: CompressParams
    var parquetCompressionCodec: string
    var recordType: RecordType

    constructor(bufferType0: string, p: CompressParams)
      ensures bufferType == bufferType0 && compress == p
    {
      bufferType := bufferType0;
      compress := p;
      // A placeholder: the source's instance variable is nil until configure
      // sets it, and compress is only called after configure.
      parquetCompressionCodec := "";
      recordType := p.recordType;
    }

    method Configure(p: CompressParams, columnifyInPath: bool) returns (r: Outcome<ParquetError>)
      modifies this
      ensures compress == p && bufferType == old(bufferType)
      ensures match ConfiguredValues(p, columnifyInPath)
              case Failure(e) =>
                r == Fail(e) && parquetCompressionCodec == old(parquetCompressionCodec) && recordType == old(recordType)
              case Success(v) => r == Pass && parquetCompressionCodec == v.0 && recordType == v.1
    {
      compress := p;
      if !columnifyInPath {
        return Fail(ColumnifyMissing);
      }
      if p.codec == Lzo || p.codec == Brotli || p.codec == Lz4 {
        return Fail(UnsupportedCodec(p.codec));
      }
      parquetCompressionCodec := Upcase(CodecName(p.codec));
      if p.recordType == Json {
        recordType := Jsonl;
      } else {
        recordType := p.recordType;
      }
      r := Pass;
    }

    function Ext(): (e: string)
      ensures e == "parquet"
    {
      "parquet"
    }

    function ContentType(): (t: string)
      ensures t == "application/octet-stream"
    {
      "application/octet-stream"
    }

    /** `compress(chunk, tmp)`: a file buffer's chunk is read in place;
        otherwise the chunk is first written to the temporary file `tempPath`.
        `columnify` runs the command; a status other than success raises. */
    method Compress(chunk: Chunk, tmpPath: string, tempPath: string, columnify: seq<string> -> ProcessStatus)
      returns (run: CompressRun)
      ensures bufferType == "file" ==> run.source == chunk.path && run.tempContents == None
      ensures bufferType != "file" ==> run.source == tempPath && run.tempContents == Some(chunk.data)
      ensures run.argv == ColumnifyArgv(parquetCompressionCodec, compress, recordType, run.source, tmpPath)
      ensures columnify(run.argv).success <==> run.outcome == Pass
      ensures !columnify(run.argv).success ==>
                var st := columnify(run.argv);
                run.outcome == Fail(ColumnifyFailed(st.stdout, st.stderr, st.inspect))
    {
      var chunkIsFile := bufferType == "file";
      var path: string;
      var written: Option<string>;
      if chunkIsFile {
        path := chunk.path;
        written := None;
      } else {
        path := tempPath;
        written := Some(chunk.data);
      }
      var argv := ColumnifyArgv(parquetCompressionCodec, compress, recordType, path, tmpPath);
      var status := columnify(argv);
      if status.success {
        run := CompressRun(path, written, argv, Pass);
      } else {
        run := CompressRun(path, written, argv, Fail(ColumnifyFailed(status.stdout, status.stderr, status.inspect)));
      }
    }
  }
}
