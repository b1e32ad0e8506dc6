/** The constant tables of formula_converter.py, in source order. */
module FormulaTables {
  import opened Wrappers
  import opened Text

  /** One value of `ALTERYX_TO_TRINO_FUNCTIONS`: the Trino template (None
      when the function needs special handling) and the argument count, with
      -1 for a variable number. A template containing `{n}` is filled in
      positionally; any other template is a function name to apply. */
  datatype FunctionSpec = FunctionSpec(template: Option<String>, arity: int)

  /** `ALTERYX_TO_TRINO_FUNCTIONS`, section by section as the source lays it
      out; no two keys are equal ignoring case. */
  const FunctionTable: seq<(String, FunctionSpec)> :=
    StringFunctions + MathFunctions + MinMaxFunctions + ConversionFunctions + DateTimeFunctions
    + ConditionalFunctions + RegexFunctions + SpatialFunctions + FinanceFunctions + FileFunctions

  /** The string functions. */
  const StringFunctions: seq<(String, FunctionSpec)> := [
    ("Trim", FunctionSpec(Some("TRIM"), 1)),
    ("TrimLeft", FunctionSpec(Some("LTRIM"), 1)),
    ("TrimRight", FunctionSpec(Some("RTRIM"), 1)),
    ("Left", FunctionSpec(Some("SUBSTR({0}, 1, {1})"), 2)),
    ("Right", FunctionSpec(Some("SUBSTR({0}, LENGTH({0}) - {1} + 1)"), 2)),
    ("Substring", FunctionSpec(Some("SUBSTR"), 3)),
    ("Length", FunctionSpec(Some("LENGTH"), 1)),
    ("UpperCase", FunctionSpec(Some("UPPER"), 1)),
    ("LowerCase", FunctionSpec(Some("LOWER"), 1)),
    ("Proper", FunctionSpec(Some("INITCAP"), 1)),
    ("PadLeft", FunctionSpec(Some("LPAD"), 3)),
    ("PadRight", FunctionSpec(Some("RPAD"), 3)),
    ("Replace", FunctionSpec(Some("REPLACE"), 3)),
    ("ReplaceFirst", FunctionSpec(Some("REGEXP_REPLACE({0}, {1}, {2}, 1)"), 3)),
    ("Concat", FunctionSpec(Some("CONCAT"), -1)),
    ("ReverseString", FunctionSpec(Some("REVERSE"), 1)),
    ("Contains", FunctionSpec(Some("STRPOS({0}, {1}) > 0"), 2)),
    ("StartsWith", FunctionSpec(Some("STARTS_WITH"), 2)),
    ("EndsWith", FunctionSpec(Some("ENDS_WITH"), 2)),
    ("FindString", FunctionSpec(Some("STRPOS"), 2)),
    ("CountWords", FunctionSpec(Some("CARDINALITY(SPLIT({0}, ' '))"), 1)),
    ("GetWord", FunctionSpec(Some("SPLIT({0}, ' ')[{1}]"), 2)),
    ("MD5_ASCII", FunctionSpec(Some("MD5"), 1)),
    ("MD5_UNICODE", FunctionSpec(Some("MD5"), 1))]

  /** The math functions. */
  const MathFunctions: seq<(String, FunctionSpec)> := [
    ("Abs", FunctionSpec(Some("ABS"), 1)),
    ("Ceil", FunctionSpec(Some("CEIL"), 1)),
    ("Ceiling", FunctionSpec(Some("CEIL"), 1)),
    ("Floor", FunctionSpec(Some("FLOOR"), 1)),
    ("Round", FunctionSpec(Some("ROUND"), 2)),
    ("Pow", FunctionSpec(Some("POWER"), 2)),
    ("Power", FunctionSpec(Some("POWER"), 2)),
    ("Sqrt", FunctionSpec(Some("SQRT"), 1)),
    ("Exp", FunctionSpec(Some("EXP"), 1)),
    ("Log", FunctionSpec(Some("LN"), 1)),
    ("Log10", FunctionSpec(Some("LOG10"), 1)),
    ("Log2", FunctionSpec(Some("LOG2"), 1)),
    ("Mod", FunctionSpec(Some("MOD"), 2)),
    ("Sign", FunctionSpec(Some("SIGN"), 1)),
    ("Sin", FunctionSpec(Some("SIN"), 1)),
    ("Cos", FunctionSpec(Some("COS"), 1)),
    ("Tan", FunctionSpec(Some("TAN"), 1)),
    ("ASin", FunctionSpec(Some("ASIN"), 1)),
    ("ACos", FunctionSpec(Some("ACOS"), 1)),
    ("ATan", FunctionSpec(Some("ATAN"), 1)),
    ("ATan2", FunctionSpec(Some("ATAN2"), 2)),
    ("Rand", FunctionSpec(Some("RAND()"), 0)),
    ("RandInt", FunctionSpec(Some("FLOOR(RAND() * ({1} - {0} + 1)) + {0}"), 2)),
    ("PI", FunctionSpec(Some("PI()"), 0))]

  /** The min/max functions. */
  const MinMaxFunctions: seq<(String, FunctionSpec)> := [
    ("Min", FunctionSpec(Some("LEAST"), -1)),
    ("Max", FunctionSpec(Some("GREATEST"), -1))]

  /** The conversion functions. */
  const ConversionFunctions: seq<(String, FunctionSpec)> := [
    ("ToNumber", FunctionSpec(Some("CAST({0} AS DOUBLE)"), 1)),
    ("ToInteger", FunctionSpec(Some("CAST({0} AS BIGINT)"), 1)),
    ("ToString", FunctionSpec(Some("CAST({0} AS VARCHAR)"), 1)),
    ("CharToInt", FunctionSpec(Some("CODEPOINT"), 1)),
    ("IntToHex", FunctionSpec(Some("TO_HEX(CAST({0} AS VARBINARY))"), 1)),
    ("HexToNumber", FunctionSpec(Some("FROM_HEX({0})"), 1)),
    ("ConvertToDate", FunctionSpec(Some("CAST({0} AS DATE)"), 1)),
    ("ConvertToDateTime", FunctionSpec(Some("CAST({0} AS TIMESTAMP)"), 1)),
    ("BinToInt", FunctionSpec(Some("FROM_BASE({0}, 2)"), 1))]

  /** The date/time functions. */
  const DateTimeFunctions: seq<(String, FunctionSpec)> := [
    ("DateTimeNow", FunctionSpec(Some("CURRENT_TIMESTAMP"), 0)),
    ("DateTimeToday", FunctionSpec(Some("CURRENT_DATE"), 0)),
    ("DateTimeYear", FunctionSpec(Some("YEAR"), 1)),
    ("DateTimeMonth", FunctionSpec(Some("MONTH"), 1)),
    ("DateTimeDay", FunctionSpec(Some("DAY"), 1)),
    ("DateTimeHour", FunctionSpec(Some("HOUR"), 1)),
    ("DateTimeMinutes", FunctionSpec(Some("MINUTE"), 1)),
    ("DateTimeSeconds", FunctionSpec(Some("SECOND"), 1)),
    ("DateTimeDayOfWeek", FunctionSpec(Some("DAY_OF_WEEK"), 1)),
    ("DateTimeDayOfYear", FunctionSpec(Some("DAY_OF_YEAR"), 1)),
    ("DateTimeQuarter", FunctionSpec(Some("QUARTER"), 1)),
    ("DateTimeWeekOfYear", FunctionSpec(Some("WEEK"), 1)),
    ("DateTimeAdd", FunctionSpec(Some("DATE_ADD({2}, {1}, {0})"), 3)),
    ("DateTimeDiff", FunctionSpec(Some("DATE_DIFF({2}, {0}, {1})"), 3)),
    ("DateTimeFormat", FunctionSpec(Some("DATE_FORMAT({0}, {1})"), 2)),
    ("DateTimeParse", FunctionSpec(Some("DATE_PARSE({0}, {1})"), 2)),
    ("DateTimeTrim", FunctionSpec(Some("DATE_TRUNC({1}, {0})"), 2)),
    ("DateTimeFirstOfMonth", FunctionSpec(Some("DATE_TRUNC('month', {0})"), 1)),
    ("DateTimeLastOfMonth", FunctionSpec(Some("LAST_DAY_OF_MONTH({0})"), 1))]

  /** The conditional/logical functions. */
  const ConditionalFunctions: seq<(String, FunctionSpec)> := [
    ("IIF", FunctionSpec(Some("CASE WHEN {0} THEN {1} ELSE {2} END"), 3)),
    ("IsNull", FunctionSpec(Some("({0} IS NULL)"), 1)),
    ("IsEmpty", FunctionSpec(Some("({0} = '')"), 1)),
    ("IsNumber", FunctionSpec(Some("TRY_CAST({0} AS DOUBLE) IS NOT NULL"), 1)),
    ("IsString", FunctionSpec(Some("TYPEOF({0}) = 'varchar'"), 1)),
    ("Null", FunctionSpec(Some("NULL"), 0)),
    ("Coalesce", FunctionSpec(Some("COALESCE"), -1)),
    ("NullIf", FunctionSpec(Some("NULLIF"), 2)),
    ("Switch", FunctionSpec(None, -1))]

  /** The regex functions. */
  const RegexFunctions: seq<(String, FunctionSpec)> := [
    ("REGEX_Match", FunctionSpec(Some("REGEXP_LIKE"), 2)),
    ("REGEX_Replace", FunctionSpec(Some("REGEXP_REPLACE"), 3)),
    ("REGEX_CountMatches", FunctionSpec(Some("CARDINALITY(REGEXP_EXTRACT_ALL({0}, {1}))"), 2))]

  /** The spatial functions. */
  const SpatialFunctions: seq<(String, FunctionSpec)> := [
    ("Distance", FunctionSpec(Some("ST_DISTANCE"), 2)),
    ("Centroid", FunctionSpec(Some("ST_CENTROID"), 1))]

  /** The finance functions. */
  const FinanceFunctions: seq<(String, FunctionSpec)> := [
    ("Average", FunctionSpec(Some("AVG"), -1))]

  /** The file functions. */
  const FileFunctions: seq<(String, FunctionSpec)> := [
    ("FileExists", FunctionSpec(None, 1)),
    ("FileGetDir", FunctionSpec(None, 1)),
    ("FileGetExt", FunctionSpec(Some("REGEXP_EXTRACT({0}, '\\.([^.]+)$', 1)"), 1)),
    ("FileGetName", FunctionSpec(Some("REGEXP_EXTRACT({0}, '([^/\\\\\\\\]+)$', 1)"), 1))]

  /** `ALTERYX_DATE_FORMAT_MAP`, applied in this order. */
  const DateFormatTable: seq<(String, String)> := [
    ("%Y", "%Y"),
    ("%y", "%y"),
    ("%m", "%m"),
    ("%d", "%d"),
    ("%H", "%H"),
    ("%M", "%i"),
    ("%S", "%s"),
    ("%B", "%M"),
    ("%b", "%b"),
    ("%A", "%W"),
    ("%a", "%a"),
    ("%p", "%p"),
    ("%I", "%I")]

  /** `ALTERYX_AGGREGATION_TO_TRINO` */
  const AggregationTable: seq<(String, String)> := [
    ("Sum", "SUM"),
    ("Count", "COUNT"),
    ("CountDistinct", "COUNT(DISTINCT {0})"),
    ("CountNonNull", "COUNT"),
    ("CountNull", "SUM(CASE WHEN {0} IS NULL THEN 1 ELSE 0 END)"),
    ("CountBlank", "SUM(CASE WHEN {0} = '' THEN 1 ELSE 0 END)"),
    ("Min", "MIN"),
    ("Max", "MAX"),
    ("Avg", "AVG"),
    ("First", "FIRST_VALUE({0}) OVER ()"),
    ("Last", "LAST_VALUE({0}) OVER ()"),
    ("Concat", "LISTAGG({0}, ',')"),
    ("Mode", "APPROX_MOST_FREQUENT({0}, 1)"),
    ("StdDev", "STDDEV"),
    ("StdDevP", "STDDEV_POP"),
    ("Variance", "VARIANCE"),
    ("VarianceP", "VAR_POP"),
    ("Median", "APPROX_PERCENTILE({0}, 0.5)"),
    ("Percentile", "APPROX_PERCENTILE({0}, {1})")]
}
