/** GingerTemplate.Core.Extensions.DataFormatExtensions: names and file
    extensions of the `DataFormat` enum and parsing them back. */
module DataFormatExtensions {
  import opened Base
  import opened Text

  datatype DataFormat = Json | Xml | Csv | Yaml

  /** `ToFormatString`. */
  function ToFormatString(format: DataFormat): (r: string)
    ensures r != [] && IsLowerCase(r)
  {
    match format
    case Json => "json"
    case Xml => "xml"
    case Csv => "csv"
    case Yaml => "yaml"
  }

  /** `GetFileExtension`. */
  function GetFileExtension(format: DataFormat): (r: string)
    ensures r == "." + ToFormatString(format)
  {
    match format
    case Json => ".json"
    case Xml => ".xml"
    case Csv => ".csv"
    case Yaml => ".yaml"
  }

  /** `Parse`: matches the lower-cased input against the four names and
      throws `ArgumentException` for anything else. */
  function Parse(format: string): (r: Result<DataFormat>)
    ensures forall f :: ToLower(format) == ToFormatString(f) ==> r == Ok(f)
    ensures r.Ok? ==> ToLower(format) == ToFormatString(r.value)
    ensures r.Err? ==> r.error.kind == Argument
  {
    match ToLower(format)
    case "json" => Ok(Json)
    case "xml" => Ok(Xml)
    case "csv" => Ok(Csv)
    case "yaml" => Ok(Yaml)
    case _ => Err(Error(Argument, "Unknown data format: " + format))
  }

  /** Printing a format and parsing it back gives the same format. */
  lemma ParsePrintRoundTrip(format: DataFormat)
    ensures Parse(ToFormatString(format)) == Ok(format)
  {
    var s := ToFormatString(format);
    assert ToLower(s) == s;
  }

  /** Different formats have different names. */
  lemma ToFormatStringInjective(f: DataFormat, g: DataFormat)
    requires ToFormatString(f) == ToFormatString(g)
    ensures f == g
  {
  }

  /** Parsing ignores letter case (only the error message keeps the input's
      own spelling). */
  lemma ParseIgnoresCase(format: string)
    ensures Parse(format).Ok? == Parse(ToLower(format)).Ok?
    ensures Parse(format).Ok? ==> Parse(format) == Parse(ToLower(format))
  {
    LowerIdempotent(format);
  }

  lemma ParseExamples()
    ensures Parse("JSON") == Ok(Json) && Parse("Json") == Ok(Json) && Parse("json") == Ok(Json)
    ensures Parse("toml").Err?
  {
    assert ToLower("JSON") == "json";
    assert ToLower("Json") == "json";
    assert ToLower("json") == "json";
    assert ToLower("toml") == "toml";
  }
}
