/**
 Loading the input file: the file is read and parsed elsewhere; this module
 models what the loader does with the outcome, and how one array element is
 read as a record.
 */
module Loader {
  import opened Wrappers
  import opened Training

  /** A parsed JSON value, abstracted to what the loader and the submitter look at. */
  datatype Json = JArray(items: seq<Json>) | JObject(fields: Record) | JNull | JScalar

  /** What reading and parsing the input file produced. */
  datatype Source = Unreadable | Malformed | Parsed(value: Json)

  datatype LoadError = ReadFailed | ParseFailed | NotAnArray

  /** The records of the input file: only a top-level array is accepted. */
  function LoadJsonFile(src: Source): (r: Result<seq<Json>, LoadError>)
    ensures r.Success? <==> src.Parsed? && src.value.JArray?
    ensures r.Success? ==> r.value == src.value.items
    ensures src.Parsed? && !src.value.JArray? ==> r == Failure(NotAnArray)
  {
    match src
    case Unreadable => Failure(ReadFailed)
    case Malformed => Failure(ParseFailed)
    case Parsed(v) =>
      if v.JArray? then Success(v.items) else Failure(NotAnArray)
  }

  /** A record with every field missing. */
  const NoFields: Record := Record(None, None, None, None, None, None, None, None, None)

  /**
   The fields read from one array element. Reading a property of a string,
   number, boolean or array gives `undefined`, so those elements read as a
   record with no fields. This is the corrected reading, where a `null`
   element also counts as a record without a question; the script as written
   throws on it (see FieldsAsWritten).
   */
  function FieldsOf(j: Json): (r: Record)
    ensures j.JObject? ==> r == j.fields
    ensures !j.JObject? ==>
      && r.question == None && r.answer == None && r.responseType == None
      && r.language == None && r.sentiment == None && r.category == None
      && r.response == None && r.kind == None && r.imageUrl == None
    ensures !j.JObject? ==> !Truthy(r.question) && Normalize(r).response == ""
  {
    if j.JObject? then j.fields else NoFields
  }

  /**
   The fields read from one array element by the code as written: reading
   `question` of `null` throws, which is modelled as None.
   */
  function FieldsAsWritten(j: Json): (r: Option<Record>)
    ensures r.None? <==> j == JNull
    ensures r.Some? ==> r.value == FieldsOf(j)
  {
    match j
    case JNull => None
    case JObject(fields) => Some(fields)
    case _ => Some(NoFields)
  }
}
