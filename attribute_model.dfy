/**
 * Attribute definitions and attribute groups: the records the attribute engine
 * validates against.
 */
module AttributeModel {
  import opened Common
  import opened Values

  /** The closed set of attribute kinds. */
  datatype Kind =
    | Text | Number | Boolean | Date | DateTime | Time
    | Select | MultiSelect
    | File | Image | Attachment
    | Object | Array | Json | Formula | Expression | Table
    | Color | RichText | Rating | Barcode | Qr
    | Readonly

  /** The string each kind is stored under. */
  function KindName(k: Kind): string {
    match k
    case Text => "text"
    case Number => "number"
    case Boolean => "boolean"
    case Date => "date"
    case DateTime => "datetime"
    case Time => "time"
    case Select => "select"
    case MultiSelect => "multiselect"
    case File => "file"
    case Image => "image"
    case Attachment => "attachment"
    case Object => "object"
    case Array => "array"
    case Json => "json"
    case Formula => "formula"
    case Expression => "expression"
    case Table => "table"
    case Color => "color"
    case RichText => "rich_text"
    case Rating => "rating"
    case Barcode => "barcode"
    case Qr => "qr"
    case Readonly => "readonly"
  }

  /** The schema's enum check on a stored `type` string: the kind it names, if any. */
  function KindOf(s: string): (r: Option<Kind>)
    ensures r.Some? ==> KindName(r.value) == s
  {
    match s
    case "text" => Some(Text)
    case "number" => Some(Number)
    case "boolean" => Some(Boolean)
    case "date" => Some(Date)
    case "datetime" => Some(DateTime)
    case "time" => Some(Time)
    case "select" => Some(Select)
    case "multiselect" => Some(MultiSelect)
    case "file" => Some(File)
    case "image" => Some(Image)
    case "attachment" => Some(Attachment)
    case "object" => Some(Object)
    case "array" => Some(Array)
    case "json" => Some(Json)
    case "formula" => Some(Formula)
    case "expression" => Some(Expression)
    case "table" => Some(Table)
    case "color" => Some(Color)
    case "rich_text" => Some(RichText)
    case "rating" => Some(Rating)
    case "barcode" => Some(Barcode)
    case "qr" => Some(Qr)
    case "readonly" => Some(Readonly)
    case _ => None
  }

  /** Every kind is accepted under the name it is stored as, so the 23 names are distinct. */
  lemma KindNameRoundTrip(k: Kind)
    ensures KindOf(KindName(k)) == Some(k)
  {
  }

  /**
   * An attribute definition. `config` is the free-form configuration object
   * (absent config reads as the empty object); `defaultValue` is `None` when
   * the definition has no default.
   */
  datatype AttributeDef = AttributeDef(
    code: string,
    name: string,
    kind: Kind,
    required: bool,
    defaultValue: Option<Value>,
    config: map<string, Value>,
    active: bool)

  /** A named bundle of references to attribute definitions. */
  datatype AttributeGroup = AttributeGroup(code: string, name: string, attributes: seq<Id>)
}
