/** Runtime values: JSON plus durations and the `Ok`/`Err` results. */
module Values {
  import opened Wrappers

  datatype ErrValue = ErrValue(
    variant: string, status: Option<nat>, message: string, payload: Option<Value>)

  datatype Entry = Entry(key: string, value: Value)

  /** An object keeps its entries in key order, as an ordered map does. */
  datatype Value =
    | Null
    | Bool(b: bool)
    | Int(n: int)
    | Str(s: string)
    | Duration(ms: nat)
    | Array(items: seq<Value>)
    | Object(entries: seq<Entry>)
    | Ok(inner: Value)
    | Err(err: ErrValue)
  {
    predicate Truthy() {
      match this
      case Bool(b) => b
      case Null => false
      case Int(n) => n != 0
      case Str(s) => s != ""
      case Array(items) => items != []
      case Object(entries) => entries != []
      case Ok(_) => true
      case Err(_) => false
      case Duration(ms) => ms != 0
    }

    function GetField(name: string): Value {
      match this
      case Object(entries) => FindEntry(entries, name)
      case Array(items) => if name == "length" then Int(|items|) else Null
      case Str(s) => if name == "length" then Int(|s|) else Null
      case _ => Null
    }

    /** The elements an iteration over this value visits: a non-array is one element. */
    function Items(): seq<Value> {
      match this
      case Array(items) => items
      case Null => []
      case other => [other]
    }

    function Display(): string {
      match this
      case Str(s) => s
      case other => other.ToJson()
    }

    function ToJson(): string {
      match this
      case Null => "null"
      case Bool(b) => if b then "true" else "false"
      case Int(n) => IntText(n)
      case Duration(ms) => NatText(ms) + "ms"
      case Str(s) => JsonString(s)
      case Array(items) => "[" + ItemsJson(items) + "]"
      case Object(entries) => "{" + EntriesJson(entries) + "}"
      case Ok(v) => "Ok(" + v.ToJson() + ")"
      case Err(e) => "Err(" + e.variant + ")"
    }
  }

  function ItemsJson(items: seq<Value>): string {
    if items == [] then ""
    else if |items| == 1 then items[0].ToJson()
    else items[0].ToJson() + "," + ItemsJson(items[1..])
  }

  function EntriesJson(entries: seq<Entry>): string {
    if entries == [] then ""
    else
      var head := JsonString(entries[0].key) + ":" + entries[0].value.ToJson();
      if |entries| == 1 then head else head + "," + EntriesJson(entries[1..])
  }

  function FindEntry(entries: seq<Entry>, name: string): Value {
    if entries == [] then Null
    else if entries[0].key == name then entries[0].value
    else FindEntry(entries[1..], name)
  }

  /** Insert or replace, keeping key order. */
  function InsertEntry(entries: seq<Entry>, e: Entry): seq<Entry> {
    if entries == [] then [e]
    else if entries[0].key == e.key then [e] + entries[1..]
    else if StringLess(e.key, entries[0].key) then [e] + entries
    else [entries[0]] + InsertEntry(entries[1..], e)
  }

  predicate StringLess(a: string, b: string) {
    b != "" && (a == "" || a[0] < b[0] || (a[0] == b[0] && StringLess(a[1..], b[1..])))
  }

  function Digit(n: nat): char
    requires n < 10
  {
    "0123456789"[n]
  }

  function NatText(n: nat): string {
    if n < 10 then [Digit(n)] else NatText(n / 10) + [Digit(n % 10)]
  }

  function IntText(n: int): string {
    if n < 0 then "-" + NatText(-n) else NatText(n)
  }

  function JsonString(s: string): string {
    "\"" + JsonChars(s) + "\""
  }

  function JsonChars(s: string): string {
    if s == "" then ""
    else
      (match s[0]
       case '\"' => "\\\""
       case '\\' => "\\\\"
       case '\n' => "\\n"
       case '\t' => "\\t"
       case '\r' => "\\r"
       case c => [c]) + JsonChars(s[1..])
  }

  /** The sixty-four bit wrap-around of integer arithmetic in a release build. */
  function Wrap64(n: int): int {
    (n + 0x8000_0000_0000_0000) % 0x1_0000_0000_0000_0000 - 0x8000_0000_0000_0000
  }

  /** Numbers and durations compare with each other. */
  function AsNumber(v: Value): Option<int> {
    match v
    case Int(n) => Some(n)
    case Duration(ms) => Some(ms)
    case _ => None
  }
}
