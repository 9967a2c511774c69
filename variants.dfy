/** The string keys shared by the registry, the worker and the table models. */
module Keys {

  const ID: string := "id"
  const TYPE: string := "type"
  const PAYLOAD: string := "payload"
  const COMMAND: string := "command"
  const DESCRIPTOR: string := "descriptor"
  const ADDRESS: string := "address"
  const PORT: string := "port"
  const STATUS: string := "status"
  const ALLOW_SENDING: string := "allowSending"
  const TIME_STAMP: string := "timestamp"

  /** Message types; the CONFIGURATION type doubles as the configuration key of a snapshot. */
  const REGISTRATION: string := "Registration"
  const CONFIRMATION: string := "Confirmation"
  const CONFIGURATION: string := "Configuration"
}

/**
 * Loosely typed values (QVariant) and rows (QVariantMap), with the
 * conversions the source applies when it reads a row back.
 */
module Variants {

  import opened Options
  import opened Text

  datatype Variant =
    | Str(s: string)
    | Int(i: int)
    | Bool(b: bool)
    | Map(fields: map<string, Variant>)

  /** A QVariantMap: a row of a table, a snapshot, a configuration payload. */
  type Row = map<string, Variant>

  /** QVariantMap::value: an absent key reads as an invalid variant (None). */
  function Get(row: Row, key: string): (r: Option<Variant>)
    ensures r.Some? <==> key in row
    ensures r.Some? ==> r.value == row[key]
  {
    if key in row then Some(row[key]) else None
  }

  /** Reading a row after `row[key] = v`: the written key reads v, every other key reads as before. */
  lemma GetAfterInsert(row: Row, key: string, v: Variant, other: string)
    ensures Get(row[key := v], key) == Some(v)
    ensures other != key ==> Get(row[key := v], other) == Get(row, other)
  {
  }

  /** QVariant::toString; a map and an invalid variant read as the empty string. */
  function ToText(v: Option<Variant>): string
  {
    match v
    case None => ""
    case Some(Str(s)) => s
    case Some(Int(i)) => IntToString(i)
    case Some(Bool(b)) => if b then "true" else "false"
    case Some(Map(_)) => ""
  }

  /** QVariant::toInt; whatever does not convert reads as 0. */
  function ToInt(v: Option<Variant>): int
  {
    match v
    case None => 0
    case Some(Str(s)) => (match ParseInt(s) case Some(n) => n case None => 0)
    case Some(Int(i)) => i
    case Some(Bool(b)) => if b then 1 else 0
    case Some(Map(_)) => 0
  }

  /** QVariant::toBool; a string is false when empty, "0" or "false". */
  function ToBool(v: Option<Variant>): bool
  {
    match v
    case None => false
    case Some(Str(s)) => !(s == "" || s == "0" || Lower(s) == "false")
    case Some(Int(i)) => i != 0
    case Some(Bool(b)) => b
    case Some(Map(_)) => false
  }
}
