/** The metadata document kept beside every cache (`meta.json`, a file or an
 object): a JSON object read and written whole. The JSON text itself is not
 modelled; the document is its decoded mapping. */
module MetaDoc {

  /** A decoded JSON value. Floating-point numbers are carried as their
      textual form and never computed with. */
  datatype Value =
    | Null
    | Bool(b: bool)
    | Int(i: int)
    | Float(repr: string)
    | Str(s: string)
    | Array(items: seq<Value>)
    | Object(fields: map<string, Value>)

  type Doc = map<string, Value>

  /** The bookkeeping key written by lock and unlock. */
  const LockedKey: string := "locked"

  /** The name of the metadata document inside a cache directory. */
  const MetaName: string := "meta.json"

  /** Where a cache directory keeps its metadata. */
  function MetaPath(baseDir: string): string {
    baseDir + MetaName
  }

  /** The document a fresh cache starts with: `{}`. */
  const EmptyDoc: Doc := map[]

  /** `data[key] = value`: one key takes the new value, every other key keeps its value. */
  function Insert(d: Doc, key: string, value: Value): (r: Doc)
    ensures key in r && r[key] == value
    ensures r.Keys == d.Keys + {key}
    ensures forall k :: k in d && k != key ==> r[k] == d[k]
  {
    d[key := value]
  }

  /** `meta.get("locked", False) is True`: only the JSON value `true` counts;
      an absent key, `false`, or any other value (even `1`) does not. */
  predicate IsLocked(d: Doc) {
    LockedKey in d && d[LockedKey] == Bool(true)
  }

  /** The text `json.dumps` writes for a float that is not finite. */
  predicate NonFinite(repr: string) {
    repr == "NaN" || repr == "Infinity" || repr == "-Infinity"
  }

  /** Whether the JSON text `json.dumps` writes for a value is also a Python
      literal, so that `ast.literal_eval` reads the same value back. The
      JSON words `null`, `true` and `false` and the non-finite floats are
      not; numbers, strings, and arrays and objects of such values are. */
  predicate LiteralSafe(v: Value)
    decreases v
  {
    match v
    case Null => false
    case Bool(_) => false
    case Int(_) => true
    case Float(repr) => !NonFinite(repr)
    case Str(_) => true
    case Array(items) => forall i :: 0 <= i < |items| ==> LiteralSafe(items[i])
    case Object(fields) => forall k :: k in fields ==> LiteralSafe(fields[k])
  }

  /** Every value of the document survives the trip through Python literal syntax. */
  predicate DocLiteralSafe(d: Doc) {
    forall k :: k in d ==> LiteralSafe(d[k])
  }

  /** Inserting into a literal-safe document keeps it literal-safe exactly
      when the inserted value is. */
  lemma InsertLiteralSafe(d: Doc, key: string, value: Value)
    requires DocLiteralSafe(d)
    ensures DocLiteralSafe(Insert(d, key, value)) <==> LiteralSafe(value)
  {
  }

  /** Repeating an insert changes nothing. */
  lemma InsertIdempotent(d: Doc, key: string, value: Value)
    ensures Insert(Insert(d, key, value), key, value) == Insert(d, key, value)
  {
  }

  /** Inserts on different keys commute, so every earlier key survives later inserts. */
  lemma InsertCommutes(d: Doc, k1: string, v1: Value, k2: string, v2: Value)
    requires k1 != k2
    ensures Insert(Insert(d, k1, v1), k2, v2) == Insert(Insert(d, k2, v2), k1, v1)
  {
  }

  /** After writing the lock flag, the document reads as locked exactly when the flag written was true. */
  lemma LockFlagRoundTrip(d: Doc, locked: bool)
    ensures IsLocked(Insert(d, LockedKey, Bool(locked))) <==> locked
  {
  }
}
