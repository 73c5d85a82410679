/** Python values as the model layer sees them: attribute and field values,
    their truthiness and their `str()`, the store's ObjectId identifiers, and
    the errors the layer can surface. */
module Values {

  datatype Option<T> = None | Some(value: T)

  /** The failures the model layer surfaces, in place of Python exceptions. */
  datatype Error =
    | CollectionInvalid      // the model class declares no `__collection__`
    | InvalidId              // a string that is not 24 hexadecimal digits given to ObjectId
    | IdTypeError            // a value of a type ObjectId does not accept
    | KeyError(key: string)  // `dict.pop` of a missing key
    | SaveFailed             // the generic failure `save` raises for an invalid identifier
    | StageRejected          // the server refuses a negative `$skip` or a non-positive `$limit`

  datatype Result<T> = Ok(value: T) | Err(error: Error)

  /** The 24 lower-case hexadecimal digits `str()` gives for an ObjectId. */
  predicate IsCanonicalHex(s: string) {
    |s| == 24 && forall i :: 0 <= i < |s| ==> '0' <= s[i] <= '9' || 'a' <= s[i] <= 'f'
  }

  datatype ObjectIdRep = ObjectIdRep(hex: string)

  /** The store's identifier type; its internals are opaque, only its
      string form matters to the model layer. */
  type ObjectId = o: ObjectIdRep | IsCanonicalHex(o.hex)
    witness ObjectIdRep("000000000000000000000000")

  /** A dynamically typed field value. */
  datatype Value =
    | VNone
    | VBool(b: bool)
    | VInt(i: int)
    | VStr(s: string)
    | VOid(oid: ObjectId)
    | VDoc(fields: map<string, Value>)

  /** A document, a query filter or an attribute dictionary. */
  type Document = map<string, Value>

  /** Python truthiness: None, False, 0, "" and {} are false; an ObjectId is always true. */
  predicate Truthy(v: Value) {
    match v
    case VNone => false
    case VBool(b) => b
    case VInt(i) => i != 0
    case VStr(s) => s != ""
    case VOid(_) => true
    case VDoc(m) => m != map[]
  }

  /** `d.get(k)`: the value under `k`, or None when `k` is absent. */
  function Get(d: Document, k: string): (v: Value)
    ensures k !in d ==> !Truthy(v)
  {
    if k in d then d[k] else VNone
  }

  function DigitChar(n: nat): (c: char)
    requires n < 10
    ensures '0' <= c <= '9'
  {
    "0123456789"[n]
  }

  /** Decimal digits of a natural number, most significant first. */
  function NatStr(n: nat): (r: string)
    ensures r != []
    ensures forall i :: 0 <= i < |r| ==> '0' <= r[i] <= '9'
    decreases n
  {
    if n < 10 then [DigitChar(n)] else NatStr(n / 10) + [DigitChar(n % 10)]
  }

  function IntStr(i: int): (r: string)
    ensures r != []
  {
    if i < 0 then "-" + NatStr(-i) else NatStr(i)
  }

  /** Python's `str()` of a value. */
  function Str(v: Value): (r: string)
    ensures Truthy(v) ==> r != ""
    ensures v.VStr? ==> r == v.s
    ensures v.VOid? ==> IsCanonicalHex(r)
  {
    match v
    case VNone => "None"
    case VBool(b) => if b then "True" else "False"
    case VInt(i) => IntStr(i)
    case VStr(s) => s
    case VOid(o) => o.hex
    case VDoc(m) => if m == map[] then "{}" else "{...}"
  }

  predicate IsHexDigit(c: char) {
    '0' <= c <= '9' || 'a' <= c <= 'f' || 'A' <= c <= 'F'
  }

  function LowerHexDigit(c: char): (d: char)
    ensures IsHexDigit(c) ==> '0' <= d <= '9' || 'a' <= d <= 'f'
    ensures ('0' <= c <= '9' || 'a' <= c <= 'f') ==> d == c
  {
    if 'A' <= c <= 'F' then (c as int - 'A' as int + 'a' as int) as char else c
  }

  /** Upper-case hexadecimal digits folded to lower case, everything else kept. */
  function Lower(s: string): (r: string)
    ensures |r| == |s|
    ensures forall i :: 0 <= i < |s| ==> r[i] == LowerHexDigit(s[i])
  {
    if s == [] then [] else [LowerHexDigit(s[0])] + Lower(s[1..])
  }

  /** The strings `ObjectId(s)` accepts: exactly 24 hexadecimal digits of either case. */
  predicate IsObjectIdString(s: string) {
    |s| == 24 && forall i :: 0 <= i < |s| ==> IsHexDigit(s[i])
  }

  /** `ObjectId(s)` for a string `s`: None where it raises InvalidId. */
  function ParseObjectId(s: string): (r: Option<ObjectId>)
    ensures r.Some? <==> IsObjectIdString(s)
    ensures r.Some? ==> r.value.hex == Lower(s)
  {
    if IsObjectIdString(s) then
      var h := Lower(s);
      assert IsCanonicalHex(h);
      var o: ObjectId := ObjectIdRep(h);
      Some(o)
    else
      None
  }

  /** `ObjectId(v)` as the mixin calls it: an ObjectId is kept, None makes the
      driver generate a new identifier, `newId`, a string is parsed, and any
      other type is refused. */
  function ToObjectId(v: Value, newId: ObjectId): (r: Result<ObjectId>)
    ensures r.Ok? <==> v.VOid? || v.VNone? || (v.VStr? && IsObjectIdString(v.s))
    ensures r.Ok? && v.VOid? ==> r.value == v.oid
    ensures r.Ok? && v.VNone? ==> r.value == newId
    ensures r.Ok? && v.VStr? ==> r.value.hex == Lower(v.s)
    ensures r.Err? ==> r.error == (if v.VStr? then InvalidId else IdTypeError)
  {
    match v
    case VOid(o) => Ok(o)
    case VNone => Ok(newId)
    case VStr(s) => if ParseObjectId(s).Some? then Ok(ParseObjectId(s).value) else Err(InvalidId)
    case _ => Err(IdTypeError)
  }

  /** Rendering an ObjectId with `str()` and parsing it back gives the same identifier. */
  lemma ObjectIdRoundTrip(o: ObjectId)
    ensures ParseObjectId(Str(VOid(o))) == Some(o)
    ensures ToObjectId(VStr(Str(VOid(o))), o) == Ok(o)
  {
    var h := o.hex;
    assert IsObjectIdString(h);
    assert Lower(h) == h;
  }

  /** Parsing is insensitive to re-rendering: a parsed identifier's string parses to itself. */
  lemma ParseRenderParse(s: string)
    requires IsObjectIdString(s)
    ensures ParseObjectId(Str(VOid(ParseObjectId(s).value))) == ParseObjectId(s)
  {
    ObjectIdRoundTrip(ParseObjectId(s).value);
  }
}
