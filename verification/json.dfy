/** The part of Jackson's tree model (JsonNode) the web app navigates.
    Parsing text into a tree is done by the library; here a body is given
    together with what the parser made of it. */
module Json {
  import opened Support

  datatype Json =
    | JNull
    | JBool(b: bool)
    | JNum(lexeme: string, value: real)   // a number: its text and its value
    | JStr(s: string)
    | JArr(items: seq<Json>)
    | JObj(fields: map<string, Json>)

  /** What `ObjectMapper.readTree` returns for a text: a tree, or a parse failure and its message. */
  datatype Parsed = Node(root: Json) | Malformed(message: string)

  /** A response body: the raw text and its parse. */
  datatype Body = Body(text: string, parsed: Parsed)

  /** `node.has(name)`: true only for an object that has the field, even when its value is JSON null. */
  predicate Has(j: Json, name: string)
  {
    j.JObj? && name in j.fields
  }

  /** `node.get(name)`: the field of an object, or Java null. */
  function Get(j: Json, name: string): (r: Option<Json>)
    ensures r.Some? <==> Has(j, name)
  {
    if Has(j, name) then Some(j.fields[name]) else None
  }

  /** `node.isArray() && node.size() > 0` */
  predicate IsNonEmptyArray(j: Json)
  {
    j.JArr? && |j.items| > 0
  }

  /** `node.asText()`: a string's value, a number's or boolean's text, "null" for JSON null,
      and "" for arrays and objects. */
  function AsText(j: Json): string
  {
    match j
    case JNull => "null"
    case JBool(b) => if b then "true" else "false"
    case JNum(lexeme, _) => lexeme
    case JStr(s) => s
    case JArr(_) => ""
    case JObj(_) => ""
  }

  /** `node.asDouble()`: a number's value, 1 or 0 for a boolean, 0 otherwise. */
  function AsReal(j: Json): real
  {
    match j
    case JNum(_, v) => v
    case JBool(b) => if b then 1.0 else 0.0
    case _ => 0.0
  }

  /** Whether Jackson reads a number token as an integer (IntNode, LongNode or BigIntegerNode):
      the token has neither a fraction nor an exponent. Any other number becomes a DoubleNode. */
  predicate IsIntegral(lexeme: string)
  {
    forall i :: 0 <= i < |lexeme| ==> lexeme[i] != '.' && lexeme[i] != 'e' && lexeme[i] != 'E'
  }

  /** The bounds of a Java `int`. */
  const IntMin: int := -0x8000_0000
  const IntMax: int := 0x7FFF_FFFF

  /** The low 32 bits of an integer, read as a Java `int`: the `(int)` cast of a long and
      `BigInteger.intValue()`. */
  function WrapToInt(i: int): (r: int)
    ensures IntMin <= r <= IntMax
    ensures (i - r) % 0x1_0000_0000 == 0
    ensures IntMin <= i <= IntMax ==> r == i
  {
    var low := i % 0x1_0000_0000;
    if low <= IntMax then low else low - 0x1_0000_0000
  }

  /** Truncation toward zero of an exact value. */
  function TruncateToInt(v: real): (i: int)
    ensures v >= 0.0 ==> i as real <= v < i as real + 1.0
    ensures v < 0.0 ==> i as real - 1.0 < v <= i as real
  {
    if v >= 0.0 then v.Floor else -((-v).Floor)
  }

  /** Java's `(int)` conversion of a double: truncation toward zero, saturating at the
      bounds of `int`. */
  function DoubleToInt(v: real): (i: int)
    ensures IntMin <= i <= IntMax
    ensures IntMin as real <= v < (IntMax + 1) as real ==> i == TruncateToInt(v)
    ensures v >= (IntMax + 1) as real ==> i == IntMax
    ensures v < IntMin as real ==> i == IntMin
  {
    var t := TruncateToInt(v);
    if t > IntMax then IntMax else if t < IntMin then IntMin else t
  }

  /** `node.asInt()`: an integer token's low 32 bits, a double's saturating truncation,
      1 or 0 for a boolean, 0 otherwise. */
  function AsInt(j: Json): (r: int)
    ensures IntMin <= r <= IntMax
  {
    match j
    case JNum(lexeme, v) => if IsIntegral(lexeme) then WrapToInt(v.Floor) else DoubleToInt(v)
    case JBool(b) => if b then 1 else 0
    case _ => 0
  }

  /** An integer too wide for `int` wraps: 3000000000 reads as -1294967296. */
  lemma AsIntWrapsWideInteger()
    ensures AsInt(JNum("3000000000", 3000000000.0)) == -1294967296
  {
  }

  /** A double beyond the `int` range saturates: 1e10 reads as 2147483647. */
  lemma AsIntSaturatesDouble()
    ensures AsInt(JNum("1e10", 10000000000.0)) == IntMax
  {
    assert "1e10"[1] == 'e';
  }

  /** A Java `Integer` or `Long` as Jackson writes it: its decimal text, read back by
      `asInt()` as its low 32 bits. */
  function IntNode(i: int): (j: Json)
    ensures j.JNum? && j.value == i as real && IsIntegral(j.lexeme)
    ensures AsInt(j) == WrapToInt(i)
    ensures IntMin <= i <= IntMax ==> AsInt(j) == i
  {
    JNum(IntToString(i), i as real)
  }

  /** `node.get(0).get("url").asText()` when the node is a non-empty array whose
      first element has a `url` field. */
  function FirstUrl(results: Json): (r: Option<string>)
    ensures r.Some? <==> IsNonEmptyArray(results) && Has(results.items[0], "url")
  {
    if IsNonEmptyArray(results) && Has(results.items[0], "url")
    then Some(AsText(results.items[0].fields["url"]))
    else None
  }

  /** `output.has("results") && results.isArray() && results.size() > 0 &&
      results.get(0).has("url")`, and then that url's text. */
  function ResultsUrl(output: Json): (r: Option<string>)
    ensures r.Some? ==> Has(output, "results") && FirstUrl(output.fields["results"]) == r
    ensures r.None? ==> !Has(output, "results") || FirstUrl(output.fields["results"]).None?
  {
    if Has(output, "results") then FirstUrl(output.fields["results"]) else None
  }
}
