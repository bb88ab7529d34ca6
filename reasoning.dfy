/**
 * What the Prolog engine hands back to the service, Python truthiness of it,
 * and `json.dumps` (default settings: `ensure_ascii`, `", "` and `": "`
 * separators) of the value passed on to the explanation prompt.
 */
module Reasoning {
  import opened PyStr

  /** One element of a result list: a dict of variable bindings, or a bare string such as `'No'`. */
  datatype Item = Binding(pairs: seq<(string, string)>) | Word(word: string)

  /** A raw engine result: `True`, `False`, `None` or a list. */
  datatype Outcome = TrueR | FalseR | NoneR | List(items: seq<Item>)

  /** What the engine does with a query: answers it, exceeds the time limit, or raises. */
  datatype EngineReply = Answered(outcome: Outcome) | TimedOut | Crashed(message: string)

  /** `bool(o)` */
  predicate Truthy(o: Outcome) {
    o.TrueR? || (o.List? && o.items != [])
  }

  /** The list `['No']` a failed ground query produces. */
  const ListNo: Outcome := List([Word("No")])

  /** The value handed to `json.dumps`: a fixed string, or the raw result itself. */
  datatype Shaped = Token(text: string) | Raw(outcome: Outcome)

  // ---------------------------------------------------------------------------
  // json.dumps
  // ---------------------------------------------------------------------------

  predicate Printable(s: string) { forall i :: 0 <= i < |s| ==> ' ' <= s[i] <= '~' }

  function HexDigit(d: nat): (c: char)
    requires d < 16
    ensures ' ' <= c <= '~'
  {
    "0123456789abcdef"[d]
  }

  /** `'{0:04x}'.format(n)` */
  function Hex4(n: nat): (r: string)
    requires n < 0x10000
    ensures |r| == 4 && Printable(r)
  {
    [HexDigit(n / 0x1000), HexDigit(n / 0x100 % 16), HexDigit(n / 16 % 16), HexDigit(n % 16)]
  }

  /** How `json.dumps` writes one character of a string with `ensure_ascii`. */
  function EscapeChar(c: char): (r: string)
    ensures r != [] && Printable(r)
    ensures r == [c] <==> (' ' <= c <= '~' && c != '"' && c != '\\')
  {
    if c == '\\' then "\\\\"
    else if c == '"' then "\\\""
    else if ' ' <= c <= '~' then [c]
    else if c == '\n' then "\\n"
    else if c == '\r' then "\\r"
    else if c == '\t' then "\\t"
    else if c == '\U{8}' then "\\b"
    else if c == '\U{c}' then "\\f"
    else if (c as int) < 0x10000 then "\\u" + Hex4(c as int)
    else
      var n := c as int - 0x10000;
      "\\u" + Hex4(0xd800 + n / 0x400) + "\\u" + Hex4(0xdc00 + n % 0x400)
  }

  function Escape(s: string): (r: string)
    ensures Printable(r)
    ensures |r| >= |s|
  {
    if s == [] then "" else EscapeChar(s[0]) + Escape(s[1..])
  }

  /** `json.dumps(s)` for a string. */
  function JsonString(s: string): (r: string)
    ensures Printable(r)
    ensures |r| >= 2 && r[0] == '"' && r[|r| - 1] == '"'
  {
    "\"" + Escape(s) + "\""
  }

  function JsonPairs(pairs: seq<(string, string)>): (r: seq<string>)
    ensures |r| == |pairs|
    ensures forall i :: 0 <= i < |r| ==> Printable(r[i])
  {
    if pairs == [] then []
    else [JsonString(pairs[0].0) + ": " + JsonString(pairs[0].1)] + JsonPairs(pairs[1..])
  }

  function JsonItem(x: Item): (r: string)
    ensures Printable(r)
  {
    match x
    case Word(w) => JsonString(w)
    case Binding(pairs) =>
      JoinPrintable(JsonPairs(pairs), ", ");
      "{" + Join(JsonPairs(pairs), ", ") + "}"
  }

  function JsonItems(xs: seq<Item>): (r: seq<string>)
    ensures |r| == |xs|
    ensures forall i :: 0 <= i < |r| ==> Printable(r[i])
  {
    if xs == [] then [] else [JsonItem(xs[0])] + JsonItems(xs[1..])
  }

  /** `json.dumps(o)` for an engine result. */
  function JsonOutcome(o: Outcome): (r: string)
    ensures Printable(r)
  {
    match o
    case TrueR => "true"
    case FalseR => "false"
    case NoneR => "null"
    case List(items) =>
      JoinPrintable(JsonItems(items), ", ");
      "[" + Join(JsonItems(items), ", ") + "]"
  }

  /** `json.dumps(shaped)` */
  function Json(v: Shaped): string {
    match v
    case Token(t) => JsonString(t)
    case Raw(o) => JsonOutcome(o)
  }

  /** The encoding is always one line of printable ASCII, which is how it sits inside the explanation prompt. */
  lemma JsonOneLine(v: Shaped)
    ensures Printable(Json(v)) && NoLineBreak(Json(v))
  {
    var r := Json(v);
    forall i | 0 <= i < |r| ensures !IsLineBreak(r[i]) {
      assert ' ' <= r[i] <= '~';
    }
  }

  lemma {:induction false} JoinPrintable(xs: seq<string>, sep: string)
    requires Printable(sep)
    requires forall i :: 0 <= i < |xs| ==> Printable(xs[i])
    ensures Printable(Join(xs, sep))
  {
    if |xs| > 1 {
      JoinPrintable(xs[1..], sep);
    }
  }

  /** A plain ASCII word is written as itself between double quotes. */
  lemma {:induction false} JsonPlainWord(s: string)
    requires forall i :: 0 <= i < |s| ==> (IsIdentChar(s[i]) || s[i] == ' ')
    ensures JsonString(s) == "\"" + s + "\""
  {
    EscapePlain(s);
  }

  lemma {:induction false} EscapePlain(s: string)
    requires forall i :: 0 <= i < |s| ==> (IsIdentChar(s[i]) || s[i] == ' ')
    ensures Escape(s) == s
  {
    if s != [] {
      EscapePlain(s[1..]);
      assert EscapeChar(s[0]) == [s[0]];
      assert s == [s[0]] + s[1..];
    }
  }
}
