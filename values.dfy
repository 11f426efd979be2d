/**
 * JSON-like values as the Python code sees them in Firestore documents,
 * request bodies and replies: `dict.get`, truthiness, iteration and `str()`.
 */
module Values {
  import opened Wrappers

  /** A field value. Nested dictionaries keep insertion order, as Python dicts do. */
  datatype Value =
    | VNone
    | VBool(b: bool)
    | VInt(i: int)
    | VStr(s: string)
    | VList(items: seq<Value>)
    | VDict(entries: seq<(string, Value)>)
    | VServerTimestamp   // the `firestore.SERVER_TIMESTAMP` sentinel

  /** A document: its top-level fields. */
  type Doc = map<string, Value>

  /** `d.get(key, default)` */
  function Get(d: Doc, key: string, default: Value): Value {
    if key in d then d[key] else default
  }

  /** `bool(v)` */
  predicate Truthy(v: Value) {
    match v
    case VNone => false
    case VBool(b) => b
    case VInt(i) => i != 0
    case VStr(s) => s != ""
    case VList(items) => items != []
    case VDict(entries) => entries != []
    case VServerTimestamp => true
  }

  /** `d.get(key, default)` on a nested dictionary (keys of a Python dict are distinct). */
  function DictGet(entries: seq<(string, Value)>, key: string, default: Value): Value {
    if entries == [] then default
    else if entries[0].0 == key then entries[0].1
    else DictGet(entries[1..], key, default)
  }

  /** The lookup finds the first entry carrying the key. */
  lemma {:induction false} DictGetFirst(entries: seq<(string, Value)>, key: string, default: Value, k: nat)
    requires k < |entries| && entries[k].0 == key
    requires forall j :: 0 <= j < k ==> entries[j].0 != key
    ensures DictGet(entries, key, default) == entries[k].1
    decreases k
  {
    if k > 0 {
      DictGetFirst(entries[1..], key, default, k - 1);
    }
  }

  /** `d[key]` on a nested dictionary or a document; None stands for the KeyError. */
  function DictLookup(v: Value, key: string): Option<Value> {
    match v
    case VDict(entries) =>
      if exists k :: 0 <= k < |entries| && entries[k].0 == key
      then Some(DictGet(entries, key, VNone)) else None
    case _ => None
  }

  /** `d[key]` finds the first entry carrying the key. */
  lemma LookupFirst(entries: seq<(string, Value)>, key: string, k: nat)
    requires k < |entries| && entries[k].0 == key
    requires forall j :: 0 <= j < k ==> entries[j].0 != key
    ensures DictLookup(VDict(entries), key) == Some(entries[k].1)
  {
    DictGetFirst(entries, key, VNone, k);
  }

  /** The characters of a string as one-character strings, as `for c in s` yields them. */
  function Chars(s: string): (r: seq<Value>)
    ensures |r| == |s|
    ensures forall k :: 0 <= k < |s| ==> r[k] == VStr([s[k]])
  {
    if s == [] then [] else [VStr([s[0]])] + Chars(s[1..])
  }

  /** The keys of a dictionary in insertion order, as `for k in d` yields them. */
  function Keys(entries: seq<(string, Value)>): (r: seq<Value>)
    ensures |r| == |entries|
    ensures forall k :: 0 <= k < |entries| ==> r[k] == VStr(entries[k].0)
  {
    if entries == [] then [] else [VStr(entries[0].0)] + Keys(entries[1..])
  }

  /** `for x in v`: lists, strings and dictionaries are iterable; None is the TypeError. */
  function Iterate(v: Value): Option<seq<Value>> {
    match v
    case VList(items) => Some(items)
    case VStr(s) => Some(Chars(s))
    case VDict(entries) => Some(Keys(entries))
    case _ => None
  }

  function DigitChar(d: nat): char
    requires d < 10
  {
    "0123456789"[d]
  }

  function NatToString(n: nat): (r: string)
    ensures |r| >= 1
    decreases n
  {
    if n < 10 then [DigitChar(n)] else NatToString(n / 10) + [DigitChar(n % 10)]
  }

  /** `str(v)`: a string is itself; every other value is written as its `repr`. */
  function PyStr(v: Value): string {
    if v.VStr? then v.s else Repr(v)
  }

  /**
   * `repr(v)`: strings quoted and escaped, lists as `[a, b]`, dictionaries as
   * `{'k': v}`, with `, ` between elements, as Python writes them.
   */
  function Repr(v: Value): string
    decreases v, 1
  {
    match v
    case VNone => "None"
    case VBool(b) => if b then "True" else "False"
    case VInt(i) => if i < 0 then "-" + NatToString(-i) else NatToString(i)
    case VStr(s) => StrRepr(s)
    case VList(items) => "[" + ReprItems(items) + "]"
    case VDict(_) => "{" + ReprEntries(v, 0) + "}"
    case VServerTimestamp => "Sentinel: Value used to set a document field to the server timestamp."
  }

  /** The elements of a list, each as its `repr`, separated by `, `. */
  function ReprItems(items: seq<Value>): string
    decreases items
  {
    if items == [] then ""
    else if |items| == 1 then Repr(items[0])
    else Repr(items[0]) + ", " + ReprItems(items[1..])
  }

  /** The entries of dictionary `d` from the `i`-th on, each as `key: value` in `repr` form. */
  function ReprEntries(d: Value, i: nat): string
    requires d.VDict? && i <= |d.entries|
    decreases d, 0, |d.entries| - i
  {
    if i == |d.entries| then ""
    else
      assert d.entries[i] in d.entries;
      var entry := StrRepr(d.entries[i].0) + ": " + Repr(d.entries[i].1);
      if i + 1 == |d.entries| then entry else entry + ", " + ReprEntries(d, i + 1)
  }

  const HexDigits: string := "0123456789abcdef"

  /** The quote `repr` encloses a string in: double only when it holds a single quote and no double quote. */
  function QuoteFor(s: string): char {
    if '\'' in s && '"' !in s then '"' else '\''
  }

  /** Characters `repr` writes as `\xhh`: the C0 and C1 controls, DEL, no-break space and soft hyphen. */
  predicate HexEscaped(c: char) {
    c as int < 32 || 127 <= c as int <= 160 || c as int == 173
  }

  /** One character as `repr` writes it between quotes `q`. */
  function EscapeChar(c: char, q: char): (r: string)
    ensures |r| >= 1
  {
    if c == q || c == '\\' then ['\\', c]
    else if c == '\t' then "\\t"
    else if c == '\n' then "\\n"
    else if c == '\r' then "\\r"
    else if HexEscaped(c) then "\\x" + [HexDigits[c as int / 16], HexDigits[c as int % 16]]
    else [c]
  }

  function EscapeText(s: string, q: char): string {
    if s == [] then [] else EscapeChar(s[0], q) + EscapeText(s[1..], q)
  }

  /** `repr` of a string. */
  function StrRepr(s: string): string {
    var q := QuoteFor(s);
    [q] + EscapeText(s, q) + [q]
  }

  /** The value of a hexadecimal digit as `repr` writes them. */
  function HexValue(c: char): (r: nat)
    ensures r < 16
  {
    if '0' <= c <= '9' then c as int - '0' as int
    else if 'a' <= c <= 'f' then c as int - 'a' as int + 10
    else 0
  }

  /** Reads the text between the quotes of a string's `repr` back into the string. */
  function Unescape(t: string): string
    decreases |t|
  {
    if t == [] then []
    else if t[0] == '\\' && |t| >= 2 then
      if t[1] == 't' then "\t" + Unescape(t[2..])
      else if t[1] == 'n' then "\n" + Unescape(t[2..])
      else if t[1] == 'r' then "\r" + Unescape(t[2..])
      else if t[1] == 'x' && |t| >= 4 then [(16 * HexValue(t[2]) + HexValue(t[3])) as char] + Unescape(t[4..])
      else [t[1]] + Unescape(t[2..])
    else [t[0]] + Unescape(t[1..])
  }

  lemma HexDigitsValue(n: nat)
    requires n < 16
    ensures HexValue(HexDigits[n]) == n
  {
  }

  /** Reading back one escaped character, followed by any text. */
  lemma UnescapeChar(c: char, q: char, rest: string)
    requires q == '\'' || q == '"'
    ensures Unescape(EscapeChar(c, q) + rest) == [c] + Unescape(rest)
  {
    var e := EscapeChar(c, q);
    var t := e + rest;
    if c == q || c == '\\' {
      assert t[0] == '\\' && t[1] == c && t[2..] == rest;
    } else if c == '\t' || c == '\n' || c == '\r' {
      assert t[2..] == rest;
    } else if HexEscaped(c) {
      var n := c as int;
      assert t[0] == '\\' && t[1] == 'x' && t[4..] == rest;
      assert t[2] == HexDigits[n / 16] && t[3] == HexDigits[n % 16];
      HexDigitsValue(n / 16);
      HexDigitsValue(n % 16);
    } else {
      assert t[0] == c && t[1..] == rest;
    }
  }

  /** The escaping `repr` applies to a string's characters is undone by reading them back. */
  lemma {:induction false} UnescapeEscapeText(s: string, q: char)
    requires q == '\'' || q == '"'
    ensures Unescape(EscapeText(s, q)) == s
  {
    if s != [] {
      UnescapeChar(s[0], q, EscapeText(s[1..], q));
      UnescapeEscapeText(s[1..], q);
    }
  }

  /** `repr` of a string is that string between its quotes, escaped so that reading it back gives the string. */
  lemma StrReprRoundTrip(s: string)
    ensures var r := StrRepr(s);
            && |r| >= 2 && r[0] == QuoteFor(s) && r[|r| - 1] == QuoteFor(s)
            && Unescape(r[1..|r| - 1]) == s
  {
    var r := StrRepr(s);
    assert r[1..|r| - 1] == EscapeText(s, QuoteFor(s));
    UnescapeEscapeText(s, QuoteFor(s));
  }

  /** Printable ASCII other than the backslash and the single quote: `repr` writes it unchanged. */
  predicate PlainText(s: string) {
    forall k :: 0 <= k < |s| ==> 32 <= s[k] as int < 127 && s[k] != '\\' && s[k] != '\''
  }

  lemma {:induction false} EscapePlain(s: string)
    requires PlainText(s)
    ensures EscapeText(s, '\'') == s
  {
    if s != [] {
      assert PlainText(s[1..]) by {
        forall k | 0 <= k < |s[1..]| ensures 32 <= s[1..][k] as int < 127 && s[1..][k] != '\\' && s[1..][k] != '\'' {
          assert s[1..][k] == s[k + 1];
        }
      }
      EscapePlain(s[1..]);
      assert s == [s[0]] + s[1..];
    }
  }

  /** A plain string's `repr` is the string between single quotes, alone and as a list's only element. */
  lemma PlainRepr(s: string)
    requires PlainText(s)
    ensures Repr(VStr(s)) == "'" + s + "'"
    ensures Repr(VList([VStr(s)])) == "['" + s + "']"
  {
    EscapePlain(s);
    assert '\'' !in s;
  }
}
