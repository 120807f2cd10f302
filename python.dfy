/**
 * The part of Python's semantics that the bot's decision logic relies on, over
 * the values `response.json()` produces: the `in` operator, subscripting,
 * dictionary lookup, `all()`, and `str()` / `repr()` as used by an f-string.
 */
module Python {
  import opened Wrappers

  /** The exception classes the bot's code raises or runs into.
      `TelegramError` stands for any error the messaging library raises. */
  datatype Exception = TypeError | KeyError | TelegramError

  /** A decoded JSON document as Python holds it: None, bool, int, str, list,
      or dict with str keys. */
  datatype Value =
    | Null
    | Bool(b: bool)
    | Int(i: int)
    | Str(s: string)
    | List(items: seq<Value>)
    | Object(fields: map<string, Value>)

  /** Among these values only lists and dicts are unhashable. */
  predicate Hashable(v: Value) {
    !(v.List? || v.Object?)
  }

  /** `bool(v)`: None, False, 0 and empty containers are falsy. */
  predicate Truthy(v: Value) {
    match v
    case Null => false
    case Bool(b) => b
    case Int(i) => i != 0
    case Str(s) => s != []
    case List(items) => items != []
    case Object(m) => m != map[]
  }

  /** `needle in s` for two strs: `needle` occurs as a contiguous run of `s`. */
  predicate IsSubstring(needle: string, s: string)
    decreases |s|
  {
    needle <= s || (s != [] && IsSubstring(needle, s[1..]))
  }

  /** `key in container` for a str `key`: a substring test on a str, a
      membership test on a list, a key test on a dict; the other values are
      not iterable and raise TypeError. */
  function Contains(container: Value, key: string): Result<bool, Exception> {
    match container
    case Str(s) => Ok(IsSubstring(key, s))
    case List(items) => Ok(Str(key) in items)
    case Object(m) => Ok(key in m)
    case _ => Err(TypeError)
  }

  /** `container[key]` for a str `key`: list and str indices must be
      integers and the scalars are not subscriptable, so only a dict answers. */
  function GetItem(container: Value, key: string): Result<Value, Exception> {
    match container
    case Object(m) => if key in m then Ok(m[key]) else Err(KeyError)
    case _ => Err(TypeError)
  }

  /** `table[key]` for a dict whose keys are all str: an unhashable key raises
      TypeError, any other key that is not one of the table's strs KeyError. */
  function Lookup<T>(table: map<string, T>, key: Value): Result<T, Exception> {
    if !Hashable(key) then Err(TypeError)
    else if key.Str? && key.s in table then Ok(table[key.s])
    else Err(KeyError)
  }

  /** `all(iterable)`: iterating a str yields its one-character strs, which
      are all truthy, so on a str it never raises and is always True. */
  function All(iterable: Value): (r: Result<bool, Exception>)
    ensures iterable.Str? ==> r == Ok(true)
    ensures r.Err? <==> !(iterable.Str? || iterable.List? || iterable.Object?)
    ensures r.Err? ==> r.error == TypeError
  {
    match iterable
    case Str(s) => Ok(forall i | 0 <= i < |s| :: Truthy(Str([s[i]])))
    case List(items) => Ok(forall i | 0 <= i < |items| :: Truthy(items[i]))
    case Object(m) => Ok(forall k | k in m :: Truthy(Str(k)))
    case _ => Err(TypeError)
  }

  // ---------------------------------------------------------------------
  // Decimal rendering of ints, with int() as its partner
  // ---------------------------------------------------------------------

  function DigitChar(d: nat): char
    requires d < 10
  {
    "0123456789"[d]
  }

  /** Decimal digits of `n`, most significant first, without leading zeros. */
  function NatToString(n: nat): string
    decreases n
  {
    if n < 10 then [DigitChar(n)] else NatToString(n / 10) + [DigitChar(n % 10)]
  }

  /** `str(i)` for an int. */
  function IntToString(i: int): string {
    if i < 0 then "-" + NatToString(-i) else NatToString(i)
  }

  predicate IsDigits(s: string) {
    s != [] && forall k | 0 <= k < |s| :: '0' <= s[k] <= '9'
  }

  /** The number a run of decimal digits denotes. */
  function DigitsValue(s: string): nat
    decreases |s|
  {
    if s == [] then 0
    else DigitsValue(s[..|s| - 1]) * 10 + (if '0' <= s[|s| - 1] <= '9' then s[|s| - 1] as int - '0' as int else 0)
  }

  /** `int(s)` restricted to an optional minus sign followed by digits. */
  function ParseInt(s: string): Option<int> {
    if s != [] && s[0] == '-' && IsDigits(s[1..]) then Some(0 - DigitsValue(s[1..]))
    else if IsDigits(s) then Some(DigitsValue(s) as int)
    else None
  }

  lemma {:induction false} NatToStringDigits(n: nat)
    ensures IsDigits(NatToString(n)) && DigitsValue(NatToString(n)) == n
    decreases n
  {
    var s := NatToString(n);
    if n >= 10 {
      NatToStringDigits(n / 10);
      assert s[..|s| - 1] == NatToString(n / 10);
    }
  }

  /** `int(str(i)) == i`: the decimal rendering loses nothing. */
  lemma IntToStringRoundTrip(i: int)
    ensures ParseInt(IntToString(i)) == Some(i)
  {
    var s := IntToString(i);
    if i < 0 {
      var d := NatToString(-i);
      NatToStringDigits(-i);
      assert s == "-" + d && s[0] == '-' && s[1..] == d;
    } else {
      NatToStringDigits(i);
      assert s[0] != '-';
    }
  }

  // ---------------------------------------------------------------------
  // repr() of a str, with the reading-back of a string literal as its partner
  // ---------------------------------------------------------------------

  function HexDigit(d: nat): char
    requires d < 16
  {
    "0123456789abcdef"[d]
  }

  predicate IsHex(c: char) {
    '0' <= c <= '9' || 'a' <= c <= 'f'
  }

  function HexValue(c: char): nat
    requires IsHex(c)
  {
    if c <= '9' then c as int - '0' as int else c as int - 'a' as int + 10
  }

  /** The quote repr() chooses: double quotes only when the text holds a
      single quote and no double quote. */
  function QuoteFor(s: string): char {
    if '\'' in s && '"' !in s then '"' else '\''
  }

  predicate IsQuote(q: char) {
    q == '\'' || q == '"'
  }

  /** One character inside a repr() literal delimited by `quote`: the quote
      and the backslash are escaped, tab, newline and carriage return get
      their short escapes, the other ASCII control characters a `\xhh`. */
  function EscapeChar(c: char, quote: char): string {
    if c == quote || c == '\\' then ['\\', c]
    else if c == '\t' then "\\t"
    else if c == '\n' then "\\n"
    else if c == '\r' then "\\r"
    else if c < ' ' || c as int == 0x7F then ['\\', 'x', HexDigit(c as int / 16), HexDigit(c as int % 16)]
    else [c]
  }

  function Escape(s: string, quote: char): string
    decreases |s|
  {
    if s == [] then [] else EscapeChar(s[0], quote) + Escape(s[1..], quote)
  }

  /** `repr(s)` for a str. */
  function QuoteString(s: string): string {
    var q := QuoteFor(s);
    [q] + Escape(s, q) + [q]
  }

  function Prepend(c: char, rest: Option<string>): Option<string> {
    if rest.Some? then Some([c] + rest.value) else None
  }

  /** Reads the body of a string literal delimited by `quote`, undoing the
      escapes repr() writes; None when the body is not well formed. */
  function Unescape(t: string, quote: char): Option<string>
    decreases |t|
  {
    if t == [] then Some([])
    else if t[0] == '\\' then
      if |t| < 2 then None
      else if t[1] == 't' then Prepend('\t', Unescape(t[2..], quote))
      else if t[1] == 'n' then Prepend('\n', Unescape(t[2..], quote))
      else if t[1] == 'r' then Prepend('\r', Unescape(t[2..], quote))
      else if t[1] == '\\' || t[1] == quote then Prepend(t[1], Unescape(t[2..], quote))
      else if t[1] == 'x' && |t| >= 4 && IsHex(t[2]) && IsHex(t[3]) then
        Prepend((HexValue(t[2]) * 16 + HexValue(t[3])) as char, Unescape(t[4..], quote))
      else None
    else if t[0] == quote then None
    else Prepend(t[0], Unescape(t[1..], quote))
  }

  /** Reads a whole string literal, quotes included. */
  function Unquote(r: string): Option<string> {
    if |r| >= 2 && IsQuote(r[0]) && r[|r| - 1] == r[0] then Unescape(r[1..|r| - 1], r[0]) else None
  }

  lemma UnescapeChar(c: char, quote: char, rest: string)
    requires IsQuote(quote)
    ensures Unescape(EscapeChar(c, quote) + rest, quote) == Prepend(c, Unescape(rest, quote))
  {
    var t := EscapeChar(c, quote) + rest;
    if c == quote || c == '\\' {
      assert t[2..] == rest;
    } else if c == '\t' || c == '\n' || c == '\r' {
      assert t[2..] == rest;
    } else if c < ' ' || c as int == 0x7F {
      UnescapeHex(c, quote, rest);
    } else {
      assert t[1..] == rest;
    }
  }

  /** A `\xhh` escape reads back as the control character it encodes. */
  lemma UnescapeHex(c: char, quote: char, rest: string)
    requires IsQuote(quote) && (c < ' ' || c as int == 0x7F)
    ensures Unescape(['\\', 'x', HexDigit(c as int / 16), HexDigit(c as int % 16)] + rest, quote) == Prepend(c, Unescape(rest, quote))
  {
    var n := c as int;
    var t := ['\\', 'x', HexDigit(n / 16), HexDigit(n % 16)] + rest;
    assert t[4..] == rest;
    assert HexValue(HexDigit(n / 16)) == n / 16;
    assert HexValue(HexDigit(n % 16)) == n % 16;
  }

  lemma {:induction false} UnescapeEscape(s: string, quote: char)
    requires IsQuote(quote)
    ensures Unescape(Escape(s, quote), quote) == Some(s)
    decreases |s|
  {
    if s != [] {
      UnescapeEscape(s[1..], quote);
      UnescapeChar(s[0], quote, Escape(s[1..], quote));
      assert [s[0]] + s[1..] == s;
    }
  }

  /** Reading back what repr() writes for a str gives the str again. */
  lemma QuoteStringRoundTrip(s: string)
    ensures Unquote(QuoteString(s)) == Some(s)
  {
    var q := QuoteFor(s);
    var r := QuoteString(s);
    assert r[1..|r| - 1] == Escape(s, q);
    UnescapeEscape(s, q);
  }

  // ---------------------------------------------------------------------
  // Python's ordering of strs, used to lay out the keys of a dict
  // ---------------------------------------------------------------------

  /** `a <= b` on strs: lexicographic by code point, a prefix first. */
  predicate Below(a: string, b: string)
    decreases |a|
  {
    a == [] || (b != [] && (a[0] < b[0] || (a[0] == b[0] && Below(a[1..], b[1..]))))
  }

  lemma {:induction false} BelowReflexive(a: string)
    ensures Below(a, a)
    decreases |a|
  {
    if a != [] {
      BelowReflexive(a[1..]);
    }
  }

  lemma {:induction false} BelowTotal(a: string, b: string)
    ensures Below(a, b) || Below(b, a)
    decreases |a|
  {
    if a != [] && b != [] && a[0] == b[0] {
      BelowTotal(a[1..], b[1..]);
    }
  }

  lemma {:induction false} BelowAntisymmetric(a: string, b: string)
    requires Below(a, b) && Below(b, a)
    ensures a == b
    decreases |a|
  {
    if a != [] {
      BelowAntisymmetric(a[1..], b[1..]);
      assert a == [a[0]] + a[1..] && b == [b[0]] + b[1..];
    }
  }

  lemma {:induction false} BelowTransitive(a: string, b: string, c: string)
    requires Below(a, b) && Below(b, c)
    ensures Below(a, c)
    decreases |a|
  {
    if a != [] && a[0] == b[0] && b[0] == c[0] {
      BelowTransitive(a[1..], b[1..], c[1..]);
    }
  }

  predicate IsLeast(k: string, ks: set<string>) {
    k in ks && forall j | j in ks :: Below(k, j)
  }

  lemma LeastExists(ks: set<string>)
    requires ks != {}
    ensures exists k :: IsLeast(k, ks)
    decreases ks
  {
    var x :| x in ks;
    if ks == {x} {
      BelowReflexive(x);
      assert IsLeast(x, ks);
    } else {
      LeastExists(ks - {x});
      var y :| IsLeast(y, ks - {x});
      BelowTotal(x, y);
      if Below(x, y) {
        forall j | j in ks
          ensures Below(x, j)
        {
          if j == x {
            BelowReflexive(x);
          } else {
            BelowTransitive(x, y, j);
          }
        }
        assert IsLeast(x, ks);
      } else {
        assert IsLeast(y, ks);
      }
    }
  }

  lemma LeastUnique(ks: set<string>)
    ensures forall a, b :: IsLeast(a, ks) && IsLeast(b, ks) ==> a == b
  {
    forall a, b | IsLeast(a, ks) && IsLeast(b, ks)
      ensures a == b
    {
      BelowAntisymmetric(a, b);
    }
  }

  /** The smallest str of a non-empty set. */
  function Least(ks: set<string>): (k: string)
    requires ks != {}
    ensures IsLeast(k, ks)
  {
    LeastExists(ks);
    LeastUnique(ks);
    var k :| IsLeast(k, ks); k
  }

  /** The keys of a dict in ascending order, each once. */
  function SortedKeys(ks: set<string>): (r: seq<string>)
    ensures |r| == |ks|
    ensures forall k :: k in r <==> k in ks
    ensures forall i, j | 0 <= i < j < |r| :: Below(r[i], r[j]) && r[i] != r[j]
    decreases ks
  {
    if ks == {} then []
    else
      var k := Least(ks);
      [k] + SortedKeys(ks - {k})
  }

  // ---------------------------------------------------------------------
  // str() and repr() of decoded values
  // ---------------------------------------------------------------------

  /** `repr(v)`: a list as `[a, b]`, a dict as `{'k': v}` with its keys in
      ascending order, a str quoted and escaped. */
  function Repr(v: Value): string
    decreases v
  {
    match v
    case Null => "None"
    case Bool(b) => if b then "True" else "False"
    case Int(i) => IntToString(i)
    case Str(s) => QuoteString(s)
    case List(items) => "[" + ReprItems(items, v) + "]"
    case Object(m) => "{" + ReprFields(SortedKeys(m.Keys), m, v) + "}"
  }

  function ReprItems(items: seq<Value>, ghost whole: Value): string
    requires forall i | 0 <= i < |items| :: items[i] < whole
    decreases whole, |items|
  {
    if items == [] then ""
    else Repr(items[0]) + (if |items| == 1 then "" else ", " + ReprItems(items[1..], whole))
  }

  function ReprFields(keys: seq<string>, m: map<string, Value>, ghost whole: Value): string
    requires forall i | 0 <= i < |keys| :: keys[i] in m && m[keys[i]] < whole
    decreases whole, |keys|
  {
    if keys == [] then ""
    else
      QuoteString(keys[0]) + ": " + Repr(m[keys[0]])
      + (if |keys| == 1 then "" else ", " + ReprFields(keys[1..], m, whole))
  }

  /** `str(v)`, which an f-string substitutes: a str is itself, every other
      value is its repr(). */
  function ToStr(v: Value): string {
    match v
    case Str(s) => s
    case _ => Repr(v)
  }

  /** What `str()` gives for each kind of value, as an f-string field shows
      it: a str is itself, None and the bools are their names, an int reads
      back as the same int, and a list or dict is bracketed. */
  lemma ToStrShape(v: Value)
    ensures v.Str? ==> ToStr(v) == v.s
    ensures v.Null? ==> ToStr(v) == "None"
    ensures v.Bool? ==> ToStr(v) == if v.b then "True" else "False"
    ensures v.Int? ==> ParseInt(ToStr(v)) == Some(v.i)
    ensures v.List? ==> |ToStr(v)| >= 2 && ToStr(v)[0] == '[' && ToStr(v)[|ToStr(v)| - 1] == ']'
    ensures v.Object? ==> |ToStr(v)| >= 2 && ToStr(v)[0] == '{' && ToStr(v)[|ToStr(v)| - 1] == '}'
  {
    if v.Int? {
      IntToStringRoundTrip(v.i);
    }
  }
}
