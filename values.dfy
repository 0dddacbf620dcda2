/**
 * The configuration values the core walks (what `json.loads` yields), Python's
 * dictionaries as insertion-ordered entry lists, the exception kinds the core
 * raises, and `str()` of a value.
 */
module PyValues {
  import opened Wrappers
  import opened PyText

  /** A JSON-shaped Python value; floats are not modelled. */
  datatype Value =
    | VNone
    | VBool(b: bool)
    | VInt(i: int)
    | VStr(s: string)
    | VList(items: seq<Value>)
    | VMap(entries: seq<Entry>)

  /** One `key: value` item of a dictionary. */
  datatype Entry = Entry(key: string, val: Value)

  /** A dictionary in insertion order. Python dictionaries hold each key once. */
  type Dict = seq<Entry>

  /** Why a `ValueError` was raised. */
  datatype Reason =
    | InvalidCidr          // the VPC CIDR did not parse
    | NonPositiveSubnets   // `vpc_subnets <= 0`
    | InvalidVlanSpec      // `int()` or the unpacking of `a-b` rejected the VLAN spec
    | PrefixExhausted      // the required prefix is longer than 32
    | AddressOutOfRange    // address arithmetic left 0.0.0.0 - 255.255.255.255

  /** The Python exceptions the core raises or catches. */
  datatype Failure =
    | KeyError(key: string)
    | TypeError
    | AttributeError
    | ValueError(reason: Reason)
    | ZeroDivisionError

  predicate IsScalar(v: Value) { !v.VList? && !v.VMap? }

  predicate DistinctKeys(d: Dict) {
    forall i, j :: 0 <= i < j < |d| ==> d[i].key != d[j].key
  }

  function Keys(d: Dict): set<string> {
    set i | 0 <= i < |d| :: d[i].key
  }

  /** The keys of a dictionary are those before its last entry and the last one. */
  lemma KeysSnoc(d: Dict)
    requires d != []
    ensures Keys(d) == Keys(d[..|d| - 1]) + {d[|d| - 1].key}
  {
  }

  /** `d.get(k)`: the value of the last entry with key `k`. */
  function Get(d: Dict, k: string): (r: Option<Value>)
    ensures r.Some? <==> k in Keys(d)
    ensures r.Some? ==> Entry(k, r.value) in d
  {
    if d == [] then None
    else if d[|d| - 1].key == k then Some(d[|d| - 1].val)
    else
      assert Keys(d) == Keys(d[..|d| - 1]) + {d[|d| - 1].key};
      Get(d[..|d| - 1], k)
  }

  /** `d.get(k, default)`. */
  function GetOr(d: Dict, k: string, default: Value): Value {
    match Get(d, k)
    case Some(v) => v
    case None => default
  }

  /** The entry of `d` with key `k` replaced, for `Put`. */
  function Replace(d: Dict, k: string, v: Value): (r: Dict)
    ensures |r| == |d|
    ensures forall i :: 0 <= i < |d| ==> r[i].key == d[i].key
  {
    seq(|d|, i requires 0 <= i < |d| => if d[i].key == k then Entry(k, v) else d[i])
  }

  lemma {:induction false} GetReplace(d: Dict, k: string, v: Value, k': string)
    requires k in Keys(d)
    ensures Get(Replace(d, k, v), k') == if k' == k then Some(v) else Get(d, k')
    decreases |d|
  {
    var r := Replace(d, k, v);
    var n := |d| - 1;
    assert r[..n] == if k in Keys(d[..n]) then Replace(d[..n], k, v) else d[..n];
    if d[n].key != k {
      assert Keys(d) == Keys(d[..n]) + {d[n].key};
      GetReplace(d[..n], k, v, k');
    } else if d[n].key != k' && k in Keys(d[..n]) {
      GetReplace(d[..n], k, v, k');
    }
  }

  /** `d[k] = v`: an existing key keeps its place, a new key goes last. */
  function Put(d: Dict, k: string, v: Value): Dict {
    if k in Keys(d) then Replace(d, k, v) else d + [Entry(k, v)]
  }

  /** After `d[k] = v`, `d[k]` is `v` ... */
  lemma GetPut(d: Dict, k: string, v: Value)
    ensures Get(Put(d, k, v), k) == Some(v)
  {
    if k in Keys(d) {
      GetReplace(d, k, v, k);
    } else {
      var r := d + [Entry(k, v)];
      assert r[|r| - 1] == Entry(k, v);
    }
  }

  /** ... and every other key keeps its value. */
  lemma GetPutOther(d: Dict, k: string, v: Value, k': string)
    requires k' != k
    ensures Get(Put(d, k, v), k') == Get(d, k')
  {
    if k in Keys(d) {
      GetReplace(d, k, v, k');
    } else {
      var r := d + [Entry(k, v)];
      assert r[..|d|] == d;
    }
  }

  /** `d[k] = v` adds `k` to the keys and no other. */
  lemma KeysPut(d: Dict, k: string, v: Value)
    ensures Keys(Put(d, k, v)) == Keys(d) + {k}
  {
    if k in Keys(d) {
      assert Keys(Replace(d, k, v)) == Keys(d);
    } else {
      var r := d + [Entry(k, v)];
      assert r[..|d|] == d;
      KeysSnoc(r);
    }
  }

  /** `d[k] = v` keeps the keys of a dictionary distinct. */
  lemma DistinctPut(d: Dict, k: string, v: Value)
    requires DistinctKeys(d)
    ensures DistinctKeys(Put(d, k, v))
  {
    if k !in Keys(d) {
      var r := d + [Entry(k, v)];
      forall i, j | 0 <= i < j < |r| ensures r[i].key != r[j].key {
        if j == |d| {
          assert r[i] == d[i];
        }
      }
    }
  }

  /** `d.update(e)`: the entries of `e` put into `d` in order. */
  function PutAll(d: Dict, e: Dict): Dict
    decreases |e|
  {
    if e == [] then d
    else Put(PutAll(d, e[..|e| - 1]), e[|e| - 1].key, e[|e| - 1].val)
  }

  /** After `d.update(e)` a key of `e` has its value in `e`, any other key its value in `d`. */
  lemma {:induction false} GetPutAll(d: Dict, e: Dict, k: string)
    ensures Get(PutAll(d, e), k) == if k in Keys(e) then Get(e, k) else Get(d, k)
    decreases |e|
  {
    if e != [] {
      var n := |e| - 1;
      GetPutAll(d, e[..n], k);
      KeysSnoc(e);
      if e[n].key == k {
        GetPut(PutAll(d, e[..n]), k, e[n].val);
      } else {
        GetPutOther(PutAll(d, e[..n]), e[n].key, e[n].val, k);
      }
    }
  }

  /** `int(v)` where Python code uses `v` as a number; `bool` is an `int` in Python. */
  function PyInt(v: Value): Option<int> {
    match v
    case VInt(i) => Some(i)
    case VBool(b) => Some(if b then 1 else 0)
    case _ => None
  }

  /** What `for x in v` visits: list items, dictionary keys, string characters. */
  function Iterate(v: Value): Option<seq<Value>> {
    match v
    case VList(xs) => Some(xs)
    case VMap(es) => Some(seq(|es|, i requires 0 <= i < |es| => VStr(es[i].key)))
    case VStr(s) => Some(seq(|s|, i requires 0 <= i < |s| => VStr([s[i]])))
    case _ => None
  }

  /** `str(v)`. */
  function Str(v: Value): string {
    if v.VStr? then v.s else Repr(v)
  }

  /** `repr(v)`. */
  function Repr(v: Value): string {
    match v
    case VNone => "None"
    case VBool(b) => if b then "True" else "False"
    case VInt(i) => IntToString(i)
    case VStr(s) => ReprString(s)
    case VList(xs) => "[" + Join(seq(|xs|, i requires 0 <= i < |xs| => Repr(xs[i])), ", ") + "]"
    case VMap(es) =>
      "{" + Join(seq(|es|, i requires 0 <= i < |es| => ReprString(es[i].key) + ": " + Repr(es[i].val)), ", ") + "}"
  }

  /**
   * `repr(s)` of a string: quoted with `'`, or with `"` when the string holds
   * a `'` and no `"`; the body is the string with its characters escaped.
   */
  function ReprString(s: string): (r: string)
    ensures |r| >= 2
    ensures var q := r[0];
      && r[|r| - 1] == q
      && (q == '"' <==> '\'' in s && '"' !in s)
      && (q != '"' ==> q == '\'')
  {
    var q := if '\'' in s && '"' !in s then '"' else '\'';
    [q] + Escape(s, q) + [q]
  }

  function HexDigit(d: nat): char
    requires d < 16
  {
    if d < 10 then ('0' as int + d) as char else ('a' as int + d - 10) as char
  }

  /**
   * How `repr` writes one character inside quotes `q`: the quote and `\`
   * behind a backslash, tab, newline and carriage return by name, the other
   * ASCII control characters as `\xhh`, anything else as itself.
   */
  function EscapeChar(c: char, q: char): string {
    if c == q || c == '\\' then ['\\', c]
    else if c == '\t' then "\\t"
    else if c == '\n' then "\\n"
    else if c == '\r' then "\\r"
    else if c < ' ' || c as int == 0x7f then "\\x" + [HexDigit(c as int / 16), HexDigit(c as int % 16)]
    else [c]
  }

  function Escape(s: string, q: char): string {
    if s == [] then "" else EscapeChar(s[0], q) + Escape(s[1..], q)
  }

  /** A printable character other than the quote and `\` needs no escape. */
  predicate Plain(c: char, q: char) {
    ' ' <= c && c as int != 0x7f && c != q && c != '\\'
  }

  /** A string of characters that need no escape is its own escaped body. */
  lemma {:induction false} EscapeOfPlain(s: string, q: char)
    requires forall i :: 0 <= i < |s| ==> Plain(s[i], q)
    ensures Escape(s, q) == s
    decreases |s|
  {
    if s != [] {
      EscapeOfPlain(s[1..], q);
      assert [s[0]] + s[1..] == s;
    }
  }

  /** Escaping writes the quote character only behind a backslash. */
  lemma {:induction false} EscapeQuoted(s: string, q: char)
    requires q == '\'' || q == '"'
    ensures forall i :: 0 <= i < |Escape(s, q)| && Escape(s, q)[i] == q ==> 0 < i && Escape(s, q)[i - 1] == '\\'
    decreases |s|
  {
    if s != [] {
      EscapeQuoted(s[1..], q);
      var e := EscapeChar(s[0], q);
      var t := Escape(s[1..], q);
      forall i | 0 <= i < |e + t| && (e + t)[i] == q ensures 0 < i && (e + t)[i - 1] == '\\' {
        if i >= |e| {
          assert t[i - |e|] == q;
          assert i - |e| != 0;
          assert (e + t)[i - 1] == t[i - |e| - 1];
        } else {
          assert e[i] == q;
        }
      }
    }
  }

  /** A string with no quote, backslash or control character is shown in `'`s unchanged. */
  lemma ReprStringOfPlain(s: string)
    requires forall i :: 0 <= i < |s| ==> Plain(s[i], '\'')
    ensures ReprString(s) == "'" + s + "'"
  {
    EscapeOfPlain(s, '\'');
  }

  /** A string holding `'` but no `"` switches to double quotes and keeps the `'`. */
  lemma ReprStringOfApostrophe(s: string)
    requires '\'' in s && '"' !in s
    requires forall i :: 0 <= i < |s| ==> Plain(s[i], '"')
    ensures ReprString(s) == "\"" + s + "\""
  {
    EscapeOfPlain(s, '"');
  }
}
