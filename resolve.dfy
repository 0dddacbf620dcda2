/**
 * `PlaceholderProcessor._resolve_placeholders` (scripts/placeholder_processor.py):
 * the `{word}` tokens of a string, found the way `re.findall(r"{(\w+)}", s)`
 * finds them, are replaced one after the other with `str.replace`. A token
 * whose context value is a list is replaced by the element at
 * `index % len(list)`, one with any other value by that value's `str()`, and
 * a token missing from the context is left as it is.
 */
module PlaceholderResolve {
  import opened Wrappers
  import opened PyText
  import opened PyValues
  import opened PlaceholderFlatten

  predicate IsName(s: string) {
    |s| > 0 && forall i :: 0 <= i < |s| ==> IsWordChar(s[i])
  }

  /** The placeholder text `{name}`. */
  function Token(name: string): string {
    "{" + name + "}"
  }

  /** The length of the longest prefix of `s` made of `\w` characters. */
  function WordRun(s: string): (n: nat)
    ensures n <= |s|
    ensures forall i :: 0 <= i < n ==> IsWordChar(s[i])
    ensures n < |s| ==> !IsWordChar(s[n])
  {
    if s != [] && IsWordChar(s[0]) then 1 + WordRun(s[1..]) else 0
  }

  /** `re.findall(r"{(\w+)}", s)`: the names of the tokens, left to right, repeats kept. */
  function FindTokens(s: string): (names: seq<string>)
    ensures forall i :: 0 <= i < |names| ==> IsName(names[i])
    decreases |s|
  {
    if s == [] then []
    else
      var n := WordRun(s[1..]);
      if s[0] == '{' && 0 < n && 1 + n < |s| && s[1 + n] == '}' then
        [s[1..1 + n]] + FindTokens(s[n + 2..])
      else FindTokens(s[1..])
  }

  /** The text a token takes from context value `v` at `index`. */
  function Substitution(v: Value, index: nat): Result<string, Failure> {
    match v
    case VList(xs) => if |xs| == 0 then Err(ZeroDivisionError) else Ok(Str(xs[index % |xs|]))
    case _ => Ok(Str(v))
  }

  /** The loop of `_resolve_placeholders`: each name, in order, replaced in the current text. */
  function ApplyTokens(s: string, names: seq<string>, ctx: Context, index: nat): Result<string, Failure>
    decreases |names|
  {
    if names == [] then Ok(s)
    else if names[0] in ctx then
      match Substitution(ctx[names[0]], index)
      case Err(e) => Err(e)
      case Ok(w) => ApplyTokens(ReplaceAll(s, Token(names[0]), w), names[1..], ctx, index)
    else ApplyTokens(s, names[1..], ctx, index)
  }

  function ResolveText(s: string, ctx: Context, index: nat): Result<string, Failure> {
    ApplyTokens(s, FindTokens(s), ctx, index)
  }

  /** `_resolve_placeholders(value, context, index)`. */
  function Resolve(v: Value, ctx: Context, index: nat): Result<Value, Failure> {
    match v
    case VStr(s) =>
      (match ResolveText(s, ctx, index)
       case Ok(t) => Ok(VStr(t))
       case Err(e) => Err(e))
    case _ => Ok(v)
  }

  /** `_resolve_placeholders` as the source writes it: `value` reassigned per placeholder. */
  method ResolvePlaceholders(value: Value, context: Context, index: nat) returns (r: Result<Value, Failure>)
    ensures r == Resolve(value, context, index)
  {
    if !value.VStr? {
      return Ok(value);
    }
    var text := value.s;
    var placeholders := FindTokens(text);
    var i := 0;
    while i < |placeholders|
      invariant 0 <= i <= |placeholders|
      invariant ApplyTokens(text, placeholders[i..], context, index) == ResolveText(value.s, context, index)
    {
      var placeholder := placeholders[i];
      assert placeholders[i..][1..] == placeholders[i + 1..];
      if placeholder in context {
        var current := context[placeholder];
        if current.VList? {
          if |current.items| == 0 {
            return Err(ZeroDivisionError);
          }
          text := ReplaceAll(text, Token(placeholder), Str(current.items[index % |current.items|]));
        } else {
          text := ReplaceAll(text, Token(placeholder), Str(current));
        }
      }
      i := i + 1;
    }
    r := Ok(VStr(text));
  }

  // ---------------------------------------------------------------------------
  // One token on its own

  lemma {:induction false} WordRunOfName(name: string, rest: string)
    requires forall i :: 0 <= i < |name| ==> IsWordChar(name[i])
    ensures WordRun(name + "}" + rest) == |name|
    decreases |name|
  {
    if name != [] {
      assert (name + "}" + rest)[1..] == name[1..] + "}" + rest;
      WordRunOfName(name[1..], rest);
    }
  }

  /** A token is found by `findall` and the scan resumes right after it. */
  lemma FindTokensOfToken(name: string, rest: string)
    requires IsName(name)
    ensures FindTokens(Token(name) + rest) == [name] + FindTokens(rest)
  {
    var s := Token(name) + rest;
    assert s[1..] == name + "}" + rest;
    WordRunOfName(name, rest);
    assert s[1..1 + |name|] == name;
    assert s[|name| + 2..] == rest;
  }

  /** A lone token is found once, and replacing it leaves only the replacement. */
  lemma SingleToken(name: string, w: string)
    requires IsName(name)
    ensures FindTokens(Token(name)) == [name]
    ensures ReplaceAll(Token(name), Token(name), w) == w
  {
    FindTokensOfToken(name, "");
    assert Token(name) + "" == Token(name);
    var t := Token(name);
    assert t[..|t|] == t && t[|t|..] == "";
    assert ReplaceAll("", t, w) == "";
    assert w + "" == w;
  }

  /** A token replaced by the element of its list at `index % len(list)`. */
  lemma ResolveListToken(name: string, ctx: Context, index: nat)
    requires IsName(name) && name in ctx && ctx[name].VList? && |ctx[name].items| > 0
    ensures ResolveText(Token(name), ctx, index)
      == Ok(Str(ctx[name].items[index % |ctx[name].items|]))
  {
    var w := Str(ctx[name].items[index % |ctx[name].items|]);
    SingleToken(name, w);
    assert [name][1..] == [];
    assert ApplyTokens(Token(name), [name], ctx, index) == ApplyTokens(w, [], ctx, index);
  }

  /** A token with a scalar (or any non-list) context value replaced by its `str()`. */
  lemma ResolveScalarToken(name: string, ctx: Context, index: nat)
    requires IsName(name) && name in ctx && !ctx[name].VList?
    ensures ResolveText(Token(name), ctx, index) == Ok(Str(ctx[name]))
  {
    var w := Str(ctx[name]);
    SingleToken(name, w);
    assert [name][1..] == [];
    assert ApplyTokens(Token(name), [name], ctx, index) == ApplyTokens(w, [], ctx, index);
  }

  /** A token missing from the context is kept verbatim. */
  lemma ResolveMissingToken(name: string, ctx: Context, index: nat)
    requires IsName(name) && name !in ctx
    ensures ResolveText(Token(name), ctx, index) == Ok(Token(name))
  {
    SingleToken(name, "");
    assert [name][1..] == [];
    assert ApplyTokens(Token(name), [name], ctx, index) == ApplyTokens(Token(name), [], ctx, index);
  }

  /** A token whose context list is empty raises, as `index % 0` does. */
  lemma ResolveEmptyListToken(name: string, ctx: Context, index: nat)
    requires IsName(name) && name in ctx && ctx[name] == VList([])
    ensures ResolveText(Token(name), ctx, index) == Err(ZeroDivisionError)
  {
    SingleToken(name, "");
    assert [name][1..] == [];
  }

  // ---------------------------------------------------------------------------
  // A whole template: literal text and tokens

  /** A template string cut into literal text and `{name}` tokens. */
  datatype Piece = Lit(text: string) | Tok(name: string)

  function PieceText(p: Piece): string {
    match p
    case Lit(t) => t
    case Tok(n) => Token(n)
  }

  function Render(ps: seq<Piece>): string {
    if ps == [] then "" else PieceText(ps[0]) + Render(ps[1..])
  }

  /**
   * Every `{` of `t` is followed, inside `t`, by a character that is not
   * `\w`, so no `{` of `t` can open a token whatever text comes after it.
   */
  predicate InertBraces(t: string) {
    forall i :: 0 <= i < |t| && t[i] == '{' ==> i + 1 < |t| && !IsWordChar(t[i + 1])
  }

  /** Literal text opens no token and every token is a `\w+` name. */
  predicate PieceOk(p: Piece) {
    match p
    case Lit(t) => InertBraces(t)
    case Tok(n) => IsName(n)
  }

  predicate WellFormed(ps: seq<Piece>) {
    forall i :: 0 <= i < |ps| ==> PieceOk(ps[i])
  }

  function Names(ps: seq<Piece>): seq<string> {
    if ps == [] then []
    else (if ps[0].Tok? then [ps[0].name] else []) + Names(ps[1..])
  }

  /** Every name of `names` that the context binds yields a substitution, and none contains `{`. */
  predicate Substitutable(names: seq<string>, ctx: Context, index: nat) {
    forall p :: p in names && p in ctx ==> Substitution(ctx[p], index).Ok? && '{' !in Substitution(ctx[p], index).value
  }

  /** `None`, a bool, an int, or a string without `{`. */
  predicate PlainScalar(v: Value) {
    v.VNone? || v.VBool? || v.VInt? || (v.VStr? && '{' !in v.s)
  }

  /** A plain scalar, or a non-empty list of plain scalars. */
  predicate PlainValue(v: Value) {
    if v.VList? then |v.items| > 0 && forall i :: 0 <= i < |v.items| ==> PlainScalar(v.items[i])
    else PlainScalar(v)
  }

  /** The text `str()` gives a plain scalar holds no `{`. */
  lemma PlainScalarText(v: Value)
    requires PlainScalar(v)
    ensures '{' !in Str(v)
  {
    if v.VInt? && v.i < 0 {
      assert Str(v) == "-" + NatToString(-v.i);
      assert forall k :: 0 <= k < |Str(v)| ==> Str(v)[k] == '-' || IsDigit(Str(v)[k]);
    }
  }

  /** Names bound to plain values substitute to `{`-free text. */
  lemma SubstitutableOfPlain(names: seq<string>, ctx: Context, index: nat)
    requires forall p :: p in names && p in ctx ==> PlainValue(ctx[p])
    ensures Substitutable(names, ctx, index)
  {
    forall p | p in names && p in ctx
      ensures Substitution(ctx[p], index).Ok? && '{' !in Substitution(ctx[p], index).value
    {
      var v := ctx[p];
      if v.VList? {
        PlainScalarText(v.items[index % |v.items|]);
      } else {
        PlainScalarText(v);
      }
    }
  }

  /** The piece a token becomes when its name is in `names` and in the context. */
  function ExpandPiece(p: Piece, names: seq<string>, ctx: Context, index: nat): Piece {
    if p.Tok? && p.name in names && p.name in ctx then
      match Substitution(ctx[p.name], index)
      case Ok(w) => Lit(w)
      case Err(_) => p
    else p
  }

  function ExpandNames(ps: seq<Piece>, names: seq<string>, ctx: Context, index: nat): seq<Piece> {
    if ps == [] then [] else [ExpandPiece(ps[0], names, ctx, index)] + ExpandNames(ps[1..], names, ctx, index)
  }

  /** The reference meaning of resolution: every token in the context replaced by its value, on its own. */
  function Expand(ps: seq<Piece>, ctx: Context, index: nat): seq<Piece> {
    if ps == [] then []
    else
      var p := ps[0];
      var q := if p.Tok? && p.name in ctx && Substitution(ctx[p.name], index).Ok?
               then Lit(Substitution(ctx[p.name], index).value) else p;
      [q] + Expand(ps[1..], ctx, index)
  }

  /** Text that opens no token adds no match in front of any other text. */
  lemma {:induction false} FindTokensSkips(x: string, rest: string)
    requires InertBraces(x)
    ensures FindTokens(x + rest) == FindTokens(rest)
    decreases |x|
  {
    if x != [] {
      var s := x + rest;
      assert s[1..] == x[1..] + rest;
      if x[0] == '{' {
        assert WordRun(s[1..]) == 0;
      }
      InertTail(x);
      FindTokensSkips(x[1..], rest);
    } else {
      assert x + rest == rest;
    }
  }

  lemma InertTail(x: string)
    requires x != [] && InertBraces(x)
    ensures InertBraces(x[1..])
  {
    forall i | 0 <= i < |x| - 1 && x[1..][i] == '{' ensures i + 1 < |x| - 1 && !IsWordChar(x[1..][i + 1]) {
      assert x[i + 1] == '{';
    }
  }

  /** No token starts at the first character of text that opens no token. */
  lemma InertNotToken(x: string, rest: string, name: string)
    requires x != [] && InertBraces(x) && IsName(name)
    requires |x + rest| >= |Token(name)|
    ensures (x + rest)[..|Token(name)|] != Token(name)
  {
    var pat := Token(name);
    var s := (x + rest)[..|pat|];
    assert pat[0] == '{' && pat[1] == name[0];
    if x[0] == '{' {
      assert s[1] == x[1];
    } else {
      assert s[0] == x[0];
    }
  }

  lemma InertSuffix(x: string, i: nat)
    requires i <= |x| && InertBraces(x)
    ensures InertBraces(x[i..])
  {
    forall k | 0 <= k < |x| - i && x[i..][k] == '{' ensures k + 1 < |x| - i && !IsWordChar(x[i..][k + 1]) {
      assert x[i + k] == '{';
    }
  }

  /** `str.replace` of a token leaves alone text that opens no token. */
  lemma ReplaceSkipsInert(x: string, rest: string, name: string, w: string)
    requires InertBraces(x) && IsName(name)
    ensures ReplaceAll(x + rest, Token(name), w) == x + ReplaceAll(rest, Token(name), w)
  {
    forall i | 0 <= i < |x| ensures !StartsWith(x[i..] + rest, Token(name)) {
      InertSuffix(x, i);
      if |x[i..] + rest| >= |Token(name)| {
        InertNotToken(x[i..], rest, name);
      }
    }
    ReplaceAllKeeps(x, rest, Token(name), w);
  }

  /** `findall` on a rendered template finds exactly its token names. */
  lemma {:induction false} FindTokensOfRender(ps: seq<Piece>)
    requires WellFormed(ps)
    ensures FindTokens(Render(ps)) == Names(ps)
    decreases |ps|
  {
    if ps != [] {
      assert WellFormed(ps[1..]) by {
        forall i | 0 <= i < |ps| - 1 ensures PieceOk(ps[1..][i]) { assert ps[1..][i] == ps[i + 1]; }
      }
      FindTokensOfRender(ps[1..]);
      assert PieceOk(ps[0]);
      match ps[0]
      case Lit(t) => FindTokensSkips(t, Render(ps[1..]));
      case Tok(n) => FindTokensOfToken(n, Render(ps[1..]));
    }
  }

  /** The text `{q}...` does not start with a different token `{p}`. */
  lemma TokenMismatch(q: string, p: string, rest: string)
    requires IsName(q) && IsName(p) && q != p
    requires |Token(q) + rest| >= |Token(p)|
    ensures (Token(q) + rest)[..|Token(p)|] != Token(p)
  {
    var t := Token(p);
    var s := (Token(q) + rest)[..|t|];
    if |q| == |p| {
      var i :| 0 <= i < |q| && q[i] != p[i];
      assert s[i + 1] == q[i] && t[i + 1] == p[i];
    } else if |q| < |p| {
      assert s[|q| + 1] == '}' && t[|q| + 1] == p[|q|];
    } else {
      assert s[|p| + 1] == q[|p|] && t[|p| + 1] == '}';
    }
  }

  function SubstOne(ps: seq<Piece>, name: string, w: string): seq<Piece> {
    if ps == [] then []
    else [if ps[0] == Tok(name) then Lit(w) else ps[0]] + SubstOne(ps[1..], name, w)
  }

  /** `str.replace` of one token acts on the token pieces of that name and nothing else. */
  lemma {:induction false} ReplaceTokenInRender(ps: seq<Piece>, name: string, w: string)
    requires WellFormed(ps) && IsName(name)
    ensures ReplaceAll(Render(ps), Token(name), w) == Render(SubstOne(ps, name, w))
    decreases |ps|
  {
    if ps == [] {
      assert ReplaceAll("", Token(name), w) == "";
    } else {
      WellFormedTail(ps);
      ReplaceTokenInRender(ps[1..], name, w);
      ReplaceInPiece(ps[0], Render(ps[1..]), name, w);
    }
  }

  lemma WellFormedTail(ps: seq<Piece>)
    requires ps != [] && WellFormed(ps)
    ensures PieceOk(ps[0]) && WellFormed(ps[1..])
  {
    forall i | 0 <= i < |ps| - 1 ensures PieceOk(ps[1..][i]) { assert ps[1..][i] == ps[i + 1]; }
  }

  /** `str.replace` of one token over one piece followed by more text. */
  lemma ReplaceInPiece(p: Piece, rest: string, name: string, w: string)
    requires PieceOk(p) && IsName(name)
    ensures ReplaceAll(PieceText(p) + rest, Token(name), w)
      == PieceText(if p == Tok(name) then Lit(w) else p) + ReplaceAll(rest, Token(name), w)
  {
    match p
    case Lit(t) => ReplaceSkipsInert(t, rest, name, w);
    case Tok(q) => ReplaceInToken(q, rest, name, w);
  }

  /** `str.replace` of `{name}` rewrites a token exactly when it has that name. */
  lemma ReplaceInToken(q: string, rest: string, name: string, w: string)
    requires IsName(q) && IsName(name)
    ensures ReplaceAll(Token(q) + rest, Token(name), w)
      == (if q == name then w else Token(q)) + ReplaceAll(rest, Token(name), w)
  {
    if q == name {
      ReplaceAllMatch(rest, Token(name), w);
    } else {
      ReplaceTokenOther(q, rest, name, w);
    }
  }

  lemma ReplaceTokenOther(q: string, rest: string, name: string, w: string)
    requires IsName(q) && IsName(name) && q != name
    ensures ReplaceAll(Token(q) + rest, Token(name), w) == Token(q) + ReplaceAll(rest, Token(name), w)
  {
    var pat := Token(name);
    var tail := q + "}";
    TokenSplit(q, rest);
    if |Token(q) + rest| >= |pat| {
      TokenMismatch(q, name, rest);
    }
    ReplaceAllNoMatch(['{'], tail + rest, pat, w);
    ReplaceAllSkips(tail, rest, pat, w);
    TokenSplit(q, ReplaceAll(rest, pat, w));
  }

  lemma TokenSplit(q: string, rest: string)
    ensures ['{'] + ((q + "}") + rest) == Token(q) + rest
  {
  }

  lemma {:induction false} SubstOneWellFormed(ps: seq<Piece>, name: string, w: string)
    requires WellFormed(ps) && '{' !in w
    ensures WellFormed(SubstOne(ps, name, w))
    ensures |SubstOne(ps, name, w)| == |ps|
    decreases |ps|
  {
    if ps != [] {
      assert WellFormed(ps[1..]) by {
        forall i | 0 <= i < |ps| - 1 ensures PieceOk(ps[1..][i]) { assert ps[1..][i] == ps[i + 1]; }
      }
      SubstOneWellFormed(ps[1..], name, w);
      var r := SubstOne(ps, name, w);
      assert PieceOk(ps[0]);
      assert InertBraces(w);
      forall i | 0 <= i < |r| ensures PieceOk(r[i]) {
        if i > 0 { assert r[i] == SubstOne(ps[1..], name, w)[i - 1]; }
      }
    }
  }

  lemma {:induction false} ExpandAfterSubst(ps: seq<Piece>, name: string, w: string, rest: seq<string>, ctx: Context, index: nat)
    requires name in ctx && Substitution(ctx[name], index) == Ok(w)
    ensures ExpandNames(SubstOne(ps, name, w), rest, ctx, index) == ExpandNames(ps, [name] + rest, ctx, index)
    decreases |ps|
  {
    if ps != [] {
      ExpandAfterSubst(ps[1..], name, w, rest, ctx, index);
    }
  }

  lemma {:induction false} ExpandSkipsMissing(ps: seq<Piece>, name: string, rest: seq<string>, ctx: Context, index: nat)
    requires name !in ctx
    ensures ExpandNames(ps, rest, ctx, index) == ExpandNames(ps, [name] + rest, ctx, index)
    decreases |ps|
  {
    if ps != [] {
      ExpandSkipsMissing(ps[1..], name, rest, ctx, index);
    }
  }

  lemma {:induction false} ExpandNoNames(ps: seq<Piece>, ctx: Context, index: nat)
    ensures ExpandNames(ps, [], ctx, index) == ps
    decreases |ps|
  {
    if ps != [] {
      ExpandNoNames(ps[1..], ctx, index);
    }
  }

  lemma {:induction false} ExpandAllNames(ps: seq<Piece>, names: seq<string>, ctx: Context, index: nat)
    requires forall n :: n in Names(ps) ==> n in names
    ensures ExpandNames(ps, names, ctx, index) == Expand(ps, ctx, index)
    decreases |ps|
  {
    if ps != [] {
      assert Names(ps) == (if ps[0].Tok? then [ps[0].name] else []) + Names(ps[1..]);
      ExpandAllNames(ps[1..], names, ctx, index);
    }
  }

  /** The loop over any list of names acts on the matching token pieces. */
  lemma {:induction false} ApplyTokensOnRender(ps: seq<Piece>, names: seq<string>, ctx: Context, index: nat)
    requires WellFormed(ps) && Substitutable(names, ctx, index)
    requires forall i :: 0 <= i < |names| ==> IsName(names[i])
    ensures ApplyTokens(Render(ps), names, ctx, index) == Ok(Render(ExpandNames(ps, names, ctx, index)))
    decreases |names|
  {
    if names == [] {
      ExpandNoNames(ps, ctx, index);
    } else {
      var name := names[0];
      var rest := names[1..];
      if name in ctx {
        var w := Substitution(ctx[name], index).value;
        ReplaceTokenInRender(ps, name, w);
        SubstOneWellFormed(ps, name, w);
        ApplyTokensOnRender(SubstOne(ps, name, w), rest, ctx, index);
        ExpandAfterSubst(ps, name, w, rest, ctx, index);
      } else {
        ApplyTokensOnRender(ps, rest, ctx, index);
        ExpandSkipsMissing(ps, name, rest, ctx, index);
      }
      assert [name] + rest == names;
    }
  }

  /**
   * Resolution substitutes each token independently: every token whose name
   * is in the context becomes that value's text (the list element at
   * `index % len` for a list), every other token stays verbatim, and the
   * literal text is untouched, provided no text substituted for one of the
   * text's own names contains `{`.
   */
  lemma ResolveSubstitutesEachToken(ps: seq<Piece>, ctx: Context, index: nat)
    requires WellFormed(ps) && Substitutable(Names(ps), ctx, index)
    ensures ResolveText(Render(ps), ctx, index) == Ok(Render(Expand(ps, ctx, index)))
  {
    FindTokensOfRender(ps);
    ApplyTokensOnRender(ps, Names(ps), ctx, index);
    ExpandAllNames(ps, Names(ps), ctx, index);
  }

  /** A `{` at position `i` followed by the `n` word characters of a name and `}`. */
  predicate TokenAt(s: string, i: nat, n: nat) {
    && i + n + 1 < |s| && 0 < n
    && s[i] == '{' && s[i + n + 1] == '}'
    && forall k :: i < k <= i + n ==> IsWordChar(s[k])
  }

  lemma {:induction false} WordRunExact(s: string, n: nat)
    requires n < |s| && !IsWordChar(s[n])
    requires forall k :: 0 <= k < n ==> IsWordChar(s[k])
    ensures WordRun(s) == n
    decreases n
  {
    if n > 0 {
      WordRunExact(s[1..], n - 1);
    }
  }

  /** `findall` finds nothing exactly when no position of the text holds a token. */
  lemma {:induction false} FindTokensEmpty(s: string)
    ensures FindTokens(s) == [] <==> forall i: nat, n: nat :: !TokenAt(s, i, n)
    decreases |s|
  {
    if s != [] {
      var t := s[1..];
      FindTokensEmpty(t);
      var m := WordRun(t);
      var here := s[0] == '{' && 0 < m && 1 + m < |s| && s[1 + m] == '}';
      forall i: nat, n: nat ensures TokenAt(s, i + 1, n) <==> TokenAt(t, i, n) {
        if TokenAt(t, i, n) {
          forall k | i + 1 < k <= i + 1 + n ensures IsWordChar(s[k]) { assert s[k] == t[k - 1]; }
        }
      }
      if here {
        assert TokenAt(s, 0, m);
      } else {
        forall n: nat ensures !TokenAt(s, 0, n) {
          if TokenAt(s, 0, n) {
            WordRunExact(t, n);
          }
        }
        forall i: nat, n: nat | TokenAt(s, i, n) ensures TokenAt(t, i - 1, n) {
          assert i != 0;
        }
      }
    }
  }

  /** A string in which no `{\w+}` token occurs is returned unchanged. */
  lemma ResolveWithoutToken(s: string, ctx: Context, index: nat)
    requires forall i: nat, n: nat :: !TokenAt(s, i, n)
    ensures ResolveText(s, ctx, index) == Ok(s)
  {
    FindTokensEmpty(s);
  }

  /**
   * Replacements run one after the other on the current text, so a `{`
   * right before a token can join the value that replaces it into a new
   * token, which a later name's replacement then rewrites too: with `a`
   * bound to `b` and `b` to `y`, `{{a}}{b}` resolves to `y + y`, where
   * substituting each token on its own would give `{b}` followed by `y`.
   */
  lemma ResolveFormsNewToken(a: string, b: string, y: string, ctx: Context)
    requires IsName(a) && IsName(b) && a != b
    requires ctx == map[a := VStr(b), b := VStr(y)]
    ensures FindTokens("{" + Token(a) + "}" + Token(b)) == [a, b]
    ensures ResolveText("{" + Token(a) + "}" + Token(b), ctx, 0) == Ok(y + y)
  {
    var s := "{" + Token(a) + "}" + Token(b);
    var t := Token(b);
    FindTokensFormsNewToken(a, b);
    ReplaceFormsNewToken(a, b, b);
    ReplaceAllMatch("", t, y);
    assert t + "" == t;
    assert ReplaceAll("", t, y) == "";
    ReplaceAllMatch(t, t, y);
    assert ReplaceAll(t + t, t, y) == y + y;
    assert Substitution(ctx[a], 0) == Ok(b);
    assert Substitution(ctx[b], 0) == Ok(y);
    assert [a, b][1..] == [b];
    assert ApplyTokens(s, [a, b], ctx, 0) == ApplyTokens(t + t, [b], ctx, 0);
    assert ApplyTokens(t + t, [b], ctx, 0) == ApplyTokens(y + y, [], ctx, 0);
  }

  /** No match starts at a character that is not `{`, or at a `{` not followed by `\w`. */
  lemma FindTokensNoMatch(c: char, rest: string)
    requires c != '{' || rest == [] || !IsWordChar(rest[0])
    ensures FindTokens([c] + rest) == FindTokens(rest)
  {
    assert ([c] + rest)[1..] == rest;
  }

  /** `findall` on `{{a}}{b}` finds `a` and `b`, not the `{` in front. */
  lemma FindTokensFormsNewToken(a: string, b: string)
    requires IsName(a) && IsName(b)
    ensures FindTokens("{" + Token(a) + "}" + Token(b)) == [a, b]
  {
    var r := "}" + Token(b);
    assert "{" + Token(a) + "}" + Token(b) == ['{'] + (Token(a) + r);
    assert (Token(a) + r)[0] == '{';
    FindTokensNoMatch('{', Token(a) + r);
    FindTokensOfToken(a, r);
    assert r == ['}'] + Token(b);
    FindTokensNoMatch('}', Token(b));
    assert Token(b) == Token(b) + "";
    FindTokensOfToken(b, "");
  }

  /** Replacing `{a}` by `w` in `{{a}}{b}` gives `{w}{b}`, a new token when `w` is a name. */
  lemma ReplaceFormsNewToken(a: string, b: string, w: string)
    requires IsName(a) && IsName(b) && a != b
    ensures ReplaceAll("{" + Token(a) + "}" + Token(b), Token(a), w) == Token(w) + Token(b)
  {
    var pat := Token(a);
    var r := "}" + Token(b);
    NestedShape(a, b, w);
    FrontBraceKept(a, r, w);
    ReplaceAllMatch(r, pat, w);
    ReplaceAllSkips("}", Token(b), pat, w);
    ReplaceOtherToken(a, b, w);
  }

  lemma NestedShape(a: string, b: string, w: string)
    ensures "{" + Token(a) + "}" + Token(b) == ['{'] + (Token(a) + ("}" + Token(b)))
    ensures ['{'] + (w + ("}" + Token(b))) == Token(w) + Token(b)
  {
  }

  /** A `{` right before `{a}` is not the start of an occurrence of `{a}`. */
  lemma FrontBraceKept(a: string, rest: string, w: string)
    requires IsName(a)
    ensures ReplaceAll(['{'] + (Token(a) + rest), Token(a), w) == ['{'] + ReplaceAll(Token(a) + rest, Token(a), w)
  {
    var pat := Token(a);
    assert (['{'] + (pat + rest))[1] == '{' && pat[1] == a[0];
    ReplaceAllNoMatch(['{'], pat + rest, pat, w);
  }

  /** Replacing `{a}` leaves a lone token of another name alone. */
  lemma ReplaceOtherToken(a: string, b: string, w: string)
    requires IsName(a) && IsName(b) && a != b
    ensures ReplaceAll(Token(b), Token(a), w) == Token(b)
  {
    var pat := Token(a);
    if |Token(b)| >= |pat| {
      TokenMismatch(b, a, "");
      assert Token(b) + "" == Token(b);
    }
    assert Token(b) == ['{'] + (b + "}");
    ReplaceAllNoMatch(['{'], b + "}", pat, w);
    ReplaceAllSkips(b + "}", "", pat, w);
    assert b + "}" + "" == b + "}";
    assert ReplaceAll("", pat, w) == "";
  }

  // ---------------------------------------------------------------------------
  // When resolution cannot raise

  /** Every list in the context has an element, so `index % len` never divides by zero. */
  predicate NonEmptyLists(ctx: Context) {
    forall p :: p in ctx && ctx[p].VList? ==> |ctx[p].items| > 0
  }

  lemma {:induction false} ApplyTokensTotal(s: string, names: seq<string>, ctx: Context, index: nat)
    requires NonEmptyLists(ctx)
    ensures ApplyTokens(s, names, ctx, index).Ok?
    decreases |names|
  {
    if names != [] {
      if names[0] in ctx {
        var w := Substitution(ctx[names[0]], index).value;
        ApplyTokensTotal(ReplaceAll(s, Token(names[0]), w), names[1..], ctx, index);
      } else {
        ApplyTokensTotal(s, names[1..], ctx, index);
      }
    }
  }

  /** Resolution raises only on an empty context list: without one it always succeeds. */
  lemma ResolveTotal(v: Value, ctx: Context, index: nat)
    requires NonEmptyLists(ctx)
    ensures Resolve(v, ctx, index).Ok?
    ensures v.VStr? ==> Resolve(v, ctx, index).value.VStr?
    ensures !v.VStr? ==> Resolve(v, ctx, index) == Ok(v)
  {
    if v.VStr? {
      ApplyTokensTotal(v.s, FindTokens(v.s), ctx, index);
    }
  }
}
