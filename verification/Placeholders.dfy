/** The placeholder scanner of `infractl-core`: `${VAR}`, `${VAR:-default}` and the
    escape `\${`. The scanner walks an index over the characters; it is proved equal to
    splitting the text into tokens by a grammar and rendering the tokens one by one. */
module Placeholders {
  import opened Wrappers
  import opened Text

  type Resolver = string -> Option<string>

  datatype ScanError = Unterminated | EmptyPlaceholder | EmptyKey | MissingVariable(key: string)

  // ------------------------------------------------------------------- grammar

  /** `Open` is the rest of the text after an opener that is never closed. */
  datatype Token = Literal(c: char) | Escape | Hole(expr: string) | Open(rest: string)

  function Spelling(t: Token): string {
    match t
    case Literal(c) => [c]
    case Escape => "\\${"
    case Hole(expr) => "${" + expr + "}"
    case Open(rest) => "${" + rest
  }

  predicate Opens(s: string) { |s| >= 2 && s[0] == '$' && s[1] == '{' }

  predicate OpensEscaped(s: string) { |s| >= 3 && s[0] == '\\' && Opens(s[1..]) }

  /** No closing brace at the positions from `i` up to `j`. */
  predicate Unclosed(s: string, i: nat, j: nat)
    requires i <= j <= |s|
  {
    forall k :: i <= k < j ==> s[k] != '}'
  }

  function Flatten(ts: seq<Token>): string {
    if ts == [] then [] else Spelling(ts[0]) + Flatten(ts[1..])
  }

  /** What a token may be, given the text after it. */
  predicate Allowed(t: Token, after: string) {
    match t
    case Literal(c) => !Opens([c] + after) && !OpensEscaped([c] + after)
    case Escape => true
    case Hole(expr) => Unclosed(expr, 0, |expr|)
    case Open(rest) => Unclosed(rest, 0, |rest|) && after == []
  }

  predicate Lawful(ts: seq<Token>) {
    ts == [] || (Allowed(ts[0], Flatten(ts[1..])) && Lawful(ts[1..]))
  }

  /** The first closing brace at or after `j`, or the end. */
  function Close(s: string, j: nat): (end: nat)
    requires j <= |s|
    ensures j <= end <= |s| && Unclosed(s, j, end) && (end < |s| ==> s[end] == '}')
    decreases |s| - j
  {
    if j == |s| || s[j] == '}' then j
    else Close(s, j + 1)
  }

  function First(s: string): (t: Token)
    requires s != []
    ensures 0 < |Spelling(t)| <= |s|
  {
    if OpensEscaped(s) then Escape
    else if Opens(s) then
      var end := Close(s, 2);
      if end == |s| then Open(s[2..]) else Hole(s[2..end])
    else Literal(s[0])
  }

  lemma HoleSplits(s: string, end: nat)
    requires Opens(s) && 2 <= end < |s| && s[end] == '}'
    ensures s == "${" + s[2..end] + "}" + s[end + 1..]
  {}

  /** The first token is a prefix of the text, and allowed there. */
  lemma FirstSplits(s: string)
    requires s != []
    ensures var t := First(s); s == Spelling(t) + s[|Spelling(t)|..] && Allowed(t, s[|Spelling(t)|..])
  {
    if OpensEscaped(s) {
      assert s[0] == '\\' && s[1] == s[1..][0] && s[2] == s[1..][1];
    } else if Opens(s) {
      var end := Close(s, 2);
      if end < |s| {
        HoleSplits(s, end);
        assert |Spelling(First(s))| == end + 1;
      } else {
        assert s == "${" + s[2..];
      }
    } else {
      assert s == [s[0]] + s[1..];
    }
  }

  function Tokens(s: string): seq<Token>
    decreases |s|
  {
    if s == [] then [] else [First(s)] + Tokens(s[|Spelling(First(s))|..])
  }

  lemma {:induction false} TokensSpellTheText(s: string)
    ensures Flatten(Tokens(s)) == s && Lawful(Tokens(s))
    decreases |s|
  {
    if s != [] {
      var rest := s[|Spelling(First(s))|..];
      FirstSplits(s);
      TokensSpellTheText(rest);
      assert Tokens(s)[1..] == Tokens(rest);
    }
  }

  lemma CloseIs(s: string, j: nat, end: nat)
    requires j <= end <= |s| && Unclosed(s, j, end) && (end < |s| ==> s[end] == '}')
    ensures Close(s, j) == end
  {}

  lemma HoleIsUnique(expr: string, after: string)
    requires Unclosed(expr, 0, |expr|)
    ensures First("${" + expr + "}" + after) == Hole(expr)
  {
    var s := "${" + expr + "}" + after;
    assert s[0] == '$' && s[1] == '{' && s[2 + |expr|] == '}';
    forall k | 2 <= k < 2 + |expr| ensures s[k] != '}' { assert s[k] == expr[k - 2]; }
    CloseIs(s, 2, 2 + |expr|);
    assert s[2..2 + |expr|] == expr;
  }

  lemma OpenIsUnique(rest: string)
    requires Unclosed(rest, 0, |rest|)
    ensures First("${" + rest) == Open(rest)
  {
    var s := "${" + rest;
    assert s[0] == '$' && s[1] == '{' && s[2..] == rest;
    forall k | 2 <= k < |s| ensures s[k] != '}' { assert s[k] == rest[k - 2]; }
    CloseIs(s, 2, |s|);
  }

  /** An allowed token can be read back in only one way. */
  lemma FirstIsUnique(t: Token, after: string)
    requires Allowed(t, after)
    ensures First(Spelling(t) + after) == t
  {
    match t
    case Literal(c) => assert ([c] + after)[0] == c;
    case Escape =>
      var s := "\\${" + after;
      assert s[0] == '\\' && s[1..][0] == '$' && s[1..][1] == '{';
    case Hole(expr) => HoleIsUnique(expr, after);
    case Open(rest) =>
      OpenIsUnique(rest);
      assert "${" + rest + after == "${" + rest;
  }

  /** The grammar is unambiguous: the tokens of a text are the only lawful sequence spelling it. */
  lemma {:induction false} TokensAreUnique(ts: seq<Token>)
    requires Lawful(ts)
    ensures Tokens(Flatten(ts)) == ts
  {
    if ts != [] {
      var after := Flatten(ts[1..]);
      FirstIsUnique(ts[0], after);
      TokensAreUnique(ts[1..]);
      assert (Spelling(ts[0]) + after)[|Spelling(ts[0])|..] == after;
    }
  }

  // ------------------------------------------------------------------ rendering

  function KeyOf(expr: string): (string, Option<string>) {
    match SplitOnce(expr, ":-")
    case Some((key, default)) => (key, Some(default))
    case None => (expr, None)
  }

  /** What one token contributes, whatever stands around it. */
  function Value(t: Token, resolve: Resolver): Result<string, ScanError> {
    match t
    case Literal(c) => Ok([c])
    case Escape => Ok("${")
    case Open(_) => Err(Unterminated)
    case Hole(expr) =>
      if expr == [] then Err(EmptyPlaceholder) else
      var (key, default) := KeyOf(expr);
      if key == [] then Err(EmptyKey) else
      match resolve(key)
      case Some(value) => Ok(value)
      case None => if default.Some? then Ok(default.value) else Err(MissingVariable(key))
  }

  function Render(ts: seq<Token>, resolve: Resolver): Result<string, ScanError> {
    if ts == [] then Ok([]) else
    match Value(ts[0], resolve)
    case Err(e) => Err(e)
    case Ok(head) =>
      match Render(ts[1..], resolve)
      case Err(e) => Err(e)
      case Ok(tail) => Ok(head + tail)
  }

  function Expand(s: string, resolve: Resolver): Result<string, ScanError> {
    Render(Tokens(s), resolve)
  }

  /** The result of the scan when `out` has been produced for the text before the rest `s`. */
  function Onward(out: string, s: string, resolve: Resolver): Result<string, ScanError> {
    match Expand(s, resolve)
    case Err(e) => Err(e)
    case Ok(tail) => Ok(out + tail)
  }

  lemma OnwardStep(out: string, s: string, resolve: Resolver)
    requires s != []
    ensures Onward(out, s, resolve) ==
            match Value(First(s), resolve)
            case Err(e) => Err(e)
            case Ok(v) => Onward(out + v, s[|Spelling(First(s))|..], resolve)
  {
    var rest := s[|Spelling(First(s))|..];
    assert Tokens(s)[1..] == Tokens(rest);
    if Value(First(s), resolve).Ok? && Expand(rest, resolve).Ok? {
      var v, tail := Value(First(s), resolve).value, Expand(rest, resolve).value;
      assert out + (v + tail) == (out + v) + tail;
    }
  }

  lemma OnwardFromNothing(s: string, resolve: Resolver)
    ensures Onward("", s, resolve) == Expand(s, resolve)
    ensures s[0..] == s
  {
    match Expand(s, resolve)
    case Ok(tail) => assert "" + tail == tail;
    case Err(_) =>
  }

  lemma UnterminatedFails(rest: string, resolve: Resolver)
    ensures Value(Open(rest), resolve) == Err(Unterminated)
  {}

  lemma OnwardHole(out: string, s: string, end: nat, resolve: Resolver)
    requires Opens(s) && 2 <= end <= |s| && Unclosed(s, 2, end) && (end < |s| ==> s[end] == '}')
    ensures end == |s| ==> Onward(out, s, resolve) == Err(Unterminated)
    ensures end < |s| ==>
              Onward(out, s, resolve) ==
              match Value(Hole(s[2..end]), resolve)
              case Err(e) => Err(e)
              case Ok(v) => Onward(out + v, s[end + 1..], resolve)
  {
    hide Onward, Value;
    CloseIs(s, 2, end);
    OnwardStep(out, s, resolve);
    if end == |s| { UnterminatedFails(s[2..], resolve); }
  }

  lemma OnwardPlain(out: string, s: string, resolve: Resolver)
    requires s != [] && !Opens(s)
    ensures if OpensEscaped(s) then Onward(out, s, resolve) == Onward(out + "${", s[3..], resolve)
            else Onward(out, s, resolve) == Onward(out + [s[0]], s[1..], resolve)
  {
    OnwardStep(out, s, resolve);
  }

  /** One placeholder of the scan, by positions: opener at `i`, closing brace at `j`. */
  lemma HoleAt(out: string, chars: string, i: nat, j: nat, resolve: Resolver)
    requires i + 2 <= j <= |chars| && chars[i] == '$' && chars[i + 1] == '{'
    requires Unclosed(chars, i + 2, j) && (j < |chars| ==> chars[j] == '}')
    ensures j == |chars| ==> Onward(out, chars[i..], resolve) == Err(Unterminated)
    ensures j < |chars| ==>
              Onward(out, chars[i..], resolve) ==
              match Value(Hole(chars[i + 2..j]), resolve)
              case Err(e) => Err(e)
              case Ok(v) => Onward(out + v, chars[j + 1..], resolve)
  {
    hide Onward, Value;
    var rest := chars[i..];
    assert forall k :: 2 <= k < j - i ==> rest[k] == chars[i + k];
    OnwardHole(out, rest, j - i, resolve);
    if j < |chars| {
      assert rest[2..j - i] == chars[i + 2..j];
      assert rest[j - i + 1..] == chars[j + 1..];
    }
  }

  lemma PlainAt(out: string, chars: string, i: nat, resolve: Resolver)
    requires i < |chars| && !(i + 1 < |chars| && chars[i] == '$' && chars[i + 1] == '{')
    ensures if i + 2 < |chars| && chars[i] == '\\' && chars[i + 1] == '$' && chars[i + 2] == '{'
            then Onward(out, chars[i..], resolve) == Onward(out + "${", chars[i + 3..], resolve)
            else Onward(out, chars[i..], resolve) == Onward(out + [chars[i]], chars[i + 1..], resolve)
  {
    OnwardPlain(out, chars[i..], resolve);
    if OpensEscaped(chars[i..]) { assert chars[i..][3..] == chars[i + 3..]; }
    assert chars[i..][1..] == chars[i + 1..];
  }

  lemma OnwardAtEnd(out: string, resolve: Resolver)
    ensures Onward(out, "", resolve) == Ok(out)
  {
    assert out + "" == out;
  }

  /** The scanner, index by index. */
  method ExpandPlaceholders(chars: string, resolve: Resolver) returns (r: Result<string, ScanError>)
    ensures r == Expand(chars, resolve)
  {
    hide Onward, Expand, KeyOf;
    var out := "";
    var i := 0;
    OnwardFromNothing(chars, resolve);
    while i < |chars|
      invariant 0 <= i <= |chars|
      invariant Onward(out, chars[i..], resolve) == Expand(chars, resolve)
    {
      if i + 2 < |chars| && chars[i] == '\\' && chars[i + 1] == '$' && chars[i + 2] == '{' {
        PlainAt(out, chars, i, resolve);
        out := out + "${";
        i := i + 3;
        continue;
      }
      if i + 1 < |chars| && chars[i] == '$' && chars[i + 1] == '{' {
        var startExpr := i + 2;
        var j := startExpr;
        while j < |chars| && chars[j] != '}'
          invariant startExpr <= j <= |chars| && Unclosed(chars, startExpr, j)
        {
          j := j + 1;
        }
        HoleAt(out, chars, i, j, resolve);
        if j == |chars| {
          return Err(Unterminated);
        }
        var expr := chars[startExpr..j];
        if expr == "" {
          return Err(EmptyPlaceholder);
        }
        var (key, default) := KeyOf(expr);
        if key == "" {
          return Err(EmptyKey);
        }
        var value := resolve(key);
        if value.None? {
          value := default;
        }
        if value.None? {
          return Err(MissingVariable(key));
        }
        out := out + value.value;
        i := j + 1;
        continue;
      }
      PlainAt(out, chars, i, resolve);
      out := out + [chars[i]];
      i := i + 1;
    }
    OnwardAtEnd(out, resolve);
    assert chars[i..] == "";
    r := Ok(out);
  }

  // ----------------------------------------------------------------- what it promises

  function Escaped(s: string): string {
    if s == [] then []
    else if Opens(s) then "\\${" + Escaped(s[2..])
    else [s[0]] + Escaped(s[1..])
  }

  /** Escaping leaves no opener of its own, and no escape but those it wrote. */
  lemma {:induction false} EscapedStart(s: string)
    ensures !Opens(Escaped(s))
    ensures Escaped(s) != [] && Escaped(s)[0] == '{' ==> s != [] && s[0] == '{'
    ensures !Opens(s) ==> !OpensEscaped(Escaped(s))
  {
    if s != [] && !Opens(s) {
      EscapedStart(s[1..]);
      assert Escaped(s)[1..] == Escaped(s[1..]);
    }
  }

  /** Escaping is a right inverse of expansion, for every text and resolver. */
  lemma {:induction false} ExpandUndoesEscaping(s: string, resolve: Resolver)
    ensures Expand(Escaped(s), resolve) == Ok(s)
    decreases |s|
  {
    if s == [] {
    } else if Opens(s) {
      var rest := Escaped(s[2..]);
      ExpandUndoesEscaping(s[2..], resolve);
      FirstIsUnique(Escape, rest);
      OnwardStep("", Escaped(s), resolve);
      OnwardFromNothing(Escaped(s), resolve);
      assert Escaped(s)[3..] == rest && s == "${" + s[2..];
    } else {
      var rest := Escaped(s[1..]);
      ExpandUndoesEscaping(s[1..], resolve);
      EscapedStart(s);
      FirstIsUnique(Literal(s[0]), rest);
      OnwardStep("", Escaped(s), resolve);
      OnwardFromNothing(Escaped(s), resolve);
      assert Escaped(s)[1..] == rest && s == [s[0]] + s[1..];
    }
  }

  predicate Closed(ts: seq<Token>) { forall k :: 0 <= k < |ts| ==> !ts[k].Open? }

  /** An opener of the joined text begins in `a` and ends in `b`. */
  predicate Seam(a: string, b: string) {
    || (|a| >= 1 && a[|a| - 1] == '$' && |b| >= 1 && b[0] == '{')
    || (|a| >= 1 && a[|a| - 1] == '\\' && Opens(b))
  }

  lemma Assoc(a: string, b: string, c: string)
    ensures (a + b) + c == a + (b + c)
  {}

  lemma FlattenHead(ts: seq<Token>, us: seq<Token>)
    requires ts != []
    ensures Flatten(ts + us) == Spelling(ts[0]) + Flatten(ts[1..] + us)
  {
    assert (ts + us)[1..] == ts[1..] + us;
  }

  lemma {:induction false} FlattenConcat(ts: seq<Token>, us: seq<Token>)
    ensures Flatten(ts + us) == Flatten(ts) + Flatten(us)
  {
    if ts == [] {
      assert ts + us == us;
    } else {
      FlattenHead(ts, us);
      FlattenConcat(ts[1..], us);
      Assoc(Spelling(ts[0]), Flatten(ts[1..]), Flatten(us));
    }
  }

  lemma LiteralStays(c: char, after: string, b: string)
    requires Allowed(Literal(c), after)
    requires !Seam([c] + after, b)
    ensures Allowed(Literal(c), after + b)
  {
    var s, t := [c] + after, [c] + (after + b);
    assert t == s + b;
    assert t[1..] == after + b;
  }

  lemma AllowedStays(t: Token, after: string, b: string)
    requires Allowed(t, after) && !t.Open? && !Seam(Spelling(t) + after, b)
    ensures Allowed(t, after + b)
    ensures !Seam(after, b)
  {
    var s := Spelling(t) + after;
    assert after != [] ==> s[|s| - 1] == after[|after| - 1];
    if t.Literal? { LiteralStays(t.c, after, b); }
  }

  lemma LawfulHead(ts: seq<Token>, us: seq<Token>)
    requires ts != [] && Lawful(ts[1..] + us) && Allowed(ts[0], Flatten(ts[1..] + us))
    ensures Lawful(ts + us)
  {
    assert (ts + us)[1..] == ts[1..] + us && (ts + us)[0] == ts[0];
  }

  lemma LawfulTail(ts: seq<Token>, b: string)
    requires ts != [] && Lawful(ts) && Closed(ts) && !Seam(Flatten(ts), b)
    ensures Lawful(ts[1..]) && Closed(ts[1..]) && !Seam(Flatten(ts[1..]), b)
    ensures Allowed(ts[0], Flatten(ts[1..]) + b)
  {
    AllowedStays(ts[0], Flatten(ts[1..]), b);
  }

  lemma {:induction false} LawfulConcat(ts: seq<Token>, us: seq<Token>)
    requires Lawful(ts) && Lawful(us) && Closed(ts) && !Seam(Flatten(ts), Flatten(us))
    ensures Lawful(ts + us)
  {
    if ts == [] {
      assert ts + us == us;
    } else {
      LawfulTail(ts, Flatten(us));
      LawfulConcat(ts[1..], us);
      FlattenConcat(ts[1..], us);
      LawfulHead(ts, us);
    }
  }

  lemma OpenFails(t: Token, resolve: Resolver)
    requires Value(t, resolve).Ok?
    ensures !t.Open?
  {}

  lemma {:induction false} RenderConcat(ts: seq<Token>, us: seq<Token>, resolve: Resolver)
    requires Render(ts, resolve).Ok?
    ensures Closed(ts)
    ensures Render(ts + us, resolve) ==
            match Render(us, resolve)
            case Err(e) => Err(e)
            case Ok(tail) => Ok(Render(ts, resolve).value + tail)
  {
    hide Value;
    if ts == [] {
      assert ts + us == us;
      match Render(us, resolve)
      case Ok(tail) => assert [] + tail == tail;
      case Err(_) =>
    } else {
      var head := Value(ts[0], resolve);
      RenderConcat(ts[1..], us, resolve);
      assert (ts + us)[1..] == ts[1..] + us && (ts + us)[0] == ts[0];
      OpenFails(ts[0], resolve);
      forall k | 0 <= k < |ts| ensures !ts[k].Open? { if k > 0 { assert ts[k] == ts[1..][k - 1]; } }
      match Render(us, resolve)
      case Ok(tail) => Assoc(head.value, Render(ts[1..], resolve).value, tail);
      case Err(_) =>
    }
  }

  /** Expansion works piecewise: what was expanded is never scanned again, and an
      expansion of `a` goes on with `b` alone, unless an opener straddles the seam. */
  lemma ExpandConcat(a: string, b: string, resolve: Resolver)
    requires Expand(a, resolve).Ok? && !Seam(a, b)
    ensures Expand(a + b, resolve) == Onward(Expand(a, resolve).value, b, resolve)
  {
    TokensSpellTheText(a);
    TokensSpellTheText(b);
    RenderConcat(Tokens(a), Tokens(b), resolve);
    LawfulConcat(Tokens(a), Tokens(b));
    FlattenConcat(Tokens(a), Tokens(b));
    TokensAreUnique(Tokens(a) + Tokens(b));
  }

  // ------------------------------------------------------------------ seams

  /** Until its last character, a text that ends in a backslash is cut into the same tokens before an opener. */
  lemma FirstBeforeSeam(a: string, b: string, resolve: Resolver)
    requires |a| >= 2 && a[|a| - 1] == '\\' && Opens(b) && Value(First(a), resolve).Ok?
    ensures First(a + b) == First(a) && |Spelling(First(a))| < |a|
  {
    var t, rest := First(a), a[|Spelling(First(a))|..];
    FirstSplits(a);
    assert a + b == Spelling(t) + (rest + b);
    if t.Hole? {
      assert a[|Spelling(t)| - 1] == '}';
      FirstIsUnique(t, rest + b);
    } else if t.Literal? {
      assert (a + b)[0] == a[0] && (a + b)[1] == a[1] && (|a| > 2 ==> (a + b)[2] == a[2]);
    } else {
      assert a[2] == '{';
    }
  }

  /** A backslash at the end of `a` makes an escape of the opener that begins `b`. */
  lemma {:induction false} EscapeStraddles(out: string, a: string, b: string, resolve: Resolver)
    requires a != [] && a[|a| - 1] == '\\' && Opens(b) && Onward(out, a, resolve).Ok?
    ensures var whole := Onward(out, a, resolve).value;
      && whole != [] && whole[|whole| - 1] == '\\'
      && Onward(out, a + b, resolve) == Onward(whole[..|whole| - 1] + "${", b[2..], resolve)
    decreases |a|
  {
    hide Onward, Value, First;
    OnwardStep(out, a, resolve);
    OnwardStep(out, a + b, resolve);
    if |a| == 1 {
      LoneBackslash(out, a, b, resolve);
    } else {
      FirstBeforeSeam(a, b, resolve);
      var n := |Spelling(First(a))|;
      assert (a + b)[n..] == a[n..] + b;
      EscapeStraddles(out + Value(First(a), resolve).value, a[n..], b, resolve);
    }
  }

  lemma LoneBackslash(out: string, a: string, b: string, resolve: Resolver)
    requires a == "\\" && Opens(b)
    ensures Onward(out, a, resolve) == Ok(out + "\\")
    ensures (out + "\\")[..|out + "\\"| - 1] == out
    ensures Onward(out, a + b, resolve) == Onward(out + "${", b[2..], resolve)
  {
    var s := a + b;
    assert s[1..] == b && s[3..] == b[2..];
    OnwardPlain(out, s, resolve);
    OnwardPlain(out, a, resolve);
    assert a[1..] == [];
    OnwardAtEnd(out + "\\", resolve);
  }

  /** At a backslash seam the joined text, when it expands at all, never expands piecewise. */
  lemma BackslashSeamNeverSplits(a: string, b: string, resolve: Resolver)
    requires a != [] && a[|a| - 1] == '\\' && Opens(b) && Expand(a, resolve).Ok? && Expand(a + b, resolve).Ok?
    ensures Expand(a + b, resolve) != Onward(Expand(a, resolve).value, b, resolve)
  {
    OnwardFromNothing(a, resolve);
    OnwardFromNothing(a + b, resolve);
    EscapeStraddles("", a, b, resolve);
    var whole := Expand(a, resolve).value;
    var front := whole[..|whole| - 1];
    assert Expand(a + b, resolve).value[|front|] == '$';
    if Onward(whole, b, resolve).Ok? { assert Onward(whole, b, resolve).value[|front|] == '\\'; }
  }

  lemma {:induction false} PlainTextStays(s: string, resolve: Resolver)
    requires '$' !in s
    ensures Expand(s, resolve) == Ok(s)
  {
    if s != [] {
      PlainTextStays(s[1..], resolve);
      assert !OpensEscaped(s) by { assert |s| >= 2 ==> s[1..][0] == s[1]; }
      assert First(s) == Literal(s[0]) && Tokens(s)[1..] == Tokens(s[1..]);
      assert s == [s[0]] + s[1..];
    }
  }

  lemma DollarAlone(resolve: Resolver)
    ensures Expand("$", resolve) == Ok("$")
  {
    hide Expand, Onward;
    OnwardPlain("", "$", resolve);
    OnwardFromNothing("$", resolve);
    assert "$"[1..] == [] && "" + "$" == "$";
    OnwardAtEnd("$", resolve);
  }

  lemma OnwardFromPlain(out: string, s: string, resolve: Resolver)
    requires '$' !in s
    ensures Onward(out, s, resolve) == Ok(out + s)
  {
    hide Expand;
    PlainTextStays(s, resolve);
  }

  /** At a dollar seam the two agree only by accident: when the value is the placeholder's own text. */
  lemma DollarSeamSplitsByAccident(key: string, value: string, resolve: Resolver)
    requires key != [] && Unclosed(key, 0, |key|) && '$' !in key && Find(key, ":-").None? && resolve(key) == Some(value)
    ensures var b := "{" + key + "}";
      && Expand("$", resolve) == Ok("$") && Expand("$" + b, resolve) == Ok(value)
      && (Expand("$" + b, resolve) == Onward("$", b, resolve) <==> value == "${" + key + "}")
  {
    hide Expand, Onward, Unclosed, Find;
    var b := "{" + key + "}";
    DollarAlone(resolve);
    ValuesAreNotRescanned(key, value, "", resolve);
    OnwardAtEnd(value, resolve);
    OnwardFromPlain("$", b, resolve);
    assert "$" + b == "${" + key + "}" == "${" + key + "}" + "";
  }

  /** A value that looks like a placeholder is copied out untouched, and what follows
      is expanded as if the placeholder had not been there. */
  lemma ValuesAreNotRescanned(key: string, value: string, after: string, resolve: Resolver)
    requires key != [] && Unclosed(key, 0, |key|) && Find(key, ":-").None? && resolve(key) == Some(value)
    ensures Expand("${" + key + "}" + after, resolve) == Onward(value, after, resolve)
  {
    var s := "${" + key + "}" + after;
    FirstIsUnique(Hole(key), after);
    OnwardStep("", s, resolve);
    assert s[|Spelling(Hole(key))|..] == after;
    assert "" + value == value;
    OnwardFromNothing(s, resolve);
  }

  // ------------------------------------------------------------------ what a placeholder means

  /** The text between the braces is a key alone, or a key and, after the first `:-`, a default. */
  predicate Splits(expr: string, key: string, default: Option<string>) {
    && Find(key, ":-").None?
    && expr == match default { case None => key case Some(d) => key + ":-" + d }
  }

  lemma ClearOfSeparator(key: string)
    requires Find(key, ":-").None?
    ensures Clear(key, ":-")
  {
    forall k | 0 <= k < |key| ensures !StartsWith((key + ":-")[k..], ":-") {
      var rest := (key + ":-")[k..];
      if k == |key| - 1 {
        assert rest[..2][1] == ':';
      } else {
        assert rest[..2] == key[k..][..2];
        assert !StartsWith(key[k..], ":-");
      }
    }
  }

  /** There is one such way to read any text. */
  lemma EveryHoleSplits(expr: string) returns (key: string, default: Option<string>)
    ensures Splits(expr, key, default)
  {
    match Find(expr, ":-")
    case None => key, default := expr, None;
    case Some(at) =>
      key, default := expr[..at], Some(expr[at + 2..]);
      forall k | 0 <= k <= |key| ensures !StartsWith(key[k..], ":-") {
        if k + 2 <= at {
          assert expr[k..][..2] == expr[k..k + 2] == key[k..k + 2] == key[k..][..2];
          assert !StartsWith(expr[k..], ":-");
        }
      }
      assert expr == key + expr[at..][..2] + expr[at + 2..];
  }

  lemma KeyOfSplits(expr: string, key: string, default: Option<string>)
    requires Splits(expr, key, default)
    ensures KeyOf(expr) == (key, default)
  {
    if default.Some? {
      ClearOfSeparator(key);
      SplitOnceAt(key, ":-", default.value);
    }
  }

  /** A placeholder is its variable's value, or else the text after its first `:-`, and expansion goes on behind it;
      it is an error when nothing is between the braces, nothing is before the `:-`, or there is neither value nor
      default. */
  lemma PlaceholderMeans(expr: string, key: string, default: Option<string>, after: string, resolve: Resolver)
    requires Unclosed(expr, 0, |expr|) && Splits(expr, key, default)
    ensures Expand("${" + expr + "}" + after, resolve) ==
      if expr == "" then Err(EmptyPlaceholder)
      else if key == "" then Err(EmptyKey)
      else if resolve(key).Some? then Onward(resolve(key).value, after, resolve)
      else if default.Some? then Onward(default.value, after, resolve)
      else Err(MissingVariable(key))
  {
    hide Expand, Onward, KeyOf, Find;
    var s := "${" + expr + "}" + after;
    KeyOfSplits(expr, key, default);
    FirstIsUnique(Hole(expr), after);
    OnwardStep("", s, resolve);
    assert s[|Spelling(Hole(expr))|..] == after;
    OnwardFromNothing(s, resolve);
    if Value(Hole(expr), resolve).Ok? { assert "" + Value(Hole(expr), resolve).value == Value(Hole(expr), resolve).value; }
  }

  /** An opener without a closing brace after it is an error. */
  lemma OpenerMustClose(rest: string, resolve: Resolver)
    requires Unclosed(rest, 0, |rest|)
    ensures Expand("${" + rest, resolve) == Err(Unterminated)
  {
    hide Expand, Onward;
    var s := "${" + rest;
    assert forall k :: 2 <= k < |s| ==> s[k] == rest[k - 2];
    OnwardHole("", s, |s|, resolve);
    OnwardFromNothing(s, resolve);
  }
}
