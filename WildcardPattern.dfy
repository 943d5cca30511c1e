/** The part of Python's `re` that the secrets backends use: a pattern
    `^body$` whose body holds literal characters, `.` (any character but a
    newline) and `*` (repeat the previous item), built from a connection id by
    turning the SQL wildcards `%` and `_` into `.*` and `.`. */
module WildcardPattern {
  import opened PyBase

  datatype Atom = Lit(c: char) | AnyChar

  /** One item of a compiled pattern: an atom, repeated when starred. */
  datatype Piece = Piece(atom: Atom, star: bool)

  /** Characters with a meaning in `re` other than `.` and `*`; a body
      holding none of them stays inside the modelled sublanguage. */
  predicate Plain(c: char) {
    c != '\\' && c != '^' && c != '$' && c != '+' && c != '?' && c != '(' && c != ')' &&
    c != '[' && c != ']' && c != '{' && c != '}' && c != '|'
  }

  predicate Restricted(body: string) {
    forall i :: 0 <= i < |body| ==> Plain(body[i])
  }

  function Prepend(p: Piece, rest: Outcome<seq<Piece>>): Outcome<seq<Piece>> {
    match rest
    case Ok(ps) => Ok([p] + ps)
    case Raise(e) => Raise(e)
  }

  /** `re.compile` of a restricted body: `*` with nothing repeatable before it
      ("nothing to repeat", "multiple repeat") raises `re.error`. */
  function Compile(body: string): Outcome<seq<Piece>>
    decreases |body|
  {
    if |body| == 0 then Ok([])
    else if body[0] == '*' then Raise(RegexError)
    else
      var a := if body[0] == '.' then AnyChar else Lit(body[0]);
      if |body| > 1 && body[1] == '*' then Prepend(Piece(a, true), Compile(body[2..]))
      else Prepend(Piece(a, false), Compile(body[1..]))
  }

  predicate AtomMatches(a: Atom, c: char) {
    match a
    case Lit(x) => c == x
    case AnyChar => c != '\n'
  }

  /** The pieces match the whole of `s`. */
  predicate FullMatch(p: seq<Piece>, s: string)
    decreases |p|, |s|
  {
    if |p| == 0 then |s| == 0
    else if p[0].star then
      FullMatch(p[1..], s) || (|s| > 0 && AtomMatches(p[0].atom, s[0]) && FullMatch(p, s[1..]))
    else |s| > 0 && AtomMatches(p[0].atom, s[0]) && FullMatch(p[1..], s[1..])
  }

  /** `re.search("^" + body + "$", s)` with `body` compiled to `p`: `$` also
      matches just before a final newline. */
  predicate Anchored(p: seq<Piece>, s: string) {
    FullMatch(p, s) || (|s| > 0 && s[|s| - 1] == '\n' && FullMatch(p, s[..|s| - 1]))
  }

  /** `x.replace('%', '.*').replace('_', '.')`, character by character. */
  function Wildcards(x: string): string {
    if |x| == 0 then []
    else (if x[0] == '%' then ".*" else if x[0] == '_' then "." else [x[0]]) + Wildcards(x[1..])
  }

  /** The two `str.replace` calls are the character-wise translation. */
  lemma {:induction false} WildcardsIsReplace(x: string)
    ensures Replace(Replace(x, "%", ".*"), "_", ".") == Wildcards(x)
    decreases |x|
  {
    if |x| > 0 {
      WildcardsIsReplace(x[1..]);
      var head := if x[0] == '%' then ".*" else [x[0]];
      assert Replace(x, "%", ".*") == head + Replace(x[1..], "%", ".*") by {
        if x[0] == '%' { assert "%" <= x; } else { assert !("%" <= x); }
      }
      ReplaceCharAppend(head, Replace(x[1..], "%", ".*"), '_', ".");
      if x[0] == '%' {
        assert Replace(".*", "_", ".") == ".*" by {
          assert !("_" <= ".*");
          assert ".*"[1..] == "*";
          assert !("_" <= "*");
          assert "*"[1..] == [];
        }
      } else {
        assert Replace([x[0]], "_", ".") == (if x[0] == '_' then "." else [x[0]]) by {
          assert [x[0]][1..] == [];
          if x[0] == '_' { assert "_" <= [x[0]]; } else { assert !("_" <= [x[0]]); }
        }
      }
    }
  }

  /** The characters of connection ids for which the pattern is exactly a
      SQL LIKE pattern. */
  predicate LikeChar(c: char) {
    'A' <= c <= 'Z' || 'a' <= c <= 'z' || '0' <= c <= '9' || c == '-' || c == '%' || c == '_'
  }

  /** SQL `s LIKE pat`: `%` any run of characters, `_` any one character,
      every other character itself. */
  predicate Like(pat: string, s: string)
    decreases |pat|, |s|
  {
    if |pat| == 0 then |s| == 0
    else if pat[0] == '%' then Like(pat[1..], s) || (|s| > 0 && Like(pat, s[1..]))
    else |s| > 0 && (pat[0] == '_' || pat[0] == s[0]) && Like(pat[1..], s[1..])
  }

  /** The pieces a LIKE pattern compiles to. */
  function LikePieces(x: string): seq<Piece> {
    if |x| == 0 then []
    else [if x[0] == '%' then Piece(AnyChar, true)
          else if x[0] == '_' then Piece(AnyChar, false)
          else Piece(Lit(x[0]), false)] + LikePieces(x[1..])
  }

  /** A translated LIKE pattern compiles, to `LikePieces`. */
  lemma {:induction false} CompileWildcards(x: string)
    requires forall i :: 0 <= i < |x| ==> LikeChar(x[i])
    ensures Compile(Wildcards(x)) == Ok(LikePieces(x))
    ensures |x| > 0 ==> Wildcards(x)[0] != '*'
    decreases |x|
  {
    if |x| > 0 {
      CompileWildcards(x[1..]);
      var w := Wildcards(x);
      var rest := Wildcards(x[1..]);
      if x[0] == '%' {
        assert w == ".*" + rest;
        assert w[2..] == rest;
      } else {
        assert w == [if x[0] == '_' then '.' else x[0]] + rest;
        assert w[1..] == rest;
      }
    }
  }

  /** On strings without a newline, the compiled pieces match exactly the
      strings the LIKE pattern matches. */
  lemma {:induction false} LikePiecesMatch(x: string, s: string)
    requires forall i :: 0 <= i < |x| ==> LikeChar(x[i])
    requires '\n' !in s
    ensures FullMatch(LikePieces(x), s) <==> Like(x, s)
    decreases |x|, |s|
  {
    if |x| > 0 {
      var p := LikePieces(x);
      assert p[1..] == LikePieces(x[1..]);
      LikePiecesMatch(x[1..], s);
      if |s| > 0 {
        assert s[0] in s;
        assert '\n' !in s[1..] by { assert forall c :: c in s[1..] ==> c in s; }
        LikePiecesMatch(x[1..], s[1..]);
        if x[0] == '%' {
          LikePiecesMatch(x, s[1..]);
        }
      }
    }
  }

  /** The pieces of a run of literal characters. */
  function Lits(a: string): seq<Piece> {
    if |a| == 0 then [] else [Piece(Lit(a[0]), false)] + Lits(a[1..])
  }

  /** The compiled pieces of `r`, when it compiles, after those of `a`. */
  function WithLits(a: string, r: Outcome<seq<Piece>>): Outcome<seq<Piece>> {
    match r
    case Ok(ps) => Ok(Lits(a) + ps)
    case Raise(e) => Raise(e)
  }

  lemma WithLitsCons(a: string, r: Outcome<seq<Piece>>)
    requires |a| > 0
    ensures WithLits(a, r) == Prepend(Piece(Lit(a[0]), false), WithLits(a[1..], r))
  {
    match r
    case Ok(ps) =>
      assert Lits(a) + ps == [Piece(Lit(a[0]), false)] + (Lits(a[1..]) + ps);
    case Raise(e) =>
  }

  /** A literal prefix with no `.` and no `*`, followed by a body that does
      not start with `*`, compiles to its literals and then the body. */
  lemma {:induction false} CompileLiteralPrefix(a: string, b: string)
    requires forall i :: 0 <= i < |a| ==> a[i] != '.' && a[i] != '*'
    requires |b| == 0 || b[0] != '*'
    ensures Compile(a + b) == WithLits(a, Compile(b))
    decreases |a|
  {
    if |a| == 0 {
      assert a + b == b;
      match Compile(b)
      case Ok(ps) => assert Lits(a) + ps == ps;
      case Raise(e) =>
    } else {
      var ab := a + b;
      assert ab[0] == a[0] && ab[0] != '*' && ab[0] != '.';
      assert ab[1..] == a[1..] + b;
      assert |ab| > 1 ==> ab[1] != '*' by {
        if |a| > 1 { assert ab[1] == a[1]; } else if |ab| > 1 { assert ab[1] == b[0]; }
      }
      assert Compile(ab) == Prepend(Piece(Lit(a[0]), false), Compile(ab[1..]));
      CompileLiteralPrefix(a[1..], b);
      WithLitsCons(a, Compile(b));
    }
  }

  /** Literal pieces match exactly their own characters. */
  lemma {:induction false} FullMatchLits(a: string, p: seq<Piece>, s: string)
    ensures FullMatch(Lits(a) + p, s) <==> a <= s && FullMatch(p, s[|a|..])
    decreases |a|
  {
    if |a| > 0 {
      var q := Lits(a) + p;
      assert q[0] == Piece(Lit(a[0]), false);
      assert q[1..] == Lits(a[1..]) + p;
      if |s| > 0 {
        assert FullMatch(q, s) == (s[0] == a[0] && FullMatch(q[1..], s[1..]));
        FullMatchLits(a[1..], p, s[1..]);
        assert a <= s <==> a[0] == s[0] && a[1..] <= s[1..];
        if a[1..] <= s[1..] {
          assert s[1..][|a| - 1..] == s[|a|..];
        }
      }
    } else {
      assert Lits(a) + p == p && s[0..] == s;
    }
  }
}
