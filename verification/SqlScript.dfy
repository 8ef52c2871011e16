/** Cutting a migration script into single statements. The splitter is one loop over flags; it is proved
    against a lexer that loses nothing, and its output is the fixpoint of joining and splitting again. */
module SqlScript {
  import opened Text

  // ------------------------------------------------------------------ the lexer

  datatype Mode = Plain | Single | Dollar

  datatype Token = Kept(text: string) | Cut | Comment(text: string) {
    function Source(): string {
      match this
      case Kept(text) => text
      case Cut => ";"
      case Comment(text) => text
    }
  }

  /** Whether `s` begins with `c` twice. */
  predicate Doubled(s: string, c: char) {
    |s| >= 2 && s[0] == c && s[1] == c
  }

  function UpToNewline(s: string): (r: string)
    ensures |r| <= |s| && r == s[..|r|] && '\n' !in r
    ensures |r| < |s| ==> s[|r|] == '\n'
  {
    if s == "" || s[0] == '\n' then "" else [s[0]] + UpToNewline(s[1..])
  }

  function Step(s: string, mode: Mode): (r: (Token, Mode))
    requires s != ""
    ensures var text := r.0.Source(); 0 < |text| <= |s| && text == s[..|text|]
  {
    if mode != Single && Doubled(s, '$') then (Kept("$$"), if mode == Dollar then Plain else Dollar)
    else if mode != Dollar && s[0] == '\'' then (Kept("'"), if mode == Single then Plain else Single)
    else if mode == Plain && Doubled(s, '-') then (Comment(UpToNewline(s)), Plain)
    else if mode == Plain && s[0] == ';' then (Cut, Plain)
    else (Kept([s[0]]), mode)
  }

  function After(s: string, mode: Mode): (r: string)
    requires s != ""
    ensures |r| < |s| && Step(s, mode).0.Source() + r == s
  {
    s[|Step(s, mode).0.Source()|..]
  }

  function Lex(s: string, mode: Mode): seq<Token>
    decreases |s|
  {
    if s == "" then [] else [Step(s, mode).0] + Lex(After(s, mode), Step(s, mode).1)
  }

  /** The mode at the end of `s`. */
  function End(s: string, mode: Mode): Mode
    decreases |s|
  {
    if s == "" then mode else End(After(s, mode), Step(s, mode).1)
  }

  function Source(ts: seq<Token>): string {
    if ts == [] then "" else ts[0].Source() + Source(ts[1..])
  }

  /** The lexer loses nothing. */
  lemma {:induction false} LexIsLossless(s: string, mode: Mode)
    ensures Source(Lex(s, mode)) == s
    decreases |s|
  {
    if s != "" {
      LexIsLossless(After(s, mode), Step(s, mode).1);
    }
  }

  // ------------------------------------------------------------------ the statements of a script

  /** The texts between cuts, comments left out. */
  function Pieces(ts: seq<Token>): (r: seq<string>)
    ensures r != []
  {
    if ts == [] then [""]
    else
      var rest := Pieces(ts[1..]);
      match ts[0]
      case Kept(text) => [text + rest[0]] + rest[1..]
      case Cut => [""] + rest
      case Comment(_) => rest
  }

  function Split(script: string): seq<string> {
    Tidy(Pieces(Lex(script, Plain)))
  }

  function ModeOf(inDollar: bool, inSingle: bool): Mode
    requires !(inDollar && inSingle)
  {
    if inDollar then Dollar else if inSingle then Single else Plain
  }

  /** The statements still to come when `buf` is read and `ts` is not. */
  function Ahead(buf: string, ts: seq<Token>): seq<string> {
    Tidy([buf + Pieces(ts)[0]] + Pieces(ts)[1..])
  }

  lemma {:induction false} AheadKept(buf: string, text: string, ts: seq<Token>)
    ensures Ahead(buf, [Kept(text)] + ts) == Ahead(buf + text, ts)
  {
    PiecesOfRest(Kept(text), ts);
    assert buf + (text + Pieces(ts)[0]) == (buf + text) + Pieces(ts)[0];
  }

  lemma {:induction false} AheadCut(before: seq<string>, buf: string, ts: seq<Token>)
    ensures before + Ahead(buf, [Cut] + ts)
         == (if Strip(buf) == "" then before else before + [Strip(buf)]) + Ahead("", ts)
  {
    PiecesOfRest(Cut, ts);
    assert buf + "" == buf && "" + Pieces(ts)[0] == Pieces(ts)[0];
    assert [Pieces(ts)[0]] + Pieces(ts)[1..] == Pieces(ts);
    assert ([buf] + Pieces(ts))[1..] == Pieces(ts);
  }

  lemma {:induction false} AheadComment(buf: string, text: string, ts: seq<Token>)
    ensures Ahead(buf, [Comment(text)] + ts) == Ahead(buf, ts)
  {
    PiecesOfRest(Comment(text), ts);
  }

  lemma {:induction false} AheadAtEnds(buf: string, ts: seq<Token>)
    ensures Ahead("", ts) == Tidy(Pieces(ts)) && Ahead(buf, []) == TidyOne(buf)
  {
    assert "" + Pieces(ts)[0] == Pieces(ts)[0];
    assert [Pieces(ts)[0]] + Pieces(ts)[1..] == Pieces(ts);
    assert buf + "" == buf;
    assert Tidy([buf]) == TidyOne(buf) + Tidy([]);
  }

  lemma {:induction false} DropTwice(s: string, i: nat, n: nat)
    requires i + n <= |s|
    ensures s[i..][n..] == s[i + n..]
  {
  }

  lemma {:induction false} LexAt(script: string, i: nat, mode: Mode, token: Token, next: Mode)
    requires i < |script| && Step(script[i..], mode) == (token, next)
    ensures i + |token.Source()| <= |script|
    ensures Lex(script[i..], mode) == [token] + Lex(script[i + |token.Source()|..], next)
  {
    DropTwice(script, i, |token.Source()|);
    assert After(script[i..], mode) == script[i + |token.Source()|..];
  }

  lemma {:induction false} PiecesOfRest(token: Token, ts: seq<Token>)
    ensures Pieces([token] + ts) ==
            match token
            case Kept(text) => [text + Pieces(ts)[0]] + Pieces(ts)[1..]
            case Cut => [""] + Pieces(ts)
            case Comment(_) => Pieces(ts)
  {
    assert ([token] + ts)[1..] == ts;
  }

  predicate PairAt(script: string, i: nat) {
    i + 1 < |script| && script[i] == script[i + 1]
  }

  function DollarToggled(mode: Mode): Mode {
    if mode == Dollar then Plain else Dollar
  }

  function SingleToggled(mode: Mode): Mode {
    if mode == Single then Plain else Single
  }

  lemma {:induction false} LexDollars(script: string, i: nat, mode: Mode)
    requires PairAt(script, i) && script[i] == '$' && mode != Single
    ensures Lex(script[i..], mode) == [Kept("$$")] + Lex(script[i + 2..], DollarToggled(mode))
  {
    LexAt(script, i, mode, Kept("$$"), DollarToggled(mode));
  }

  lemma {:induction false} LexQuote(script: string, i: nat, mode: Mode)
    requires i < |script| && script[i] == '\'' && mode != Dollar
    ensures Lex(script[i..], mode) == [Kept("'")] + Lex(script[i + 1..], SingleToggled(mode))
  {
    LexAt(script, i, mode, Kept("'"), SingleToggled(mode));
  }

  lemma {:induction false} CommentAt(s: string)
    requires Doubled(s, '-')
    ensures Step(s, Plain) == (Comment(UpToNewline(s)), Plain)
  {
  }

  lemma {:induction false} LexComment(script: string, i: nat)
    requires PairAt(script, i) && script[i] == '-'
    ensures var end := LineEnd(script, i);
            Lex(script[i..], Plain) == [Comment(script[i..end])] + Lex(script[end..], Plain)
  {
    LineEndIs(script, i);
    CommentAt(script[i..]);
    LexCommentTo(script, i, LineEnd(script, i), script[i..LineEnd(script, i)]);
  }

  lemma {:induction false} LexCommentTo(script: string, i: nat, end: nat, text: string)
    requires i < |script| && i <= end <= |script| && text == script[i..end]
    requires Step(script[i..], Plain) == (Comment(text), Plain)
    ensures Lex(script[i..], Plain) == [Comment(text)] + Lex(script[end..], Plain)
  {
    assert script[i..] == text + script[end..];
    LexStep(script[i..], Plain, Comment(text), Plain, script[end..]);
  }

  lemma {:induction false} LexStep(s: string, mode: Mode, token: Token, next: Mode, rest: string)
    requires s != "" && s == token.Source() + rest && Step(s, mode) == (token, next)
    ensures Lex(s, mode) == [token] + Lex(rest, next)
  {
    assert After(s, mode) == rest;
  }

  /** The position of the next newline, or the end. */
  function LineEnd(script: string, i: nat): (end: nat)
    requires i <= |script|
    ensures i <= end <= |script|
    decreases |script| - i
  {
    if i < |script| && script[i] != '\n' then LineEnd(script, i + 1) else i
  }

  lemma {:induction false} LineEndIs(script: string, i: nat)
    requires i <= |script|
    ensures UpToNewline(script[i..]) == script[i..LineEnd(script, i)]
    decreases |script| - i
  {
    if i < |script| && script[i] != '\n' {
      assert script[i..][1..] == script[i + 1..];
      LineEndIs(script, i + 1);
    }
  }

  lemma {:induction false} LexCut(script: string, i: nat)
    requires i < |script| && script[i] == ';'
    ensures Lex(script[i..], Plain) == [Cut] + Lex(script[i + 1..], Plain)
  {
    LexAt(script, i, Plain, Cut, Plain);
  }

  lemma {:induction false} LexOther(script: string, i: nat, mode: Mode)
    requires i < |script| && (script[i] == '\'' ==> mode == Dollar) && (script[i] == ';' ==> mode != Plain)
    requires PairAt(script, i) ==> (script[i] == '$' ==> mode == Single) && (script[i] == '-' ==> mode != Plain)
    ensures Lex(script[i..], mode) == [Kept([script[i]])] + Lex(script[i + 1..], mode)
  {
    LexAt(script, i, mode, Kept([script[i]]), mode);
  }

  method FindNewline(script: string, from: nat) returns (end: int)
    requires from <= |script|
    ensures (if end == -1 then |script| else end) == LineEnd(script, from)
  {
    var i := from;
    while i < |script| && script[i] != '\n'
      invariant from <= i <= |script|
      invariant LineEnd(script, i) == LineEnd(script, from)
    {
      i := i + 1;
    }
    end := if i < |script| then i else -1;
  }

  /** The splitter cuts where the lexer does. */
  method SplitSql(script: string) returns (statements: seq<string>)
    ensures statements == Split(script)
  {
    statements := [];
    var buf, inDollar, inSingle, i := "", false, false, 0;
    ghost var ts := Lex(script, Plain);
    assert script[0..] == script;
    AheadAtEnds(buf, ts);
    while i < |script|
      invariant 0 <= i <= |script| && !(inDollar && inSingle)
      invariant ts == Lex(script[i..], ModeOf(inDollar, inSingle))
      invariant Split(script) == statements + Ahead(buf, ts)
    {
      ghost var mode := ModeOf(inDollar, inSingle);
      var ch := script[i];
      var next := if i + 1 < |script| then [script[i + 1]] else "";
      if !inSingle && ch == '$' && next == "$" {
        LexDollars(script, i, mode);
        ts := Lex(script[i + 2..], DollarToggled(mode));
        AheadKept(buf, "$$", ts);
        inDollar := !inDollar;
        buf := buf + "$$";
        i := i + 2;
        assert ts == Lex(script[i..], ModeOf(inDollar, inSingle));
        continue;
      }
      if !inDollar && ch == '\'' {
        inSingle := !inSingle;
      }
      if !inDollar && !inSingle && ch == '-' && next == "-" {
        LexComment(script, i);
        ts := Lex(script[LineEnd(script, i)..], Plain);
        AheadComment(buf, script[i..LineEnd(script, i)], ts);
        var end := FindNewline(script, i);
        i := if end == -1 then |script| else end;
        assert ts == Lex(script[i..], Plain);
        continue;
      }
      if ch == ';' && !inDollar && !inSingle {
        LexCut(script, i);
        ts := Lex(script[i + 1..], ModeOf(inDollar, inSingle));
        ghost var rest := Ahead("", ts);
        AheadCut(statements, buf, ts);
        var stmt := Strip(buf);
        if stmt != "" {
          statements := statements + [stmt];
        }
        assert Split(script) == statements + rest;
        buf := "";
      } else {
        if ch == '\'' && !inDollar {
          LexQuote(script, i, mode);
        } else {
          LexOther(script, i, mode);
        }
        ts := Lex(script[i + 1..], ModeOf(inDollar, inSingle));
        AheadKept(buf, [ch], ts);
        buf := buf + [ch];
      }
      i := i + 1;
      assert ts == Lex(script[i..], ModeOf(inDollar, inSingle));
    }
    AheadAtEnds(buf, ts);
    var tail := Strip(buf);
    if tail != "" {
      statements := statements + [tail];
    }
  }

  // ------------------------------------------------------------------ what a statement looks like

  /** Everything in `s` is kept: no cut and no comment. */
  predicate Clean(s: string, mode: Mode)
    decreases |s|
  {
    s == "" || (Step(s, mode).0.Kept? && Clean(After(s, mode), Step(s, mode).1))
  }

  /** The text of a script without comments, cuts and white space outside quotes. */
  function Solid(s: string, mode: Mode): string
    decreases |s|
  {
    if s == "" then ""
    else Weight(Step(s, mode).0, mode) + Solid(After(s, mode), Step(s, mode).1)
  }

  function Weight(token: Token, mode: Mode): string {
    if token.Kept? && !(mode == Plain && Blank(token.text)) then token.text else ""
  }

  lemma {:induction false} StepOfPrefix(s: string, mode: Mode, i: nat)
    requires 0 < i < |s| && Step(s, mode).0.Kept? && (s[i] == ';' || s[i] == '-')
    ensures |Step(s, mode).0.Source()| <= i
    ensures Step(s[..i], mode) == Step(s, mode)
  {
    if i == 1 {
      assert s[..i] == [s[0]];
    } else {
      assert s[..i][0] == s[0] && s[..i][1] == s[1];
    }
  }

  lemma {:induction false} TakeThenDrop(s: string, n: nat, i: nat)
    requires n <= i < |s|
    ensures s[..i][n..] == s[n..][..i - n] && s[n..][i - n] == s[i]
    ensures PairAt(s, i) ==> PairAt(s[n..], i - n)
  {
  }

  /** In a clean text every `;` and every `--` is inside quotes. */
  lemma {:induction false} CleanHidesCutsAndComments(s: string, mode: Mode, i: nat)
    requires Clean(s, mode) && i < |s|
    requires s[i] == ';' || (s[i] == '-' && PairAt(s, i))
    ensures End(s[..i], mode) != Plain
    decreases |s|
  {
    if i > 0 {
      StepOfPrefix(s, mode, i);
      var rest, n := After(s, mode), |Step(s, mode).0.Source()|;
      TakeThenDrop(s, n, i);
      CleanHidesCutsAndComments(rest, Step(s, mode).1, i - n);
    }
  }

  /** `t` can stand where `rest` stood without changing how what is before it is lexed. */
  predicate CanFollow(rest: string, t: string) {
    t == "" || (t[0] != '$' && t[0] != '-') || (rest != "" && t[0] == rest[0])
  }

  lemma {:induction false} KeptStands(s: string, mode: Mode, t: string)
    requires s != "" && Step(s, mode).0.Kept? && CanFollow(After(s, mode), t)
    ensures var text := Step(s, mode).0.text;
            Step(text + t, mode) == Step(s, mode) && After(text + t, mode) == t
  {
    var rest := After(s, mode);
    if Step(s, mode).0.text == "$$" {
      assert ("$$" + t)[0] == '$' && ("$$" + t)[1] == '$';
    } else {
      var c := s[0];
      assert Step(s, mode).0.text == [c];
      assert rest != "" ==> rest[0] == s[1];
      assert ([c] + t)[0] == c && (t != "" ==> ([c] + t)[1] == t[0]);
    }
  }

  lemma {:induction false} KeptThen(s: string, mode: Mode, t: string)
    requires s != "" && Step(s, mode).0.Kept? && CanFollow(After(s, mode), t)
    ensures var (token, next) := Step(s, mode);
            && (Clean(token.text + t, mode) <==> Clean(t, next))
            && End(token.text + t, mode) == End(t, next)
            && Solid(token.text + t, mode) == Weight(token, mode) + Solid(t, next)
  {
    KeptStands(s, mode, t);
    assert Step(s, mode).0.text + t != "";
  }

  /** What is pieced together begins like the source, or with the newline that ended a comment. */
  lemma {:induction false} PieceBegins(s: string, mode: Mode)
    ensures var piece := Pieces(Lex(s, mode))[0];
            piece != "" ==> s != "" && (piece[0] == s[0] || piece[0] == '\n')
    decreases |s|
  {
    if s != "" {
      var (token, next) := Step(s, mode);
      var rest := After(s, mode);
      PiecesOfRest(token, Lex(rest, next));
      if token.Comment? && rest != "" {
        PieceBegins(rest, next);
      }
    }
  }

  /** Pieces are clean, and all but the last end outside quotes. */
  ghost predicate CleanPieces(ps: seq<string>, mode: Mode) {
    && ps != [] && Clean(ps[0], mode) && (|ps| > 1 ==> End(ps[0], mode) == Plain)
    && (|ps| > 1 ==> CleanPieces(ps[1..], Plain))
  }

  lemma {:induction false} LexedPiecesAreClean(s: string, mode: Mode)
    ensures CleanPieces(Pieces(Lex(s, mode)), mode)
    decreases |s|
  {
    if s != "" {
      var (token, next) := Step(s, mode);
      var rest := After(s, mode);
      LexedPiecesAreClean(rest, next);
      var ps := Pieces(Lex(rest, next));
      PiecesOfRest(token, Lex(rest, next));
      match token
      case Kept(text) =>
        PieceBegins(rest, next);
        KeptThen(s, mode, ps[0]);
        assert ([text + ps[0]] + ps[1..])[1..] == ps[1..];
      case Cut =>
        assert ([""] + ps)[1..] == ps;
      case Comment(_) =>
    }
  }

  lemma {:induction false} CleanIsOnePiece(s: string, mode: Mode)
    requires Clean(s, mode)
    ensures Pieces(Lex(s, mode)) == [s]
    decreases |s|
  {
    if s != "" {
      var (token, next) := Step(s, mode);
      CleanIsOnePiece(After(s, mode), next);
      PiecesOfRest(token, Lex(After(s, mode), next));
    }
  }

  lemma {:induction false} CutAfterClean(s: string, mode: Mode, more: string)
    requires Clean(s, mode) && End(s, mode) == Plain
    ensures Pieces(Lex(s + ";" + more, mode)) == [s] + Pieces(Lex(more, Plain))
    decreases |s|
  {
    if s == "" {
      assert s + ";" + more == ";" + more;
      assert After(";" + more, Plain) == more;
      PiecesOfRest(Cut, Lex(more, Plain));
    } else {
      var (token, next) := Step(s, mode);
      var rest := After(s, mode);
      KeptStands(s, mode, rest + ";" + more);
      assert token.text + (rest + ";" + more) == s + ";" + more;
      CutAfterClean(rest, next, more);
      PiecesOfRest(token, Lex(rest + ";" + more, next));
    }
  }

  // ------------------------------------------------------------------ stripping

  lemma {:induction false} StripLeftStaysClean(s: string)
    requires Clean(s, Plain)
    ensures Clean(StripLeft(s), Plain) && End(StripLeft(s), Plain) == End(s, Plain)
  {
    if s != "" && IsSpace(s[0]) {
      assert After(s, Plain) == s[1..];
      StripLeftStaysClean(s[1..]);
    }
  }

  lemma {:induction false} DropSpace(s: string, mode: Mode, c: char)
    requires Clean(s + [c], mode) && IsSpace(c)
    ensures Clean(s, mode) && End(s, mode) == End(s + [c], mode)
    decreases |s|
  {
    if s == "" {
      assert s + [c] == [c] && After([c], mode) == "";
    } else {
      StepBeforeSpace(s, mode, c);
      assert After(s + [c], mode) == After(s, mode) + [c];
      DropSpace(After(s, mode), Step(s, mode).1, c);
    }
  }

  lemma {:induction false} StepBeforeSpace(s: string, mode: Mode, c: char)
    requires s != "" && IsSpace(c) && Step(s + [c], mode).0.Kept?
    ensures Step(s, mode) == Step(s + [c], mode)
  {
    assert (s + [c])[0] == s[0] && (s + [c])[1] == if |s| > 1 then s[1] else c;
  }

  lemma {:induction false} StripRightStaysClean(s: string, mode: Mode)
    requires Clean(s, mode)
    ensures Clean(StripRight(s), mode) && End(StripRight(s), mode) == End(s, mode)
  {
    if s != "" && IsSpace(s[|s| - 1]) {
      var init := s[..|s| - 1];
      assert s == init + [s[|s| - 1]];
      DropSpace(init, mode, s[|s| - 1]);
      StripRightStaysClean(init, mode);
    }
  }

  // ------------------------------------------------------------------ joining and splitting again

  /** What a list of statements must be to survive being joined: each one stripped, not blank, with
      nothing to cut or to drop, and all but the last closing their quotes. */
  predicate Statements(outs: seq<string>) {
    outs == [] ||
    (&& outs[0] != "" && Strip(outs[0]) == outs[0] && Clean(outs[0], Plain)
     && (|outs| > 1 ==> End(outs[0], Plain) == Plain)
     && Statements(outs[1..]))
  }

  function Join(outs: seq<string>): string {
    if outs == [] then "" else if |outs| == 1 then outs[0] else outs[0] + ";" + Join(outs[1..])
  }

  lemma {:induction false} StripStaysClean(s: string)
    requires Clean(s, Plain)
    ensures Clean(Strip(s), Plain) && End(Strip(s), Plain) == End(s, Plain)
  {
    StripLeftStaysClean(s);
    StripRightStaysClean(StripLeft(s), Plain);
  }

  lemma {:induction false} TidiedPiecesAreStatements(ps: seq<string>)
    requires CleanPieces(ps, Plain)
    ensures Statements(Tidy(ps))
  {
    if |ps| > 1 {
      TidiedPiecesAreStatements(ps[1..]);
    } else {
      assert Tidy(ps[1..]) == [];
    }
    TidyTail(ps);
    StripStaysClean(ps[0]);
    StripIsIdempotent(ps[0]);
  }

  lemma {:induction false} SplitGivesStatements(script: string)
    ensures Statements(Split(script))
  {
    LexedPiecesAreClean(script, Plain);
    TidiedPiecesAreStatements(Pieces(Lex(script, Plain)));
  }

  lemma {:induction false} StatementsSurviveJoining(outs: seq<string>)
    requires Statements(outs)
    ensures Split(Join(outs)) == outs
  {
    if |outs| == 1 {
      CleanIsOnePiece(outs[0], Plain);
      assert Tidy([outs[0]]) == [outs[0]] + Tidy([]);
    } else if |outs| > 1 {
      CutAfterClean(outs[0], Plain, Join(outs[1..]));
      var ps := Pieces(Lex(Join(outs[1..]), Plain));
      assert ([outs[0]] + ps)[1..] == ps;
      StatementsSurviveJoining(outs[1..]);
      assert Tidy([outs[0]] + ps) == [outs[0]] + Tidy(ps);
    }
  }

  /** Joining and splitting again is the identity on exactly the lists the splitter can return. */
  lemma {:induction false} SplitIsAFixpoint(script: string, outs: seq<string>)
    ensures Split(Join(Split(script))) == Split(script)
    ensures Split(Join(outs)) == outs <==> Statements(outs)
  {
    SplitGivesStatements(script);
    StatementsSurviveJoining(Split(script));
    SplitGivesStatements(Join(outs));
    if Statements(outs) {
      StatementsSurviveJoining(outs);
    }
  }

  // ------------------------------------------------------------------ nothing else is lost

  function SolidOfAll(ps: seq<string>): string {
    if ps == [] then "" else Solid(ps[0], Plain) + SolidOfAll(ps[1..])
  }

  lemma {:induction false} Regroup(a: string, b: string, c: string)
    ensures a + (b + c) == (a + b) + c && "" + c == c && a + "" == a
  {
  }

  /** The solid text of the pieces of one lexed text. */
  function SolidFrom(ps: seq<string>, mode: Mode): string
    requires ps != []
  {
    Solid(ps[0], mode) + SolidOfAll(ps[1..])
  }

  lemma {:induction false} PrependSolid(ps: seq<string>, s: string, mode: Mode)
    requires ps != [] && s != "" && Step(s, mode).0.Kept? && CanFollow(After(s, mode), ps[0])
    ensures var (token, next) := Step(s, mode);
            SolidFrom([token.text + ps[0]] + ps[1..], mode) == Weight(token, mode) + SolidFrom(ps, next)
  {
    var (token, next) := Step(s, mode);
    KeptThen(s, mode, ps[0]);
    assert ([token.text + ps[0]] + ps[1..])[1..] == ps[1..];
    Regroup(Weight(token, mode), Solid(ps[0], next), SolidOfAll(ps[1..]));
  }

  lemma {:induction false} CutSolid(ps: seq<string>)
    requires ps != []
    ensures SolidFrom([""] + ps, Plain) == SolidFrom(ps, Plain)
  {
    assert ([""] + ps)[1..] == ps;
    Regroup("", "", SolidOfAll(ps));
  }

  lemma {:induction false} SolidSkips(s: string, mode: Mode)
    requires s != "" && !Step(s, mode).0.Kept?
    ensures mode == Plain && Step(s, mode).1 == Plain && Solid(s, Plain) == Solid(After(s, Plain), Plain)
  {
    Regroup("", "", Solid(After(s, Plain), Plain));
  }

  lemma {:induction false} PiecesAfterStep(s: string, mode: Mode) returns (ps: seq<string>)
    requires s != ""
    ensures ps == Pieces(Lex(After(s, mode), Step(s, mode).1)) && CanFollow(After(s, mode), ps[0])
    ensures Pieces(Lex(s, mode)) == match Step(s, mode).0
                                    case Kept(text) => [text + ps[0]] + ps[1..]
                                    case Cut => [""] + ps
                                    case Comment(_) => ps
  {
    var ts := Lex(After(s, mode), Step(s, mode).1);
    ps := Pieces(ts);
    PieceBegins(After(s, mode), Step(s, mode).1);
    PiecesOfRest(Step(s, mode).0, ts);
  }

  lemma {:induction false} PiecesKeepTheSolid(s: string, mode: Mode)
    ensures Solid(s, mode) == SolidFrom(Pieces(Lex(s, mode)), mode)
    decreases |s|
  {
    if s == "" {
      assert Pieces(Lex(s, mode)) == [""] && [""][1..] == [];
    } else {
      PiecesKeepTheSolid(After(s, mode), Step(s, mode).1);
      var ps := PiecesAfterStep(s, mode);
      if Step(s, mode).0.Kept? {
        PrependSolid(ps, s, mode);
      } else {
        SolidSkips(s, mode);
        CutSolid(ps);
      }
    }
  }

  lemma {:induction false} StripLeftKeepsTheSolid(s: string)
    requires Clean(s, Plain)
    ensures Solid(StripLeft(s), Plain) == Solid(s, Plain)
  {
    if s != "" && IsSpace(s[0]) {
      assert After(s, Plain) == s[1..];
      StripLeftKeepsTheSolid(s[1..]);
    }
  }

  lemma {:induction false} DropSpaceSolid(s: string, mode: Mode, c: char)
    requires Clean(s + [c], mode) && IsSpace(c)
    ensures Solid(s + [c], mode) == Solid(s, mode) + (if End(s, mode) == Plain then "" else [c])
    decreases |s|
  {
    if s == "" {
      assert s + [c] == [c] && After([c], mode) == "";
      assert Step([c], mode) == (Kept([c]), mode);
    } else {
      StepBeforeSpace(s, mode, c);
      var (token, next) := Step(s, mode);
      var rest := After(s, mode);
      assert After(s + [c], mode) == rest + [c];
      DropSpaceSolid(rest, next, c);
      Regroup(Weight(token, mode), Solid(rest, next), if End(rest, next) == Plain then "" else [c]);
    }
  }

  lemma {:induction false} StripRightSolid(s: string) returns (space: string)
    requires Clean(s, Plain)
    ensures Solid(s, Plain) == Solid(StripRight(s), Plain) + space && Blank(space)
    ensures End(s, Plain) == Plain ==> space == ""
  {
    space := "";
    if s != "" && IsSpace(s[|s| - 1]) {
      var init, c := s[..|s| - 1], s[|s| - 1];
      assert s == init + [c];
      DropSpace(init, Plain, c);
      DropSpaceSolid(init, Plain, c);
      var more := StripRightSolid(init);
      var last := if End(init, Plain) == Plain then "" else [c];
      space := more + last;
      Regroup(Solid(StripRight(s), Plain), more, last);
    } else {
      Regroup(Solid(s, Plain), "", "");
    }
  }

  lemma {:induction false} StripSolid(s: string) returns (space: string)
    requires Clean(s, Plain)
    ensures Solid(s, Plain) == Solid(Strip(s), Plain) + space && Blank(space)
    ensures End(s, Plain) == Plain ==> space == ""
  {
    StripLeftStaysClean(s);
    StripLeftKeepsTheSolid(s);
    space := StripRightSolid(StripLeft(s));
  }

  lemma {:induction false} TidySolid(ps: seq<string>)
    requires ps != []
    ensures SolidOfAll(Tidy(ps)) == Solid(Strip(ps[0]), Plain) + SolidOfAll(Tidy(ps[1..]))
  {
    TidyTail(ps);
    Regroup("", "", SolidOfAll(Tidy(ps[1..])));
  }

  lemma {:induction false} TidyKeepsTheSolid(ps: seq<string>) returns (space: string)
    requires CleanPieces(ps, Plain)
    ensures SolidOfAll(ps) == SolidOfAll(Tidy(ps)) + space && Blank(space)
    ensures End(ps[|ps| - 1], Plain) == Plain ==> space == ""
  {
    TidySolid(ps);
    var first := StripSolid(ps[0]);
    var piece := Solid(Strip(ps[0]), Plain);
    if |ps| > 1 {
      space := TidyKeepsTheSolid(ps[1..]);
      Regroup(piece, SolidOfAll(Tidy(ps[1..])), space);
      Regroup(piece, "", "");
    } else {
      space := first;
      assert ps[1..] == [];
      Regroup(piece, "", "");
      Regroup(piece + space, "", "");
    }
  }

  function EndOfLast(ps: seq<string>, mode: Mode): Mode
    requires ps != []
  {
    End(ps[|ps| - 1], if |ps| == 1 then mode else Plain)
  }

  lemma {:induction false} PrependEnd(ps: seq<string>, s: string, mode: Mode)
    requires ps != [] && s != "" && Step(s, mode).0.Kept? && CanFollow(After(s, mode), ps[0])
    ensures EndOfLast([Step(s, mode).0.text + ps[0]] + ps[1..], mode) == EndOfLast(ps, Step(s, mode).1)
  {
    KeptThen(s, mode, ps[0]);
  }

  lemma {:induction false} LastPieceEndsTheScript(s: string, mode: Mode)
    ensures End(s, mode) == EndOfLast(Pieces(Lex(s, mode)), mode)
    decreases |s|
  {
    if s != "" {
      LastPieceEndsTheScript(After(s, mode), Step(s, mode).1);
      var ps := PiecesAfterStep(s, mode);
      if Step(s, mode).0.Kept? {
        PrependEnd(ps, s, mode);
      } else {
        SolidSkips(s, mode);
        assert EndOfLast([""] + ps, Plain) == EndOfLast(ps, Plain);
      }
    }
  }

  /** Splitting loses comments, cuts and white space outside quotes, and nothing else: quoted text is
      kept to the letter. If the script ends inside a quote, it also loses the white space at the
      very end. */
  lemma {:induction false} SplittingKeepsTheSolid(script: string) returns (space: string)
    ensures Solid(script, Plain) == SolidOfAll(Split(script)) + space && Blank(space)
    ensures End(script, Plain) == Plain ==> space == ""
  {
    LexedPiecesAreClean(script, Plain);
    PiecesKeepTheSolid(script, Plain);
    LastPieceEndsTheScript(script, Plain);
    space := TidyKeepsTheSolid(Pieces(Lex(script, Plain)));
  }

  // ------------------------------------------------------------------ what is cut, kept and dropped

  /** The texts between the cuts of a script, before they are stripped. */
  function PiecesOf(s: string): (r: seq<string>)
    ensures r != []
  {
    Pieces(Lex(s, Plain))
  }

  function Glued(t: string, ps: seq<string>): seq<string>
    requires ps != []
  {
    [t + ps[0]] + ps[1..]
  }

  lemma {:induction false} StepGlues(s: string, mode: Mode, token: Token, next: Mode, rest: string)
    requires s == token.Source() + rest && s != "" && Step(s, mode) == (token, next)
    ensures token.Kept? ==> Pieces(Lex(s, mode)) == Glued(token.text, Pieces(Lex(rest, next)))
    ensures token.Cut? ==> Pieces(Lex(s, mode)) == [""] + Pieces(Lex(rest, next))
    ensures token.Comment? ==> Pieces(Lex(s, mode)) == Pieces(Lex(rest, next))
  {
    LexStep(s, mode, token, next, rest);
    PiecesOfRest(token, Lex(rest, next));
  }

  lemma {:induction false} GluedTwice(t: string, u: string, ps: seq<string>)
    requires ps != []
    ensures Glued(t, Glued(u, ps)) == Glued(t + u, ps)
  {
    assert t + (u + ps[0]) == (t + u) + ps[0];
  }

  /** A semicolon in the open ends a statement. */
  lemma {:induction false} SemicolonCuts(rest: string)
    ensures PiecesOf(";" + rest) == [""] + PiecesOf(rest)
  {
    StepGlues(";" + rest, Plain, Cut, Plain, rest);
  }

  /** A comment is dropped up to the end of its line, which stays. */
  lemma {:induction false} CommentIsDropped(line: string, rest: string)
    requires '\n' !in line
    ensures PiecesOf("--" + line) == [""]
    ensures PiecesOf("--" + line + "\n" + rest) == PiecesOf("\n" + rest)
  {
    var s, t := "--" + line, "--" + line + "\n" + rest;
    LineIs(s, "", s);
    LineIs(s, "\n" + rest, t);
    assert t == s + ("\n" + rest) && s == s + "";
    StepGlues(s, Plain, Comment(s), Plain, "");
    StepGlues(t, Plain, Comment(s), Plain, "\n" + rest);
  }

  lemma {:induction false} LineIs(line: string, rest: string, s: string)
    requires '\n' !in line && (rest == "" || rest[0] == '\n') && s == line + rest
    ensures UpToNewline(s) == line
  {
    if line != "" {
      assert s[1..] == line[1..] + rest;
      LineIs(line[1..], rest, s[1..]);
    }
  }

  lemma {:induction false} InQuotes(body: string, rest: string)
    requires '\'' !in body
    ensures Pieces(Lex(body + "'" + rest, Single)) == Glued(body + "'", PiecesOf(rest))
  {
    var s := body + "'" + rest;
    if body == "" {
      assert s == "'" + rest;
      StepGlues(s, Single, Kept("'"), Plain, rest);
    } else {
      assert s == [body[0]] + (body[1..] + "'" + rest);
      StepGlues(s, Single, Kept([body[0]]), Single, body[1..] + "'" + rest);
      InQuotes(body[1..], rest);
      GluedTwice([body[0]], body[1..] + "'", PiecesOf(rest));
      assert [body[0]] + (body[1..] + "'") == body + "'";
    }
  }

  /** A quoted text stays whole, whatever it holds, and the script goes on after it. */
  lemma {:induction false} QuotedStaysWhole(body: string, rest: string)
    requires '\'' !in body
    ensures PiecesOf("'" + body + "'" + rest) == Glued("'" + body + "'", PiecesOf(rest))
  {
    var s := "'" + body + "'" + rest;
    assert s == "'" + (body + "'" + rest);
    StepGlues(s, Plain, Kept("'"), Single, body + "'" + rest);
    InQuotes(body, rest);
    GluedTwice("'", body + "'", PiecesOf(rest));
    assert "'" + (body + "'") == "'" + body + "'";
  }

  /** No two dollars stand together before the closing pair. */
  predicate NoDollars(body: string) {
    body != "" ==> !(body[0] == '$' && (|body| == 1 || body[1] == '$')) && NoDollars(body[1..])
  }

  lemma {:induction false} DollarStep(c: char, more: string)
    requires !(c == '$' && more != "" && more[0] == '$')
    ensures Pieces(Lex([c] + more, Dollar)) == Glued([c], Pieces(Lex(more, Dollar)))
  {
    StepGlues([c] + more, Dollar, Kept([c]), Dollar, more);
  }

  lemma {:induction false} DollarsClose(rest: string)
    ensures Pieces(Lex("$$" + rest, Dollar)) == Glued("$$", PiecesOf(rest))
  {
    StepGlues("$$" + rest, Dollar, Kept("$$"), Plain, rest);
  }

  lemma {:induction false} InDollars(body: string, rest: string)
    requires NoDollars(body)
    ensures Pieces(Lex(body + "$$" + rest, Dollar)) == Glued(body + "$$", PiecesOf(rest))
  {
    var s := body + "$$" + rest;
    if body == "" {
      assert s == "$$" + rest;
      DollarsClose(rest);
    } else {
      var c, more := body[0], body[1..];
      assert body == [c] + more && s == [c] + (more + "$$" + rest);
      DollarStep(c, more + "$$" + rest);
      InDollars(more, rest);
      GluedTwice([c], more + "$$", PiecesOf(rest));
      assert [c] + (more + "$$") == body + "$$";
    }
  }

  lemma {:induction false} DollarsOpen(more: string)
    ensures PiecesOf("$$" + more) == Glued("$$", Pieces(Lex(more, Dollar)))
  {
    StepGlues("$$" + more, Plain, Kept("$$"), Dollar, more);
  }

  /** So does a dollar-quoted one, such as the body of a function. */
  lemma {:induction false} DollarQuotedStaysWhole(body: string, rest: string)
    requires NoDollars(body)
    ensures PiecesOf("$$" + body + "$$" + rest) == Glued("$$" + body + "$$", PiecesOf(rest))
  {
    var more := body + "$$" + rest;
    assert "$$" + body + "$$" + rest == "$$" + more;
    DollarsOpen(more);
    InDollars(body, rest);
    GluedTwice("$$", body + "$$", PiecesOf(rest));
    assert "$$" + (body + "$$") == "$$" + body + "$$";
  }

  /** Any other character belongs to the statement it stands in. */
  lemma {:induction false} OtherIsKept(c: char, rest: string)
    requires c != ';' && c != '\'' && (rest != "" && rest[0] == c ==> c != '-' && c != '$')
    ensures PiecesOf([c] + rest) == Glued([c], PiecesOf(rest))
  {
    StepGlues([c] + rest, Plain, Kept([c]), Plain, rest);
  }

  /** What is open at the end stays whole to the end. */
  lemma {:induction false} OpenQuoteRunsToTheEnd(body: string)
    requires '\'' !in body
    ensures PiecesOf("'" + body) == ["'" + body]
  {
    StepGlues("'" + body, Plain, Kept("'"), Single, body);
    ToTheEnd(body, Single);
    assert Glued("'", [body]) == ["'" + body];
  }

  predicate NoDollarPair(body: string) {
    body != "" ==> !Doubled(body, '$') && NoDollarPair(body[1..])
  }

  lemma {:induction false} ToTheEnd(body: string, mode: Mode)
    requires (mode == Single && '\'' !in body) || (mode == Dollar && NoDollarPair(body))
    ensures Pieces(Lex(body, mode)) == [body]
  {
    if body != "" {
      assert body == [body[0]] + body[1..];
      StepGlues(body, mode, Kept([body[0]]), mode, body[1..]);
      ToTheEnd(body[1..], mode);
      assert Glued([body[0]], [body[1..]]) == [body];
    }
  }

  lemma {:induction false} OpenDollarsRunToTheEnd(body: string)
    requires NoDollarPair(body)
    ensures PiecesOf("$$" + body) == ["$$" + body]
  {
    StepGlues("$$" + body, Plain, Kept("$$"), Dollar, body);
    ToTheEnd(body, Dollar);
    assert Glued("$$", [body]) == ["$$" + body];
  }

  /** The statements are those texts, stripped, the blank ones left out. */
  lemma {:induction false} StatementsAreThePieces(script: string, t: string)
    ensures t in Split(script) <==> exists p :: p in PiecesOf(script) && t == Strip(p) && t != ""
  {
    TidiedAreStripped(PiecesOf(script), t);
  }

  lemma {:induction false} TidiedAreStripped(ps: seq<string>, t: string)
    ensures t in Tidy(ps) <==> exists p :: p in ps && t == Strip(p) && t != ""
  {
    if ps != [] {
      TidiedAreStripped(ps[1..], t);
      assert ps == [ps[0]] + ps[1..];
      assert t in Tidy(ps) <==> t in TidyOne(ps[0]) || t in Tidy(ps[1..]);
    }
  }
}
