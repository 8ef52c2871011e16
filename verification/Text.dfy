/** White space as the string methods and the pattern `\s` understand it. */
module Text {
  predicate IsSpace(c: char) {
    || '\U{0009}' <= c <= '\U{000D}'
    || '\U{001C}' <= c <= '\U{0020}'
    || c == '\U{0085}' || c == '\U{00A0}' || c == '\U{1680}'
    || '\U{2000}' <= c <= '\U{200A}'
    || c == '\U{2028}' || c == '\U{2029}' || c == '\U{202F}' || c == '\U{205F}' || c == '\U{3000}'
  }

  predicate Blank(s: string) {
    forall c :: c in s ==> IsSpace(c)
  }

  function StripLeft(s: string): (r: string)
    ensures |r| <= |s| && (r != "" ==> !IsSpace(r[0]))
  {
    if s != "" && IsSpace(s[0]) then StripLeft(s[1..]) else s
  }

  function StripRight(s: string): (r: string)
    ensures |r| <= |s| && (r != "" ==> !IsSpace(r[|r| - 1]) && r[0] == s[0])
  {
    if s != "" && IsSpace(s[|s| - 1]) then StripRight(s[..|s| - 1]) else s
  }

  function Strip(s: string): (r: string)
    ensures |r| <= |s| && (r != "" ==> !IsSpace(r[0]) && !IsSpace(r[|r| - 1]))
  {
    StripRight(StripLeft(s))
  }

  /** Stripped text is left alone. */
  lemma StripIsIdempotent(s: string)
    ensures Strip(Strip(s)) == Strip(s)
  {
  }

  /** What stripping takes away is blank on both sides. */
  lemma {:induction false} StripSplits(s: string) returns (left: string, right: string)
    ensures s == left + Strip(s) + right && Blank(left) && Blank(right)
  {
    left := StripLeftSplits(s);
    right := StripRightSplits(StripLeft(s));
  }

  lemma {:induction false} StripLeftSplits(s: string) returns (left: string)
    ensures s == left + StripLeft(s) && Blank(left)
  {
    left := "";
    if s != "" && IsSpace(s[0]) {
      var more := StripLeftSplits(s[1..]);
      left := [s[0]] + more;
    }
  }

  lemma {:induction false} StripRightSplits(s: string) returns (right: string)
    ensures s == StripRight(s) + right && Blank(right)
  {
    right := "";
    if s != "" && IsSpace(s[|s| - 1]) {
      var more := StripRightSplits(s[..|s| - 1]);
      right := more + [s[|s| - 1]];
    }
  }

  function TidyOne(piece: string): seq<string> {
    if Strip(piece) == "" then [] else [Strip(piece)]
  }

  /** The pieces without outer white space, blank ones left out. */
  function Tidy(pieces: seq<string>): seq<string> {
    if pieces == [] then []
    else TidyOne(pieces[0]) + Tidy(pieces[1..])
  }

  lemma {:induction false} TidyTail(ps: seq<string>)
    requires ps != []
    ensures Strip(ps[0]) == "" ==> Tidy(ps) == Tidy(ps[1..])
    ensures Strip(ps[0]) != "" ==> Tidy(ps) != [] && Tidy(ps)[0] == Strip(ps[0]) && Tidy(ps)[1..] == Tidy(ps[1..])
  {
  }
}
