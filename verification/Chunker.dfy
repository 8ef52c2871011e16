/** Cutting a knowledge document into overlapping chunks along its paragraphs. */
module Chunker {
  import opened Text

  // ------------------------------------------------------------------ paragraphs

  /** The length of the longest beginning of `s` that is white space ending in a newline. */
  function BlankLines(s: string): (n: nat)
    ensures n <= |s|
  {
    if s == "" || !IsSpace(s[0]) then 0
    else
      var n := BlankLines(s[1..]);
      if n > 0 then n + 1 else if s[0] == '\n' then 1 else 0
  }

  /** Splitting at every newline, white space, newline. */
  function Blocks(s: string): (r: seq<string>)
    ensures r != []
    decreases |s|
  {
    if s == "" then [""]
    else if s[0] == '\n' && BlankLines(s[1..]) > 0 then [""] + Blocks(s[1 + BlankLines(s[1..])..])
    else var rest := Blocks(s[1..]); [[s[0]] + rest[0]] + rest[1..]
  }

  function Paragraphs(text: string): seq<string> {
    Tidy(Blocks(text))
  }

  predicate IsParagraph(p: string) {
    p != "" && !IsSpace(p[0]) && !IsSpace(p[|p| - 1])
  }

  lemma {:induction false} TidiedAreParagraphs(blocks: seq<string>)
    ensures forall p :: p in Tidy(blocks) ==> IsParagraph(p)
  {
    if blocks != [] {
      TidiedAreParagraphs(blocks[1..]);
      TidyTail(blocks);
    }
  }

  // ------------------------------------------------------------------ the chunks of a list of paragraphs

  datatype State = State(chunks: seq<string>, current: string)

  datatype Window = Window(size: nat, overlap: nat) {
    /** The cutting loop makes progress. */
    predicate Ok() {
      overlap < size
    }
  }

  /** The full windows a long paragraph is cut into. */
  function Heads(para: string, w: Window): (r: seq<string>)
    requires w.Ok()
    ensures |para| <= w.size <==> r == []
    decreases |para|
  {
    if |para| > w.size then [para[..w.size]] + Heads(para[w.size - w.overlap..], w) else []
  }

  /** What is left of it after the last full window. */
  function Rest(para: string, w: Window): (r: string)
    requires w.Ok()
    ensures |r| <= w.size && |r| <= |para| && r == para[|para| - |r|..]
    ensures r == "" <==> para == ""
    decreases |para|
  {
    if |para| > w.size then Rest(para[w.size - w.overlap..], w) else para
  }

  function Flush(st: State): State {
    if st.current != "" then State(st.chunks + [st.current], "") else st
  }

  function Cut(st: State, para: string, w: Window): State
    requires w.Ok()
  {
    if |para| > w.size then State(Flush(st).chunks + Heads(para, w), "") else st
  }

  /** The end of `s` that is carried into the next chunk. Python takes the whole of `s` for 0. */
  function Tail(s: string, overlap: nat): (r: string)
    ensures |r| <= |s| && (r == "" <==> s == "")
  {
    if overlap == 0 || |s| <= overlap then s else s[|s| - overlap..]
  }

  function Carry(current: string, para: string, overlap: nat): string {
    if Tail(current, overlap) != "" then Strip(Tail(current, overlap) + "\n\n" + para) else para
  }

  function Place(st: State, para: string, w: Window): State {
    if |st.current| + |para| + 2 <= w.size then
      State(st.chunks, if st.current != "" then st.current + "\n\n" + para else para)
    else
      State(Flush(st).chunks, Carry(st.current, para, w.overlap))
  }

  function AddParagraph(st: State, para: string, w: Window): State
    requires w.Ok()
  {
    Place(Cut(st, para, w), Rest(para, w), w)
  }

  function AddAll(paras: seq<string>, w: Window): State
    requires w.Ok()
  {
    if paras == [] then State([], "") else AddParagraph(AddAll(paras[..|paras| - 1], w), paras[|paras| - 1], w)
  }

  function Chunks(text: string, w: Window): seq<string>
    requires w.Ok()
  {
    Collected(Paragraphs(text), text, w)
  }

  /** The chunks of a list of paragraphs; without any, the beginning of the text. */
  function Collected(paras: seq<string>, text: string, w: Window): seq<string>
    requires w.Ok()
  {
    var chunks := Flush(AddAll(paras, w)).chunks;
    if chunks != [] then chunks else [if |text| <= w.size then text else text[..w.size]]
  }

  lemma {:induction false} CutStep(chunks: seq<string>, current: string, para: string, w: Window)
    requires w.Ok() && |para| > w.size
    ensures Cut(State(chunks, current), para, w)
         == Cut(State((if current != "" then chunks + [current] else chunks) + [para[..w.size]], ""),
                para[w.size - w.overlap..], w)
  {
    var before := if current != "" then chunks + [current] else chunks;
    var head, next := para[..w.size], para[w.size - w.overlap..];
    assert before + ([head] + Heads(next, w)) == (before + [head]) + Heads(next, w);
  }

  lemma {:induction false} AddAllStep(paras: seq<string>, n: nat, w: Window)
    requires w.Ok() && n < |paras|
    ensures AddAll(paras[..n + 1], w) == AddParagraph(AddAll(paras[..n], w), paras[n], w)
  {
    assert paras[..n + 1][..n] == paras[..n];
  }

  lemma {:induction false} PlaceCases(chunks: seq<string>, current: string, para: string, w: Window)
    ensures var fits := |current| + |para| + 2 <= w.size;
            var placed := Place(State(chunks, current), para, w);
            && (fits && current == "" ==> placed == State(chunks, para))
            && (fits && current != "" ==> placed == State(chunks, current + "\n\n" + para))
            && (!fits && current == "" ==> placed == State(chunks, para))
            && (!fits && current != "" ==>
                  placed == State(chunks + [current], Strip(Tail(current, w.overlap) + "\n\n" + para)))
            && (0 < w.overlap <= |current| ==> Tail(current, w.overlap) == current[|current| - w.overlap..])
  {
  }

  /** One paragraph: the full windows of a long one first, then what is left of it. */
  method PlaceParagraph(chunks0: seq<string>, current0: string, paragraph: string, w: Window)
    returns (chunks: seq<string>, current: string)
    requires w.Ok()
    ensures State(chunks, current) == AddParagraph(State(chunks0, current0), paragraph, w)
  {
    chunks, current := chunks0, current0;
    var para := paragraph;
    ghost var cut := Cut(State(chunks, current), para, w);
    while |para| > w.size
      invariant Rest(para, w) == Rest(paragraph, w)
      invariant Cut(State(chunks, current), para, w) == cut
      decreases |para|
    {
      CutStep(chunks, current, para, w);
      var head := para[..w.size];
      para := para[w.size - w.overlap..];
      if current != "" {
        chunks := chunks + [current];
        current := "";
      }
      chunks := chunks + [head];
    }
    assert State(chunks, current) == cut;
    ghost var placed := Place(cut, para, w);
    PlaceCases(chunks, current, para, w);
    if |current| + |para| + 2 <= w.size {
      current := if current != "" then current + "\n\n" + para else para;
    } else {
      if current != "" {
        chunks := chunks + [current];
      }
      var tail := if current != "" then Tail(current, w.overlap) else "";
      current := if tail != "" then Strip(tail + "\n\n" + para) else para;
    }
    assert State(chunks, current) == placed;
  }

  method ChunkText(text: string, w: Window) returns (result: seq<string>)
    requires w.Ok()
    ensures result == Chunks(text, w)
  {
    var paragraphs := Paragraphs(text);
    var chunks, current := [], "";
    for n := 0 to |paragraphs|
      invariant State(chunks, current) == AddAll(paragraphs[..n], w)
    {
      AddAllStep(paragraphs, n, w);
      chunks, current := PlaceParagraph(chunks, current, paragraphs[n], w);
    }
    assert paragraphs[..|paragraphs|] == paragraphs;
    if current != "" {
      chunks := chunks + [current];
    }
    result := if chunks != [] then chunks else [if |text| <= w.size then text else text[..w.size]];
  }

  // ------------------------------------------------------------------ where everything ends up

  /** `p` is a substring of `s`. */
  ghost predicate Within(p: string, s: string) {
    exists i :: 0 <= i <= |s| && p <= s[i..]
  }

  lemma {:induction false} WithinAt(p: string, s: string, i: nat)
    requires i + |p| <= |s| && s[i..i + |p|] == p
    ensures Within(p, s)
  {
    assert p <= s[i..];
  }

  lemma {:induction false} WithinExtends(p: string, s: string, t: string)
    requires Within(p, s)
    ensures Within(p, s + t) && Within(p, t + s)
  {
    var i :| 0 <= i <= |s| && p <= s[i..];
    assert (s + t)[i..] == s[i..] + t;
    assert (t + s)[|t| + i..] == s[i..];
  }

  lemma {:induction false} WithinTrans(p: string, s: string, t: string)
    requires Within(p, s) && Within(s, t)
    ensures Within(p, t)
  {
    var i :| 0 <= i <= |s| && p <= s[i..];
    var j :| 0 <= j <= |t| && s <= t[j..];
    PrefixAt(p, s, i, t[j..]);
    assert t[j..][i..] == t[j + i..];
  }

  lemma {:induction false} PrefixAt(p: string, s: string, i: nat, t: string)
    requires i <= |s| && p <= s[i..] && s <= t
    ensures p <= t[i..]
  {
    assert t == s + t[|s|..];
    assert t[i..] == s[i..] + t[|s|..];
  }

  /** The chunks so far and the one being filled. */
  function All(st: State): (r: seq<string>)
    ensures |r| == |st.chunks| + 1
  {
    st.chunks + [st.current]
  }

  /** Nothing is taken back: complete chunks stay, the open one only gets longer at its end. */
  predicate Grows(a: seq<string>, b: seq<string>) {
    0 < |a| <= |b| && a[..|a| - 1] == b[..|a| - 1] && a[|a| - 1] <= b[|a| - 1]
  }

  lemma {:induction false} CutGrows(st: State, para: string, w: Window)
    requires w.Ok()
    ensures Grows(All(st), All(Cut(st, para, w)))
    ensures st.current != "" ==>
              |Cut(st, para, w).chunks| == |st.chunks| + (if |para| > w.size then 1 + |Heads(para, w)| else 0)
    ensures var chunks := Cut(st, para, w).chunks;
            |Heads(para, w)| <= |chunks| && chunks[|chunks| - |Heads(para, w)|..] == Heads(para, w)
  {
  }

  lemma {:induction false} PlaceGrows(st: State, para: string, w: Window)
    ensures Grows(All(st), All(Place(st, para, w)))
    ensures st.current == "" ==> Place(st, para, w) == State(st.chunks, para)
  {
    PlaceCases(st.chunks, st.current, para, w);
    assert st.current <= st.current + "\n\n" + para;
  }

  lemma {:induction false} GrowsTrans(a: seq<string>, b: seq<string>, c: seq<string>)
    requires Grows(a, b) && Grows(b, c)
    ensures Grows(a, c)
  {
    assert forall i :: 0 <= i < |a| - 1 ==> a[i] == a[..|a| - 1][i] == b[..|a| - 1][i] == b[i];
    if |a| < |b| {
      assert b[|a| - 1] == b[..|b| - 1][|a| - 1] == c[..|b| - 1][|a| - 1] == c[|a| - 1];
    }
    assert forall i :: 0 <= i < |a| - 1 ==> b[i] == b[..|b| - 1][i] == c[..|b| - 1][i] == c[i];
  }

  lemma {:induction false} StripLeftStops(before: string, p: string) returns (kept: string)
    requires IsParagraph(p)
    ensures StripLeft(before + p) == kept + p
  {
    if before != "" && IsSpace(before[0]) {
      assert (before + p)[1..] == before[1..] + p;
      kept := StripLeftStops(before[1..], p);
    } else {
      kept := before;
    }
  }

  /** What is placed after other text is still there when the outside is stripped. */
  lemma {:induction false} StripKeepsEnd(before: string, p: string)
    requires IsParagraph(p)
    ensures Within(p, Strip(before + p))
  {
    var kept := StripLeftStops(before, p);
    assert (kept + p)[|kept|..] == p;
    WithinAt(p, kept + p, |kept|);
  }

  lemma {:induction false} PlaceHolds(st: State, para: string, w: Window)
    requires para != "" && (st.current != "" ==> IsParagraph(para))
    ensures Within(para, Place(st, para, w).current) && Place(st, para, w).current != ""
  {
    PlaceCases(st.chunks, st.current, para, w);
    WithinAt(para, para, 0);
    WithinExtends(para, para, st.current + "\n\n");
    if st.current != "" {
      StripKeepsEnd(Tail(st.current, w.overlap) + "\n\n", para);
    }
  }

  /** A paragraph is in the chunks as its full windows, one chunk each, and then its rest inside
      chunk `at`. */
  ghost predicate Placed(chunks: seq<string>, para: string, w: Window, at: nat)
    requires w.Ok()
  {
    && |Heads(para, w)| <= at < |chunks| && chunks[at - |Heads(para, w)|..at] == Heads(para, w)
    && Within(Rest(para, w), chunks[at])
  }

  lemma {:induction false} PlacedStays(a: seq<string>, b: seq<string>, para: string, w: Window, at: nat)
    requires w.Ok() && Placed(a, para, w, at) && Grows(a, b)
    ensures Placed(b, para, w, at)
  {
    assert a[at - |Heads(para, w)|..at] == a[..|a| - 1][at - |Heads(para, w)|..at];
    assert b[at - |Heads(para, w)|..at] == b[..|a| - 1][at - |Heads(para, w)|..at];
    if at < |a| - 1 {
      assert a[at] == a[..|a| - 1][at] && b[at] == b[..|a| - 1][at];
    } else {
      WithinExtends(Rest(para, w), a[at], b[at][|a[at]|..]);
      assert b[at] == a[at] + b[at][|a[at]|..];
    }
  }

  lemma {:induction false} AddPlaces(st: State, para: string, w: Window)
    requires w.Ok() && IsParagraph(para)
    ensures var st' := AddParagraph(st, para, w);
            && Grows(All(st), All(st')) && st'.current != ""
            && Placed(All(st'), para, w, |st'.chunks|)
            && (st.current != "" ==> Before(|st.chunks|, para, w, |st'.chunks|))
  {
    var cut, rest := Cut(st, para, w), Rest(para, w);
    var st' := Place(cut, rest, w);
    CutGrows(st, para, w);
    PlaceGrows(cut, rest, w);
    GrowsTrans(All(st), All(cut), All(st'));
    assert |para| <= w.size ==> rest == para;
    PlaceHolds(cut, rest, w);
    if |para| > w.size {
      assert st' == State(cut.chunks, rest);
    }
  }

  /** A paragraph that ends in chunk `at` begins no earlier than chunk `previous`, and in a later one
      if it is longer than a window. */
  ghost predicate Before(previous: nat, para: string, w: Window, at: nat)
    requires w.Ok()
  {
    previous + |Heads(para, w)| <= at && (|para| > w.size ==> previous + |Heads(para, w)| < at)
  }

  ghost predicate Layout(chunks: seq<string>, paras: seq<string>, w: Window, at: seq<nat>)
    requires w.Ok()
  {
    && |at| == |paras|
    && (forall k :: 0 <= k < |paras| ==> Placed(chunks, paras[k], w, at[k]))
    && (forall k :: 0 < k < |paras| ==> Before(at[k - 1], paras[k], w, at[k]))
  }

  ghost predicate LaidOut(st: State, paras: seq<string>, w: Window, at: seq<nat>)
    requires w.Ok()
  {
    && Layout(All(st), paras, w, at)
    && (paras != [] ==> st.current != "" && at[|paras| - 1] == |st.chunks|)
  }

  lemma {:induction false} LayoutStep(st: State, paras: seq<string>, para: string, w: Window, at: seq<nat>)
    returns (at': seq<nat>)
    requires w.Ok() && IsParagraph(para) && LaidOut(st, paras, w, at)
    ensures LaidOut(AddParagraph(st, para, w), paras + [para], w, at')
  {
    AddPlaces(st, para, w);
    var after := AddParagraph(st, para, w);
    at' := LayoutGrows(All(st), All(after), paras, para, w, at, |after.chunks|);
  }

  lemma {:induction false} LayoutGrows(before: seq<string>, after: seq<string>, paras: seq<string>, para: string,
                                       w: Window, at: seq<nat>, last: nat) returns (at': seq<nat>)
    requires w.Ok() && Layout(before, paras, w, at) && Grows(before, after) && Placed(after, para, w, last)
    requires paras != [] ==> Before(at[|paras| - 1], para, w, last)
    ensures at' == at + [last] && Layout(after, paras + [para], w, at')
  {
    at' := at + [last];
    forall k | 0 <= k < |paras|
      ensures Placed(after, paras[k], w, at[k])
    {
      PlacedStays(before, after, paras[k], w, at[k]);
    }
    LayoutAppend(after, paras, para, w, at, last);
  }

  lemma {:induction false} LayoutAppend(chunks: seq<string>, paras: seq<string>, para: string, w: Window,
                                        at: seq<nat>, last: nat)
    requires w.Ok() && Layout(chunks, paras, w, at) && Placed(chunks, para, w, last)
    requires paras != [] ==> Before(at[|paras| - 1], para, w, last)
    ensures Layout(chunks, paras + [para], w, at + [last])
  {
    var all, places := paras + [para], at + [last];
    forall k | 0 < k < |all|
      ensures Before(places[k - 1], all[k], w, places[k])
    {
      if k < |paras| {
        assert Before(at[k - 1], paras[k], w, at[k]);
      }
    }
  }

  predicate AllParagraphs(paras: seq<string>) {
    paras == [] || (AllParagraphs(paras[..|paras| - 1]) && IsParagraph(paras[|paras| - 1]))
  }

  lemma {:induction false} TheyAreAllParagraphs(paras: seq<string>)
    requires forall p :: p in paras ==> IsParagraph(p)
    ensures AllParagraphs(paras)
  {
    if paras != [] {
      assert forall p :: p in paras[..|paras| - 1] ==> p in paras;
      TheyAreAllParagraphs(paras[..|paras| - 1]);
    }
  }

  lemma {:induction false} LayoutOfAll(paras: seq<string>, w: Window) returns (at: seq<nat>)
    requires w.Ok() && AllParagraphs(paras)
    ensures LaidOut(AddAll(paras, w), paras, w, at)
  {
    at := [];
    if paras != [] {
      at := LayoutOfAll(paras[..|paras| - 1], w);
      at := LayoutStep(AddAll(paras[..|paras| - 1], w), paras[..|paras| - 1], paras[|paras| - 1], w, at);
      assert paras[..|paras| - 1] + [paras[|paras| - 1]] == paras;
    }
  }

  /** Every paragraph is in the chunks, in order; a text without any gives one chunk, its beginning. */
  lemma {:induction false} EveryParagraphIsPlaced(text: string, w: Window) returns (at: seq<nat>)
    requires w.Ok()
    ensures Paragraphs(text) != [] ==> Layout(Chunks(text, w), Paragraphs(text), w, at)
    ensures Paragraphs(text) == [] ==> Chunks(text, w) == [if |text| <= w.size then text else text[..w.size]]
  {
    TidiedAreParagraphs(Blocks(text));
    var paras := Paragraphs(text);
    TheyAreAllParagraphs(paras);
    at := LayoutOfAll(paras, w);
  }

  /** The windows of a paragraph: the full ones and the rest. */
  function WindowAt(para: string, w: Window, k: nat): string
    requires w.Ok() && k <= |Heads(para, w)|
  {
    if k < |Heads(para, w)| then Heads(para, w)[k] else Rest(para, w)
  }

  lemma {:induction false} NextWindow(para: string, w: Window, k: nat)
    requires w.Ok() && |para| > w.size && k <= |Heads(para[w.size - w.overlap..], w)|
    ensures k + 1 <= |Heads(para, w)| && WindowAt(para, w, k + 1) == WindowAt(para[w.size - w.overlap..], w, k)
  {
    var next := Heads(para[w.size - w.overlap..], w);
    assert Heads(para, w) == [para[..w.size]] + next;
  }

  /** A piece of a paragraph that is no longer than the overlap and one character is inside one of its
      windows. */
  lemma {:induction false} WindowsCover(para: string, w: Window, a: nat, b: nat) returns (k: nat)
    requires w.Ok() && a <= b <= |para| && b - a <= w.overlap + 1
    ensures k <= |Heads(para, w)| && Within(para[a..b], WindowAt(para, w, k))
    decreases |para|
  {
    k := 0;
    if |para| <= w.size {
      WithinAt(para[a..b], para, a);
    } else if b <= w.size {
      InFirstWindow(para, w, a, b);
    } else {
      var step := w.size - w.overlap;
      k := WindowsCover(para[step..], w, a - step, b - step);
      SliceOfSlice(para, step, a, b);
      NextWindow(para, w, k);
      k := k + 1;
    }
  }

  lemma {:induction false} InFirstWindow(para: string, w: Window, a: nat, b: nat)
    requires w.Ok() && |para| > w.size && a <= b <= w.size
    ensures Within(para[a..b], WindowAt(para, w, 0))
  {
    assert para[..w.size][a..b] == para[a..b];
    WithinAt(para[a..b], para[..w.size], a);
  }

  lemma {:induction false} SliceOfSlice(s: string, step: nat, a: nat, b: nat)
    requires step <= a <= b <= |s|
    ensures s[step..][a - step..b - step] == s[a..b]
  {
  }

  lemma {:induction false} PlacedHolds(chunks: seq<string>, para: string, w: Window, at: nat, a: nat, b: nat)
    returns (n: nat)
    requires w.Ok() && Placed(chunks, para, w, at) && a <= b <= |para|
    requires |para| <= w.size || b - a <= w.overlap + 1
    ensures n < |chunks| && Within(para[a..b], chunks[n])
  {
    var heads := Heads(para, w);
    var k := 0;
    if |para| <= w.size {
      WithinAt(para[a..b], para, a);
    } else {
      k := WindowsCover(para, w, a, b);
    }
    n := at - |heads| + k;
    if k == |heads| {
      WithinTrans(para[a..b], Rest(para, w), chunks[at]);
    } else {
      assert chunks[at - |heads|..at][k] == chunks[n];
    }
  }

  /** A paragraph that fits a window is inside one chunk, whole; of a longer one, every piece of up to
      overlap + 1 characters is. */
  lemma {:induction false} PiecesSurvive(text: string, w: Window, k: nat, a: nat, b: nat) returns (n: nat)
    requires w.Ok() && k < |Paragraphs(text)| && a <= b <= |Paragraphs(text)[k]|
    requires |Paragraphs(text)[k]| <= w.size || b - a <= w.overlap + 1
    ensures n < |Chunks(text, w)| && Within(Paragraphs(text)[k][a..b], Chunks(text, w)[n])
  {
    var at := EveryParagraphIsPlaced(text, w);
    n := PlacedHolds(Chunks(text, w), Paragraphs(text)[k], w, at[k], a, b);
  }

  // ------------------------------------------------------------------ the size of a chunk

  predicate AllWithin(chunks: seq<string>, n: nat) {
    forall c :: c in chunks ==> |c| <= n
  }

  lemma {:induction false} HeadsAreFull(para: string, w: Window)
    requires w.Ok()
    ensures AllWithin(Heads(para, w), w.size)
    decreases |para|
  {
    if |para| > w.size {
      HeadsAreFull(para[w.size - w.overlap..], w);
    }
  }

  lemma {:induction false} CutStaysWithin(st: State, para: string, w: Window, n: nat)
    requires w.Ok() && AllWithin(st.chunks, n) && |st.current| <= n && w.size <= n
    ensures AllWithin(Cut(st, para, w).chunks, n) && |Cut(st, para, w).current| <= n
  {
    HeadsAreFull(para, w);
  }

  lemma {:induction false} PlaceStaysWithin(st: State, para: string, w: Window, n: nat)
    requires w.overlap >= 1 && |para| <= w.size && n == w.size + w.overlap + 2
    requires AllWithin(st.chunks, n) && |st.current| <= n
    ensures AllWithin(Place(st, para, w).chunks, n) && |Place(st, para, w).current| <= n
  {
    PlaceCases(st.chunks, st.current, para, w);
    assert |Tail(st.current, w.overlap)| <= w.overlap;
  }

  lemma {:induction false} SizesOfAll(paras: seq<string>, w: Window, n: nat)
    requires w.Ok() && w.overlap >= 1 && n == w.size + w.overlap + 2
    ensures AllWithin(AddAll(paras, w).chunks, n) && |AddAll(paras, w).current| <= n
  {
    if paras != [] {
      var st, para := AddAll(paras[..|paras| - 1], w), paras[|paras| - 1];
      SizesOfAll(paras[..|paras| - 1], w, n);
      CutStaysWithin(st, para, w, n);
      PlaceStaysWithin(Cut(st, para, w), Rest(para, w), w, n);
    }
  }

  lemma {:induction false} ChunksAreBounded(text: string, w: Window)
    requires w.Ok() && w.overlap >= 1
    ensures AllWithin(Chunks(text, w), w.size + w.overlap + 2)
  {
    CollectedIsBounded(Paragraphs(text), text, w);
  }

  lemma {:induction false} CollectedIsBounded(paras: seq<string>, text: string, w: Window)
    requires w.Ok() && w.overlap >= 1
    ensures AllWithin(Collected(paras, text, w), w.size + w.overlap + 2)
  {
    SizesOfAll(paras, w, w.size + w.overlap + 2);
  }

  function Letters(n: nat): (r: string)
    ensures |r| == n && forall c :: c in r ==> c == 'a'
  {
    if n == 0 then "" else "a" + Letters(n - 1)
  }

  lemma {:induction false} BlocksBeginWith(word: string, s: string)
    requires forall c :: c in word ==> !IsSpace(c)
    ensures Blocks(word + s) == [word + Blocks(s)[0]] + Blocks(s)[1..]
  {
    if word == "" {
      assert "" + s == s && "" + Blocks(s)[0] == Blocks(s)[0];
    } else {
      assert word[0] in word && (word + s)[1..] == word[1..] + s;
      BlocksBeginWith(word[1..], s);
      var first, more := Blocks(s)[0], Blocks(s)[1..];
      var rest := Blocks(word[1..] + s);
      assert rest[0] == word[1..] + first && rest[1..] == more;
      assert [word[0]] + (word[1..] + first) == word + first;
    }
  }

  lemma {:induction false} TwoWords(word: string)
    requires word != "" && forall c :: c in word ==> !IsSpace(c)
    ensures Paragraphs(word + ("\n\n" + word)) == [word, word]
  {
    var gap := "\n\n" + word;
    assert gap[1..] == "\n" + word && ("\n" + word)[1..] == word && gap[2..] == word;
    assert word[0] in word && BlankLines(word) == 0 && BlankLines("\n" + word) == 1;
    assert word + "" == word;
    BlocksBeginWith(word, "");
    assert Blocks(word) == [word];
    assert Blocks(gap) == ["", word];
    BlocksBeginWith(word, gap);
    assert Blocks(word + gap) == [word, word];
    assert Strip(word) == word;
    assert Tidy([word, word]) == [word] + Tidy([word]);
  }

  lemma {:induction false} AddTwo(word: string, w: Window)
    requires w.Ok() && w.overlap == 0 && |word| == w.size && IsParagraph(word)
    ensures AddAll([word, word], w) == State([word], word + "\n\n" + word)
  {
    assert [word, word][..1] == [word] && [word][..0] == [];
    PlaceCases([], "", word, w);
    assert AddAll([word], w) == State([], word);
    PlaceCases([], word, word, w);
    assert Strip(word + "\n\n" + word) == word + "\n\n" + word;
  }

  predicate Bounded(text: string, w: Window)
    requires w.Ok()
  {
    AllWithin(Chunks(text, w), w.size + w.overlap + 2)
  }

  /** With no overlap the whole of a chunk is carried into the next one. */
  lemma {:induction false} NoOverlapCarriesEverything(w: Window) returns (text: string)
    requires w.Ok() && w.overlap == 0
    ensures !Bounded(text, w)
  {
    var word := Letters(w.size);
    text := word + ("\n\n" + word);
    TwoWords(word);
    AddTwo(word, w);
    var long := word + "\n\n" + word;
    assert Chunks(text, w) == [word] + [long];
    assert long in [word] + [long] && |long| == 2 * w.size + 2;
  }

  /** The size bound holds for every text exactly when there is an overlap. */
  lemma {:induction false} BoundNeedsAnOverlap(w: Window)
    requires w.Ok()
    ensures (forall text :: Bounded(text, w)) <==> w.overlap >= 1
  {
    if w.overlap >= 1 {
      AllBounded(w);
    } else {
      var text := NoOverlapCarriesEverything(w);
    }
  }

  lemma {:induction false} AllBounded(w: Window)
    requires w.Ok() && w.overlap >= 1
    ensures forall text :: Bounded(text, w)
  {
    forall text
      ensures Bounded(text, w)
    {
      ChunksAreBounded(text, w);
    }
  }

  lemma {:induction false} OneWord(word: string)
    requires word != "" && forall c :: c in word ==> !IsSpace(c)
    ensures Paragraphs(word) == [word]
  {
    assert word + "" == word && word[0] in word && word[|word| - 1] in word;
    BlocksBeginWith(word, "");
    assert Blocks(word) == [word];
    assert Tidy([word]) == [word] + Tidy([]);
  }

  lemma {:induction false} OneWindowMore(word: string, w: Window)
    requires w.Ok() && |word| == w.size + 1
    ensures Heads(word, w) == [word[..w.size]] && Rest(word, w) == word[w.size - w.overlap..]
  {
    var rest := word[w.size - w.overlap..];
    assert |rest| == w.overlap + 1 <= w.size;
    assert [word[..w.size]] + [] == [word[..w.size]];
  }

  lemma {:induction false} CollectedLong(word: string, w: Window)
    requires w.Ok() && |word| == w.size + 1
    ensures Collected([word], word, w) == [word[..w.size]] + [word[w.size - w.overlap..]]
  {
    var head, rest := word[..w.size], word[w.size - w.overlap..];
    OneWindowMore(word, w);
    assert [word][..0] == [] && [] + [head] == [head];
    assert Cut(State([], ""), word, w) == State([head], "");
    PlaceCases([head], "", rest, w);
    assert AddAll([word], w) == State([head], rest);
  }

  lemma {:induction false} WithinHasLast(p: string, s: string)
    requires p != ""
    ensures Within(p, s) ==> |p| <= |s| && p[|p| - 1] in s
  {
    if Within(p, s) {
      var i :| 0 <= i <= |s| && p <= s[i..];
      assert s[i + |p| - 1] == s[i..][|p| - 1] == p[|p| - 1];
    }
  }

  lemma {:induction false} BetweenWindows(text: string, head: string, rest: string, piece: string)
    requires text != "" && head == text[..|text| - 1] && text[|text| - 1] !in head
    requires piece != "" && piece[|piece| - 1] == text[|text| - 1] && |rest| < |piece|
    ensures !Within(piece, head) && !Within(piece, rest)
  {
    WithinHasLast(piece, head);
    WithinHasLast(piece, rest);
  }

  lemma {:induction false} WordWithALastLetter(n: nat) returns (text: string)
    ensures |text| == n + 1 && Paragraphs(text) == [text] && text[n] !in text[..n]
  {
    text := Letters(n) + "b";
    OneWord(text);
    assert text[..n] == Letters(n);
  }

  lemma {:induction false} UncoveredPiece(text: string, w: Window, piece: string)
    requires w.Ok() && |text| == w.size + 1 && text[w.size] !in text[..w.size]
    requires piece == text[w.size - w.overlap - 1..]
    ensures |piece| == w.overlap + 2
    ensures !Within(piece, text[..w.size]) && !Within(piece, text[w.size - w.overlap..])
  {
    BetweenWindows(text, text[..w.size], text[w.size - w.overlap..], piece);
  }

  /** One character more than `PiecesSurvive` promises can fall between two windows, whatever their size
      and overlap: this text has two chunks, and the piece is in neither. */
  lemma {:induction false} LongerPiecesCanBeCut(w: Window) returns (text: string, piece: string)
    requires w.Ok()
    ensures |text| == w.size + 1 && piece == text[w.size - w.overlap - 1..] && |piece| == w.overlap + 2
    ensures Paragraphs(text) == [text]
    ensures Chunks(text, w) == [text[..w.size]] + [text[w.size - w.overlap..]]
    ensures !Within(piece, text[..w.size]) && !Within(piece, text[w.size - w.overlap..])
  {
    text := WordWithALastLetter(w.size);
    piece := text[w.size - w.overlap - 1..];
    UncoveredPiece(text, w, piece);
    CollectedLong(text, w);
  }

  // ------------------------------------------------------------------ what the paragraphs are

  /** A newline, white space and another newline. */
  predicate BreakAt(s: string, i: nat)
    requires i < |s|
  {
    s[i] == '\n' && BlankLines(s[i + 1..]) > 0
  }

  lemma {:induction false} BlankLinesOfPrefix(p: string, s: string)
    requires p <= s
    ensures BlankLines(p) <= BlankLines(s)
  {
    if p != "" {
      assert p[1..] <= s[1..];
      BlankLinesOfPrefix(p[1..], s[1..]);
    }
  }

  lemma {:induction false} FirstBlockIsAPrefix(s: string)
    ensures Blocks(s)[0] <= s
    decreases |s|
  {
    if s != "" && !BreakAt(s, 0) {
      FirstBlockIsAPrefix(s[1..]);
    }
  }

  ghost predicate Unbroken(s: string) {
    forall i :: 0 <= i < |s| ==> !BreakAt(s, i)
  }

  lemma {:induction false} PrependUnbroken(c: char, s: string)
    requires Unbroken(s) && !(c == '\n' && BlankLines(s) > 0)
    ensures Unbroken([c] + s)
  {
    forall i | 0 <= i < |[c] + s|
      ensures !BreakAt([c] + s, i)
    {
      assert ([c] + s)[i + 1..] == s[i..];
      if i > 0 {
        assert !BreakAt(s, i - 1);
      }
    }
  }

  lemma {:induction false} BlocksAreUnbroken(s: string)
    ensures forall b :: b in Blocks(s) ==> Unbroken(b)
    decreases |s|
  {
    if s == "" {
    } else if BreakAt(s, 0) {
      BlocksAreUnbroken(s[1 + BlankLines(s[1..])..]);
    } else {
      BlocksAreUnbroken(s[1..]);
      var rest := Blocks(s[1..]);
      FirstBlockIsAPrefix(s[1..]);
      BlankLinesOfPrefix(rest[0], s[1..]);
      assert rest[0] in rest;
      PrependUnbroken(s[0], rest[0]);
    }
  }

  lemma {:induction false} SliceUnbroken(left: string, s: string, right: string)
    requires Unbroken(left + s + right)
    ensures Unbroken(s)
  {
    var t := left + s + right;
    forall i | 0 <= i < |s|
      ensures !BreakAt(s, i)
    {
      assert !BreakAt(t, |left| + i) && t[|left| + i] == s[i];
      assert t[|left| + i + 1..] == s[i + 1..] + right;
      BlankLinesOfPrefix(s[i + 1..], t[|left| + i + 1..]);
    }
  }

  lemma {:induction false} TidyUnbroken(blocks: seq<string>)
    requires forall b :: b in blocks ==> Unbroken(b)
    ensures forall p :: p in Tidy(blocks) ==> Unbroken(p)
  {
    if blocks != [] {
      TidyTail(blocks);
      TidyUnbroken(blocks[1..]);
      var left, right := StripSplits(blocks[0]);
      SliceUnbroken(left, Strip(blocks[0]), right);
    }
  }

  function Ink(s: string): string {
    if s == "" then "" else (if IsSpace(s[0]) then "" else [s[0]]) + Ink(s[1..])
  }

  function InkOfAll(ps: seq<string>): string {
    if ps == [] then "" else Ink(ps[0]) + InkOfAll(ps[1..])
  }

  lemma {:induction false} InkOfBlank(s: string)
    requires Blank(s)
    ensures Ink(s) == ""
  {
    if s != "" {
      assert s[0] in s;
      InkOfBlank(s[1..]);
    }
  }

  lemma {:induction false} InkAppend(s: string, t: string)
    ensures Ink(s + t) == Ink(s) + Ink(t)
  {
    if s == "" {
      assert "" + t == t;
    } else {
      assert (s + t)[1..] == s[1..] + t;
      InkAppend(s[1..], t);
    }
  }

  lemma {:induction false} BlankLinesAreBlank(s: string)
    ensures Blank(s[..BlankLines(s)])
  {
    if BlankLines(s) > 1 {
      BlankLinesAreBlank(s[1..]);
      assert s[..BlankLines(s)] == [s[0]] + s[1..][..BlankLines(s[1..])];
    }
  }

  lemma {:induction false} BlocksKeepInk(s: string)
    ensures Ink(s) == InkOfAll(Blocks(s))
    decreases |s|
  {
    if s == "" {
      assert [""][1..] == [];
    } else if BreakAt(s, 0) {
      var n := 1 + BlankLines(s[1..]);
      BlankLinesAreBlank(s[1..]);
      assert s[..n] == [s[0]] + s[1..][..n - 1];
      InkOfBlank(s[..n]);
      InkAppend(s[..n], s[n..]);
      assert s == s[..n] + s[n..];
      BlocksKeepInk(s[n..]);
      assert ([""] + Blocks(s[n..]))[1..] == Blocks(s[n..]);
    } else {
      BlocksKeepInk(s[1..]);
      var rest := Blocks(s[1..]);
      assert s == [s[0]] + s[1..];
      InkAppend([s[0]], s[1..]);
      FirstInk([s[0]], rest);
    }
  }

  lemma {:induction false} FirstInk(word: string, blocks: seq<string>)
    requires blocks != []
    ensures InkOfAll([word + blocks[0]] + blocks[1..]) == Ink(word) + InkOfAll(blocks)
  {
    InkAppend(word, blocks[0]);
    assert ([word + blocks[0]] + blocks[1..])[1..] == blocks[1..];
    assert Ink(word) + (Ink(blocks[0]) + InkOfAll(blocks[1..])) == (Ink(word) + Ink(blocks[0])) + InkOfAll(blocks[1..]);
  }

  lemma {:induction false} StripKeepsInk(s: string)
    ensures Ink(Strip(s)) == Ink(s)
  {
    var left, right := StripSplits(s);
    InkOfBlank(left);
    InkOfBlank(right);
    InkAppend(left + Strip(s), right);
    InkAppend(left, Strip(s));
  }

  lemma {:induction false} TidyKeepsInk(blocks: seq<string>)
    ensures InkOfAll(Tidy(blocks)) == InkOfAll(blocks)
  {
    if blocks != [] {
      TidyTail(blocks);
      TidyKeepsInk(blocks[1..]);
      StripKeepsInk(blocks[0]);
    }
  }

  /** Paragraphs have no blank line inside and no outer white space, and together they hold every
      other character of the text in order. */
  lemma {:induction false} ParagraphsPartitionTheText(text: string)
    ensures forall p :: p in Paragraphs(text) ==> IsParagraph(p) && Unbroken(p)
    ensures forall p, i, j :: p in Paragraphs(text) && 0 <= i < j < |p| && p[i] == '\n' && p[j] == '\n' ==>
              !Blank(p[i..j])
    ensures InkOfAll(Paragraphs(text)) == Ink(text)
  {
    TidiedAreParagraphs(Blocks(text));
    BlocksAreUnbroken(text);
    TidyUnbroken(Blocks(text));
    BlocksKeepInk(text);
    TidyKeepsInk(Blocks(text));
    forall p, i, j | p in Paragraphs(text) && 0 <= i < j < |p| && p[i] == '\n' && p[j] == '\n'
      ensures !Blank(p[i..j])
    {
      InkBetween(p, i, j);
    }
  }

  lemma {:induction false} InkBetween(p: string, i: nat, j: nat)
    requires Unbroken(p) && i < j < |p| && p[i] == '\n' && p[j] == '\n'
    ensures !Blank(p[i..j])
  {
    assert !BreakAt(p, i);
    if Blank(p[i..j]) {
      var rest := p[i + 1..];
      forall k | 0 <= k < j - i - 1
        ensures IsSpace(rest[k])
      {
        assert rest[k] == p[i..j][k + 1] && p[i..j][k + 1] in p[i..j];
      }
      NewlineEndsBlank(rest, j - i - 1);
    }
  }

  lemma {:induction false} NewlineEndsBlank(s: string, n: nat)
    requires n < |s| && s[n] == '\n' && forall k :: 0 <= k < n ==> IsSpace(s[k])
    ensures BlankLines(s) > 0
  {
    if n > 0 {
      NewlineEndsBlank(s[1..], n - 1);
    }
  }

  /** A newline, white space and another newline. */
  predicate IsBreak(sep: string) {
    |sep| >= 2 && sep[0] == '\n' && sep[|sep| - 1] == '\n' && Blank(sep)
  }

  function Woven(blocks: seq<string>, seps: seq<string>): string
    requires |blocks| == |seps| + 1
  {
    if seps == [] then blocks[0] else blocks[0] + seps[0] + Woven(blocks[1..], seps[1..])
  }

  lemma {:induction false} BlankLinesAre(s: string)
    requires BlankLines(s) > 0
    ensures s[BlankLines(s) - 1] == '\n' && Blank(s[..BlankLines(s)])
  {
    if BlankLines(s[1..]) > 0 {
      BlankLinesAre(s[1..]);
      assert s[..BlankLines(s)] == [s[0]] + s[1..][..BlankLines(s[1..])];
    } else {
      assert s[..1] == [s[0]];
    }
  }

  lemma {:induction false} WeaveLonger(c: char, rest: seq<string>, seps: seq<string>)
    requires |rest| == |seps| + 1
    ensures Woven([[c] + rest[0]] + rest[1..], seps) == [c] + Woven(rest, seps)
  {
    if seps != [] {
      assert ([[c] + rest[0]] + rest[1..])[1..] == rest[1..];
      assert ([c] + rest[0]) + seps[0] == [c] + (rest[0] + seps[0]);
    }
  }

  /** Paragraphs are cut at blank lines only: between the blocks stand breaks, and put together again they
      are the text. */
  lemma {:induction false} TextIsItsBlocks(s: string) returns (seps: seq<string>)
    ensures |Blocks(s)| == |seps| + 1 && Woven(Blocks(s), seps) == s
    ensures forall sep :: sep in seps ==> IsBreak(sep)
    decreases |s|
  {
    if s == "" {
      seps := [];
    } else if BreakAt(s, 0) {
      var n := 1 + BlankLines(s[1..]);
      BlankLinesAre(s[1..]);
      assert s[..n] == [s[0]] + s[1..][..n - 1];
      var more := TextIsItsBlocks(s[n..]);
      seps := [s[..n]] + more;
      WeaveBreak(s[..n], Blocks(s[n..]), more);
      assert s == s[..n] + s[n..];
    } else {
      seps := TextIsItsBlocks(s[1..]);
      WeaveLonger(s[0], Blocks(s[1..]), seps);
      assert s == [s[0]] + s[1..];
    }
  }

  lemma {:induction false} WeaveBreak(sep: string, rest: seq<string>, seps: seq<string>)
    requires |rest| == |seps| + 1
    ensures Woven([""] + rest, [sep] + seps) == sep + Woven(rest, seps)
  {
    assert ([""] + rest)[1..] == rest && ([sep] + seps)[1..] == seps;
    assert "" + sep == sep;
  }

  // ------------------------------------------------------------------ chunks overlap

  /** The last `n` characters. */
  function LastOf(s: string, n: nat): string {
    if |s| <= n then s else s[|s| - n..]
  }

  /** `b` begins with the last `n` characters of `a`, white space before them aside. */
  predicate Overlap(a: string, b: string, n: nat) {
    LastOf(a, n) <= b || StripLeft(LastOf(a, n)) <= b
  }

  /** `b` is the first full window of a long paragraph. */
  ghost predicate OpensParagraph(b: string, paras: seq<string>, w: Window) {
    exists p :: p in paras && |p| > w.size && b == p[..w.size]
  }

  ghost predicate Linked(chunks: seq<string>, paras: seq<string>, w: Window) {
    forall k :: 0 < k < |chunks| ==>
      Overlap(chunks[k - 1], chunks[k], w.overlap) || OpensParagraph(chunks[k], paras, w)
  }

  predicate EndsInInk(s: string) {
    s != "" && !IsSpace(s[|s| - 1])
  }

  /** The chunks follow on one another, and what is being filled follows on the last of them. */
  ghost predicate Chained(st: State, paras: seq<string>, w: Window) {
    && Linked(st.chunks, paras, w) && (st.current != "" ==> EndsInInk(st.current))
    && (st.chunks != [] ==> st.current != "" && Overlap(st.chunks[|st.chunks| - 1], st.current, w.overlap))
  }

  lemma {:induction false} OverlapExtends(a: string, b: string, more: string, n: nat)
    requires Overlap(a, b, n)
    ensures Overlap(a, b + more, n)
  {
    var t, u := LastOf(a, n), StripLeft(LastOf(a, n));
    assert t <= b ==> t <= b + more;
    assert u <= b ==> u <= b + more;
  }

  lemma {:induction false} LinkMore(chunks: seq<string>, next: string, paras: seq<string>, w: Window)
    requires Linked(chunks, paras, w)
    requires chunks != [] ==> Overlap(chunks[|chunks| - 1], next, w.overlap) || OpensParagraph(next, paras, w)
    ensures Linked(chunks + [next], paras, w)
  {
  }

  lemma {:induction false} LinkBoth(chunks: seq<string>, more: seq<string>, paras: seq<string>, w: Window)
    requires Linked(chunks, paras, w) && Linked(more, paras, w) && more != [] && OpensParagraph(more[0], paras, w)
    ensures Linked(chunks + more, paras, w)
  {
    var all := chunks + more;
    forall k | 0 < k < |all|
      ensures Overlap(all[k - 1], all[k], w.overlap) || OpensParagraph(all[k], paras, w)
    {
      if k > |chunks| {
        assert all[k - 1] == more[k - |chunks| - 1] && all[k] == more[k - |chunks|];
      }
    }
  }

  /** A window ends with what the next one begins with. */
  lemma {:induction false} NextWindowOverlaps(para: string, w: Window)
    requires w.Ok() && |para| > w.size
    ensures var next := para[w.size - w.overlap..];
            Overlap(para[..w.size], next, w.overlap)
            && (|next| > w.size ==> Overlap(para[..w.size], next[..w.size], w.overlap))
  {
    var next := para[w.size - w.overlap..];
    assert LastOf(para[..w.size], w.overlap) == next[..w.overlap];
    assert |next| > w.size ==> next[..w.size][..w.overlap] == next[..w.overlap];
  }

  lemma {:induction false} HeadsUnfold(para: string, next: string, w: Window)
    requires w.Ok() && |para| > w.size && next == para[w.size - w.overlap..]
    ensures Heads(para, w) == [para[..w.size]] + Heads(next, w)
  {
  }

  lemma {:induction false} RestUnfold(para: string, next: string, w: Window)
    requires w.Ok() && |para| > w.size && next == para[w.size - w.overlap..]
    ensures Rest(para, w) == Rest(next, w)
  {
  }

  lemma {:induction false} ShortIsRest(next: string, w: Window)
    requires w.Ok() && |next| <= w.size
    ensures Heads(next, w) == [] && Rest(next, w) == next
  {
  }

  lemma {:induction false} HeadsAreLinked(para: string, paras: seq<string>, w: Window)
    returns (heads: seq<string>, rest: string)
    requires w.Ok() && |para| > w.size
    ensures heads == Heads(para, w) && rest == Rest(para, w)
    ensures heads != [] && heads[0] == para[..w.size] && Linked(heads, paras, w)
    ensures Overlap(heads[|heads| - 1], rest, w.overlap)
    decreases |para|
  {
    var next := para[w.size - w.overlap..];
    HeadsUnfold(para, next, w);
    RestUnfold(para, next, w);
    NextWindowOverlaps(para, w);
    if |next| > w.size {
      var more: seq<string>;
      more, rest := HeadsAreLinked(next, paras, w);
      HeadsStep(para[..w.size], more, paras, w);
      heads := [para[..w.size]] + more;
    } else {
      ShortIsRest(next, w);
      heads, rest := [para[..w.size]], next;
      assert heads + [] == heads;
    }
  }

  lemma {:induction false} HeadsStep(head: string, rest: seq<string>, paras: seq<string>, w: Window)
    requires rest != [] && Linked(rest, paras, w) && Overlap(head, rest[0], w.overlap)
    ensures Linked([head] + rest, paras, w) && ([head] + rest)[|rest|] == rest[|rest| - 1]
  {
    FirstLink(head, rest, paras, w);
  }

  lemma {:induction false} FirstLink(head: string, rest: seq<string>, paras: seq<string>, w: Window)
    requires rest != [] && Linked(rest, paras, w) && Overlap(head, rest[0], w.overlap)
    ensures Linked([head] + rest, paras, w)
  {
    var all := [head] + rest;
    forall k | 0 < k < |all|
      ensures Overlap(all[k - 1], all[k], w.overlap) || OpensParagraph(all[k], paras, w)
    {
      if k > 1 {
        assert all[k - 1] == rest[k - 2] && all[k] == rest[k - 1];
      }
    }
  }

  lemma {:induction false} StripLeftOfInk(t: string, u: string)
    requires EndsInInk(t)
    ensures StripLeft(t + u) == StripLeft(t) + u && StripLeft(t) != ""
  {
    if IsSpace(t[0]) {
      assert (t + u)[1..] == t[1..] + u;
      StripLeftOfInk(t[1..], u);
    }
  }

  /** A chunk that is begun when the last one is full carries the end of that one. */
  lemma {:induction false} CarriedOverlaps(current: string, para: string, w: Window)
    requires w.overlap >= 1 && EndsInInk(current) && EndsInInk(para)
    ensures Overlap(current, Carry(current, para, w.overlap), w.overlap)
    ensures EndsInInk(Carry(current, para, w.overlap))
  {
    var t := Tail(current, w.overlap);
    assert t == LastOf(current, w.overlap) && EndsInInk(t);
    StripLeftOfInk(t, "\n\n" + para);
    assert t + "\n\n" + para == t + ("\n\n" + para);
    assert EndsInInk(StripLeft(t) + ("\n\n" + para));
  }

  lemma {:induction false} RestEndsInInk(para: string, w: Window)
    requires w.Ok() && EndsInInk(para)
    ensures EndsInInk(Rest(para, w))
  {
    var r := Rest(para, w);
    assert r[|r| - 1] == para[|para| - 1];
  }

  lemma {:induction false} JoiningChains(st: State, para: string, paras: seq<string>, w: Window)
    requires Chained(st, paras, w) && st.current != "" && EndsInInk(para)
    ensures Chained(State(st.chunks, st.current + "\n\n" + para), paras, w)
  {
    var next := st.current + "\n\n" + para;
    assert next[|next| - 1] == para[|para| - 1];
    if st.chunks != [] {
      OverlapExtends(st.chunks[|st.chunks| - 1], st.current, "\n\n" + para, w.overlap);
      assert next == st.current + ("\n\n" + para);
    }
  }

  lemma {:induction false} CarryingChains(st: State, next: string, paras: seq<string>, w: Window)
    requires Chained(st, paras, w) && st.current != "" && EndsInInk(next) && Overlap(st.current, next, w.overlap)
    ensures Chained(State(st.chunks + [st.current], next), paras, w)
  {
    LinkMore(st.chunks, st.current, paras, w);
  }

  lemma {:induction false} PlacingChains(st: State, para: string, paras: seq<string>, w: Window)
    requires w.overlap >= 1 && Chained(st, paras, w) && EndsInInk(para)
    ensures Chained(Place(st, para, w), paras, w)
  {
    if st.current != "" {
      JoiningChains(st, para, paras, w);
      CarriedOverlaps(st.current, para, w);
      CarryingChains(st, Carry(st.current, para, w.overlap), paras, w);
    }
  }

  lemma {:induction false} CuttingChains(st: State, para: string, paras: seq<string>, w: Window)
    requires w.Ok() && Chained(st, paras, w) && para in paras && |para| > w.size && EndsInInk(para)
    ensures Chained(Place(Cut(st, para, w), Rest(para, w), w), paras, w)
  {
    var heads, rest := HeadsAreLinked(para, paras, w);
    RestEndsInInk(para, w);
    FlushedIsLinked(st, paras, w);
    assert OpensParagraph(heads[0], paras, w);
    var chunks := Flush(st).chunks + heads;
    LinkBoth(Flush(st).chunks, heads, paras, w);
    PlaceCases(chunks, "", rest, w);
    WindowsChain(chunks, heads[|heads| - 1], rest, paras, w);
  }

  lemma {:induction false} FlushedIsLinked(st: State, paras: seq<string>, w: Window)
    requires Chained(st, paras, w)
    ensures Linked(Flush(st).chunks, paras, w)
  {
    if st.current != "" {
      LinkMore(st.chunks, st.current, paras, w);
    }
  }

  lemma {:induction false} WindowsChain(chunks: seq<string>, last: string, rest: string, paras: seq<string>, w: Window)
    requires chunks != [] && chunks[|chunks| - 1] == last && Linked(chunks, paras, w)
    requires EndsInInk(rest) && Overlap(last, rest, w.overlap)
    ensures Chained(State(chunks, rest), paras, w)
  {
  }

  lemma {:induction false} MoreParagraphs(st: State, paras: seq<string>, more: seq<string>, w: Window)
    requires Chained(st, paras, w) && forall p :: p in paras ==> p in more
    ensures Chained(st, more, w)
  {
    forall b | OpensParagraph(b, paras, w)
      ensures OpensParagraph(b, more, w)
    {
      var p :| p in paras && |p| > w.size && b == p[..w.size];
      assert p in more;
    }
  }

  lemma {:induction false} AddingChains(paras: seq<string>, w: Window)
    requires w.Ok() && w.overlap >= 1 && forall p :: p in paras ==> EndsInInk(p)
    ensures Chained(AddAll(paras, w), paras, w)
  {
    if paras != [] {
      var init, para := paras[..|paras| - 1], paras[|paras| - 1];
      assert paras == init + [para];
      AddingChains(init, w);
      var st := AddAll(init, w);
      MoreParagraphs(st, init, paras, w);
      if |para| > w.size {
        CuttingChains(st, para, paras, w);
      } else {
        PlacingChains(st, para, paras, w);
      }
    }
  }

  /** Neighbours overlap: every chunk but the first begins with the last `overlap` characters of the one
      before it, white space before them aside, unless it opens a paragraph that is cut into windows. */
  lemma {:induction false} ChunksOverlap(text: string, w: Window, k: nat)
    requires w.Ok() && w.overlap >= 1 && k + 1 < |Chunks(text, w)|
    ensures var a, b := Chunks(text, w)[k], Chunks(text, w)[k + 1];
            || LastOf(a, w.overlap) <= b || StripLeft(LastOf(a, w.overlap)) <= b
            || exists p :: p in Paragraphs(text) && |p| > w.size && b == p[..w.size]
  {
    TidiedAreParagraphs(Blocks(text));
    AllAreLinked(Paragraphs(text), text, w);
    var chunks := Chunks(text, w);
    assert Overlap(chunks[k], chunks[k + 1], w.overlap) || OpensParagraph(chunks[k + 1], Paragraphs(text), w);
  }

  lemma {:induction false} AllAreLinked(paras: seq<string>, text: string, w: Window)
    requires w.Ok() && w.overlap >= 1 && forall p :: p in paras ==> EndsInInk(p)
    ensures Linked(Collected(paras, text, w), paras, w)
  {
    AddingChains(paras, w);
    FlushedIsLinked(AddAll(paras, w), paras, w);
  }
}
