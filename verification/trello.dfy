// The factory's block in a card description: printed after the source text, removed
// again when the description is read (src/factory/integrations/trello/feedback.py).
module Trello {
  import opened Models

  function Start(): string { "<!-- factory-feedback:start -->" }

  function End(): string { "<!-- factory-feedback:end -->" }

  predicate Occurs(s: string, m: string, i: nat) { i + |m| <= |s| && s[i..i + |m|] == m }

  predicate Free(s: string, m: string) { forall i :: 0 <= i <= |s| ==> !Occurs(s, m, i) }

  predicate MarkerFree(s: string) { Free(s, Start()) && Free(s, End()) }

  // str.find from a position.
  function Find(s: string, m: string, from: nat): (r: Option<nat>)
    requires from <= |s|
    ensures r.Some? ==>
              from <= r.value && Occurs(s, m, r.value)
              && forall i :: from <= i < r.value ==> !Occurs(s, m, i)
    ensures r.None? ==> forall i :: from <= i <= |s| ==> !Occurs(s, m, i)
    decreases |s| - from
  {
    if Occurs(s, m, from) then Some(from)
    else if from == |s| then None
    else Find(s, m, from + 1)
  }

  // str.count: occurrences that do not overlap, from the left.
  function Count(s: string, m: string, from: nat): nat
    requires m != "" && from <= |s|
    decreases |s| - from
  {
    match Find(s, m, from)
    case None => 0
    case Some(i) => 1 + Count(s, m, i + |m|)
  }

  function SourceDescription(d: string): Option<string> {
    var starts, ends := Count(d, Start(), 0), Count(d, End(), 0);
    if starts == 0 && ends == 0 then Some(d)
    else if starts != 1 || ends != 1 then None
    else
      match Find(d, Start(), 0)
      case None => None
      case Some(i) =>
        var prefix, remainder := d[..i], d[i + |Start()|..];
        match Find(remainder, End(), 0)
        case None => None
        case Some(j) =>
          var block, trailing := remainder[..j], remainder[j + |End()|..];
          if !Free(block, Start()) || !Free(block, End()) then None
          else if !(|prefix| >= 2 && prefix[|prefix| - 2..] == "\n\n") then None
          else if !(block != "" && block[0] == '\n') then None
          else Some(prefix[..|prefix| - 2] + trailing)
  }

  // The description that sync writes for a card's source text; `lines` are the
  // block's fields, each with its line break.
  function Printed(original: string, lines: string): string {
    original + "\n\n" + Start() + "\n" + lines + End()
  }

  // -- markers do not overlap ---------------------------------------------------------

  // '<' only in front, and on one line.
  predicate Plain(m: string) {
    m != "" && m[0] == '<' && forall k :: 0 < k < |m| ==> m[k] != '<' && m[k] != '\n'
  }

  lemma MarkersPlain()
    ensures Plain(Start()) && Plain(End()) && |Start()| == 31 && |End()| == 29
    ensures Start()[22] == 's' && End()[22] == 'e'
  {
  }

  lemma CharAt(s: string, m: string, i: nat, k: nat)
    requires Occurs(s, m, i) && k < |m|
    ensures i + k < |s| && s[i + k] == m[k]
  {
    assert s[i..i + |m|][k] == m[k];
  }

  lemma NoOverlap(s: string, m: string, i: nat, j: nat)
    requires Plain(m) && Occurs(s, m, i) && Occurs(s, m, j)
    ensures j <= i || j >= i + |m|
  {
    CharAt(s, m, i, if i < j < i + |m| then j - i else 0);
    CharAt(s, m, j, 0);
  }

  // Counting finds none, or exactly one, just when there is none, or exactly one.
  lemma CountMeans(s: string, m: string)
    requires Plain(m)
    ensures Count(s, m, 0) == 0 <==> Free(s, m)
    ensures Count(s, m, 0) == 1 <==>
            Find(s, m, 0).Some? && forall j :: 0 <= j <= |s| && Occurs(s, m, j) ==> j == Find(s, m, 0).value
  {
    match Find(s, m, 0)
    case None =>
    case Some(i) =>
      forall j | 0 <= j <= |s| && Occurs(s, m, j) && j != i
        ensures j >= i + |m|
      {
        NoOverlap(s, m, i, j);
      }
  }

  // -- what is printed is read back ----------------------------------------------------

  lemma NotAt(s: string, m: string, i: nat, k: nat)
    requires k < |m| && i + k < |s| && s[i + k] != m[k]
    ensures !Occurs(s, m, i)
  {
    if i + |m| <= |s| { assert s[i..i + |m|][k] != m[k]; }
  }

  // Around a marker in a text, another marker lies before it, at it, or after it.
  lemma Around(x: string, marker: string, y: string, m: string, i: nat)
    requires Plain(marker) && Plain(m) && Occurs(x + marker + y, m, i)
    ensures
      || Occurs(x, m, i)
      || i == |x|
      || (i >= |x| + |marker| && Occurs(y, m, i - |x| - |marker|))
  {
    var d := x + marker + y;
    CharAt(d, m, i, if i < |x| < i + |m| then |x| - i else 0);
    if i + |m| <= |x| {
      assert x[i..i + |m|] == d[i..i + |m|];
    } else if i >= |x| + |marker| {
      var j := i - |x| - |marker|;
      assert y[j..j + |m|] == d[i..i + |m|];
    }
  }

  // At the place of one marker no other starts.
  lemma SameMarker(x: string, marker: string, y: string, m: string)
    requires marker in [Start(), End()] && m in [Start(), End()] && Occurs(x + marker + y, m, |x|)
    ensures m == marker
  {
    hide Start, End;
    MarkersPlain();
    CharAt(x + marker + y, m, |x|, 22);
  }

  lemma BeforeBreaks(x: string, m: string, i: nat)
    requires Plain(m) && Occurs(x + "\n\n", m, i)
    ensures Occurs(x, m, i)
  {
    CharAt(x + "\n\n", m, i, if i <= |x| < i + |m| then |x| - i else 0);
    if i + |m| <= |x| { assert x[i..i + |m|] == (x + "\n\n")[i..i + |m|]; }
  }

  lemma AfterBreak(x: string, m: string, i: nat)
    requires Plain(m) && Occurs("\n" + x, m, i)
    ensures i >= 1 && Occurs(x, m, i - 1)
  {
    CharAt("\n" + x, m, i, 0);
    if i >= 1 { assert x[i - 1..i - 1 + |m|] == ("\n" + x)[i..i + |m|]; }
  }

  // In a printed description with text appended, the only occurrences of a marker
  // outside the three texts are the two that were printed.
  lemma OnlyPrinted(original: string, lines: string, trailing: string, m: string, i: nat)
    requires m in [Start(), End()] && MarkerFree(original) && MarkerFree(lines) && MarkerFree(trailing)
    requires Occurs(Printed(original, lines) + trailing, m, i)
    ensures i == if m == Start() then |original| + 2 else |original| + 2 + |Start()| + 1 + |lines|
  {
    hide Start, End;
    MarkersPlain();
    var x, block := original + "\n\n", "\n" + lines;
    var y := block + End() + trailing;
    assert Printed(original, lines) + trailing == x + Start() + y;
    hide Plain;
    Around(x, Start(), y, m, i);
    if Occurs(x, m, i) {
      BeforeBreaks(original, m, i);
    } else if i == |x| {
      SameMarker(x, Start(), y, m);
    } else {
      var j := i - |x| - |Start()|;
      Around(block, End(), trailing, m, j);
      if Occurs(block, m, j) {
        AfterBreak(lines, m, j);
      } else if j == |block| {
        SameMarker(block, End(), trailing, m);
      }
    }
  }

  // The text consists of a source text, one printed block and what has been appended,
  // and there is no other marker anywhere in it.
  ghost predicate OneBlock(d: string, original: string, lines: string, trailing: string) {
    && d == Printed(original, lines) + trailing
    && (forall i :: 0 <= i <= |d| && Occurs(d, Start(), i) ==> i == |original| + 2)
    && (forall i :: 0 <= i <= |d| && Occurs(d, End(), i) ==> i == |original| + 2 + |Start()| + 1 + |lines|)
  }

  // A printed block is found, and exactly it is removed: the source text comes back,
  // with whatever has been appended after the block.
  lemma ReadBack(original: string, lines: string, trailing: string)
    requires MarkerFree(original) && MarkerFree(lines) && MarkerFree(trailing)
    ensures SourceDescription(Printed(original, lines) + trailing) == Some(original + trailing)
  {
    hide Start, End;
    var d := Printed(original, lines) + trailing;
    forall m, i | m in [Start(), End()] && 0 <= i <= |d| && Occurs(d, m, i)
      ensures i == if m == Start() then |original| + 2 else |original| + 2 + |Start()| + 1 + |lines|
    {
      OnlyPrinted(original, lines, trailing, m, i);
    }
    MarkersPlain();
    assert Start() in [Start(), End()] && End() in [Start(), End()] && Start() != End();
    BlockIsRead(d, original, lines, trailing);
  }

  lemma LinesUnmarked(d: string, original: string, lines: string, trailing: string, m: string)
    requires OneBlock(d, original, lines, trailing) && m in [Start(), End()]
    ensures Free(lines, m)
  {
    hide Start, End;
    MarkersPlain();
    var before := original + "\n\n" + Start() + "\n";
    assert d == before + lines + (End() + trailing);
    hide Printed;
    forall i | 0 <= i <= |lines|
      ensures !Occurs(lines, m, i)
    {
      if Occurs(lines, m, i) { Inside(before, lines, End() + trailing, m, i); }
    }
  }

  lemma Inside(x: string, s: string, y: string, m: string, i: nat)
    requires Occurs(s, m, i)
    ensures Occurs(x + s + y, m, |x| + i)
  {
    assert (x + s + y)[|x| + i..|x| + i + |m|] == s[i..i + |m|];
  }

  lemma BlockIsRead(d: string, original: string, lines: string, trailing: string)
    requires OneBlock(d, original, lines, trailing)
    ensures SourceDescription(d) == Some(original + trailing) && !MarkerFree(d)
  {
    hide Start, End;
    MarkersPlain();
    var p := |original| + 2;
    var q := p + |Start()| + 1 + |lines|;
    assert d[p..p + |Start()|] == Start() && d[q..q + |End()|] == End();
    assert Occurs(d, Start(), p) && Occurs(d, End(), q);
    CountMeans(d, Start());
    CountMeans(d, End());
    assert Find(d, Start(), 0) == Some(p) && Find(d, End(), 0) == Some(q);
    hide Count;
    LinesUnmarked(d, original, lines, trailing, Start());
    LinesUnmarked(d, original, lines, trailing, End());
    RestOfBlock(original, lines, trailing, d, p, q);
  }

  // Two markers, each the only one, in the places of a block; `text` is what is around it.
  ghost predicate BlockPlaces(d: string, i: nat, at: nat, text: string) {
    && 2 <= i && i + |Start()| < at
    && Occurs(d, Start(), i) && Occurs(d, End(), at)
    && d[..i][i - 2..] == "\n\n" && d[i + |Start()|] == '\n'
    && (forall k :: 0 <= k <= |d| && Occurs(d, Start(), k) ==> k == i)
    && (forall k :: 0 <= k <= |d| && Occurs(d, End(), k) ==> k == at)
    && text == d[..i - 2] + d[at + |End()|..]
  }

  // Whatever else is accepted has exactly one block.
  lemma ReadHasBlock(d: string, text: string)
    requires SourceDescription(d) == Some(text) && !MarkerFree(d)
    ensures exists original, lines, trailing ::
              OneBlock(d, original, lines, trailing) && text == original + trailing
  {
    hide Start, End, SourceDescription, MarkerFree, OneBlock;
    var i, at := MarkerPlaces(d, text);
    BlockAt(d, i, at, text);
  }

  // What the two searches have found.
  ghost predicate Searched(d: string, i: nat, j: nat, text: string) {
    && Find(d, Start(), 0) == Some(i)
    && Find(d[i + |Start()|..], End(), 0) == Some(j)
    && Occurs(d, Start(), i) && Occurs(d[i + |Start()|..], End(), j)
    && i >= 2 && d[..i][i - 2..] == "\n\n" && j > 0 && d[i + |Start()|] == '\n'
    && text == d[..i][..i - 2] + d[i + |Start()|..][j + |End()|..]
  }

  lemma Accepted(d: string, text: string) returns (i: nat, j: nat)
    requires SourceDescription(d) == Some(text)
    requires Count(d, Start(), 0) != 0 || Count(d, End(), 0) != 0
    ensures Count(d, Start(), 0) == 1 && Count(d, End(), 0) == 1 && Searched(d, i, j, text)
  {
    hide Start, End, Count, Find, Free;
    i := Find(d, Start(), 0).value;
    var remainder := d[i + |Start()|..];
    j := Find(remainder, End(), 0).value;
    assert remainder[..j][0] == d[i + |Start()|];
  }

  lemma MarkerPlaces(d: string, text: string) returns (i: nat, at: nat)
    requires SourceDescription(d) == Some(text) && !MarkerFree(d)
    ensures BlockPlaces(d, i, at, text)
  {
    hide Start, End, SourceDescription;
    MarkersPlain();
    CountMeans(d, Start());
    CountMeans(d, End());
    var j: nat;
    i, j := Accepted(d, text);
    hide Count, Find, Plain, Free, MarkerFree, Occurs;
    at := i + |Start()| + j;
    InRest(d, i + |Start()|, j, i);
  }

  lemma InRest(d: string, from: nat, j: nat, i: nat)
    requires from <= |d| && Occurs(d[from..], End(), j) && 2 <= i <= from
    ensures Occurs(d, End(), from + j)
    ensures d[from..][j + |End()|..] == d[from + j + |End()|..]
    ensures d[..i][..i - 2] == d[..i - 2]
  {
    hide End;
    assert d[from + j..from + j + |End()|] == d[from..][j..j + |End()|];
  }

  lemma BlockAt(d: string, i: nat, at: nat, text: string)
    requires BlockPlaces(d, i, at, text)
    ensures OneBlock(d, d[..i - 2], d[i + |Start()| + 1..at], d[at + |End()|..])
    ensures text == d[..i - 2] + d[at + |End()|..]
  {
    hide Start, End;
    var from := i + |Start()|;
    assert d[..i] == d[..i - 2] + "\n\n";
    assert d[from..at] == "\n" + d[from + 1..at];
    assert d == d[..i] + d[i..from] + d[from..at] + d[at..at + |End()|] + d[at + |End()|..];
  }

  // A text without markers reads as itself, a text with exactly one block as the text
  // around it, and every other text is refused.
  lemma ReadExactly(d: string, text: string)
    ensures SourceDescription(d) == Some(text) <==>
              || (MarkerFree(d) && text == d)
              || (exists original, lines, trailing ::
                    OneBlock(d, original, lines, trailing) && text == original + trailing)
  {
    hide Start, End, OneBlock;
    if MarkerFree(d) {
      MarkersPlain();
      CountMeans(d, Start());
      CountMeans(d, End());
    } else if SourceDescription(d).Some? {
      ReadHasBlock(d, SourceDescription(d).value);
    }
    hide SourceDescription, MarkerFree;
    forall original, lines, trailing | OneBlock(d, original, lines, trailing)
      ensures SourceDescription(d) == Some(original + trailing) && !MarkerFree(d)
    {
      BlockIsRead(d, original, lines, trailing);
    }
  }

  lemma BreakFree(lines: string, m: string)
    requires Plain(m) && Free(lines, m)
    ensures Free("\n" + lines, m)
  {
    forall i | 0 <= i <= 1 + |lines|
      ensures !Occurs("\n" + lines, m, i)
    {
      if i == 0 {
        NotAt("\n" + lines, m, 0, 0);
      } else if Occurs("\n" + lines, m, i) {
        AfterBreak(lines, m, i);
      }
    }
  }

  lemma RestOfBlock(original: string, lines: string, trailing: string, d: string, p: nat, q: nat)
    requires d == Printed(original, lines) + trailing && MarkerFree(lines)
    requires p == |original| + 2 && q == p + |Start()| + 1 + |lines| && q + |End()| <= |d|
    requires forall i :: 0 <= i <= |d| && Occurs(d, End(), i) ==> i == q
    ensures
      var remainder := d[p + |Start()|..];
      && Find(remainder, End(), 0) == Some(1 + |lines|)
      && remainder[..1 + |lines|] == "\n" + lines
      && remainder[1 + |lines| + |End()|..] == trailing
      && d[..p] == original + "\n\n"
      && MarkerFree("\n" + lines)
  {
    hide Start, End;
    MarkersPlain();
    var remainder := d[p + |Start()|..];
    assert remainder == "\n" + lines + End() + trailing;
    assert d[..p] == original + "\n\n";
    assert remainder[1 + |lines|..1 + |lines| + |End()|] == End();
    forall i | 0 <= i <= |remainder| && Occurs(remainder, End(), i)
      ensures i == 1 + |lines|
    {
      assert d[i + p + |Start()|..i + p + |Start()| + |End()|] == remainder[i..i + |End()|];
      assert Occurs(d, End(), i + p + |Start()|);
    }
    assert Occurs(remainder, End(), 1 + |lines|);
    BreakFree(lines, Start());
    BreakFree(lines, End());
  }

  // For block fields without markers, the text written is the text read back exactly
  // when it contains no marker itself; any other text makes the card unreadable.
  lemma RoundTripExactly(original: string, lines: string)
    requires MarkerFree(lines)
    ensures SourceDescription(Printed(original, lines)) == Some(original) <==> MarkerFree(original)
    ensures SourceDescription(Printed(original, lines)).None? <==> !MarkerFree(original)
  {
    hide Start, End;
    MarkersPlain();
    var d := Printed(original, lines);
    assert d + "" == d && original + "" == original;
    if MarkerFree(original) {
      ReadBack(original, lines, "");
    } else {
      var m := if Free(original, Start()) then End() else Start();
      var i :| 0 <= i <= |original| && Occurs(original, m, i);
      assert d[i..i + |m|] == original[i..i + |m|];
      var at := if m == Start() then |original| + 2 else |original| + 2 + |Start()| + 1 + |lines|;
      assert d[at..at + |m|] == m;
      assert Occurs(d, m, i) && Occurs(d, m, at) && i != at;
      CountMeans(d, Start());
      CountMeans(d, End());
    }
  }

  lemma HalvesAreFree()
    ensures |Start()| > 5 && MarkerFree(Start()[..5]) && MarkerFree(Start()[5..])
    ensures !MarkerFree(Start())
  {
    hide Start, End;
    MarkersPlain();
    var trailing := Start()[5..];
    forall m, i | m in [Start(), End()] && 0 <= i < |trailing|
      ensures !Occurs(trailing, m, i)
    {
      assert trailing[i] == Start()[5 + i];
      NotAt(trailing, m, i, 0);
    }
    assert Start() in [Start(), End()] && End() in [Start(), End()];
    assert Occurs(Start(), Start(), 0);
  }

  // Removing a block can join the text around it into a new marker: such a card is
  // read once and unreadable after the next write.
  lemma RemovalCanMakeMarker(lines: string)
    requires MarkerFree(lines)
    ensures exists original, trailing ::
              && SourceDescription(Printed(original, lines) + trailing) == Some(Start())
              && SourceDescription(Printed(Start(), lines)).None?
  {
    hide Start, End, MarkerFree, SourceDescription, Printed;
    HalvesAreFree();
    var original, trailing := Start()[..5], Start()[5..];
    assert original + trailing == Start();
    ReadBack(original, lines, trailing);
    RoundTripExactly(Start(), lines);
  }
}
