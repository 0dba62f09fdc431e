/** The part of a presentation the exporter reads, and what it writes from it:
    the flattened speaker notes of one slide, the whole of notes.txt, and the
    name of each slide's image file. Everything here is a pure function. */
module Notes {
  import opened Wrappers
  import opened Decimal

  datatype TextRun = TextRun(content: string)

  /** A text element holds a run of text, or something else (a paragraph marker, ...). */
  datatype TextElement = TextElement(textRun: Option<TextRun>)

  datatype TextContent = TextContent(textElements: seq<TextElement>)

  datatype Shape = Shape(text: Option<TextContent>)

  datatype PageElement = PageElement(shape: Option<Shape>)

  /** A slide with its object id and the page elements of its notes page. */
  datatype Slide = Slide(objectId: string, notesElements: seq<PageElement>)

  /** The exporter reads `element.Shape.Text` without checking for a missing shape,
      so it is only defined on notes pages whose every element is a shape. */
  predicate AllShapes(es: seq<PageElement>) {
    forall j :: 0 <= j < |es| ==> es[j].shape.Some?
  }

  predicate HasShapes(s: Slide) {
    AllShapes(s.notesElements)
  }

  predicate DeckHasShapes(slides: seq<Slide>) {
    forall i :: 0 <= i < |slides| ==> HasShapes(slides[i])
  }

  // ---------------------------------------------------------------------------
  // Flattening, in the order the exporter appends: element by element, and
  // inside an element text element by text element.

  /** What one text element adds to notes.txt: its run's content and a newline. */
  function RunLine(te: TextElement): (line: string) {
    match te.textRun
    case None => ""
    case Some(run) => run.content + "\n"
  }

  function TextNotes(tes: seq<TextElement>): (text: string) {
    if tes == [] then "" else TextNotes(tes[..|tes| - 1]) + RunLine(tes[|tes| - 1])
  }

  /** What one page element adds: nothing when its shape has no text. */
  function ElementNotes(e: PageElement): (text: string)
    requires e.shape.Some?
  {
    match e.shape.value.text
    case None => ""
    case Some(t) => TextNotes(t.textElements)
  }

  function ElementsNotes(es: seq<PageElement>): (text: string)
    requires AllShapes(es)
  {
    if es == [] then "" else ElementsNotes(es[..|es| - 1]) + ElementNotes(es[|es| - 1])
  }

  /** The note text the exporter writes for one slide. */
  function SlideNotes(s: Slide): (text: string)
    requires HasShapes(s)
  {
    ElementsNotes(s.notesElements)
  }

  // ---------------------------------------------------------------------------
  // An independent description: the list of the slide's text runs, in reading
  // order, each printed on a line of its own.

  function TextRuns(tes: seq<TextElement>): (runs: seq<string>) {
    if tes == [] then []
    else (if tes[0].textRun.Some? then [tes[0].textRun.value.content] else []) + TextRuns(tes[1..])
  }

  function ElementRuns(e: PageElement): (runs: seq<string>) {
    if e.shape.Some? && e.shape.value.text.Some? then TextRuns(e.shape.value.text.value.textElements)
    else []
  }

  function ElementsRuns(es: seq<PageElement>): (runs: seq<string>) {
    if es == [] then [] else ElementRuns(es[0]) + ElementsRuns(es[1..])
  }

  /** The contents of every text run on the slide's notes page, in order. */
  function SlideRuns(s: Slide): (runs: seq<string>) {
    ElementsRuns(s.notesElements)
  }

  /** Each string followed by a newline, all concatenated. */
  function Lines(rs: seq<string>): (text: string) {
    if rs == [] then "" else rs[0] + "\n" + Lines(rs[1..])
  }

  lemma {:induction false} LinesAppend(a: seq<string>, b: seq<string>)
    ensures Lines(a + b) == Lines(a) + Lines(b)
  {
    if a == [] {
      assert a + b == b;
    } else {
      assert (a + b)[1..] == a[1..] + b;
      LinesAppend(a[1..], b);
    }
  }

  lemma {:induction false} TextRunsAppend(a: seq<TextElement>, b: seq<TextElement>)
    ensures TextRuns(a + b) == TextRuns(a) + TextRuns(b)
  {
    if a == [] {
      assert a + b == b;
    } else {
      assert (a + b)[1..] == a[1..] + b;
      TextRunsAppend(a[1..], b);
    }
  }

  lemma {:induction false} ElementsRunsAppend(a: seq<PageElement>, b: seq<PageElement>)
    ensures ElementsRuns(a + b) == ElementsRuns(a) + ElementsRuns(b)
  {
    if a == [] {
      assert a + b == b;
    } else {
      assert (a + b)[1..] == a[1..] + b;
      ElementsRunsAppend(a[1..], b);
    }
  }

  lemma {:induction false} TextNotesAreRunLines(tes: seq<TextElement>)
    ensures TextNotes(tes) == Lines(TextRuns(tes))
  {
    if tes != [] {
      var init, last := tes[..|tes| - 1], tes[|tes| - 1];
      assert tes == init + [last];
      TextNotesAreRunLines(init);
      TextRunsAppend(init, [last]);
      assert [last][1..] == [];
      LinesAppend(TextRuns(init), TextRuns([last]));
    }
  }

  lemma ElementNotesAreRunLines(e: PageElement)
    requires e.shape.Some?
    ensures ElementNotes(e) == Lines(ElementRuns(e))
  {
    if e.shape.value.text.Some? {
      TextNotesAreRunLines(e.shape.value.text.value.textElements);
    }
  }

  lemma {:induction false} ElementsNotesAreRunLines(es: seq<PageElement>)
    requires AllShapes(es)
    ensures ElementsNotes(es) == Lines(ElementsRuns(es))
  {
    if es != [] {
      var init, last := es[..|es| - 1], es[|es| - 1];
      assert es == init + [last];
      ElementsNotesAreRunLines(init);
      ElementsRunsAppend(init, [last]);
      assert ElementsRuns([last]) == ElementRuns(last) by {
        assert [last][1..] == [];
      }
      ElementNotesAreRunLines(last);
      LinesAppend(ElementsRuns(init), ElementRuns(last));
    }
  }

  /** A slide's note text is exactly the contents of its text runs, each followed
      by a newline, in element order and then text-element order; elements
      without text and text elements without a run add nothing. */
  lemma SlideNotesAreRunLines(s: Slide)
    requires HasShapes(s)
    ensures SlideNotes(s) == Lines(SlideRuns(s))
  {
    ElementsNotesAreRunLines(s.notesElements);
  }

  /** The notes of two runs of elements, one after the other. */
  lemma ElementsNotesAppend(a: seq<PageElement>, b: seq<PageElement>)
    requires AllShapes(a) && AllShapes(b)
    ensures AllShapes(a + b) && ElementsNotes(a + b) == ElementsNotes(a) + ElementsNotes(b)
  {
    assert AllShapes(a + b) by {
      forall j | 0 <= j < |a + b| ensures (a + b)[j].shape.Some? {
        if j >= |a| { assert (a + b)[j] == b[j - |a|]; }
      }
    }
    ElementsNotesAreRunLines(a);
    ElementsNotesAreRunLines(b);
    ElementsNotesAreRunLines(a + b);
    ElementsRunsAppend(a, b);
    LinesAppend(ElementsRuns(a), ElementsRuns(b));
  }

  /** Appending in two steps is appending the two pieces together. */
  lemma ConcatAssoc(a: string, b: string, c: string)
    ensures a + b + c == a + (b + c)
  {
  }

  /** The note text of the first j + 1 elements: that of the first j, then element j's. */
  lemma ElementsNotesStep(es: seq<PageElement>, j: nat)
    requires AllShapes(es) && j < |es|
    ensures ElementsNotes(es[..j + 1]) == ElementsNotes(es[..j]) + ElementNotes(es[j])
  {
    assert es[..j + 1][..j] == es[..j];
  }

  /** An element whose shape has no text contributes nothing to the note text. */
  lemma TextlessElementsAreSkipped(es: seq<PageElement>, j: nat)
    requires AllShapes(es) && j < |es| && es[j].shape.value.text.None?
    ensures ElementsNotes(es) == ElementsNotes(es[..j]) + ElementsNotes(es[j + 1..])
  {
    var head := es[..j + 1];
    assert ElementsNotes(head) == ElementsNotes(es[..j]) by {
      assert head[..|head| - 1] == es[..j];
    }
    assert es == head + es[j + 1..];
    ElementsNotesAppend(head, es[j + 1..]);
  }

  /** The notes of two runs of text elements, one after the other. */
  lemma TextNotesAppend(a: seq<TextElement>, b: seq<TextElement>)
    ensures TextNotes(a + b) == TextNotes(a) + TextNotes(b)
  {
    TextNotesAreRunLines(a);
    TextNotesAreRunLines(b);
    TextNotesAreRunLines(a + b);
    TextRunsAppend(a, b);
    LinesAppend(TextRuns(a), TextRuns(b));
  }

  /** The note text of the first m + 1 text elements: that of the first m, then
      element m's line. */
  lemma TextNotesStep(tes: seq<TextElement>, m: nat)
    requires m < |tes|
    ensures TextNotes(tes[..m + 1]) == TextNotes(tes[..m]) + RunLine(tes[m])
  {
    assert tes[..m + 1][..m] == tes[..m];
  }

  /** A text element without a run contributes nothing either. */
  lemma RunlessTextElementsAreSkipped(tes: seq<TextElement>, m: nat)
    requires m < |tes| && tes[m].textRun.None?
    ensures TextNotes(tes) == TextNotes(tes[..m]) + TextNotes(tes[m + 1..])
  {
    var head := tes[..m + 1];
    assert TextNotes(head) == TextNotes(tes[..m]) by {
      assert head[..|head| - 1] == tes[..m];
    }
    assert tes == head + tes[m + 1..];
    TextNotesAppend(head, tes[m + 1..]);
  }

  // ---------------------------------------------------------------------------
  // notes.txt and the image file names.

  /** The line written before the notes of the slide at 1-based position k. */
  function Header(k: nat): (text: string) {
    "Slide " + NatToString(k) + ":\n"
  }

  /** The name of the image file of the slide at 1-based position k. */
  function ImageName(k: nat): (name: string) {
    "image" + NatToString(k) + ".jpg"
  }

  /** The block for the slide at 1-based position k: its header, then its notes. */
  function Block(k: nat, s: Slide): (text: string)
    requires HasShapes(s)
  {
    Header(k) + SlideNotes(s)
  }

  /** notes.txt after a complete run over `slides`: the blocks of all slides in deck order. */
  function NotesFile(slides: seq<Slide>): (text: string)
    requires DeckHasShapes(slides)
  {
    if slides == [] then ""
    else NotesFile(slides[..|slides| - 1]) + Block(|slides|, slides[|slides| - 1])
  }

  /** The notes file grows by one block per slide. */
  lemma NotesFileStep(slides: seq<Slide>, i: nat)
    requires DeckHasShapes(slides) && i < |slides|
    ensures NotesFile(slides[..i + 1]) == NotesFile(slides[..i]) + Block(i + 1, slides[i])
  {
    assert slides[..i + 1][..i] == slides[..i];
  }

  /** The notes written for the first k slides are a prefix of the complete notes file. */
  lemma {:induction false} NotesFilePrefix(slides: seq<Slide>, k: nat)
    requires DeckHasShapes(slides) && k <= |slides|
    ensures NotesFile(slides[..k]) <= NotesFile(slides)
  {
    if k < |slides| {
      var init := slides[..|slides| - 1];
      assert init[..k] == slides[..k];
      NotesFilePrefix(init, k);
      assert slides[..|slides|] == slides;
    } else {
      assert slides[..k] == slides;
    }
  }

  /** What a run that stops at the slide at 0-based position k leaves in notes.txt
      (the first k blocks and the header of slide k + 1) is a prefix of what a
      complete run writes: header k + 1 comes after all of slide k's notes and
      before any of slide k + 1's. */
  lemma AbortedNotesArePrefix(slides: seq<Slide>, k: nat)
    requires DeckHasShapes(slides) && k < |slides|
    ensures NotesFile(slides[..k]) + Header(k + 1) <= NotesFile(slides)
  {
    NotesFileStep(slides, k);
    NotesFilePrefix(slides, k + 1);
  }

  /** Where the block of the slide at 0-based position i starts in notes.txt. */
  function BlockStart(slides: seq<Slide>, i: nat): (start: nat)
    requires DeckHasShapes(slides) && i <= |slides|
  {
    |NotesFile(slides[..i])|
  }

  /** The header `Slide i+1:` sits in notes.txt at the start of block i. */
  lemma HeaderAt(slides: seq<Slide>, i: nat)
    requires DeckHasShapes(slides) && i < |slides|
    ensures BlockStart(slides, i) + |Header(i + 1)| <= |NotesFile(slides)|
    ensures NotesFile(slides)[BlockStart(slides, i)..BlockStart(slides, i) + |Header(i + 1)|] == Header(i + 1)
  {
    var pre, h, file := NotesFile(slides[..i]), Header(i + 1), NotesFile(slides);
    AbortedNotesArePrefix(slides, i);
    assert file[..|pre| + |h|] == pre + h;
    assert file[|pre|..|pre| + |h|] == (pre + h)[|pre|..];
    assert (pre + h)[|pre|..] == h;
  }

  /** The blocks follow each other in deck order, each a header followed by its
      slide's notes, and the last one ends where the file ends: the file holds the
      S headers 1..S in order, each followed by its slide's notes. */
  lemma BlocksAdjacent(slides: seq<Slide>, i: nat)
    requires DeckHasShapes(slides) && i < |slides|
    ensures BlockStart(slides, i + 1) == BlockStart(slides, i) + |Header(i + 1)| + |SlideNotes(slides[i])|
    ensures BlockStart(slides, |slides|) == |NotesFile(slides)|
  {
    NotesFileStep(slides, i);
    assert slides[..|slides|] == slides;
  }

  /** Headers of different slides differ. */
  lemma HeadersDistinct(j: nat, k: nat)
    requires j != k
    ensures Header(j) != Header(k)
  {
    NatToStringInjective(j, k);
    var hj, hk := Header(j), Header(k);
    assert NatToString(j) == hj[6..|hj| - 2];
    assert NatToString(k) == hk[6..|hk| - 2];
  }

  /** Image files of different slides have different names, so a run never writes
      one image file twice. */
  lemma ImageNamesDistinct(j: nat, k: nat)
    requires j != k
    ensures ImageName(j) != ImageName(k)
  {
    NatToStringInjective(j, k);
    var nj, nk := ImageName(j), ImageName(k);
    assert NatToString(j) == nj[5..|nj| - 4];
    assert NatToString(k) == nk[5..|nk| - 4];
  }

  /** Concatenated headers `Slide 1:` .. `Slide n:`. */
  function Headers(n: nat): (text: string) {
    if n == 0 then "" else Headers(n - 1) + Header(n)
  }

  /** When no slide has a text run, notes.txt holds the headers only. */
  lemma {:induction false} NotesWithoutRunsAreHeaders(slides: seq<Slide>)
    requires DeckHasShapes(slides)
    requires forall i :: 0 <= i < |slides| ==> SlideRuns(slides[i]) == []
    ensures NotesFile(slides) == Headers(|slides|)
  {
    if slides != [] {
      var init := slides[..|slides| - 1];
      NotesWithoutRunsAreHeaders(init);
      SlideNotesAreRunLines(slides[|slides| - 1]);
    }
  }

  /** A notes page with one shape holding one text run. */
  function OneRunPage(content: string): (page: seq<PageElement>) {
    [PageElement(Some(Shape(Some(TextContent([TextElement(Some(TextRun(content)))])))))]
  }

  lemma OneRunPageNotes(id: string, content: string)
    ensures HasShapes(Slide(id, OneRunPage(content)))
    ensures SlideNotes(Slide(id, OneRunPage(content))) == content + "\n"
  {
    var es := OneRunPage(content);
    var tes := es[0].shape.value.text.value.textElements;
    assert es[..|es| - 1] == [] && tes[..|tes| - 1] == [];
    assert TextNotes(tes) == content + "\n";
    assert ElementNotes(es[0]) == content + "\n";
    assert ElementsNotes(es) == ElementsNotes([]) + ElementNotes(es[0]);
  }

  lemma SmallHeaders()
    ensures Header(1) == "Slide 1:\n" && Header(2) == "Slide 2:\n" && Header(3) == "Slide 3:\n"
  {
    assert NatToString(1) == "1" && NatToString(2) == "2" && NatToString(3) == "3";
  }

  /** The notes file of a three-slide deck, block by block. */
  lemma NotesFileOfThree(a: Slide, b: Slide, c: Slide)
    requires HasShapes(a) && HasShapes(b) && HasShapes(c)
    ensures DeckHasShapes([a, b, c])
    ensures NotesFile([a, b, c]) == Block(1, a) + Block(2, b) + Block(3, c)
  {
    assert DeckHasShapes([a]) && DeckHasShapes([a, b]) && DeckHasShapes([a, b, c]);
    assert NotesFile([a]) == Block(1, a) by {
      assert [a][..0] == [];
    }
    assert NotesFile([a, b]) == NotesFile([a]) + Block(2, b) by {
      assert [a, b][..1] == [a];
    }
    assert NotesFile([a, b, c]) == NotesFile([a, b]) + Block(3, c) by {
      assert [a, b, c][..2] == [a, b];
    }
  }

  lemma ScenarioBlocks()
    ensures HasShapes(Slide("p1", OneRunPage("Note A"))) && HasShapes(Slide("p2", OneRunPage("Note B")))
    ensures Block(1, Slide("p1", OneRunPage("Note A"))) == "Slide 1:\nNote A\n"
    ensures Block(2, Slide("p2", OneRunPage("Note B"))) == "Slide 2:\nNote B\n"
    ensures Block(3, Slide("p3", [])) == "Slide 3:\n"
  {
    OneRunPageNotes("p1", "Note A");
    OneRunPageNotes("p2", "Note B");
    SmallHeaders();
  }

  /** A three-slide deck whose notes are "Note A", "Note B" and nothing gives three
      headers, the two notes, and nothing for the third slide. */
  lemma ThreeSlideScenario(a: Slide, b: Slide, c: Slide)
    requires a == Slide("p1", OneRunPage("Note A"))
    requires b == Slide("p2", OneRunPage("Note B"))
    requires c == Slide("p3", [])
    ensures DeckHasShapes([a, b, c])
    ensures NotesFile([a, b, c]) == "Slide 1:\nNote A\nSlide 2:\nNote B\nSlide 3:\n"
  {
    ScenarioBlocks();
    NotesFileOfThree(a, b, c);
    ScenarioText(Block(1, a), Block(2, b), Block(3, c));
  }

  lemma ScenarioText(b1: string, b2: string, b3: string)
    requires b1 == "Slide 1:\nNote A\n" && b2 == "Slide 2:\nNote B\n" && b3 == "Slide 3:\n"
    ensures b1 + b2 + b3 == "Slide 1:\nNote A\nSlide 2:\nNote B\nSlide 3:\n"
  {
  }

  /** Two runs in one element are written as two lines, "Hello, " and "world",
      and a text element without a run between them adds nothing. */
  lemma TwoRunsTwoLines()
    ensures
      var e := PageElement(Some(Shape(Some(TextContent(
        [TextElement(Some(TextRun("Hello, "))), TextElement(None), TextElement(Some(TextRun("world")))])))));
      SlideNotes(Slide("p", [e])) == "Hello, \nworld\n"
  {
    var tes := [TextElement(Some(TextRun("Hello, "))), TextElement(None), TextElement(Some(TextRun("world")))];
    var e := PageElement(Some(Shape(Some(TextContent(tes)))));
    assert [e][..0] == [] && tes[..3] == tes && tes[..3][..2] == tes[..2] && tes[..2][..1] == tes[..1];
    assert tes[..1][..0] == [];
    assert TextNotes(tes[..1]) == "Hello, \n";
    assert TextNotes(tes[..2]) == "Hello, \n";
    assert TextNotes(tes) == "Hello, \nworld\n";
  }
}
