/** What short runs of events build: code blocks spread over several `<pre>`
    elements, adjacent blockquotes, lists, link summaries, and the effect of
    the shared marker lists. */
module ParserRuns {
  import opened Common
  import opened Strings
  import opened Attributes
  import opened Mobiledoc
  import opened MediumPostParser
  import opened ParserProperties

  /** The first event raising ends the run with its exception. */
  lemma RunStopsAt(st: ParserState, e: Event, rest: seq<Event>)
    requires ValidState(st) && Step(st, e).Failure?
    ensures Run(st, [e] + rest) == Failure(Step(st, e).error)
  {
    assert ([e] + rest)[0] == e;
  }

  /** Handling `a + b` is handling `a`, then `b` from where `a` left off. */
  lemma {:induction false} RunConcat(st: ParserState, a: seq<Event>, b: seq<Event>)
    requires ValidState(st)
    ensures Run(st, a + b) ==
      match Run(st, a)
      case Failure(e) => Failure(e)
      case Success(st1) => Run(st1, b)
    decreases |a|
  {
    if a == [] {
      assert a + b == b;
    } else {
      var e, a' := a[0], a[1..];
      assert a == [e] + a' && a + b == [e] + (a' + b);
      var r := Step(st, e);
      if r.Failure? {
        RunStopsAt(st, e, a');
        RunStopsAt(st, e, a' + b);
      } else {
        RunStep(st, e, r.value, a');
        RunStep(st, e, r.value, a' + b);
        RunConcat(r.value, a', b);
      }
    }
  }

  // ---------------------------------------------------------------------------
  // Code blocks: Medium writes each line of a code block as its own `<pre>`

  function PreLine(line: string): seq<Event>
  {
    [StartTag("pre", []), Text(line), EndTag("pre")]
  }

  function PreLines(lines: seq<string>): seq<Event>
  {
    if lines == [] then [] else PreLine(lines[0]) + PreLines(lines[1..])
  }

  /** Each line preceded by `sep`. */
  function Prefixed(sep: string, lines: seq<string>): string
  {
    if lines == [] then "" else sep + lines[0] + Prefixed(sep, lines[1..])
  }

  lemma {:induction false} JoinPrefixed(sep: string, first: string, rest: seq<string>)
    ensures Join(sep, [first] + rest) == first + Prefixed(sep, rest)
    decreases |rest|
  {
    if rest != [] {
      JoinCons(sep, first, rest);
      assert rest == [rest[0]] + rest[1..];
      JoinPrefixed(sep, rest[0], rest[1..]);
    }
  }

  /** Three events that each succeed. */
  lemma RunThree(st: ParserState, e1: Event, e2: Event, e3: Event, s1: ParserState, s2: ParserState, s3: ParserState)
    requires ValidState(st) && Step(st, e1) == Success(s1)
    requires ValidState(s1) && Step(s1, e2) == Success(s2)
    requires ValidState(s2) && Step(s2, e3) == Success(s3)
    ensures Run(st, [e1, e2, e3]) == Success(s3)
  {
    RunTwo(s1, e2, e3, s2, s3);
    RunStep(st, e1, s1, [e2, e3]);
    assert [e1] + [e2, e3] == [e1, e2, e3];
  }

  lemma WithCodeTwice(st: ParserState, a: string, b: string)
    requires |st.cards| > 0 && st.cards[|st.cards| - 1].CodeCard?
    ensures WithCode(WithCode(st, a), b) == WithCode(st, a + b)
  {
    var n := |st.cards| - 1;
    var c := st.cards[n];
    assert (c.code + a) + b == c.code + (a + b);
  }

  lemma WithNoCode(st: ParserState)
    requires |st.cards| > 0 && st.cards[|st.cards| - 1].CodeCard?
    ensures WithCode(st, "") == st
  {
    var n := |st.cards| - 1;
    assert st.cards[n].code + "" == st.cards[n].code;
    assert st.cards[n := st.cards[n].(code := st.cards[n].code + "")] == st.cards;
  }

  lemma PopPushed(s: seq<string>, tag: string)
    ensures CanClose(s + [tag], tag) && PopTagStack(s + [tag], tag) == s
  {
    assert (s + [tag])[..|s|] == s;
  }

  /** The state after a first code line, rearranged. */
  lemma StartedCode(st: ParserState, line: string)
    requires !st.seenFooter
    ensures var s2 := WithCode(AddCard(Pushed(st, "pre"), CodeCard("", None)), line);
      s2.(lastSectionTag := Some("pre"), tagStack := st.tagStack)
        == AddCard(st, CodeCard(line, None)).(lastSectionTag := Some("pre"))
  {
    var n := |st.cards|;
    var s1 := AddCard(Pushed(st, "pre"), CodeCard("", None));
    assert s1.cards[n].code + line == line;
    assert s1.cards[n := CodeCard(line, None)] == st.cards + [CodeCard(line, None)];
  }

  /** The state after a later code line, rearranged. */
  lemma ContinuedCode(st: ParserState, line: string)
    requires !st.seenFooter && st.lastSectionTag == Some("pre")
    requires |st.cards| > 0 && st.cards[|st.cards| - 1].CodeCard?
    ensures var s2 := WithCode(WithCode(Pushed(st, "pre"), "\n\n"), line);
      s2.(lastSectionTag := Some("pre"), tagStack := st.tagStack) == WithCode(st, "\n\n" + line)
  {
    WithCodeTwice(Pushed(st, "pre"), "\n\n", line);
  }

  /** The first `<pre>` line opens a code card holding the line. */
  lemma PreLineStarts(st: ParserState, line: string)
    requires ValidState(st) && !st.seenFooter && st.lastSectionTag != Some("pre")
    requires "figcaption" !in st.tagStack
    ensures Run(st, PreLine(line)) ==
      Success(AddCard(st, CodeCard(line, None)).(lastSectionTag := Some("pre")))
  {
    var s1 := AddCard(Pushed(st, "pre"), CodeCard("", None));
    PreStartsCode(st, []);
    var s2 := WithCode(s1, line);
    TextInCode(s1, line);
    PreEnds(s2);
    PopPushed(st.tagStack, "pre");
    StartedCode(st, line);
    RunThree(st, StartTag("pre", []), Text(line), EndTag("pre"), s1, s2,
      AddCard(st, CodeCard(line, None)).(lastSectionTag := Some("pre")));
  }

  /** The start tag and the text of a later `<pre>` line. */
  lemma CodeLineOpened(st: ParserState, line: string)
    requires ValidState(st) && !st.seenFooter && st.lastSectionTag == Some("pre")
    requires |st.cards| > 0 && st.cards[|st.cards| - 1].CodeCard?
    requires "figcaption" !in st.tagStack
    ensures var s1 := WithCode(Pushed(st, "pre"), "\n\n");
      && Step(st, StartTag("pre", [])) == Success(s1)
      && ValidState(s1) && Step(s1, Text(line)) == Success(WithCode(s1, line))
  {
    var s1 := WithCode(Pushed(st, "pre"), "\n\n");
    PreContinuesCode(st, []);
    TextInCode(s1, line);
  }

  /** The end tag of a later `<pre>` line. */
  lemma CodeLineClosed(st: ParserState, line: string, s2: ParserState)
    requires !st.seenFooter && st.lastSectionTag == Some("pre")
    requires |st.cards| > 0 && st.cards[|st.cards| - 1].CodeCard?
    requires s2 == WithCode(WithCode(Pushed(st, "pre"), "\n\n"), line) && ValidState(s2)
    ensures Step(s2, EndTag("pre")) == Success(WithCode(st, "\n\n" + line))
  {
    PopPushed(st.tagStack, "pre");
    PreEnds(s2);
    ContinuedCode(st, line);
  }

  /** A `<pre>` line right after another continues its code card after a blank line. */
  lemma PreLineContinues(st: ParserState, line: string)
    requires ValidState(st) && !st.seenFooter && st.lastSectionTag == Some("pre")
    requires |st.cards| > 0 && st.cards[|st.cards| - 1].CodeCard?
    requires "figcaption" !in st.tagStack
    ensures Run(st, PreLine(line)) == Success(WithCode(st, "\n\n" + line))
  {
    var s1 := WithCode(Pushed(st, "pre"), "\n\n");
    var s2 := WithCode(s1, line);
    CodeLineOpened(st, line);
    CodeLineClosed(st, line, s2);
    RunThree(st, StartTag("pre", []), Text(line), EndTag("pre"), s1, s2, WithCode(st, "\n\n" + line));
  }

  /** A `<pre>` line broken by a `<br>`. */
  function BrokenPreLine(a: string, b: string): seq<Event>
  {
    [StartTag("pre", []), Text(a), StartTag("br", []), Text(b), EndTag("pre")]
  }

  /** The state after the text before the break and the break itself. */
  function BrokenMid(st: ParserState, a: string): ParserState
    requires |st.cards| > 0 && st.cards[|st.cards| - 1].CodeCard?
  {
    WithCode(WithCode(WithCode(Pushed(st, "pre"), "\n\n"), a), "\n")
  }

  /** The start tag, the text before the break, and the break of a later line. */
  lemma BrokenLineOpened(st: ParserState, a: string)
    requires ValidState(st) && !st.seenFooter && st.lastSectionTag == Some("pre")
    requires |st.cards| > 0 && st.cards[|st.cards| - 1].CodeCard?
    requires "figcaption" !in st.tagStack
    ensures Run(st, [StartTag("pre", []), Text(a), StartTag("br", [])]) == Success(BrokenMid(st, a))
  {
    var s1 := WithCode(Pushed(st, "pre"), "\n\n");
    var s2 := WithCode(s1, a);
    CodeLineOpened(st, a);
    assert s2.tagStack[|st.tagStack|] == "pre";
    BreakInCode(s2, []);
    RunThree(st, StartTag("pre", []), Text(a), StartTag("br", []), s1, s2, WithCode(s2, "\n"));
  }

  /** The pieces of a broken line, added one by one, are the line added at once. */
  lemma BrokenLineRearranged(st: ParserState, a: string, b: string)
    requires !st.seenFooter && st.lastSectionTag == Some("pre")
    requires |st.cards| > 0 && st.cards[|st.cards| - 1].CodeCard?
    ensures WithCode(BrokenMid(st, a), b).(lastSectionTag := Some("pre"), tagStack := st.tagStack)
      == WithCode(st, "\n\n" + (a + "\n" + b))
  {
    var q := WithCode(Pushed(st, "pre"), "\n\n");
    WithCodeTwice(q, a, "\n");
    WithCodeTwice(q, a + "\n", b);
    ContinuedCode(st, a + "\n" + b);
  }

  /** The text after the break, and the end tag. */
  lemma BrokenLineClosed(st: ParserState, a: string, b: string)
    requires ValidState(st) && !st.seenFooter && st.lastSectionTag == Some("pre")
    requires |st.cards| > 0 && st.cards[|st.cards| - 1].CodeCard?
    requires "figcaption" !in st.tagStack
    ensures ValidState(BrokenMid(st, a))
    ensures Run(BrokenMid(st, a), [Text(b), EndTag("pre")]) == Success(WithCode(st, "\n\n" + (a + "\n" + b)))
  {
    BrokenLineOpened(st, a);
    var s3 := BrokenMid(st, a);
    assert s3.tagStack[|st.tagStack|] == "pre";
    TextInCode(s3, b);
    BrokenLineEnds(st, a, b);
    RunTwo(s3, Text(b), EndTag("pre"), WithCode(s3, b), WithCode(st, "\n\n" + (a + "\n" + b)));
  }

  /** The end tag of a broken line. */
  lemma BrokenLineEnds(st: ParserState, a: string, b: string)
    requires !st.seenFooter && st.lastSectionTag == Some("pre")
    requires |st.cards| > 0 && st.cards[|st.cards| - 1].CodeCard?
    requires ValidState(WithCode(BrokenMid(st, a), b))
    ensures Step(WithCode(BrokenMid(st, a), b), EndTag("pre")) == Success(WithCode(st, "\n\n" + (a + "\n" + b)))
  {
    PopPushed(st.tagStack, "pre");
    PreEnds(WithCode(BrokenMid(st, a), b));
    BrokenLineRearranged(st, a, b);
  }

  /** A `<br>` inside a later `<pre>` line is a newline inside that line of
      the same code card. */
  lemma BrokenLineContinues(st: ParserState, a: string, b: string)
    requires ValidState(st) && !st.seenFooter && st.lastSectionTag == Some("pre")
    requires |st.cards| > 0 && st.cards[|st.cards| - 1].CodeCard?
    requires "figcaption" !in st.tagStack
    ensures Run(st, BrokenPreLine(a, b)) == Success(WithCode(st, "\n\n" + (a + "\n" + b)))
  {
    BrokenLineOpened(st, a);
    BrokenLineClosed(st, a, b);
    RunConcat(st, [StartTag("pre", []), Text(a), StartTag("br", [])], [Text(b), EndTag("pre")]);
    assert [StartTag("pre", []), Text(a), StartTag("br", [])] + [Text(b), EndTag("pre")] == BrokenPreLine(a, b);
  }

  lemma {:induction false} PreLinesContinue(st: ParserState, lines: seq<string>)
    requires ValidState(st) && !st.seenFooter && st.lastSectionTag == Some("pre")
    requires |st.cards| > 0 && st.cards[|st.cards| - 1].CodeCard?
    requires "figcaption" !in st.tagStack
    ensures Run(st, PreLines(lines)) == Success(WithCode(st, Prefixed("\n\n", lines)))
    decreases |lines|
  {
    if lines == [] {
      WithNoCode(st);
    } else {
      var s1 := WithCode(st, "\n\n" + lines[0]);
      PreLineContinues(st, lines[0]);
      RunConcat(st, PreLine(lines[0]), PreLines(lines[1..]));
      PreLinesContinue(s1, lines[1..]);
      WithCodeTwice(st, "\n\n" + lines[0], Prefixed("\n\n", lines[1..]));
    }
  }

  /** Consecutive `<pre>` lines make one code card holding the lines joined
      by blank lines, and one card section. */
  lemma CodeBlock(st: ParserState, lines: seq<string>)
    requires ValidState(st) && !st.seenFooter && st.lastSectionTag != Some("pre")
    requires "figcaption" !in st.tagStack && |lines| > 0
    ensures Run(st, PreLines(lines)) ==
      Success(AddCard(st, CodeCard(Join("\n\n", lines), None)).(lastSectionTag := Some("pre")))
  {
    var s1 := AddCard(st, CodeCard(lines[0], None)).(lastSectionTag := Some("pre"));
    PreLineStarts(st, lines[0]);
    RunConcat(st, PreLine(lines[0]), PreLines(lines[1..]));
    PreLinesContinue(s1, lines[1..]);
    assert lines == [lines[0]] + lines[1..];
    JoinPrefixed("\n\n", lines[0], lines[1..]);
    StartedThenContinued(st, lines[0], Prefixed("\n\n", lines[1..]));
  }

  lemma StartedThenContinued(st: ParserState, first: string, rest: string)
    ensures WithCode(AddCard(st, CodeCard(first, None)).(lastSectionTag := Some("pre")), rest)
      == AddCard(st, CodeCard(first + rest, None)).(lastSectionTag := Some("pre"))
  {
    var n := |st.cards|;
    var s1 := AddCard(st, CodeCard(first, None));
    assert s1.cards[n := s1.cards[n].(code := first + rest)] == st.cards + [CodeCard(first + rest, None)];
  }

  // ---------------------------------------------------------------------------
  // Elements that carry no markup do not change the markups of text

  lemma ActiveMarkupsPushed(s: seq<string>, tag: string, n: nat)
    requires n > 0 && tag != "a" && tag != "em" && tag != "strong"
    ensures ActiveMarkups(s + [tag], n) == ActiveMarkups(s, n)
  {
    assert "a" in s + [tag] <==> "a" in s;
    assert "em" in s + [tag] <==> "em" in s;
    assert "strong" in s + [tag] <==> "strong" in s;
  }

  /** The text marker for `text` at the current stack. */
  function TextAt(st: ParserState, text: string): Marker
    requires |st.markups| > 0
  {
    TextMarker(ActiveMarkups(st.tagStack, |st.markups|), text)
  }

  /** Replacing the last element of a sequence. */
  lemma ReplaceLast<T>(xs: seq<T>, a: T, b: T)
    ensures (xs + [a])[|xs| := b] == xs + [b]
  {
    assert forall i :: 0 <= i < |xs| ==> (xs + [a])[|xs| := b][i] == xs[i];
  }

  /** A markup section of the document reads its marker list at conversion time. */
  lemma ConvertMarkupSection(st: ParserState, i: nat)
    requires ValidState(st) && i < |st.sections| && st.sections[i].MarkupRef?
    ensures ConvertState(st).sections[i] == MarkupSection(st.sections[i].tagName, st.markerLists[st.sections[i].markers])
  {
  }

  // ---------------------------------------------------------------------------
  // Blockquotes

  function QuoteRun(text: string): seq<Event>
  {
    [StartTag("blockquote", []), Text(text), EndTag("blockquote")]
  }

  /** The state after a blockquote that does not follow another. */
  function FirstQuoteState(st: ParserState, text: string): ParserState
    requires |st.markups| > 0
  {
    var c := |st.markerLists|;
    st.(markerLists := st.markerLists + [[TextAt(st, text)]], currentMarkers := c,
      itemLists := st.itemLists + [[]], currentListItemMarkers := |st.itemLists|,
      sections := st.sections + [MarkupRef("blockquote", c)], lastSectionTag := Some("blockquote"))
  }

  lemma FirstQuoteRearranged(st: ParserState, text: string)
    requires |st.markups| > 0 && !st.seenFooter
    ensures var s1 := NewItemList(NewMarkerList(Pushed(st, "blockquote")));
      var s2 := AppendMarker(s1, TextAt(st, text));
      s2.(sections := s2.sections + [MarkupRef("blockquote", s2.currentMarkers)],
        lastSectionTag := Some("blockquote"), tagStack := st.tagStack) == FirstQuoteState(st, text)
  {
    assert [] + [TextAt(st, text)] == [TextAt(st, text)];
    ReplaceLast(st.markerLists, [], [TextAt(st, text)]);
  }

  /** The end tag of a blockquote that does not follow another. */
  lemma FirstQuoteClosed(st: ParserState, text: string, s2: ParserState)
    requires ValidState(st) && !st.seenFooter && st.lastSectionTag != Some("blockquote")
    requires s2 == AppendMarker(NewItemList(NewMarkerList(Pushed(st, "blockquote"))), TextAt(st, text))
    requires ValidState(s2)
    ensures Step(s2, EndTag("blockquote")) == Success(FirstQuoteState(st, text))
  {
    PopPushed(st.tagStack, "blockquote");
    BlockquoteClosed(s2);
    FirstQuoteRearranged(st, text);
  }

  /** A blockquote that does not follow another becomes a section of its own. */
  lemma FirstQuote(st: ParserState, text: string)
    requires ValidState(st) && !st.seenFooter && st.lastSectionTag != Some("blockquote")
    requires "figcaption" !in st.tagStack && "pre" !in st.tagStack
    ensures Run(st, QuoteRun(text)) == Success(FirstQuoteState(st, text))
  {
    var s1 := NewItemList(NewMarkerList(Pushed(st, "blockquote")));
    var s2 := AppendMarker(s1, TextAt(st, text));
    QuoteOpened(st, text);
    FirstQuoteClosed(st, text, s2);
    RunThree(st, StartTag("blockquote", []), Text(text), EndTag("blockquote"), s1, s2, FirstQuoteState(st, text));
  }

  /** The state after a blockquote that follows another, whose section holds list `k`. */
  function NextQuoteState(st: ParserState, text: string, k: nat): ParserState
    requires |st.markups| > 0 && k < |st.markerLists|
  {
    var m := [TextAt(st, text), AtomMarker(|st.atoms|)];
    st.(atoms := st.atoms + [SoftReturn],
      markerLists := (st.markerLists + [m])[k := st.markerLists[k] + m], currentMarkers := |st.markerLists|,
      itemLists := st.itemLists + [[]], currentListItemMarkers := |st.itemLists|)
  }

  lemma NextQuoteRearranged(st: ParserState, text: string, k: nat)
    requires |st.markups| > 0 && !st.seenFooter && k < |st.markerLists|
    ensures var s1 := NewItemList(NewMarkerList(Pushed(st, "blockquote")));
      var s2 := AppendMarker(s1, TextAt(st, text));
      var c := s2.currentMarkers;
      var mc := s2.markerLists[c] + [AtomMarker(|s2.atoms|)];
      s2.(atoms := s2.atoms + [SoftReturn], markerLists := s2.markerLists[c := mc][k := s2.markerLists[k] + mc],
        tagStack := st.tagStack) == NextQuoteState(st, text, k)
  {
    var c := |st.markerLists|;
    var m := [TextAt(st, text), AtomMarker(|st.atoms|)];
    assert [] + [TextAt(st, text)] == [TextAt(st, text)];
    ReplaceLast(st.markerLists, [], [TextAt(st, text)]);
    var l2 := st.markerLists + [[TextAt(st, text)]];
    assert l2[c] + [AtomMarker(|st.atoms|)] == m;
    ReplaceLast(st.markerLists, [TextAt(st, text)], m);
    assert l2[k] == st.markerLists[k];
  }

  /** The start tag and the text of a blockquote. */
  lemma QuoteOpened(st: ParserState, text: string)
    requires ValidState(st) && !st.seenFooter && "figcaption" !in st.tagStack && "pre" !in st.tagStack
    ensures var s1 := NewItemList(NewMarkerList(Pushed(st, "blockquote")));
      && Step(st, StartTag("blockquote", [])) == Success(s1)
      && ValidState(s1) && Step(s1, Text(text)) == Success(AppendMarker(s1, TextAt(st, text)))
  {
    var s1 := NewItemList(NewMarkerList(Pushed(st, "blockquote")));
    BlockStarts(st, "blockquote", []);
    ActiveMarkupsPushed(st.tagStack, "blockquote", |st.markups|);
    TextBecomesMarker(s1, text);
  }

  /** The end tag of a blockquote that follows another. */
  lemma NextQuoteClosed(st: ParserState, text: string, s2: ParserState)
    requires ValidState(st) && !st.seenFooter && st.lastSectionTag == Some("blockquote")
    requires st.sections[|st.sections| - 1].MarkupRef?
    requires s2 == AppendMarker(NewItemList(NewMarkerList(Pushed(st, "blockquote"))), TextAt(st, text))
    requires ValidState(s2)
    ensures Step(s2, EndTag("blockquote")) == Success(NextQuoteState(st, text, st.sections[|st.sections| - 1].markers))
  {
    var k := st.sections[|st.sections| - 1].markers;
    assert RefInRange(st.sections[|st.sections| - 1], |st.markerLists|, |st.itemLists|, |st.cards|);
    PopPushed(st.tagStack, "blockquote");
    BlockquoteMerged(s2);
    NextQuoteRearranged(st, text, k);
  }

  /** A blockquote right after a blockquote adds no section: its text and a soft
      return extend the previous blockquote's markers. */
  lemma NextQuote(st: ParserState, text: string)
    requires ValidState(st) && !st.seenFooter && st.lastSectionTag == Some("blockquote")
    requires st.sections[|st.sections| - 1].MarkupRef?
    requires "figcaption" !in st.tagStack && "pre" !in st.tagStack
    ensures Run(st, QuoteRun(text)) == Success(NextQuoteState(st, text, st.sections[|st.sections| - 1].markers))
  {
    var s1 := NewItemList(NewMarkerList(Pushed(st, "blockquote")));
    var s2 := AppendMarker(s1, TextAt(st, text));
    QuoteOpened(st, text);
    NextQuoteClosed(st, text, s2);
    RunThree(st, StartTag("blockquote", []), Text(text), EndTag("blockquote"), s1, s2,
      NextQuoteState(st, text, st.sections[|st.sections| - 1].markers));
  }

  lemma AdjacentRearranged(st: ParserState, first: string, second: string)
    requires |st.markups| > 0
    ensures var c := |st.markerLists|;
      var r := NextQuoteState(FirstQuoteState(st, first), second, c);
      && r.sections == st.sections + [MarkupRef("blockquote", c)]
      && r.atoms == st.atoms + [SoftReturn]
      && r.markerLists[c] == [TextAt(st, first), TextAt(st, second), AtomMarker(|st.atoms|)]
  {
    var c := |st.markerLists|;
    var s1 := FirstQuoteState(st, first);
    assert TextAt(s1, second) == TextAt(st, second);
    var r := NextQuoteState(s1, second, c);
    assert r.markerLists[c] == [TextAt(st, first)] + [TextAt(st, second), AtomMarker(|st.atoms|)];
  }

  /** Two adjacent blockquotes make one blockquote section: the first text, the
      second text, then the soft return that was meant to join them. */
  lemma AdjacentQuotes(st: ParserState, first: string, second: string)
    requires ValidState(st) && !st.seenFooter && st.lastSectionTag != Some("blockquote")
    requires "figcaption" !in st.tagStack && "pre" !in st.tagStack
    ensures Run(st, QuoteRun(first) + QuoteRun(second)).Success?
    ensures var r := Run(st, QuoteRun(first) + QuoteRun(second)).value;
      && r.sections == st.sections + [MarkupRef("blockquote", |st.markerLists|)]
      && r.atoms == st.atoms + [SoftReturn]
      && ConvertState(r).sections[|st.sections|] ==
           MarkupSection("blockquote", [TextAt(st, first), TextAt(st, second), AtomMarker(|st.atoms|)])
  {
    var s1 := FirstQuoteState(st, first);
    FirstQuote(st, first);
    RunConcat(st, QuoteRun(first), QuoteRun(second));
    NextQuote(s1, second);
    AdjacentRearranged(st, first, second);
    var r := NextQuoteState(s1, second, |st.markerLists|);
    ConvertMarkupSection(r, |st.sections|);
  }

  // ---------------------------------------------------------------------------
  // Shared marker lists

  lemma PoppedAvoids(s: seq<string>, tag: string, x: string)
    requires CanClose(s, tag) && x !in s
    ensures x !in PopTagStack(s, tag)
  {
    var p := PopTagStack(s, tag);
    forall i | 0 <= i < |p| ensures p[i] != x {
      assert p[i] == s[i];
    }
  }

  /** The state after `</p>`. */
  function ParagraphEndState(st: ParserState): ParserState
    requires CanClose(st.tagStack, "p")
  {
    st.(sections := st.sections + [MarkupRef("p", st.currentMarkers)],
      lastSectionTag := Some("p"), tagStack := PopTagStack(st.tagStack, "p"))
  }

  lemma ParagraphEndThenText(st: ParserState, text: string)
    requires ValidState(st) && !st.seenFooter && CanClose(st.tagStack, "p")
    requires "figcaption" !in st.tagStack && "pre" !in st.tagStack
    ensures var s1 := ParagraphEndState(st);
      && ValidState(s1)
      && Run(st, [EndTag("p"), Text(text)]) ==
           Success(AppendMarker(s1, TextMarker(ActiveMarkups(s1.tagStack, |st.markups|), text)))
  {
    var s1 := ParagraphEndState(st);
    ParagraphEnds(st);
    PoppedAvoids(st.tagStack, "p", "figcaption");
    PoppedAvoids(st.tagStack, "p", "pre");
    TextBecomesMarker(s1, text);
    RunTwo(st, EndTag("p"), Text(text), s1, AppendMarker(s1, TextMarker(ActiveMarkups(s1.tagStack, |st.markups|), text)));
  }

  /** Text after `</p>` and before the next block tag lands in that paragraph,
      because the section holds the current marker list itself. */
  lemma TextAfterParagraphJoinsIt(st: ParserState, text: string)
    requires ValidState(st) && !st.seenFooter && CanClose(st.tagStack, "p")
    requires "figcaption" !in st.tagStack && "pre" !in st.tagStack
    ensures Run(st, [EndTag("p"), Text(text)]).Success?
    ensures var r := Run(st, [EndTag("p"), Text(text)]).value;
      var c := st.currentMarkers;
      var t := TextMarker(ActiveMarkups(PopTagStack(st.tagStack, "p"), |st.markups|), text);
      && r.sections == st.sections + [MarkupRef("p", c)]
      && ConvertState(r).sections[|st.sections|] == MarkupSection("p", st.markerLists[c] + [t])
  {
    ParagraphEndThenText(st, text);
    var r := Run(st, [EndTag("p"), Text(text)]).value;
    ConvertMarkupSection(r, |st.sections|);
  }

  // ---------------------------------------------------------------------------
  // Lists

  function ItemRun(text: string): seq<Event>
  {
    [StartTag("li", []), Text(text), EndTag("li")]
  }

  function ItemsRun(texts: seq<string>): seq<Event>
  {
    if texts == [] then [] else ItemRun(texts[0]) + ItemsRun(texts[1..])
  }

  function ListRun(tag: string, texts: seq<string>): seq<Event>
  {
    [StartTag(tag, [])] + ItemsRun(texts) + [EndTag(tag)]
  }

  /** The items of list `l`, each read as the marker list it points at. */
  function ItemsOf(st: ParserState, l: nat): seq<seq<Marker>>
    requires l < |st.itemLists| && ItemListsValid(st.itemLists, |st.markerLists|)
  {
    seq(|st.itemLists[l]|, k requires 0 <= k < |st.itemLists[l]| => st.markerLists[st.itemLists[l][k]])
  }

  /** The current marker list is not yet one of the current list's items. */
  predicate Fresh(st: ParserState)
    requires st.currentListItemMarkers < |st.itemLists|
  {
    forall k :: 0 <= k < |st.itemLists[st.currentListItemMarkers]| ==>
      st.itemLists[st.currentListItemMarkers][k] != st.currentMarkers
  }

  /** One item per text, each holding that text alone. */
  function Singletons(st: ParserState, texts: seq<string>): seq<seq<Marker>>
    requires |st.markups| > 0
  {
    seq(|texts|, k requires 0 <= k < |texts| => [TextAt(st, texts[k])])
  }

  /** The state after one list item. */
  function ItemState(st: ParserState, text: string): ParserState
    requires |st.markups| > 0 && st.currentMarkers < |st.markerLists| && st.currentListItemMarkers < |st.itemLists|
  {
    var c, l := st.currentMarkers, st.currentListItemMarkers;
    st.(markerLists := st.markerLists[c := st.markerLists[c] + [TextAt(st, text)]] + [[]],
      currentMarkers := |st.markerLists|,
      itemLists := st.itemLists[l := st.itemLists[l] + [c]])
  }

  lemma ItemRearranged(st: ParserState, text: string)
    requires |st.markups| > 0 && !st.seenFooter
    requires st.currentMarkers < |st.markerLists| && st.currentListItemMarkers < |st.itemLists|
    ensures var s2 := AppendMarker(Pushed(st, "li"), TextAt(st, text));
      var l := s2.currentListItemMarkers;
      NewMarkerList(s2.(itemLists := s2.itemLists[l := s2.itemLists[l] + [s2.currentMarkers]], tagStack := st.tagStack))
        == ItemState(st, text)
  {
  }

  /** The start tag and the text of a list item. */
  lemma ItemOpened(st: ParserState, text: string)
    requires ValidState(st) && !st.seenFooter && "figcaption" !in st.tagStack && "pre" !in st.tagStack
    ensures var s1 := Pushed(st, "li");
      && Step(st, StartTag("li", [])) == Success(s1)
      && ValidState(s1) && Step(s1, Text(text)) == Success(AppendMarker(s1, TextAt(st, text)))
  {
    var s1 := Pushed(st, "li");
    PlainStartTag(st, "li", []);
    ActiveMarkupsPushed(st.tagStack, "li", |st.markups|);
    TextBecomesMarker(s1, text);
  }

  lemma ItemClosed(st: ParserState, text: string, s2: ParserState)
    requires ValidState(st) && !st.seenFooter
    requires s2 == AppendMarker(Pushed(st, "li"), TextAt(st, text)) && ValidState(s2)
    ensures Step(s2, EndTag("li")) == Success(ItemState(st, text))
  {
    PopPushed(st.tagStack, "li");
    ListItemEnds(s2);
    ItemRearranged(st, text);
  }

  /** `<li>text</li>`: the current markers get the text and become the next
      item of the current list; a fresh marker list follows. */
  lemma ListItem(st: ParserState, text: string)
    requires ValidState(st) && !st.seenFooter && "figcaption" !in st.tagStack && "pre" !in st.tagStack
    ensures Run(st, ItemRun(text)) == Success(ItemState(st, text))
  {
    var s1 := Pushed(st, "li");
    var s2 := AppendMarker(s1, TextAt(st, text));
    ItemOpened(st, text);
    ItemClosed(st, text, s2);
    RunThree(st, StartTag("li", []), Text(text), EndTag("li"), s1, s2, ItemState(st, text));
  }

  lemma ItemStateFacts(st: ParserState, text: string)
    requires |st.markups| > 0 && st.currentMarkers < |st.markerLists| && st.currentListItemMarkers < |st.itemLists|
    requires ItemListsValid(st.itemLists, |st.markerLists|)
    requires st.markerLists[st.currentMarkers] == [] && Fresh(st)
    ensures var s := ItemState(st, text);
      && ItemListsValid(s.itemLists, |s.markerLists|)
      && s.markerLists[s.currentMarkers] == [] && Fresh(s)
      && ItemsOf(s, s.currentListItemMarkers) == ItemsOf(st, st.currentListItemMarkers) + [[TextAt(st, text)]]
  {
    var s := ItemState(st, text);
    var c, l := st.currentMarkers, st.currentListItemMarkers;
    assert s.itemLists[l] == st.itemLists[l] + [c];
    forall k | 0 <= k < |st.itemLists[l]| ensures s.markerLists[s.itemLists[l][k]] == st.markerLists[st.itemLists[l][k]] {
      assert st.itemLists[l][k] < |st.markerLists| && st.itemLists[l][k] != c;
    }
    assert s.markerLists[c] == [TextAt(st, text)];
  }

  /** One item followed by the rest of the items: the items of the whole run. */
  lemma ItemsCompose(st: ParserState, s: ParserState, r: ParserState, texts: seq<string>)
    requires |texts| > 0 && |st.markups| > 0
    requires st.currentListItemMarkers < |st.itemLists| && ItemListsValid(st.itemLists, |st.markerLists|)
    requires s.currentListItemMarkers < |s.itemLists| && ItemListsValid(s.itemLists, |s.markerLists|)
    requires r.currentListItemMarkers < |r.itemLists| && ItemListsValid(r.itemLists, |r.markerLists|)
    requires s.markups == st.markups && s.tagStack == st.tagStack
    requires ItemsOf(s, s.currentListItemMarkers) == ItemsOf(st, st.currentListItemMarkers) + [[TextAt(st, texts[0])]]
    requires ItemsOf(r, r.currentListItemMarkers) == ItemsOf(s, s.currentListItemMarkers) + Singletons(s, texts[1..])
    ensures ItemsOf(r, r.currentListItemMarkers) == ItemsOf(st, st.currentListItemMarkers) + Singletons(st, texts)
  {
    assert TextAt(s, "") == TextAt(st, "");
    assert Singletons(st, texts) == [[TextAt(st, texts[0])]] + Singletons(s, texts[1..]);
  }

  /** A run of list items appends one item per text to the current list. */
  lemma {:induction false} ListItems(st: ParserState, texts: seq<string>)
    requires ValidState(st) && !st.seenFooter && "figcaption" !in st.tagStack && "pre" !in st.tagStack
    requires st.markerLists[st.currentMarkers] == [] && Fresh(st)
    ensures Run(st, ItemsRun(texts)).Success?
    ensures var r := Run(st, ItemsRun(texts)).value;
      && r.tagStack == st.tagStack && r.markups == st.markups && r.sections == st.sections
      && !r.seenFooter && r.currentListItemMarkers == st.currentListItemMarkers
      && r.markerLists[r.currentMarkers] == [] && Fresh(r)
      && ItemsOf(r, r.currentListItemMarkers) == ItemsOf(st, st.currentListItemMarkers) + Singletons(st, texts)
    decreases |texts|
  {
    if texts == [] {
      assert Singletons(st, texts) == [];
    } else {
      var s := ItemState(st, texts[0]);
      ListItem(st, texts[0]);
      ItemStateFacts(st, texts[0]);
      RunConcat(st, ItemRun(texts[0]), ItemsRun(texts[1..]));
      ListItems(s, texts[1..]);
      ItemsCompose(st, s, Run(s, ItemsRun(texts[1..])).value, texts);
    }
  }

  /** A list section reads its items' marker lists at conversion time. */
  lemma ConvertListSection(st: ParserState, i: nat)
    requires ValidState(st) && i < |st.sections| && st.sections[i].ListRef?
    ensures st.sections[i].items < |st.itemLists|
    ensures ConvertState(st).sections[i] == ListSection(st.sections[i].tagName, ItemsOf(st, st.sections[i].items))
  {
    assert RefInRange(st.sections[i], |st.markerLists|, |st.itemLists|, |st.cards|);
  }

  /** The end of a list whose items were added after its start tag. */
  lemma ListClosed(st: ParserState, tag: string, s2: ParserState)
    requires ValidState(s2) && !s2.seenFooter && (tag == "ul" || tag == "ol")
    requires s2.tagStack == st.tagStack + [tag]
    ensures Run(s2, [EndTag(tag)]) == Success(s2.(
      sections := s2.sections + [ListRef(tag, s2.currentListItemMarkers)],
      lastSectionTag := Some(tag), tagStack := st.tagStack))
  {
    PopPushed(st.tagStack, tag);
    ListEnds(s2, tag);
    var r := s2.(sections := s2.sections + [ListRef(tag, s2.currentListItemMarkers)],
      lastSectionTag := Some(tag), tagStack := st.tagStack);
    assert [EndTag(tag)] == [EndTag(tag)] + [];
    RunStep(s2, EndTag(tag), r, []);
  }

  /** The start of a list: fresh marker and item lists. */
  lemma ListOpened(st: ParserState, tag: string, texts: seq<string>)
    requires ValidState(st) && !st.seenFooter && (tag == "ul" || tag == "ol")
    ensures var s1 := NewItemList(NewMarkerList(Pushed(st, tag)));
      && Step(st, StartTag(tag, [])) == Success(s1) && ValidState(s1)
      && s1.markerLists[s1.currentMarkers] == [] && Fresh(s1)
      && ItemsOf(s1, s1.currentListItemMarkers) == []
      && Singletons(s1, texts) == Singletons(st, texts)
  {
    var s1 := NewItemList(NewMarkerList(Pushed(st, tag)));
    BlockStarts(st, tag, []);
    ActiveMarkupsPushed(st.tagStack, tag, |st.markups|);
    assert ItemsOf(s1, s1.currentListItemMarkers) == [];
  }

  lemma ListRunState(st: ParserState, tag: string, texts: seq<string>)
    requires ValidState(st) && !st.seenFooter && "figcaption" !in st.tagStack && "pre" !in st.tagStack
    requires tag == "ul" || tag == "ol"
    ensures Run(st, ListRun(tag, texts)).Success?
    ensures var r := Run(st, ListRun(tag, texts)).value;
      && r.sections == st.sections + [ListRef(tag, |st.itemLists|)]
      && |st.itemLists| < |r.itemLists|
      && ItemsOf(r, |st.itemLists|) == Singletons(st, texts)
  {
    var s1 := NewItemList(NewMarkerList(Pushed(st, tag)));
    ListOpened(st, tag, texts);
    RunStep(st, StartTag(tag, []), s1, ItemsRun(texts) + [EndTag(tag)]);
    assert ListRun(tag, texts) == [StartTag(tag, [])] + (ItemsRun(texts) + [EndTag(tag)]);
    ListItems(s1, texts);
    var s2 := Run(s1, ItemsRun(texts)).value;
    RunConcat(s1, ItemsRun(texts), [EndTag(tag)]);
    ListClosed(st, tag, s2);
  }

  /** `<ul>` (or `<ol>`) with one `<li>` per text makes one list section whose
      items hold the texts in order. */
  lemma ListOfItems(st: ParserState, tag: string, texts: seq<string>)
    requires ValidState(st) && !st.seenFooter && "figcaption" !in st.tagStack && "pre" !in st.tagStack
    requires tag == "ul" || tag == "ol"
    ensures Run(st, ListRun(tag, texts)).Success?
    ensures var r := Run(st, ListRun(tag, texts)).value;
      && r.sections == st.sections + [ListRef(tag, |st.itemLists|)]
      && ConvertState(r).sections[|st.sections|] == ListSection(tag, Singletons(st, texts))
  {
    ListRunState(st, tag, texts);
    ConvertListSection(Run(st, ListRun(tag, texts)).value, |st.sections|);
  }

  // ---------------------------------------------------------------------------
  // Link summaries

  function DivRun(attrs: Attrs, text: string): seq<Event>
  {
    [StartTag("div", attrs), Text(text), EndTag("div")]
  }

  lemma SummaryOpened(st: ParserState, attrs: Attrs, cls: string, text: string)
    requires ValidState(st) && !st.seenFooter && "figcaption" !in st.tagStack && "pre" !in st.tagStack
    requires IsLastValue(attrs, "class", cls) && Contains(cls, "graf")
    ensures var s1 := NewItemList(NewMarkerList(Pushed(st, "div"))).(insideLinkSummaryDiv := true);
      && Step(st, StartTag("div", attrs)) == Success(s1)
      && ValidState(s1) && Step(s1, Text(text)) == Success(AppendMarker(s1, TextAt(st, text)))
  {
    var s1 := NewItemList(NewMarkerList(Pushed(st, "div"))).(insideLinkSummaryDiv := true);
    SummaryDivStarts(st, attrs, cls);
    ActiveMarkupsPushed(st.tagStack, "div", |st.markups|);
    TextBecomesMarker(s1, text);
  }

  /** The state after a link summary. */
  function SummaryState(st: ParserState, text: string): ParserState
    requires |st.markups| > 0
  {
    var c := |st.markerLists|;
    st.(markerLists := st.markerLists + [[TextAt(st, text)]], currentMarkers := c,
      itemLists := st.itemLists + [[]], currentListItemMarkers := |st.itemLists|,
      sections := st.sections + [MarkupRef("p", c)], lastSectionTag := Some("div"),
      insideLinkSummaryDiv := false)
  }

  lemma SummaryRearranged(st: ParserState, text: string)
    requires |st.markups| > 0 && !st.seenFooter
    ensures var s1 := NewItemList(NewMarkerList(Pushed(st, "div"))).(insideLinkSummaryDiv := true);
      var s2 := AppendMarker(s1, TextAt(st, text));
      s2.(sections := s2.sections + [MarkupRef("p", s2.currentMarkers)], insideLinkSummaryDiv := false,
        lastSectionTag := Some("div"), tagStack := st.tagStack) == SummaryState(st, text)
  {
    assert [] + [TextAt(st, text)] == [TextAt(st, text)];
    ReplaceLast(st.markerLists, [], [TextAt(st, text)]);
  }

  lemma SummaryClosed(st: ParserState, text: string, s2: ParserState)
    requires ValidState(st) && !st.seenFooter
    requires s2 == AppendMarker(NewItemList(NewMarkerList(Pushed(st, "div"))).(insideLinkSummaryDiv := true), TextAt(st, text))
    requires ValidState(s2)
    ensures Step(s2, EndTag("div")) == Success(SummaryState(st, text))
  {
    PopPushed(st.tagStack, "div");
    SummaryDivEnds(s2);
    SummaryRearranged(st, text);
  }

  /** A `div` whose class contains `graf` (Medium's link summary) becomes a
      paragraph holding its text. */
  lemma LinkSummary(st: ParserState, attrs: Attrs, cls: string, text: string)
    requires ValidState(st) && !st.seenFooter && "figcaption" !in st.tagStack && "pre" !in st.tagStack
    requires IsLastValue(attrs, "class", cls) && Contains(cls, "graf")
    ensures Run(st, DivRun(attrs, text)) == Success(SummaryState(st, text))
    ensures ConvertState(SummaryState(st, text)).sections[|st.sections|] == MarkupSection("p", [TextAt(st, text)])
  {
    var s1 := NewItemList(NewMarkerList(Pushed(st, "div"))).(insideLinkSummaryDiv := true);
    var s2 := AppendMarker(s1, TextAt(st, text));
    SummaryOpened(st, attrs, cls, text);
    SummaryClosed(st, text, s2);
    RunThree(st, StartTag("div", attrs), Text(text), EndTag("div"), s1, s2, SummaryState(st, text));
    ConvertMarkupSection(SummaryState(st, text), |st.sections|);
  }

  /** The start tag and the text of a `div` that is not a link summary. */
  lemma PlainDivOpened(st: ParserState, attrs: Attrs, text: string)
    requires ValidState(st) && !st.seenFooter
    requires "figcaption" !in st.tagStack && "pre" !in st.tagStack
    requires forall cls :: IsLastValue(attrs, "class", cls) ==> !Contains(cls, "graf")
    ensures var s1 := NewItemList(NewMarkerList(Pushed(st, "div")));
      && Step(st, StartTag("div", attrs)) == Success(s1)
      && ValidState(s1) && Step(s1, Text(text)) == Success(AppendMarker(s1, TextAt(st, text)))
  {
    var s1 := NewItemList(NewMarkerList(Pushed(st, "div")));
    PlainDivStarts(st, attrs);
    ActiveMarkupsPushed(st.tagStack, "div", |st.markups|);
    TextBecomesMarker(s1, text);
  }

  /** Its end tag only pops the stack. */
  lemma PlainDivClosed(st: ParserState, text: string, s2: ParserState)
    requires ValidState(st) && !st.seenFooter && !st.insideLinkSummaryDiv
    requires s2 == AppendMarker(NewItemList(NewMarkerList(Pushed(st, "div"))), TextAt(st, text))
    requires ValidState(s2)
    ensures Step(s2, EndTag("div")) == Success(s2.(lastSectionTag := Some("div"), tagStack := st.tagStack))
  {
    PopPushed(st.tagStack, "div");
    PlainDivEnds(s2);
  }

  /** Any other `div` adds no section of its own. */
  lemma PlainDiv(st: ParserState, attrs: Attrs, text: string)
    requires ValidState(st) && !st.seenFooter && !st.insideLinkSummaryDiv
    requires "figcaption" !in st.tagStack && "pre" !in st.tagStack
    requires forall cls :: IsLastValue(attrs, "class", cls) ==> !Contains(cls, "graf")
    ensures Run(st, DivRun(attrs, text)).Success?
    ensures Run(st, DivRun(attrs, text)).value.sections == st.sections
  {
    var s1 := NewItemList(NewMarkerList(Pushed(st, "div")));
    var s2 := AppendMarker(s1, TextAt(st, text));
    PlainDivOpened(st, attrs, text);
    PlainDivClosed(st, text, s2);
    RunThree(st, StartTag("div", attrs), Text(text), EndTag("div"), s1, s2,
      s2.(lastSectionTag := Some("div"), tagStack := st.tagStack));
  }

  // ---------------------------------------------------------------------------
  // Paragraphs

  function ParagraphRun(text: string): seq<Event>
  {
    [StartTag("p", []), Text(text), EndTag("p")]
  }

  /** The state after a paragraph. */
  function ParagraphState(st: ParserState, text: string): ParserState
    requires |st.markups| > 0
  {
    var c := |st.markerLists|;
    st.(markerLists := st.markerLists + [[TextAt(st, text)]], currentMarkers := c,
      itemLists := st.itemLists + [[]], currentListItemMarkers := |st.itemLists|,
      sections := st.sections + [MarkupRef("p", c)], lastSectionTag := Some("p"))
  }

  lemma ParagraphOpened(st: ParserState, text: string)
    requires ValidState(st) && !st.seenFooter && "figcaption" !in st.tagStack && "pre" !in st.tagStack
    ensures var s1 := NewItemList(NewMarkerList(Pushed(st, "p")));
      && Step(st, StartTag("p", [])) == Success(s1)
      && ValidState(s1) && Step(s1, Text(text)) == Success(AppendMarker(s1, TextAt(st, text)))
  {
    var s1 := NewItemList(NewMarkerList(Pushed(st, "p")));
    BlockStarts(st, "p", []);
    ActiveMarkupsPushed(st.tagStack, "p", |st.markups|);
    TextBecomesMarker(s1, text);
  }

  lemma ParagraphRearranged(st: ParserState, text: string)
    requires |st.markups| > 0 && !st.seenFooter
    ensures var s2 := AppendMarker(NewItemList(NewMarkerList(Pushed(st, "p"))), TextAt(st, text));
      s2.(sections := s2.sections + [MarkupRef("p", s2.currentMarkers)],
        lastSectionTag := Some("p"), tagStack := st.tagStack) == ParagraphState(st, text)
  {
    assert [] + [TextAt(st, text)] == [TextAt(st, text)];
    ReplaceLast(st.markerLists, [], [TextAt(st, text)]);
  }

  lemma ParagraphClosed(st: ParserState, text: string, s2: ParserState)
    requires ValidState(st) && !st.seenFooter
    requires s2 == AppendMarker(NewItemList(NewMarkerList(Pushed(st, "p"))), TextAt(st, text))
    requires ValidState(s2)
    ensures Step(s2, EndTag("p")) == Success(ParagraphState(st, text))
  {
    PopPushed(st.tagStack, "p");
    ParagraphEnds(s2);
    ParagraphRearranged(st, text);
  }

  /** `<p>text</p>` makes a paragraph section holding the text. */
  lemma Paragraph(st: ParserState, text: string)
    requires ValidState(st) && !st.seenFooter && "figcaption" !in st.tagStack && "pre" !in st.tagStack
    ensures Run(st, ParagraphRun(text)) == Success(ParagraphState(st, text))
    ensures ConvertState(ParagraphState(st, text)).sections[|st.sections|] == MarkupSection("p", [TextAt(st, text)])
  {
    var s1 := NewItemList(NewMarkerList(Pushed(st, "p")));
    var s2 := AppendMarker(s1, TextAt(st, text));
    ParagraphOpened(st, text);
    ParagraphClosed(st, text, s2);
    RunThree(st, StartTag("p", []), Text(text), EndTag("p"), s1, s2, ParagraphState(st, text));
    ConvertMarkupSection(ParagraphState(st, text), |st.sections|);
  }

  // ---------------------------------------------------------------------------
  // A whole page: a rule, the title heading, and a paragraph with bold text

  /** `<hr><h3>title</h3>`. */
  function PageHead(title: string): seq<Event>
  {
    [StartTag("hr", []), StartTag("h3", []), Text(title), EndTag("h3")]
  }

  /** `<p>text<strong>bold</strong></p>`. */
  function PageBody(text: string, bold: string): seq<Event>
  {
    [StartTag("p", []), Text(text), StartTag("strong", []), Text(bold), EndTag("strong"), EndTag("p")]
  }

  /** A parser state of that page past the rule: the stock markups, no cards,
      one item list per marker list, the newest of each current. */
  function PageAt(stack: seq<string>, lists: seq<seq<Marker>>, items: seq<seq<nat>>,
                  sections: seq<SectionRef>, last: Option<string>, h3: bool): ParserState
    requires |lists| > 0 && |items| > 0
  {
    ParserState(sections, [Em, Strong], [], [], lists, items, |lists| - 1, |items| - 1,
      stack, last, h3, true, false, false)
  }

  /** The state after the first `k` events of the page. */
  function PageState(k: nat, title: string, text: string, bold: string): ParserState
    requires 1 <= k <= 10
  {
    var t, h, w := TextMarker([], title), TextMarker([], text), TextMarker([1], bold);
    if k == 1 then PageAt(["hr"], [[]], [[]], [], None, false)
    else if k == 2 then PageAt(["hr", "h3"], [[], []], [[], []], [], None, false)
    else if k == 3 then PageAt(["hr", "h3"], [[], [t]], [[], []], [], None, false)
    else if k == 4 then PageAt(["hr"], [[], [t]], [[], []], [], Some("h3"), true)
    else if k == 5 then PageAt(["hr", "p"], [[], [t], []], [[], [], []], [], Some("h3"), true)
    else if k == 6 then PageAt(["hr", "p"], [[], [t], [h]], [[], [], []], [], Some("h3"), true)
    else if k == 7 then PageAt(["hr", "p", "strong"], [[], [t], [h]], [[], [], []], [], Some("h3"), true)
    else if k == 8 then PageAt(["hr", "p", "strong"], [[], [t], [h, w]], [[], [], []], [], Some("h3"), true)
    else if k == 9 then PageAt(["hr", "p"], [[], [t], [h, w]], [[], [], []], [], Some("h3"), true)
    else PageAt(["hr"], [[], [t], [h, w]], [[], [], []], [MarkupRef("p", 2)], Some("p"), true)
  }

  /** No markup is active inside `hr` then `h3` or `p`. */
  lemma PlainStack(tag: string)
    requires tag != "a" && tag != "em" && tag != "strong"
    ensures ActiveMarkups(["hr", tag], 2) == []
  {
    ActiveMarkupsPushed([], "hr", 2);
    ActiveMarkupsPushed(["hr"], tag, 2);
    assert [] + ["hr"] == ["hr"] && ["hr"] + [tag] == ["hr", tag];
  }

  /** Text inside `strong` (and no link or `em`) carries markup 1 alone. */
  lemma StrongStack(s: seq<string>)
    requires ActiveMarkups(s, 2) == []
    ensures ActiveMarkups(s + ["strong"], 2) == [1]
  {
    assert "a" in s + ["strong"] <==> "a" in s;
    assert "em" in s + ["strong"] <==> "em" in s;
    assert (s + ["strong"])[|s|] == "strong";
  }

  lemma PageRule(title: string, text: string, bold: string)
    ensures Step(Init(), StartTag("hr", [])) == Success(PageState(1, title, text, bold))
  {
    FirstHrDropped(Init(), []);
    assert Init().tagStack + ["hr"] == ["hr"];
  }

  lemma PageHeadingOpened(title: string, text: string, bold: string)
    requires ValidState(PageState(1, title, text, bold))
    ensures Step(PageState(1, title, text, bold), StartTag("h3", [])) == Success(PageState(2, title, text, bold))
  {
    var s1 := PageState(1, title, text, bold);
    BlockStarts(s1, "h3", []);
    assert s1.tagStack + ["h3"] == ["hr", "h3"];
    assert s1.markerLists + [[]] == [[], []] && s1.itemLists + [[]] == [[], []];
  }

  lemma PageTitle(title: string, text: string, bold: string)
    requires ValidState(PageState(2, title, text, bold))
    ensures Step(PageState(2, title, text, bold), Text(title)) == Success(PageState(3, title, text, bold))
  {
    var s2 := PageState(2, title, text, bold);
    TextBecomesMarker(s2, title);
    PlainStack("h3");
    var t := TextMarker([], title);
    ReplaceLast([[]], [], [t]);
    assert [] + [t] == [t] && [[]] + [[]] == s2.markerLists && [[]] + [[t]] == [[], [t]];
  }

  lemma PageHeadingClosed(title: string, text: string, bold: string)
    requires ValidState(PageState(3, title, text, bold))
    ensures Step(PageState(3, title, text, bold), EndTag("h3")) == Success(PageState(4, title, text, bold))
  {
    var s3 := PageState(3, title, text, bold);
    assert CloseSection(s3, "h3") == Success(s3.(seenFirstH3 := true));
    assert CanClose(s3.tagStack, "h3") && PopTagStack(s3.tagStack, "h3") == ["hr"];
    EndTagCases(s3, "h3");
  }

  lemma PageParagraphOpened(title: string, text: string, bold: string)
    requires ValidState(PageState(4, title, text, bold))
    ensures Step(PageState(4, title, text, bold), StartTag("p", [])) == Success(PageState(5, title, text, bold))
  {
    var s4 := PageState(4, title, text, bold);
    BlockStarts(s4, "p", []);
    assert s4.tagStack + ["p"] == ["hr", "p"];
    assert s4.markerLists + [[]] == [[], [TextMarker([], title)], []];
    assert s4.itemLists + [[]] == [[], [], []];
  }

  lemma PageText(title: string, text: string, bold: string)
    requires ValidState(PageState(5, title, text, bold))
    ensures Step(PageState(5, title, text, bold), Text(text)) == Success(PageState(6, title, text, bold))
  {
    var s5 := PageState(5, title, text, bold);
    TextBecomesMarker(s5, text);
    PlainStack("p");
    var t, h := TextMarker([], title), TextMarker([], text);
    ReplaceLast([[], [t]], [], [h]);
    assert [] + [h] == [h] && [[], [t]] + [[]] == s5.markerLists && [[], [t]] + [[h]] == [[], [t], [h]];
  }

  lemma PageBoldOpened(title: string, text: string, bold: string)
    requires ValidState(PageState(6, title, text, bold))
    ensures Step(PageState(6, title, text, bold), StartTag("strong", [])) == Success(PageState(7, title, text, bold))
  {
    var s6 := PageState(6, title, text, bold);
    PlainStartTag(s6, "strong", []);
    assert s6.tagStack + ["strong"] == ["hr", "p", "strong"];
  }

  lemma PageBold(title: string, text: string, bold: string)
    requires ValidState(PageState(7, title, text, bold))
    ensures Step(PageState(7, title, text, bold), Text(bold)) == Success(PageState(8, title, text, bold))
  {
    var s7 := PageState(7, title, text, bold);
    TextBecomesMarker(s7, bold);
    PlainStack("p");
    StrongStack(["hr", "p"]);
    assert ["hr", "p"] + ["strong"] == s7.tagStack;
    PageBoldState(title, text, bold);
  }

  lemma PageBoldState(title: string, text: string, bold: string)
    ensures var s7 := PageState(7, title, text, bold);
      s7.(markerLists := s7.markerLists[2 := s7.markerLists[2] + [TextMarker([1], bold)]]) == PageState(8, title, text, bold)
  {
    var s7 := PageState(7, title, text, bold);
    var t, h, w := TextMarker([], title), TextMarker([], text), TextMarker([1], bold);
    ReplaceLast([[], [t]], [h], [h, w]);
    assert [h] + [w] == [h, w] && [[], [t]] + [[h]] == s7.markerLists && [[], [t]] + [[h, w]] == [[], [t], [h, w]];
  }

  lemma PageBoldClosed(title: string, text: string, bold: string)
    requires ValidState(PageState(8, title, text, bold))
    ensures Step(PageState(8, title, text, bold), EndTag("strong")) == Success(PageState(9, title, text, bold))
  {
    var s8 := PageState(8, title, text, bold);
    assert CanClose(s8.tagStack, "strong") && PopTagStack(s8.tagStack, "strong") == ["hr", "p"];
    PlainEndTag(s8, "strong");
  }

  lemma PageParagraphClosed(title: string, text: string, bold: string)
    requires ValidState(PageState(9, title, text, bold))
    ensures Step(PageState(9, title, text, bold), EndTag("p")) == Success(PageState(10, title, text, bold))
  {
    var s9 := PageState(9, title, text, bold);
    assert CanClose(s9.tagStack, "p") && PopTagStack(s9.tagStack, "p") == ["hr"];
    ParagraphEnds(s9);
    PageParagraphState(title, text, bold);
  }

  lemma PageParagraphState(title: string, text: string, bold: string)
    ensures var s9 := PageState(9, title, text, bold);
      s9.(sections := s9.sections + [MarkupRef("p", s9.currentMarkers)], lastSectionTag := Some("p"), tagStack := ["hr"])
        == PageState(10, title, text, bold)
  {
    assert [] + [MarkupRef("p", 2)] == [MarkupRef("p", 2)];
  }

  /** The rule and the title: the rule and the first `h3` leave no section. */
  lemma PageHeadRun(title: string, text: string, bold: string)
    ensures Run(Init(), PageHead(title)) == Success(PageState(4, title, text, bold))
  {
    var s1, s2 := PageState(1, title, text, bold), PageState(2, title, text, bold);
    var s3, s4 := PageState(3, title, text, bold), PageState(4, title, text, bold);
    PageRule(title, text, bold);
    PageHeadingOpened(title, text, bold);
    PageTitle(title, text, bold);
    PageHeadingClosed(title, text, bold);
    RunTwo(Init(), StartTag("hr", []), StartTag("h3", []), s1, s2);
    RunTwo(s2, Text(title), EndTag("h3"), s3, s4);
    RunConcat(Init(), [StartTag("hr", []), StartTag("h3", [])], [Text(title), EndTag("h3")]);
    assert [StartTag("hr", []), StartTag("h3", [])] + [Text(title), EndTag("h3")] == PageHead(title);
  }

  /** The paragraph up to its bold text. */
  lemma PageTextRun(title: string, text: string, bold: string)
    requires ValidState(PageState(4, title, text, bold))
    ensures Run(PageState(4, title, text, bold), [StartTag("p", []), Text(text), StartTag("strong", [])])
      == Success(PageState(7, title, text, bold))
  {
    var s4, s5 := PageState(4, title, text, bold), PageState(5, title, text, bold);
    var s6, s7 := PageState(6, title, text, bold), PageState(7, title, text, bold);
    PageParagraphOpened(title, text, bold);
    PageText(title, text, bold);
    PageBoldOpened(title, text, bold);
    RunThree(s4, StartTag("p", []), Text(text), StartTag("strong", []), s5, s6, s7);
  }

  /** The bold text and the ends of both elements. */
  lemma PageBoldRun(title: string, text: string, bold: string)
    requires ValidState(PageState(7, title, text, bold))
    ensures Run(PageState(7, title, text, bold), [Text(bold), EndTag("strong"), EndTag("p")])
      == Success(PageState(10, title, text, bold))
  {
    var s7, s8 := PageState(7, title, text, bold), PageState(8, title, text, bold);
    var s9, s10 := PageState(9, title, text, bold), PageState(10, title, text, bold);
    PageBold(title, text, bold);
    PageBoldClosed(title, text, bold);
    PageParagraphClosed(title, text, bold);
    RunThree(s7, Text(bold), EndTag("strong"), EndTag("p"), s8, s9, s10);
  }

  /** The paragraph: its plain text, then its bold text. */
  lemma PageBodyRun(title: string, text: string, bold: string)
    requires ValidState(PageState(4, title, text, bold))
    ensures Run(PageState(4, title, text, bold), PageBody(text, bold)) == Success(PageState(10, title, text, bold))
  {
    PageTextRun(title, text, bold);
    PageBoldRun(title, text, bold);
    RunConcat(PageState(4, title, text, bold), [StartTag("p", []), Text(text), StartTag("strong", [])],
      [Text(bold), EndTag("strong"), EndTag("p")]);
    assert [StartTag("p", []), Text(text), StartTag("strong", [])] + [Text(bold), EndTag("strong"), EndTag("p")]
      == PageBody(text, bold);
  }

  /** What the finished page converts to. */
  lemma PageDocument(title: string, text: string, bold: string)
    requires ValidState(PageState(10, title, text, bold))
    ensures ConvertState(PageState(10, title, text, bold)) == Document(Version, [], [], [Em, Strong],
      [MarkupSection("p", [TextMarker([], text), TextMarker([1], bold)])])
  {
    var st := PageState(10, title, text, bold);
    ConvertMarkupSection(st, 0);
    assert ConvertState(st).sections == [MarkupSection("p", [TextMarker([], text), TextMarker([1], bold)])];
  }

  /** `<hr><h3>title</h3><p>text<strong>bold</strong></p>`: the rule and the
      title heading are dropped, no card is made, and the only section is the
      paragraph, its plain text marked with nothing and its bold text with
      `strong` (markup 1). */
  lemma TitledPage(title: string, text: string, bold: string)
    ensures ParseEvents(PageHead(title) + PageBody(text, bold)) == Success(Document(Version, [], [], [Em, Strong],
      [MarkupSection("p", [TextMarker([], text), TextMarker([1], bold)])]))
  {
    PageHeadRun(title, text, bold);
    PageBodyRun(title, text, bold);
    RunConcat(Init(), PageHead(title), PageBody(text, bold));
    PageDocument(title, text, bold);
  }

  /** The page with its texts filled in. */
  lemma TitledPageExample()
    ensures ParseEvents([StartTag("hr", []), StartTag("h3", []), Text("Title"), EndTag("h3"),
      StartTag("p", []), Text("Hello "), StartTag("strong", []), Text("world"), EndTag("strong"), EndTag("p")])
      == Success(Document(Version, [], [], [Em, Strong],
        [MarkupSection("p", [TextMarker([], "Hello "), TextMarker([1], "world")])]))
  {
    TitledPage("Title", "Hello ", "world");
    assert PageHead("Title") + PageBody("Hello ", "world") == [StartTag("hr", []), StartTag("h3", []), Text("Title"),
      EndTag("h3"), StartTag("p", []), Text("Hello "), StartTag("strong", []), Text("world"), EndTag("strong"), EndTag("p")];
  }
}
