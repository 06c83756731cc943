/** What the parser promises about the documents it builds, proved of the step
    functions. */
module ParserProperties {
  import opened Common
  import opened Strings
  import opened Attributes
  import opened Mobiledoc
  import opened MediumPostParser

  /** The state right after `tag` is pushed by `handle_starttag`. */
  function Pushed(st: ParserState, tag: string): ParserState
  {
    st.(seenFooter := tag == "footer", tagStack := st.tagStack + [tag])
  }

  lemma RunStep(st: ParserState, e: Event, st1: ParserState, rest: seq<Event>)
    requires ValidState(st) && Step(st, e) == Success(st1)
    ensures Run(st, [e] + rest) == Run(st1, rest)
  {
    assert ([e] + rest)[1..] == rest;
  }

  // ---------------------------------------------------------------------------
  // The footer

  /** Once the footer has started, every later event is ignored. */
  lemma {:induction false} FooterFreezes(st: ParserState, events: seq<Event>)
    requires ValidState(st) && st.seenFooter
    ensures Run(st, events) == Success(st)
    decreases |events|
  {
    if events != [] {
      assert Step(st, events[0]) == Success(st);
      FooterFreezes(st, events[1..]);
    }
  }

  /** `<footer>` is still pushed, and nothing after it contributes to the document. */
  lemma FooterStopsParsing(st: ParserState, attrs: Attrs, events: seq<Event>)
    requires ValidState(st) && !st.seenFooter
    ensures Run(st, [StartTag("footer", attrs)] + events) == Success(Pushed(st, "footer"))
  {
    assert StartTagStep(st, "footer", attrs) == Success(Pushed(st, "footer"));
    FooterFreezes(Pushed(st, "footer"), events);
    RunStep(st, StartTag("footer", attrs), Pushed(st, "footer"), events);
  }

  // ---------------------------------------------------------------------------
  // Tags that only move the stack

  /** Start tags with no Mobiledoc meaning (`li`, `em`, `strong`, `figure`, ...)
      only push the tag. */
  lemma PlainStartTag(st: ParserState, tag: string, attrs: Attrs)
    requires ValidState(st) && !st.seenFooter
    requires tag !in BlockTags && tag !in ["a", "img", "pre", "iframe", "script", "hr", "br"]
    ensures StartTagStep(st, tag, attrs) == Success(Pushed(st, tag))
  {
  }

  /** End tags outside the section chain (`em`, `strong`, `a`, `h1`, `h2`,
      `figure`, ...) only pop the stack, and fail when the pop loop would
      run off the bottom. */
  lemma PlainEndTag(st: ParserState, tag: string)
    requires ValidState(st) && !st.seenFooter
    requires tag !in SectionTags && tag != "li"
    ensures EndTagStep(st, tag) ==
      if CanClose(st.tagStack, tag) then Success(st.(tagStack := PopTagStack(st.tagStack, tag)))
      else Failure(EmptyTagStack)
  {
    assert CloseSection(st, tag) == Success(st);
  }

  // ---------------------------------------------------------------------------
  // The stack

  /** The pop loop never runs off the bottom when the tag being closed is on the stack. */
  lemma {:induction false} TagOnStackCanClose(s: seq<string>, tag: string)
    requires tag in s
    ensures CanClose(s, tag)
    decreases |s|
  {
    if s[|s| - 1] != tag && ("br" in s || "img" in s) {
      var i :| 0 <= i < |s| && s[i] == tag;
      assert s[..|s| - 1][i] == tag;
      TagOnStackCanClose(s[..|s| - 1], tag);
    }
  }

  /** Closing a tag pops it together with the `img` and `br` entries above it. */
  lemma {:induction false} PopThroughVoidTags(p: seq<string>, tag: string, q: seq<string>)
    requires forall i :: 0 <= i < |q| ==> (q[i] == "img" || q[i] == "br") && q[i] != tag
    ensures CanClose(p + [tag] + q, tag) && PopTagStack(p + [tag] + q, tag) == p
    decreases |q|
  {
    var s := p + [tag] + q;
    if q == [] {
      assert s[..|s| - 1] == p;
    } else {
      var q' := q[..|q| - 1];
      assert s[..|s| - 1] == p + [tag] + q';
      assert s[|s| - 1] == q[|q| - 1];
      assert q[|q| - 1] in s;
      PopThroughVoidTags(p, tag, q');
    }
  }

  /** Without `img` or `br` on the stack an end tag pops the top entry, whatever its name. */
  lemma PopWithoutVoidTags(s: seq<string>, tag: string)
    requires |s| > 0 && "img" !in s && "br" !in s
    ensures CanClose(s, tag) && PopTagStack(s, tag) == s[..|s| - 1]
  {
  }

  /** `["p", "em", "img"]` closed by `</em>` leaves `["p"]`. */
  lemma PopExample(s: seq<string>)
    requires s == ["p", "em", "img"]
    ensures PopTagStack(s, "em") == ["p"]
  {
    assert s == ["p"] + ["em"] + ["img"];
    PopThroughVoidTags(["p"], "em", ["img"]);
  }

  // ---------------------------------------------------------------------------
  // Block tags

  /** A block tag other than `div` starts fresh marker and list-item lists. */
  lemma BlockStarts(st: ParserState, tag: string, attrs: Attrs)
    requires ValidState(st) && !st.seenFooter && tag in BlockTags && tag != "div"
    ensures StartTagStep(st, tag, attrs) == Success(NewItemList(NewMarkerList(Pushed(st, tag))))
  {
  }

  /** A `div` whose last `class` contains `graf` is a link summary. */
  lemma SummaryDivStarts(st: ParserState, attrs: Attrs, cls: string)
    requires ValidState(st) && !st.seenFooter
    requires IsLastValue(attrs, "class", cls) && Contains(cls, "graf")
    ensures StartTagStep(st, "div", attrs) ==
      Success(NewItemList(NewMarkerList(Pushed(st, "div"))).(insideLinkSummaryDiv := true))
  {
    assert HasKey(attrs, "class");
    LookupIsLastValue(attrs, "class", cls);
  }

  /** Any other `div` only starts fresh lists. */
  lemma PlainDivStarts(st: ParserState, attrs: Attrs)
    requires ValidState(st) && !st.seenFooter
    requires forall cls :: IsLastValue(attrs, "class", cls) ==> !Contains(cls, "graf")
    ensures StartTagStep(st, "div", attrs) == Success(NewItemList(NewMarkerList(Pushed(st, "div"))))
  {
    if HasKey(attrs, "class") {
      LookupIsLastValue(attrs, "class", Lookup(AttrsToDict(attrs), "class"));
    }
  }

  /** The end of a link summary `div` closes a paragraph over the current markers. */
  lemma SummaryDivEnds(st: ParserState)
    requires ValidState(st) && !st.seenFooter && st.insideLinkSummaryDiv && CanClose(st.tagStack, "div")
    ensures EndTagStep(st, "div") == Success(st.(
      sections := st.sections + [MarkupRef("p", st.currentMarkers)],
      insideLinkSummaryDiv := false,
      lastSectionTag := Some("div"),
      tagStack := PopTagStack(st.tagStack, "div")))
  {
    assert CloseSection(st, "div") == CloseParent(st, "div");
  }

  /** The end of any other `div` adds no section. */
  lemma PlainDivEnds(st: ParserState)
    requires ValidState(st) && !st.seenFooter && !st.insideLinkSummaryDiv && CanClose(st.tagStack, "div")
    ensures EndTagStep(st, "div") == Success(st.(
      lastSectionTag := Some("div"), tagStack := PopTagStack(st.tagStack, "div")))
  {
    assert CloseSection(st, "div") == Success(st);
  }

  /** `</p>` closes a paragraph over the current markers, the list itself and not a copy. */
  lemma ParagraphEnds(st: ParserState)
    requires ValidState(st) && !st.seenFooter && CanClose(st.tagStack, "p")
    ensures EndTagStep(st, "p") == Success(st.(
      sections := st.sections + [MarkupRef("p", st.currentMarkers)],
      lastSectionTag := Some("p"),
      tagStack := PopTagStack(st.tagStack, "p")))
  {
    assert CloseSection(st, "p") == Success(st.(sections := st.sections + [MarkupRef("p", st.currentMarkers)]));
  }

  /** `</li>` adds the current markers to the list items and starts a fresh marker list. */
  lemma ListItemEnds(st: ParserState)
    requires ValidState(st) && !st.seenFooter && CanClose(st.tagStack, "li")
    ensures var l := st.currentListItemMarkers;
      EndTagStep(st, "li") == Success(NewMarkerList(st.(
        itemLists := st.itemLists[l := st.itemLists[l] + [st.currentMarkers]],
        tagStack := PopTagStack(st.tagStack, "li"))))
  {
    var l := st.currentListItemMarkers;
    assert CloseSection(st, "li") == Success(NewMarkerList(st.(itemLists := st.itemLists[l := st.itemLists[l] + [st.currentMarkers]])));
  }

  /** `</ul>` and `</ol>` close a list section over the current list items. */
  lemma ListEnds(st: ParserState, tag: string)
    requires ValidState(st) && !st.seenFooter && (tag == "ul" || tag == "ol") && CanClose(st.tagStack, tag)
    ensures EndTagStep(st, tag) == Success(st.(
      sections := st.sections + [ListRef(tag, st.currentListItemMarkers)],
      lastSectionTag := Some(tag),
      tagStack := PopTagStack(st.tagStack, tag)))
  {
    assert CloseSection(st, tag) == CloseParent(st, tag);
  }

  // ---------------------------------------------------------------------------
  // Horizontal rules and headings

  /** The first `<hr>` of an export is dropped, but remembered. */
  lemma FirstHrDropped(st: ParserState, attrs: Attrs)
    requires ValidState(st) && !st.seenFooter && !st.seenFirstHr
    ensures StartTagStep(st, "hr", attrs) == Success(Pushed(st, "hr").(seenFirstHr := true))
  {
  }

  /** Every later `<hr>` becomes an `hr` card with its own card section. */
  lemma LaterHrBecomesCard(st: ParserState, attrs: Attrs)
    requires ValidState(st) && !st.seenFooter && st.seenFirstHr
    ensures StartTagStep(st, "hr", attrs).Success?
    ensures var r := StartTagStep(st, "hr", attrs).value;
      r.cards == st.cards + [HrCard(None)] && r.sections == st.sections + [CardRef(|st.cards|)]
  {
  }

  /** The first `</h3>` (the post title) produces no section. */
  lemma FirstH3Dropped(st: ParserState)
    requires ValidState(st) && !st.seenFooter && !st.seenFirstH3 && CanClose(st.tagStack, "h3")
    ensures EndTagStep(st, "h3").Success?
    ensures var r := EndTagStep(st, "h3").value;
      r.sections == st.sections && r.seenFirstH3 && r.lastSectionTag == Some("h3")
  {
    assert CloseSection(st, "h3") == Success(st.(seenFirstH3 := true));
  }

  /** Each later `</h3>` closes an `h2` section over the current markers. */
  lemma LaterH3BecomesH2(st: ParserState)
    requires ValidState(st) && !st.seenFooter && st.seenFirstH3 && CanClose(st.tagStack, "h3")
    ensures EndTagStep(st, "h3").Success?
    ensures EndTagStep(st, "h3").value.sections == st.sections + [MarkupRef("h2", st.currentMarkers)]
  {
    assert CloseSection(st, "h3") == Success(st.(sections := st.sections + [MarkupRef("h2", st.currentMarkers)]));
  }

  /** `</h4>` closes an `h3` section. */
  lemma H4BecomesH3(st: ParserState)
    requires ValidState(st) && !st.seenFooter && CanClose(st.tagStack, "h4")
    ensures EndTagStep(st, "h4").Success?
    ensures EndTagStep(st, "h4").value.sections == st.sections + [MarkupRef("h3", st.currentMarkers)]
  {
    assert CloseSection(st, "h4") == Success(st.(sections := st.sections + [MarkupRef("h3", st.currentMarkers)]));
  }

  // ---------------------------------------------------------------------------
  // Code blocks and line breaks

  /** `cards[-1][1]["code"] += text` on a state whose last card is a code card. */
  function WithCode(st: ParserState, text: string): ParserState
    requires |st.cards| > 0 && st.cards[|st.cards| - 1].CodeCard?
  {
    var n := |st.cards| - 1;
    st.(cards := st.cards[n := st.cards[n].(code := st.cards[n].code + text)])
  }

  /** A `<pre>` that does not follow a `</pre>` starts an empty code card. */
  lemma PreStartsCode(st: ParserState, attrs: Attrs)
    requires ValidState(st) && !st.seenFooter && st.lastSectionTag != Some("pre")
    ensures StartTagStep(st, "pre", attrs) == Success(AddCard(Pushed(st, "pre"), CodeCard("", None)))
  {
  }

  /** A `<pre>` right after a `</pre>` continues the last code card after a blank line. */
  lemma PreContinuesCode(st: ParserState, attrs: Attrs)
    requires ValidState(st) && !st.seenFooter && st.lastSectionTag == Some("pre")
    requires |st.cards| > 0 && st.cards[|st.cards| - 1].CodeCard?
    ensures StartTagStep(st, "pre", attrs) == Success(WithCode(Pushed(st, "pre"), "\n\n"))
  {
  }

  /** ... and raises when the last card has no code. */
  lemma PreAfterOtherCard(st: ParserState, attrs: Attrs)
    requires ValidState(st) && !st.seenFooter && st.lastSectionTag == Some("pre")
    requires |st.cards| > 0 && !st.cards[|st.cards| - 1].CodeCard?
    ensures StartTagStep(st, "pre", attrs) == Failure(NoCodeInLastCard)
  {
  }

  /** `</pre>` only records itself as the last section tag. */
  lemma PreEnds(st: ParserState)
    requires ValidState(st) && !st.seenFooter && CanClose(st.tagStack, "pre")
    ensures EndTagStep(st, "pre") ==
      Success(st.(lastSectionTag := Some("pre"), tagStack := PopTagStack(st.tagStack, "pre")))
  {
    assert CloseSection(st, "pre") == Success(st);
  }

  /** A `<br>` inside code is a newline in the code card; the stack is unchanged. */
  lemma BreakInCode(st: ParserState, attrs: Attrs)
    requires ValidState(st) && !st.seenFooter && "pre" in st.tagStack
    requires |st.cards| > 0 && st.cards[|st.cards| - 1].CodeCard?
    ensures StartTagStep(st, "br", attrs) == Success(WithCode(st, "\n"))
  {
    assert (st.tagStack + ["br"])[..|st.tagStack|] == st.tagStack;
  }

  /** A `<br>` in text adds a soft-return atom and a marker pointing at it. */
  lemma BreakInText(st: ParserState, attrs: Attrs)
    requires ValidState(st) && !st.seenFooter && "pre" !in st.tagStack
    ensures StartTagStep(st, "br", attrs) == Success(st.(
      atoms := st.atoms + [SoftReturn],
      markerLists := st.markerLists[st.currentMarkers :=
        st.markerLists[st.currentMarkers] + [AtomMarker(|st.atoms|)]]))
  {
    assert (st.tagStack + ["br"])[..|st.tagStack|] == st.tagStack;
  }

  // ---------------------------------------------------------------------------
  // Text

  /** Text inside code goes verbatim into the last code card. */
  lemma TextInCode(st: ParserState, data: string)
    requires ValidState(st) && !st.seenFooter && "figcaption" !in st.tagStack && "pre" in st.tagStack
    requires |st.cards| > 0 && st.cards[|st.cards| - 1].CodeCard?
    ensures DataStep(st, data) == Success(WithCode(st, data))
  {
  }

  /** Other text becomes a text marker at the end of the current markers,
      carrying the markups of the elements it is in. */
  lemma TextBecomesMarker(st: ParserState, data: string)
    requires ValidState(st) && !st.seenFooter && "figcaption" !in st.tagStack && "pre" !in st.tagStack
    ensures DataStep(st, data) == Success(st.(markerLists := st.markerLists[st.currentMarkers :=
      st.markerLists[st.currentMarkers] + [TextMarker(ActiveMarkups(st.tagStack, |st.markups|), data)]]))
  {
  }

  /** The markups of a text marker: index 0 exactly inside `<em>`, index 1
      exactly inside `<strong>`, a link exactly inside `<a>` (the most recent
      one, listed first), every index in range and none twice. */
  lemma ActiveMarkupsMeaning(st: ParserState)
    requires ValidState(st)
    ensures var idx := ActiveMarkups(st.tagStack, |st.markups|);
      && (forall i :: 0 <= i < |idx| ==> idx[i] < |st.markups|)
      && (0 in idx <==> "em" in st.tagStack)
      && (1 in idx <==> "strong" in st.tagStack)
      && ((exists i :: 0 <= i < |idx| && st.markups[idx[i]].Link?) <==> "a" in st.tagStack)
      && ("a" in st.tagStack ==> idx[0] == |st.markups| - 1)
      && (forall i, j :: 0 <= i < j < |idx| ==> idx[i] != idx[j])
  {
    var idx := ActiveMarkups(st.tagStack, |st.markups|);
    if "a" in st.tagStack {
      assert st.markups[idx[0]].Link?;
    }
  }

  /** The state with the last card's caption set to `caption`. */
  function WithCaption(st: ParserState, caption: string): ParserState
    requires |st.cards| > 0
  {
    var n := |st.cards| - 1;
    st.(cards := st.cards[n := st.cards[n].(caption := Some(caption))])
  }

  /** Text in a `<figcaption>` becomes the caption of the last card. */
  lemma TextInCaption(st: ParserState, data: string)
    requires ValidState(st) && !st.seenFooter && "figcaption" in st.tagStack && |st.cards| > 0
    ensures DataStep(st, data) == Success(WithCaption(st, data))
  {
  }

  lemma CaptionTwice(st: ParserState, a: string, b: string)
    requires |st.cards| > 0
    ensures WithCaption(WithCaption(st, a), b) == WithCaption(st, b)
  {
  }

  /** Two events that each succeed make a run that ends where the second does. */
  lemma RunTwo(st: ParserState, e1: Event, e2: Event, s1: ParserState, s2: ParserState)
    requires ValidState(st) && Step(st, e1) == Success(s1)
    requires ValidState(s1) && Step(s1, e2) == Success(s2)
    ensures Run(st, [e1, e2]) == Success(s2)
  {
    RunStep(st, e1, s1, [e2]);
    RunStep(s1, e2, s2, []);
    assert [e1] + [e2] == [e1, e2];
  }

  /** A second text in the same caption replaces the first. */
  lemma CaptionReplaced(st: ParserState, first: string, second: string)
    requires ValidState(st) && !st.seenFooter && "figcaption" in st.tagStack && |st.cards| > 0
    ensures Run(st, [Text(first), Text(second)]) == Success(WithCaption(st, second))
  {
    var st1 := WithCaption(st, first);
    TextInCaption(st, first);
    assert Step(st, Text(first)) == Success(st1);
    TextInCaption(st1, second);
    assert Step(st1, Text(second)) == Success(WithCaption(st1, second));
    CaptionTwice(st, first, second);
    RunTwo(st, Text(first), Text(second), st1, WithCaption(st1, second));
  }

  /** A caption with no card before it raises. */
  lemma CaptionWithoutCard(st: ParserState, data: string)
    requires ValidState(st) && !st.seenFooter && "figcaption" in st.tagStack && st.cards == []
    ensures DataStep(st, data) == Failure(NoCard)
  {
  }

  // ---------------------------------------------------------------------------
  // Blockquotes

  /** A blockquote that does not follow one closes a blockquote section over the current markers. */
  lemma BlockquoteClosed(st: ParserState)
    requires ValidState(st) && !st.seenFooter && st.lastSectionTag != Some("blockquote")
    requires CanClose(st.tagStack, "blockquote")
    ensures EndTagStep(st, "blockquote") == Success(st.(
      sections := st.sections + [MarkupRef("blockquote", st.currentMarkers)],
      lastSectionTag := Some("blockquote"),
      tagStack := PopTagStack(st.tagStack, "blockquote")))
  {
    assert CloseSection(st, "blockquote") == CloseBlockquote(st);
  }

  /** A blockquote after a blockquote: a soft return is added to its markers,
      and the previous blockquote section's markers are extended by them; no
      section is added. */
  lemma BlockquoteMerged(st: ParserState)
    requires ValidState(st) && !st.seenFooter && st.lastSectionTag == Some("blockquote")
    requires CanClose(st.tagStack, "blockquote")
    requires st.sections[|st.sections| - 1].MarkupRef?
    requires st.sections[|st.sections| - 1].markers != st.currentMarkers
    ensures var k, c := st.sections[|st.sections| - 1].markers, st.currentMarkers;
      var mc := st.markerLists[c] + [AtomMarker(|st.atoms|)];
      EndTagStep(st, "blockquote") == Success(st.(
        atoms := st.atoms + [SoftReturn],
        markerLists := st.markerLists[c := mc][k := st.markerLists[k] + mc],
        tagStack := PopTagStack(st.tagStack, "blockquote")))
  {
    assert CloseSection(st, "blockquote") == MergeBlockquote(st);
  }

  /** When the blockquote's markers are the previous section's own list (a
      blockquote closed twice without a new block start, as nested blockquotes
      are), the list is extended by itself. */
  lemma BlockquoteMergedWithItself(st: ParserState)
    requires ValidState(st) && !st.seenFooter && st.lastSectionTag == Some("blockquote")
    requires CanClose(st.tagStack, "blockquote")
    requires st.sections[|st.sections| - 1] == MarkupRef("blockquote", st.currentMarkers)
    ensures var c := st.currentMarkers;
      var mc := st.markerLists[c] + [AtomMarker(|st.atoms|)];
      EndTagStep(st, "blockquote") == Success(st.(
        atoms := st.atoms + [SoftReturn],
        markerLists := st.markerLists[c := mc + mc],
        tagStack := PopTagStack(st.tagStack, "blockquote")))
  {
    var c := st.currentMarkers;
    var mc := st.markerLists[c] + [AtomMarker(|st.atoms|)];
    assert st.markerLists[c := mc][c := mc + mc] == st.markerLists[c := mc + mc];
    assert CloseSection(st, "blockquote") == MergeBlockquote(st);
  }

  /** A blockquote after a blockquote whose section has since been followed by a card raises. */
  lemma BlockquoteAfterCard(st: ParserState)
    requires ValidState(st) && !st.seenFooter && st.lastSectionTag == Some("blockquote")
    requires st.sections[|st.sections| - 1].CardRef?
    ensures EndTagStep(st, "blockquote") == Failure(LastSectionHasNoMarkers)
  {
  }

  // ---------------------------------------------------------------------------
  // Cards and links from attributes

  /** A name has at most one last value. */
  lemma LastValueUnique(attrs: Attrs, k: string, v: string, w: string)
    requires IsLastValue(attrs, k, v) && IsLastValue(attrs, k, w)
    ensures v == w
  {
    var i :| 0 <= i < |attrs| && attrs[i] == (k, v) && forall j :: i < j < |attrs| ==> attrs[j].0 != k;
    var i' :| 0 <= i' < |attrs| && attrs[i'] == (k, w) && forall j :: i' < j < |attrs| ==> attrs[j].0 != k;
    assert i == i';
  }

  /** Looking a name up in the dictionary gives the value it was given last. */
  lemma LookupIsLastValue(attrs: Attrs, k: string, v: string)
    requires HasKey(attrs, k)
    ensures HasKey(AttrsToDict(attrs), k)
    ensures Lookup(AttrsToDict(attrs), k) == v <==> IsLastValue(attrs, k, v)
  {
    var d := AttrsToDict(attrs);
    if IsLastValue(attrs, k, v) {
      LastValueUnique(attrs, k, v, Lookup(d, k));
    }
  }

  /** `<img>` becomes an image card and a card section: the source is the last
      `src` given, the card is wide exactly when the source names the
      1000-pixel rendition, and featured exactly when the last
      `data-is-featured` is `"true"`. */
  lemma ImageCardFromAttributes(st: ParserState, attrs: Attrs)
    requires ValidState(st) && !st.seenFooter && HasKey(attrs, "src")
    ensures StartTagStep(st, "img", attrs).Success?
    ensures var r := StartTagStep(st, "img", attrs).value;
      && r.sections == st.sections + [CardRef(|st.cards|)]
      && |r.cards| == |st.cards| + 1 && r.cards[..|st.cards|] == st.cards
      && var c := r.cards[|st.cards|];
      && c.ImageCard? && c.caption == None
      && IsLastValue(attrs, "src", c.src)
      && (c.wide <==> Contains(c.src, "/max/1000/"))
      && (c.featured <==> IsLastValue(attrs, "data-is-featured", "true"))
  {
    var d := AttrsToDict(attrs);
    var src := Lookup(d, "src");
    var featured := HasKey(d, "data-is-featured") && Lookup(d, "data-is-featured") == "true";
    var c := ImageCard(src, Contains(src, "/max/1000/"), featured, None);
    ImageStarts(st, attrs);
    ImageAttributes(attrs);
    CardAppended(Pushed(st, "img"), c);
  }

  /** The state after `<img>` with a `src`. */
  lemma ImageStarts(st: ParserState, attrs: Attrs)
    requires ValidState(st) && !st.seenFooter && HasKey(attrs, "src")
    ensures var d := AttrsToDict(attrs);
      var src := Lookup(d, "src");
      var featured := HasKey(d, "data-is-featured") && Lookup(d, "data-is-featured") == "true";
      StartTagStep(st, "img", attrs) ==
        Success(AddCard(Pushed(st, "img"), ImageCard(src, Contains(src, "/max/1000/"), featured, None)))
  {
    StartElementStep(st, "img", attrs);
  }

  /** The dictionary holds the last `src`, and the last `data-is-featured`. */
  lemma ImageAttributes(attrs: Attrs)
    requires HasKey(attrs, "src")
    ensures var d := AttrsToDict(attrs);
      && IsLastValue(attrs, "src", Lookup(d, "src"))
      && (HasKey(d, "data-is-featured") && Lookup(d, "data-is-featured") == "true"
          <==> IsLastValue(attrs, "data-is-featured", "true"))
  {
    var d := AttrsToDict(attrs);
    LookupIsLastValue(attrs, "src", Lookup(d, "src"));
    if HasKey(attrs, "data-is-featured") {
      LookupIsLastValue(attrs, "data-is-featured", "true");
    } else {
      assert !IsLastValue(attrs, "data-is-featured", "true");
    }
  }

  lemma CardAppended(st: ParserState, c: Card)
    ensures var r := AddCard(st, c);
      && r.sections == st.sections + [CardRef(|st.cards|)]
      && |r.cards| == |st.cards| + 1 && r.cards[..|st.cards|] == st.cards && r.cards[|st.cards|] == c
  {
    assert AddCard(st, c).cards[..|st.cards|] == st.cards;
  }

  /** `<img>` without `src` raises. */
  lemma ImageWithoutSource(st: ParserState, attrs: Attrs)
    requires ValidState(st) && !st.seenFooter && !HasKey(attrs, "src")
    ensures StartTagStep(st, "img", attrs) == Failure(MissingAttribute("img", "src"))
  {
  }

  /** `<a>` adds a link markup for the last `href` given; without one it raises. */
  lemma LinkFromAttributes(st: ParserState, attrs: Attrs)
    requires ValidState(st) && !st.seenFooter
    ensures !HasKey(attrs, "href") ==> StartTagStep(st, "a", attrs) == Failure(MissingAttribute("a", "href"))
    ensures HasKey(attrs, "href") ==> (StartTagStep(st, "a", attrs).Success?
      && var r := StartTagStep(st, "a", attrs).value;
      && |r.markups| == |st.markups| + 1 && r.markups[..|st.markups|] == st.markups
      && r.markups[|st.markups|].Link? && IsLastValue(attrs, "href", r.markups[|st.markups|].href)
      && r.tagStack == st.tagStack + ["a"])
  {
    if HasKey(attrs, "href") {
      LookupIsLastValue(attrs, "href", Lookup(AttrsToDict(attrs), "href"));
      var r := StartTagStep(st, "a", attrs).value;
      assert r.markups[..|st.markups|] == st.markups;
    }
  }

  /** `<iframe>` becomes an html card rebuilding the tag from its attributes. */
  lemma IframeBecomesHtmlCard(st: ParserState, attrs: Attrs)
    requires ValidState(st) && !st.seenFooter
    ensures StartTagStep(st, "iframe", attrs) == Success(AddCard(Pushed(st, "iframe"),
      HtmlCard("<iframe " + AttrString(AttrsToDict(attrs)) + "></iframe>", None)))
  {
  }

  /** `<script>` becomes an html card only when its source is a GitHub gist;
      without `src` it raises. */
  lemma ScriptCards(st: ParserState, attrs: Attrs)
    requires ValidState(st) && !st.seenFooter
    ensures !HasKey(attrs, "src") ==> StartTagStep(st, "script", attrs) == Failure(MissingAttribute("script", "src"))
    ensures HasKey(attrs, "src") ==> (StartTagStep(st, "script", attrs) ==
      if Contains(Lookup(AttrsToDict(attrs), "src"), "gist.github.com") then
        Success(AddCard(Pushed(st, "script"), HtmlCard("<script " + AttrString(AttrsToDict(attrs)) + "></script>", None)))
      else Success(Pushed(st, "script")))
  {
    StartElementStep(st, "script", attrs);
    ScriptCard(Pushed(st, "script"), AttrsToDict(attrs));
  }

  lemma ScriptCard(st: ParserState, d: Dict)
    requires ValidState(st)
    ensures !HasKey(d, "src") ==> OpenCard(st, "script", d) == Failure(MissingAttribute("script", "src"))
    ensures HasKey(d, "src") ==> (OpenCard(st, "script", d) ==
      if Contains(Lookup(d, "src"), "gist.github.com") then
        Success(AddCard(st, HtmlCard("<script " + AttrString(d) + "></script>", None)))
      else Success(st))
  {
  }
}
