/** `MediumHTMLParser`: turns the start tag, end tag and text events of a
    Medium export page into a Mobiledoc document.

    Python lists are shared by reference: a paragraph section holds the very
    list `current_markers` names, so text arriving after `</p>` (and before the
    next block tag) still lands in that paragraph, and a blockquote merge
    extends a list in place. The model keeps every marker list and list-item
    list the parser ever creates in two arenas, `markerLists` and `itemLists`;
    sections and the parser's "current" lists hold positions in them. */
module MediumPostParser {
  import opened Common
  import opened Strings
  import opened Attributes
  import opened Mobiledoc

  /** A section as the parser holds it: markup and list sections point at a
      shared list, card sections at a card. */
  datatype SectionRef =
    | MarkupRef(tagName: string, markers: nat)
    | ListRef(tagName: string, items: nat)
    | CardRef(cardIndex: nat)

  /** The exceptions the handlers raise on input they do not expect. */
  datatype ParseError =
    | MissingAttribute(tag: string, name: string)   // KeyError on attr_dict[name]
    | NoCard                                        // IndexError on cards[-1]
    | NoCodeInLastCard                              // KeyError on cards[-1][1]["code"]
    | EmptyTagStack                                 // IndexError on tag_stack[-1]
    | LastSectionHasNoMarkers                       // IndexError on sections[-1][2]

  datatype ParserState = ParserState(
    sections: seq<SectionRef>,
    markups: seq<Markup>,
    atoms: seq<Atom>,
    cards: seq<Card>,
    markerLists: seq<seq<Marker>>,
    itemLists: seq<seq<nat>>,
    currentMarkers: nat,
    currentListItemMarkers: nat,
    tagStack: seq<string>,
    lastSectionTag: Option<string>,
    seenFirstH3: bool,
    seenFirstHr: bool,
    seenFooter: bool,
    insideLinkSummaryDiv: bool)

  /** Tags that start a new parent element (their markers start afresh). */
  const BlockTags: seq<string> := ["p", "h1", "h2", "h3", "h4", "blockquote", "ul", "ol", "div"]

  /** Tags whose end is remembered as the last section tag. */
  const SectionTags: seq<string> := ["p", "blockquote", "h3", "h4", "pre", "ol", "ul", "div"]

  // ---------------------------------------------------------------------------
  // The invariant

  predicate MarkupsValid(markups: seq<Markup>)
  {
    |markups| >= 2 && markups[0] == Em && markups[1] == Strong
    && forall i :: 2 <= i < |markups| ==> markups[i].Link?
  }

  predicate MarkerListsValid(lists: seq<seq<Marker>>, markupCount: nat, atomCount: nat)
  {
    forall i :: 0 <= i < |lists| ==> MarkersInRange(lists[i], markupCount, atomCount)
  }

  predicate ItemListsValid(itemLists: seq<seq<nat>>, listCount: nat)
  {
    forall i, k :: 0 <= i < |itemLists| && 0 <= k < |itemLists[i]| ==> itemLists[i][k] < listCount
  }

  predicate RefInRange(r: SectionRef, listCount: nat, itemCount: nat, cardCount: nat)
  {
    match r
    case MarkupRef(_, m) => m < listCount
    case ListRef(_, l) => l < itemCount
    case CardRef(c) => c < cardCount
  }

  predicate RefsValid(sections: seq<SectionRef>, listCount: nat, itemCount: nat, cardCount: nat)
  {
    forall i :: 0 <= i < |sections| ==> RefInRange(sections[i], listCount, itemCount, cardCount)
  }

  /** The card indices of the card sections, in order. */
  function CardRefs(sections: seq<SectionRef>): seq<nat>
  {
    if sections == [] then []
    else
      var last := sections[|sections| - 1];
      CardRefs(sections[..|sections| - 1]) + (if last.CardRef? then [last.cardIndex] else [])
  }

  function Range(n: nat): (r: seq<nat>)
    ensures |r| == n && forall i :: 0 <= i < n ==> r[i] == i
  {
    seq(n, i => i)
  }

  /** What holds between any two events: the markup table starts with em and
      strong and otherwise holds links; every stored index is in range; every
      card is the target of exactly one card section, in creation order; and a
      remembered blockquote end means the last section holds markers. */
  predicate ValidState(st: ParserState)
  {
    ValidCore(st) && BlockquoteTail(st)
  }

  /** The invariant without its blockquote part. */
  predicate ValidCore(st: ParserState)
  {
    && MarkupsValid(st.markups)
    && ("a" in st.tagStack ==> |st.markups| > 2)
    && st.currentMarkers < |st.markerLists|
    && st.currentListItemMarkers < |st.itemLists|
    && MarkerListsValid(st.markerLists, |st.markups|, |st.atoms|)
    && ItemListsValid(st.itemLists, |st.markerLists|)
    && RefsValid(st.sections, |st.markerLists|, |st.itemLists|, |st.cards|)
    && CardRefs(st.sections) == Range(|st.cards|)
  }

  /** After a blockquote end there is a last section, and it is not a list. */
  predicate BlockquoteTail(st: ParserState)
  {
    st.lastSectionTag == Some("blockquote") ==>
      |st.sections| > 0 && !st.sections[|st.sections| - 1].ListRef?
  }

  /** `__init__`: em and strong are markups 0 and 1, every other container is
      empty and no flag is set. */
  function Init(): (st: ParserState)
    ensures ValidState(st)
    ensures st.markups == [Em, Strong] && st.sections == [] && st.cards == [] && st.atoms == []
    ensures st.markerLists[st.currentMarkers] == [] && st.itemLists[st.currentListItemMarkers] == []
    ensures st.tagStack == [] && st.lastSectionTag == None
    ensures !st.seenFirstH3 && !st.seenFirstHr && !st.seenFooter && !st.insideLinkSummaryDiv
  {
    ParserState([], [Em, Strong], [], [], [[]], [[]], 0, 0, [], None, false, false, false, false)
  }

  // ---------------------------------------------------------------------------
  // Small state changes shared by the handlers

  /** `current_markers = []`: a fresh list, other lists untouched. */
  function NewMarkerList(st: ParserState): (r: ParserState)
  {
    st.(markerLists := st.markerLists + [[]], currentMarkers := |st.markerLists|)
  }

  /** `current_list_item_markers = []`. */
  function NewItemList(st: ParserState): (r: ParserState)
  {
    st.(itemLists := st.itemLists + [[]], currentListItemMarkers := |st.itemLists|)
  }

  /** `current_markers.append(m)`. */
  function AppendMarker(st: ParserState, m: Marker): (r: ParserState)
    requires st.currentMarkers < |st.markerLists|
  {
    st.(markerLists := st.markerLists[st.currentMarkers := st.markerLists[st.currentMarkers] + [m]])
  }

  /** `cards.append(card)` followed by `sections.append([10, len(cards) - 1])`. */
  function AddCard(st: ParserState, c: Card): (r: ParserState)
  {
    st.(cards := st.cards + [c], sections := st.sections + [CardRef(|st.cards|)])
  }

  /** `cards[-1][1]["code"] += text`. */
  function AppendCode(st: ParserState, text: string): (r: Result<ParserState, ParseError>)
  {
    if |st.cards| == 0 then Failure(NoCard)
    else
      var last := st.cards[|st.cards| - 1];
      if !last.CodeCard? then Failure(NoCodeInLastCard)
      else Success(st.(cards := st.cards[|st.cards| - 1 := last.(code := last.code + text)]))
  }

  /** A new soft-return atom and, in the current markers, a marker pointing at it. */
  function AddSoftReturn(st: ParserState): (r: ParserState)
    requires st.currentMarkers < |st.markerLists|
  {
    AppendMarker(st.(atoms := st.atoms + [SoftReturn]), AtomMarker(|st.atoms|))
  }

  /** The markups that apply to text: the latest link when inside `<a>`, then
      em (0), then strong (1). */
  function ActiveMarkups(tagStack: seq<string>, markupCount: nat): seq<nat>
    requires markupCount > 0
  {
    (if "a" in tagStack then [markupCount - 1] else [])
      + (if "em" in tagStack then [0] else [])
      + (if "strong" in tagStack then [1] else [])
  }

  /** The guard of the pop loop at the end of `handle_endtag`: popping stops at
      `tag` or once no `br`/`img` is left, and `tag_stack[-1]` must exist at
      every test. */
  predicate CanClose(s: seq<string>, tag: string)
    decreases |s|
  {
    |s| > 0 && (s[|s| - 1] == tag || !("br" in s || "img" in s) || CanClose(s[..|s| - 1], tag))
  }

  /** The stack after that loop and the final pop. */
  function PopTagStack(s: seq<string>, tag: string): (r: seq<string>)
    requires CanClose(s, tag)
    ensures |r| < |s| && r == s[..|r|]
    decreases |s|
  {
    if s[|s| - 1] == tag || !("br" in s || "img" in s) then s[..|s| - 1]
    else PopTagStack(s[..|s| - 1], tag)
  }

  // ---------------------------------------------------------------------------
  // Validity lemmas for the small changes

  lemma MarkerListsGrow(lists: seq<seq<Marker>>, m: nat, a: nat, m': nat, a': nat)
    requires MarkerListsValid(lists, m, a) && m <= m' && a <= a'
    ensures MarkerListsValid(lists, m', a')
  {
    forall i, j | 0 <= i < |lists| && 0 <= j < |lists[i]| ensures MarkerInRange(lists[i][j], m', a') {
      assert MarkerInRange(lists[i][j], m, a);
    }
  }

  lemma CardRefsAppend(sections: seq<SectionRef>, r: SectionRef)
    ensures CardRefs(sections + [r]) == CardRefs(sections) + (if r.CardRef? then [r.cardIndex] else [])
  {
    assert (sections + [r])[..|sections|] == sections;
  }

  /** Appending a section that holds markers or a list keeps the invariant. */
  lemma AddSectionValid(st: ParserState, r: SectionRef)
    requires ValidCore(st) && !r.CardRef?
    requires RefInRange(r, |st.markerLists|, |st.itemLists|, |st.cards|)
    ensures ValidCore(st.(sections := st.sections + [r]))
  {
    CardRefsAppend(st.sections, r);
  }

  lemma AddCardValid(st: ParserState, c: Card)
    requires ValidState(st)
    ensures ValidState(AddCard(st, c))
  {
    CardRefsAppend(st.sections, CardRef(|st.cards|));
    assert Range(|st.cards|) + [|st.cards|] == Range(|st.cards| + 1);
  }

  lemma NewListsValid(st: ParserState)
    requires ValidState(st)
    ensures ValidState(NewMarkerList(st)) && ValidState(NewItemList(st))
    ensures ValidState(NewItemList(NewMarkerList(st)))
  {
  }

  lemma AppendMarkerValid(st: ParserState, m: Marker)
    requires ValidState(st) && MarkerInRange(m, |st.markups|, |st.atoms|)
    ensures ValidState(AppendMarker(st, m))
  {
  }

  lemma AddSoftReturnCore(st: ParserState)
    requires ValidCore(st)
    ensures ValidCore(AddSoftReturn(st))
  {
    var st1 := st.(atoms := st.atoms + [SoftReturn]);
    MarkerListsGrow(st.markerLists, |st.markups|, |st.atoms|, |st.markups|, |st1.atoms|);
  }

  lemma AddSoftReturnValid(st: ParserState)
    requires ValidState(st)
    ensures ValidState(AddSoftReturn(st))
  {
    var st1 := st.(atoms := st.atoms + [SoftReturn]);
    MarkerListsGrow(st.markerLists, |st.markups|, |st.atoms|, |st.markups|, |st1.atoms|);
    AppendMarkerValid(st1, AtomMarker(|st.atoms|));
  }

  lemma AppendCodeValid(st: ParserState, text: string)
    requires ValidState(st)
    ensures AppendCode(st, text).Success? ==> ValidState(AppendCode(st, text).value)
  {
  }

  lemma ActiveMarkupsInRange(st: ParserState)
    requires ValidState(st)
    ensures MarkerInRange(TextMarker(ActiveMarkups(st.tagStack, |st.markups|), ""), |st.markups|, |st.atoms|)
  {
  }

  lemma PoppedValid(st: ParserState, s: seq<string>)
    requires ValidState(st) && |s| <= |st.tagStack| && s == st.tagStack[..|s|]
    ensures ValidState(st.(tagStack := s))
  {
    if "a" in s {
      var i :| 0 <= i < |s| && s[i] == "a";
      assert st.tagStack[i] == "a";
    }
  }

  // ---------------------------------------------------------------------------
  // The three handlers

  /** `handle_starttag(tag, attrs)`. Tag `a` is not a block tag, so testing it
      before the block tags changes nothing. */
  function StartTagStep(st: ParserState, tag: string, attrs: Attrs): (r: Result<ParserState, ParseError>)
    requires ValidState(st)
    ensures r.Success? ==> ValidState(r.value)
  {
    if st.seenFooter then Success(st)
    else
      var pushed := st.(seenFooter := tag == "footer", tagStack := st.tagStack + [tag]);
      var d := AttrsToDict(attrs);
      if tag == "a" then
        if !HasKey(d, "href") then Failure(MissingAttribute("a", "href"))
        else
          var st1 := pushed.(markups := pushed.markups + [Link(Lookup(d, "href"))]);
          MarkerListsGrow(st.markerLists, |st.markups|, |st.atoms|, |st1.markups|, |st.atoms|);
          Success(st1)
      else
        assert "a" in pushed.tagStack ==> "a" in st.tagStack;
        OpenElement(pushed, tag, d)
  }

  /** For a tag other than `a`, `handle_starttag` pushes the tag and goes on
      from the pushed state. */
  lemma StartElementStep(st: ParserState, tag: string, attrs: Attrs)
    requires ValidState(st) && !st.seenFooter && tag != "a"
    ensures var pushed := st.(seenFooter := tag == "footer", tagStack := st.tagStack + [tag]);
      && ValidState(pushed) && |pushed.tagStack| > 0
      && StartTagStep(st, tag, attrs) == OpenElement(pushed, tag, AttrsToDict(attrs))
  {
    var pushed := st.(seenFooter := tag == "footer", tagStack := st.tagStack + [tag]);
    assert "a" in pushed.tagStack ==> "a" in st.tagStack;
  }

  /** The part of `handle_starttag` after the tag is pushed, for tags other than `a`. */
  function OpenElement(st: ParserState, tag: string, d: Dict): (r: Result<ParserState, ParseError>)
    requires ValidState(st) && |st.tagStack| > 0
    ensures r.Success? ==> ValidState(r.value)
  {
    if tag in BlockTags then Success(OpenBlock(st, tag, d))
    else if tag == "br" then OpenBreak(st)
    else OpenCard(st, tag, d)
  }

  /** A block tag starts fresh marker and list-item lists; a `div` whose class
      contains `graf` also marks a link summary. */
  function OpenBlock(st: ParserState, tag: string, d: Dict): (r: ParserState)
    requires ValidState(st)
    ensures ValidState(r)
  {
    NewListsValid(st);
    var reset := NewItemList(NewMarkerList(st));
    if tag == "div" && HasKey(d, "class") && Contains(Lookup(d, "class"), "graf") then
      reset.(insideLinkSummaryDiv := true)
    else reset
  }

  /** A `<br>` is popped again at once; inside `pre` it is a newline of the
      code, elsewhere a soft return. */
  function OpenBreak(st: ParserState): (r: Result<ParserState, ParseError>)
    requires ValidState(st) && |st.tagStack| > 0
    ensures r.Success? ==> ValidState(r.value)
  {
    var popped := st.(tagStack := st.tagStack[..|st.tagStack| - 1]);
    PoppedValid(st, popped.tagStack);
    if "pre" in popped.tagStack then
      AppendCodeValid(popped, "\n");
      AppendCode(popped, "\n")
    else
      AddSoftReturnValid(popped);
      Success(AddSoftReturn(popped))
  }

  /** The start tags that create or extend a card. */
  function OpenCard(st: ParserState, tag: string, d: Dict): (r: Result<ParserState, ParseError>)
    requires ValidState(st)
    ensures r.Success? ==> ValidState(r.value)
  {
    if tag == "pre" then OpenPre(st)
    else if tag == "hr" then Success(OpenHr(st))
    else
      match CardFor(tag, d)
      case Failure(e) => Failure(e)
      case Success(None) => Success(st)
      case Success(Some(card)) =>
        AddCardValid(st, card);
        Success(AddCard(st, card))
  }

  /** The card an `img`, `iframe` or gist `script` tag makes, from its
      attributes alone. */
  function CardFor(tag: string, d: Dict): (r: Result<Option<Card>, ParseError>)
    ensures r.Failure? <==> (tag == "img" || tag == "script") && !HasKey(d, "src")
    ensures r.Failure? ==> r.error == MissingAttribute(tag, "src")
    ensures r.Success? && r.value.Some? ==> tag == "img" || tag == "iframe" || tag == "script"
  {
    if tag == "img" then
      if !HasKey(d, "src") then Failure(MissingAttribute("img", "src"))
      else
        var src := Lookup(d, "src");
        var featured := HasKey(d, "data-is-featured") && Lookup(d, "data-is-featured") == "true";
        Success(Some(ImageCard(src, Contains(src, "/max/1000/"), featured, None)))
    else if tag == "iframe" then
      Success(Some(HtmlCard("<iframe " + AttrString(d) + "></iframe>", None)))
    else if tag == "script" && !HasKey(d, "src") then Failure(MissingAttribute("script", "src"))
    else if tag == "script" && Contains(Lookup(d, "src"), "gist.github.com") then
      Success(Some(HtmlCard("<script " + AttrString(d) + "></script>", None)))
    else Success(None)
  }

  /** A `pre` right after a `pre` section continues its code card after a
      blank line; otherwise it starts an empty code card. */
  function OpenPre(st: ParserState): (r: Result<ParserState, ParseError>)
    requires ValidState(st)
    ensures r.Success? ==> ValidState(r.value)
  {
    if st.lastSectionTag != Some("pre") then
      AddCardValid(st, CodeCard("", None));
      Success(AddCard(st, CodeCard("", None)))
    else
      AppendCodeValid(st, "\n\n");
      AppendCode(st, "\n\n")
  }

  /** The first `hr` only sets the flag; every later one is a card. */
  function OpenHr(st: ParserState): (r: ParserState)
    requires ValidState(st)
    ensures ValidState(r) && r.seenFirstHr
  {
    AddCardValid(st, HrCard(None));
    var st1 := if st.seenFirstHr then AddCard(st, HrCard(None)) else st;
    st1.(seenFirstHr := true)
  }

  /** A blockquote end after a blockquote end whose section is now followed by a card. */
  predicate MergeFails(st: ParserState)
  {
    st.lastSectionTag == Some("blockquote") && |st.sections| > 0 && st.sections[|st.sections| - 1].CardRef?
  }

  /** The blockquote merge: a soft return is appended to the current markers,
      then the last section's markers are extended by the current markers. When
      the two are the same list, the list is extended by itself. */
  function MergeBlockquote(st: ParserState): (r: Result<ParserState, ParseError>)
    requires ValidCore(st) && |st.sections| > 0 && !st.sections[|st.sections| - 1].ListRef?
    ensures r.Success? ==> ValidCore(r.value) && r.value.sections == st.sections
    ensures r.Success? ==> r.value.lastSectionTag == st.lastSectionTag
    ensures r.Failure? <==> st.sections[|st.sections| - 1].CardRef?
    ensures r.Failure? ==> r.error == LastSectionHasNoMarkers
  {
    var last := st.sections[|st.sections| - 1];
    if last.CardRef? then Failure(LastSectionHasNoMarkers)
    else
      var st1 := AddSoftReturn(st);
      AddSoftReturnCore(st);
      var extended := st1.markerLists[last.markers] + st1.markerLists[st1.currentMarkers];
      Success(st1.(markerLists := st1.markerLists[last.markers := extended]))
  }

  /** The section-building part of `handle_endtag`, before the last section tag
      is recorded and the stack is popped: a `p` always becomes a paragraph,
      then at most one of the parent-element cases applies. */
  function CloseSection(st: ParserState, tag: string): (r: Result<ParserState, ParseError>)
    requires ValidState(st)
    ensures r.Failure? <==> tag == "blockquote" && MergeFails(st)
    ensures r.Failure? ==> r.error == LastSectionHasNoMarkers
    ensures r.Success? ==> ValidCore(r.value) && r.value.lastSectionTag == st.lastSectionTag
    ensures r.Success? ==> r.value.tagStack == st.tagStack
    ensures r.Success? && tag !in SectionTags ==> r.value.sections == st.sections
    ensures r.Success? && tag == "blockquote" ==>
      |r.value.sections| > 0 && !r.value.sections[|r.value.sections| - 1].ListRef?
  {
    var m := st.currentMarkers;
    AddSectionValid(st, MarkupRef("p", m));
    var st1 := if tag == "p" then st.(sections := st.sections + [MarkupRef("p", m)]) else st;
    if tag == "blockquote" || tag == "h3" || tag == "h4" then CloseQuoteOrHeading(st1, tag)
    else CloseParent(st1, tag)
  }

  /** The `div`, `li`, `ul` and `ol` cases. */
  function CloseParent(st: ParserState, tag: string): (r: Result<ParserState, ParseError>)
    requires ValidCore(st)
    ensures r.Success?
    ensures r.Success? ==> ValidCore(r.value) && r.value.lastSectionTag == st.lastSectionTag
    ensures r.Success? ==> r.value.tagStack == st.tagStack
    ensures r.Success? && tag != "div" && tag != "ul" && tag != "ol" ==> r.value.sections == st.sections
  {
    var m := st.currentMarkers;
    if tag == "div" && st.insideLinkSummaryDiv then
      AddSectionValid(st, MarkupRef("p", m));
      Success(st.(insideLinkSummaryDiv := false, sections := st.sections + [MarkupRef("p", m)]))
    else if tag == "li" then
      var items := st.itemLists[st.currentListItemMarkers] + [m];
      Success(NewMarkerList(st.(itemLists := st.itemLists[st.currentListItemMarkers := items])))
    else if tag == "ul" || tag == "ol" then
      AddSectionValid(st, ListRef(tag, st.currentListItemMarkers));
      Success(st.(sections := st.sections + [ListRef(tag, st.currentListItemMarkers)]))
    else Success(st)
  }

  /** The `blockquote`, `h3` and `h4` cases. */
  function CloseQuoteOrHeading(st: ParserState, tag: string): (r: Result<ParserState, ParseError>)
    requires ValidCore(st) && BlockquoteTail(st)
    ensures r.Failure? <==> tag == "blockquote" && MergeFails(st)
    ensures r.Failure? ==> r.error == LastSectionHasNoMarkers
    ensures r.Success? ==> ValidCore(r.value) && r.value.lastSectionTag == st.lastSectionTag
    ensures r.Success? ==> r.value.tagStack == st.tagStack
    ensures r.Success? && tag == "blockquote" ==>
      |r.value.sections| > 0 && !r.value.sections[|r.value.sections| - 1].ListRef?
  {
    if tag == "blockquote" then CloseBlockquote(st)
    else Success(CloseHeading(st, tag))
  }

  /** A blockquote right after a blockquote is merged into it; otherwise it
      becomes a section of its own. */
  function CloseBlockquote(st: ParserState): (r: Result<ParserState, ParseError>)
    requires ValidCore(st) && BlockquoteTail(st)
    ensures r.Failure? <==> MergeFails(st)
    ensures r.Failure? ==> r.error == LastSectionHasNoMarkers
    ensures r.Success? ==> ValidCore(r.value) && r.value.lastSectionTag == st.lastSectionTag
    ensures r.Success? ==> r.value.tagStack == st.tagStack
    ensures r.Success? ==> |r.value.sections| > 0 && !r.value.sections[|r.value.sections| - 1].ListRef?
  {
    if st.lastSectionTag != Some("blockquote") then
      AddSectionValid(st, MarkupRef("blockquote", st.currentMarkers));
      Success(st.(sections := st.sections + [MarkupRef("blockquote", st.currentMarkers)]))
    else MergeBlockquote(st)
  }

  /** The first `h3` (the post's title) is dropped and later ones become `h2`;
      `h4` becomes `h3`. */
  function CloseHeading(st: ParserState, tag: string): (r: ParserState)
    requires ValidCore(st)
    ensures ValidCore(r) && r.lastSectionTag == st.lastSectionTag && r.tagStack == st.tagStack
  {
    var m := st.currentMarkers;
    if tag == "h3" then
      AddSectionValid(st, MarkupRef("h2", m));
      var st1 := if st.seenFirstH3 then st.(sections := st.sections + [MarkupRef("h2", m)]) else st;
      st1.(seenFirstH3 := true)
    else if tag == "h4" then
      AddSectionValid(st, MarkupRef("h3", m));
      st.(sections := st.sections + [MarkupRef("h3", m)])
    else st
  }

  /** `handle_endtag(tag)`. */
  function EndTagStep(st: ParserState, tag: string): (r: Result<ParserState, ParseError>)
    requires ValidState(st)
    ensures r.Success? ==> ValidState(r.value)
  {
    if st.seenFooter then Success(st)
    else
      match CloseSection(st, tag)
      case Failure(e) => Failure(e)
      case Success(st1) =>
        var st2 := if tag in SectionTags then st1.(lastSectionTag := Some(tag)) else st1;
        if !CanClose(st2.tagStack, tag) then Failure(EmptyTagStack)
        else
          PoppedValid(st2, PopTagStack(st2.tagStack, tag));
          Success(st2.(tagStack := PopTagStack(st2.tagStack, tag)))
  }

  /** The three ways `handle_endtag` ends once the footer has not been seen. */
  lemma EndTagCases(st: ParserState, tag: string)
    requires ValidState(st) && !st.seenFooter
    ensures tag == "blockquote" && MergeFails(st) ==> EndTagStep(st, tag) == Failure(LastSectionHasNoMarkers)
    ensures !(tag == "blockquote" && MergeFails(st)) ==> CloseSection(st, tag).Success?
    ensures !(tag == "blockquote" && MergeFails(st)) && !CanClose(st.tagStack, tag) ==>
      EndTagStep(st, tag) == Failure(EmptyTagStack)
    ensures !(tag == "blockquote" && MergeFails(st)) && CanClose(st.tagStack, tag) ==>
      var closed := CloseSection(st, tag).value;
      var marked := if tag in SectionTags then closed.(lastSectionTag := Some(tag)) else closed;
      EndTagStep(st, tag) == Success(marked.(tagStack := PopTagStack(st.tagStack, tag)))
  {
  }

  /** `handle_data(data)`. */
  function DataStep(st: ParserState, data: string): (r: Result<ParserState, ParseError>)
    requires ValidState(st)
    ensures r.Success? ==> ValidState(r.value)
  {
    if st.seenFooter then Success(st)
    else if "figcaption" in st.tagStack then
      if |st.cards| == 0 then Failure(NoCard)
      else
        var n := |st.cards| - 1;
        Success(st.(cards := st.cards[n := st.cards[n].(caption := Some(data))]))
    else if "pre" in st.tagStack then
      AppendCodeValid(st, data);
      AppendCode(st, data)
    else
      ActiveMarkupsInRange(st);
      AppendMarkerValid(st, TextMarker(ActiveMarkups(st.tagStack, |st.markups|), data));
      Success(AppendMarker(st, TextMarker(ActiveMarkups(st.tagStack, |st.markups|), data)))
  }

  // ---------------------------------------------------------------------------
  // Feeding a page and reading the document

  /** What the tokenizer hands the parser. */
  datatype Event = StartTag(tag: string, attrs: Attrs) | EndTag(tag: string) | Text(data: string)

  function Step(st: ParserState, e: Event): (r: Result<ParserState, ParseError>)
    requires ValidState(st)
    ensures r.Success? ==> ValidState(r.value)
  {
    match e
    case StartTag(tag, attrs) => StartTagStep(st, tag, attrs)
    case EndTag(tag) => EndTagStep(st, tag)
    case Text(data) => DataStep(st, data)
  }

  /** The events handled in order; the first exception ends the parse. */
  function Run(st: ParserState, events: seq<Event>): (r: Result<ParserState, ParseError>)
    requires ValidState(st)
    ensures r.Success? ==> ValidState(r.value)
    decreases |events|
  {
    if events == [] then Success(st)
    else
      match Step(st, events[0])
      case Failure(e) => Failure(e)
      case Success(st1) => Run(st1, events[1..])
  }

  function ResolveSection(st: ParserState, r: SectionRef): (s: Section)
    requires RefInRange(r, |st.markerLists|, |st.itemLists|, |st.cards|)
    requires ItemListsValid(st.itemLists, |st.markerLists|)
  {
    match r
    case MarkupRef(tag, m) => MarkupSection(tag, st.markerLists[m])
    case ListRef(tag, l) =>
      ListSection(tag, seq(|st.itemLists[l]|, k requires 0 <= k < |st.itemLists[l]| => st.markerLists[st.itemLists[l][k]]))
    case CardRef(c) => CardSection(c)
  }

  /** `convert()`: the document, with every shared list read at its current contents. */
  function ConvertState(st: ParserState): (doc: Document)
    requires ValidState(st)
    ensures doc.version == Version
    ensures doc.atoms == st.atoms && doc.cards == st.cards && doc.markups == st.markups
    ensures |doc.sections| == |st.sections|
    ensures IndicesInRange(doc)
  {
    var sections := seq(|st.sections|, i requires 0 <= i < |st.sections| => ResolveSection(st, st.sections[i]));
    Document(Version, st.atoms, st.cards, st.markups, sections)
  }

  /** A whole page: the events fed to a fresh parser, then `convert()`. */
  function ParseEvents(events: seq<Event>): Result<Document, ParseError>
  {
    match Run(Init(), events)
    case Success(st) => Success(ConvertState(st))
    case Failure(e) => Failure(e)
  }

  /** How a handler call ended, stated against its step function: on success the
      parser holds the step's new state; on an exception it is left as it was. */
  predicate Outcome(step: Result<ParserState, ParseError>, before: ParserState,
                    error: Option<ParseError>, after: ParserState)
  {
    match step
    case Success(st) => error == None && after == st
    case Failure(e) => error == Some(e) && after == before
  }

  // ---------------------------------------------------------------------------
  // The parser object

  class MediumHTMLParser {
    var sections: seq<SectionRef>
    var markups: seq<Markup>
    var atoms: seq<Atom>
    var cards: seq<Card>
    var markerLists: seq<seq<Marker>>
    var itemLists: seq<seq<nat>>
    var currentMarkers: nat
    var currentListItemMarkers: nat
    var tagStack: seq<string>
    var lastSectionTag: Option<string>
    var seenFirstH3: bool
    var seenFirstHr: bool
    var seenFooter: bool
    var insideLinkSummaryDiv: bool

    function State(): ParserState
      reads this
    {
      ParserState(sections, markups, atoms, cards, markerLists, itemLists, currentMarkers,
        currentListItemMarkers, tagStack, lastSectionTag, seenFirstH3, seenFirstHr, seenFooter,
        insideLinkSummaryDiv)
    }

    predicate Valid()
      reads this
    {
      ValidState(State())
    }

    constructor ()
      ensures Valid() && State() == Init()
    {
      sections := [];
      markups := [Em, Strong];
      atoms := [];
      cards := [];
      markerLists := [[]];
      itemLists := [[]];
      currentMarkers := 0;
      currentListItemMarkers := 0;
      tagStack := [];
      seenFirstH3 := false;
      seenFirstHr := false;
      seenFooter := false;
      insideLinkSummaryDiv := false;
      lastSectionTag := None;
    }

    /** Appends `card` and the card section that points at it. */
    method AddCardSection(card: Card)
      modifies this
      ensures State() == AddCard(old(State()), card)
    {
      cards := cards + [card];
      sections := sections + [CardRef(|cards| - 1)];
    }

    /** `cards[-1][1]["code"] += text`, for a last card known to be a code card. */
    method AppendToCode(text: string)
      requires |cards| > 0 && cards[|cards| - 1].CodeCard?
      modifies this
      ensures AppendCode(old(State()), text) == Success(State())
    {
      var n := |cards| - 1;
      cards := cards[n := cards[n].(code := cards[n].code + text)];
    }

    /** Whether appending to the code of the last card would raise, and how. */
    function CodeError(): (e: Option<ParseError>)
      reads this
      ensures e.None? <==> AppendCode(State(), "").Success?
    {
      if |cards| == 0 then Some(NoCard)
      else if !cards[|cards| - 1].CodeCard? then Some(NoCodeInLastCard)
      else None
    }

    /** `handle_starttag`. The attribute and last-card lookups that would
        raise are checked before any field changes. */
    method HandleStartTag(tag: string, attrs: Attrs) returns (error: Option<ParseError>)
      requires Valid()
      modifies this
      ensures Valid()
      ensures Outcome(StartTagStep(old(State()), tag, attrs), old(State()), error, State())
    {
      if seenFooter {
        return None;
      }
      var attrDict := AttrsToDict(attrs);
      if tag == "a" {
        error := StartLink(attrs, attrDict);
      } else {
        error := StartElement(tag, attrs, attrDict);
      }
    }

    /** `<a>`: pushed, and a link markup for its `href` is added. */
    method StartLink(attrs: Attrs, attrDict: Dict) returns (error: Option<ParseError>)
      requires Valid() && !seenFooter && attrDict == AttrsToDict(attrs)
      modifies this
      ensures Valid()
      ensures Outcome(StartTagStep(old(State()), "a", attrs), old(State()), error, State())
    {
      ghost var before := State();
      if !HasKey(attrDict, "href") {
        return Some(MissingAttribute("a", "href"));
      }
      tagStack := tagStack + ["a"];
      markups := markups + [Link(Lookup(attrDict, "href"))];
      assert StartTagStep(before, "a", attrs) == Success(State());
      return None;
    }

    /** Any other start tag: pushed, then handled by its kind. */
    method StartElement(tag: string, attrs: Attrs, attrDict: Dict) returns (error: Option<ParseError>)
      requires Valid() && !seenFooter && tag != "a" && attrDict == AttrsToDict(attrs)
      modifies this
      ensures Valid()
      ensures Outcome(StartTagStep(old(State()), tag, attrs), old(State()), error, State())
    {
      ghost var pushed := State().(seenFooter := tag == "footer", tagStack := tagStack + [tag]);
      StartElementStep(State(), tag, attrs);
      error := OpenElementError(tag, attrDict);
      if error.Some? {
        return;
      }
      if tag == "footer" {
        seenFooter := true;
      }
      tagStack := tagStack + [tag];
      assert State() == pushed;
      OpenElementFields(tag, attrDict);
      return None;
    }

    /** The exception the rest of `handle_starttag` would raise once `tag` is pushed. */
    function OpenElementError(tag: string, d: Dict): (e: Option<ParseError>)
      reads this
      requires Valid()
      ensures var pushed := State().(seenFooter := tag == "footer", tagStack := tagStack + [tag]);
        ValidState(pushed) ==>
          (e.None? <==> OpenElement(pushed, tag, d).Success?)
          && (e.Some? ==> OpenElement(pushed, tag, d) == Failure(e.value))
    {
      if tag in BlockTags then None
      else if tag == "br" then (if "pre" in tagStack then CodeError() else None)
      else if tag == "img" && !HasKey(d, "src") then Some(MissingAttribute("img", "src"))
      else if tag == "pre" && lastSectionTag == Some("pre") then CodeError()
      else if tag == "script" && !HasKey(d, "src") then Some(MissingAttribute("script", "src"))
      else None
    }

    /** The rest of `handle_starttag` for a tag other than `a`, once it is pushed. */
    method OpenElementFields(tag: string, d: Dict)
      requires Valid() && |tagStack| > 0 && OpenElement(State(), tag, d).Success?
      modifies this
      ensures State() == OpenElement(old(State()), tag, d).value
    {
      if tag in BlockTags {
        BlockFields(tag, d);
      } else if tag == "br" {
        BreakFields();
      } else {
        assert OpenElement(State(), tag, d) == OpenCard(State(), tag, d);
        OpenCardFields(tag, d);
      }
    }

    /** A parent element starts: fresh marker and list-item lists. */
    method BlockFields(tag: string, d: Dict)
      modifies this
      ensures var reset := NewItemList(NewMarkerList(old(State())));
        State() == if tag == "div" && HasKey(d, "class") && Contains(Lookup(d, "class"), "graf")
          then reset.(insideLinkSummaryDiv := true) else reset
    {
      StartMarkerList();
      StartItemList();
      if tag == "div" && HasKey(d, "class") && Contains(Lookup(d, "class"), "graf") {
        insideLinkSummaryDiv := true;
      }
    }

    /** `self.current_markers = []`. */
    method StartMarkerList()
      modifies this
      ensures State() == NewMarkerList(old(State()))
    {
      markerLists := markerLists + [[]];
      currentMarkers := |markerLists| - 1;
    }

    /** `self.current_list_item_markers = []`. */
    method StartItemList()
      modifies this
      ensures State() == NewItemList(old(State()))
    {
      itemLists := itemLists + [[]];
      currentListItemMarkers := |itemLists| - 1;
    }

    /** `<br>`: popped at once, then a line break in code or a soft return in text. */
    method BreakFields()
      requires Valid() && |tagStack| > 0
      requires "pre" in tagStack[..|tagStack| - 1] ==> CodeError().None?
      modifies this
      ensures var popped := old(State()).(tagStack := old(tagStack)[..|old(tagStack)| - 1]);
        State() == if "pre" in popped.tagStack then AppendCode(popped, "\n").value else AddSoftReturn(popped)
    {
      tagStack := tagStack[..|tagStack| - 1];
      if "pre" in tagStack {
        AppendToCode("\n");
      } else {
        atoms := atoms + [SoftReturn];
        markerLists := markerLists[currentMarkers := markerLists[currentMarkers] + [AtomMarker(|atoms| - 1)]];
      }
    }

    /** The card-creating start tags. */
    method OpenCardFields(tag: string, d: Dict)
      requires Valid() && OpenCard(State(), tag, d).Success?
      modifies this
      ensures State() == OpenCard(old(State()), tag, d).value
    {
      if tag == "img" {
        var src := Lookup(d, "src");
        var featured := HasKey(d, "data-is-featured") && Lookup(d, "data-is-featured") == "true";
        AddCardSection(ImageCard(src, Contains(src, "/max/1000/"), featured, None));
      } else if tag == "pre" {
        if lastSectionTag != Some("pre") {
          AddCardSection(CodeCard("", None));
        } else {
          AppendToCode("\n\n");
        }
      } else if tag == "iframe" {
        var attrString := BuildAttrString(d);
        AddCardSection(HtmlCard("<iframe " + attrString + "></iframe>", None));
      } else if tag == "script" && Contains(Lookup(d, "src"), "gist.github.com") {
        var attrString := BuildAttrString(d);
        AddCardSection(HtmlCard("<script " + attrString + "></script>", None));
      } else if tag == "hr" {
        if seenFirstHr {
          AddCardSection(HrCard(None));
        }
        seenFirstHr := true;
      }
    }

    /** `handle_endtag`. The pop loop runs on a copy of the stack first, so that
        an exception leaves the parser unchanged; nothing before it touches the
        stack, so the outcome is the same. */
    method HandleEndTag(tag: string) returns (error: Option<ParseError>)
      requires Valid()
      modifies this
      ensures Valid()
      ensures Outcome(EndTagStep(old(State()), tag), old(State()), error, State())
    {
      if seenFooter {
        return None;
      }
      EndTagCases(State(), tag);
      if tag == "blockquote" && lastSectionTag == Some("blockquote") && sections[|sections| - 1].CardRef? {
        assert MergeFails(State());
        return Some(LastSectionHasNoMarkers);
      }
      var stack := tagStack;
      while |stack| > 0 && stack[|stack| - 1] != tag && ("br" in stack || "img" in stack)
        invariant CanClose(tagStack, tag) <==> CanClose(stack, tag)
        invariant CanClose(stack, tag) ==> PopTagStack(tagStack, tag) == PopTagStack(stack, tag)
        decreases |stack|
      {
        stack := stack[..|stack| - 1];
      }
      if |stack| == 0 {
        return Some(EmptyTagStack);
      }
      assert CanClose(stack, tag) && PopTagStack(stack, tag) == stack[..|stack| - 1];
      CloseAndPop(tag, stack[..|stack| - 1]);
      return None;
    }

    /** The end of `handle_endtag` once it is known not to raise: build the
        section, record the last section tag, and pop down to `popped`. */
    method CloseAndPop(tag: string, popped: seq<string>)
      requires Valid() && CloseSection(State(), tag).Success?
      requires CanClose(tagStack, tag) && popped == PopTagStack(tagStack, tag)
      modifies this
      ensures var closed := CloseSection(old(State()), tag).value;
        var marked := if tag in SectionTags then closed.(lastSectionTag := Some(tag)) else closed;
        State() == marked.(tagStack := popped)
    {
      CloseSectionFields(tag);
      if tag in SectionTags {
        lastSectionTag := Some(tag);
      }
      tagStack := popped;
    }

    /** The section-building part of `handle_endtag`. */
    method CloseSectionFields(tag: string)
      requires Valid() && CloseSection(State(), tag).Success?
      modifies this
      ensures State() == CloseSection(old(State()), tag).value
    {
      if tag == "p" {
        AddSectionValid(State(), MarkupRef("p", currentMarkers));
        sections := sections + [MarkupRef("p", currentMarkers)];
      }
      if tag == "blockquote" || tag == "h3" || tag == "h4" {
        CloseQuoteOrHeadingFields(tag);
      } else {
        CloseParentFields(tag);
      }
    }

    /** The `div`, `li`, `ul` and `ol` cases. */
    method CloseParentFields(tag: string)
      requires ValidCore(State())
      modifies this
      ensures State() == CloseParent(old(State()), tag).value
    {
      var markers := currentMarkers;
      if tag == "div" && insideLinkSummaryDiv {
        insideLinkSummaryDiv := false;
        sections := sections + [MarkupRef("p", markers)];
      } else if tag == "li" {
        itemLists := itemLists[currentListItemMarkers := itemLists[currentListItemMarkers] + [markers]];
        StartMarkerList();
      } else if tag == "ul" || tag == "ol" {
        sections := sections + [ListRef(tag, currentListItemMarkers)];
      }
    }

    /** The `blockquote`, `h3` and `h4` cases. */
    method CloseQuoteOrHeadingFields(tag: string)
      requires ValidCore(State()) && BlockquoteTail(State())
      requires CloseQuoteOrHeading(State(), tag).Success?
      modifies this
      ensures State() == CloseQuoteOrHeading(old(State()), tag).value
    {
      if tag == "blockquote" {
        CloseBlockquoteFields();
      } else {
        CloseHeadingFields(tag);
      }
    }

    method CloseBlockquoteFields()
      requires ValidCore(State()) && BlockquoteTail(State()) && CloseBlockquote(State()).Success?
      modifies this
      ensures State() == CloseBlockquote(old(State())).value
    {
      if lastSectionTag != Some("blockquote") {
        sections := sections + [MarkupRef("blockquote", currentMarkers)];
      } else {
        assert !MergeFails(State());
        MergeFields();
      }
    }

    /** The merge of a blockquote into the previous one. */
    method MergeFields()
      requires ValidCore(State()) && |sections| > 0 && sections[|sections| - 1].MarkupRef?
      modifies this
      ensures State() == MergeBlockquote(old(State())).value
    {
      var markers := currentMarkers;
      atoms := atoms + [SoftReturn];
      markerLists := markerLists[markers := markerLists[markers] + [AtomMarker(|atoms| - 1)]];
      var target := sections[|sections| - 1].markers;
      markerLists := markerLists[target := markerLists[target] + markerLists[markers]];
    }

    method CloseHeadingFields(tag: string)
      requires ValidCore(State())
      modifies this
      ensures State() == CloseHeading(old(State()), tag)
    {
      if tag == "h3" {
        if seenFirstH3 {
          sections := sections + [MarkupRef("h2", currentMarkers)];
        }
        seenFirstH3 := true;
      } else if tag == "h4" {
        sections := sections + [MarkupRef("h3", currentMarkers)];
      }
    }

    /** `handle_data`. */
    method HandleData(data: string) returns (error: Option<ParseError>)
      requires Valid()
      modifies this
      ensures Valid()
      ensures Outcome(DataStep(old(State()), data), old(State()), error, State())
    {
      if seenFooter {
        return None;
      }
      if "figcaption" in tagStack {
        error := CaptionData(data);
      } else if "pre" in tagStack {
        error := CodeData(data);
      } else {
        MarkerData(data);
        error := None;
      }
    }

    /** Text inside a `figcaption`: the caption of the last card. */
    method CaptionData(data: string) returns (error: Option<ParseError>)
      requires Valid() && !seenFooter && "figcaption" in tagStack
      modifies this
      ensures Valid()
      ensures Outcome(DataStep(old(State()), data), old(State()), error, State())
    {
      if |cards| == 0 {
        return Some(NoCard);
      }
      cards := cards[|cards| - 1 := cards[|cards| - 1].(caption := Some(data))];
      return None;
    }

    /** Text inside a `pre`: more code for the last card. */
    method CodeData(data: string) returns (error: Option<ParseError>)
      requires Valid() && !seenFooter && "figcaption" !in tagStack && "pre" in tagStack
      modifies this
      ensures Valid()
      ensures Outcome(DataStep(old(State()), data), old(State()), error, State())
    {
      error := CodeError();
      if error.None? {
        AppendToCode(data);
      }
    }

    /** Other text: a text marker carrying the markups of the open `a`, `em`
        and `strong` elements. */
    method MarkerData(data: string)
      requires Valid() && !seenFooter && "figcaption" !in tagStack && "pre" !in tagStack
      modifies this
      ensures Valid()
      ensures DataStep(old(State()), data) == Success(State())
    {
      var markupsForData: seq<nat> := [];
      if "a" in tagStack {
        markupsForData := markupsForData + [|markups| - 1];
      }
      if "em" in tagStack {
        markupsForData := markupsForData + [0];
      }
      if "strong" in tagStack {
        markupsForData := markupsForData + [1];
      }
      assert markupsForData == ActiveMarkups(tagStack, |markups|);
      markerLists := markerLists[currentMarkers := markerLists[currentMarkers] + [TextMarker(markupsForData, data)]];
    }

    /** `convert()`. */
    method Convert() returns (doc: Document)
      requires Valid()
      ensures doc == ConvertState(State())
    {
      doc := ConvertState(State());
    }

    /** One tokenizer callback. */
    method HandleEvent(e: Event) returns (error: Option<ParseError>)
      requires Valid()
      modifies this
      ensures Valid()
      ensures Outcome(Step(old(State()), e), old(State()), error, State())
    {
      match e {
        case StartTag(tag, attrs) => error := HandleStartTag(tag, attrs);
        case EndTag(tag) => error := HandleEndTag(tag);
        case Text(data) => error := HandleData(data);
      }
    }

    /** The tokenizer's callbacks for a page, in order; the first exception stops feeding. */
    method Feed(events: seq<Event>) returns (error: Option<ParseError>)
      requires Valid()
      modifies this
      ensures Valid()
      ensures match Run(old(State()), events)
        case Success(st) => error == None && State() == st
        case Failure(e) => error == Some(e)
    {
      var i := 0;
      while i < |events|
        invariant 0 <= i <= |events| && Valid()
        invariant Run(State(), events[i..]) == Run(old(State()), events)
        decreases |events| - i
      {
        assert events[i..][1..] == events[i + 1..];
        error := HandleEvent(events[i]);
        if error.Some? {
          return;
        }
        i := i + 1;
      }
      return None;
    }
  }
}
