/** What holds of every document the parser builds, whatever the page. */
module ParsedDocuments {
  import opened Common
  import opened Strings
  import opened Attributes
  import opened Mobiledoc
  import opened MediumPostParser
  import opened ParserProperties
  import opened ParserRuns

  // ---------------------------------------------------------------------------
  // Nothing is ever removed

  /** How a card can still change once created: a caption may be set and code
      may be appended; its kind and other contents stay. */
  predicate CardGrows(c: Card, d: Card)
  {
    match c
    case ImageCard(src, wide, featured, _) => d.ImageCard? && d.src == src && d.wide == wide && d.featured == featured
    case CodeCard(code, _) => d.CodeCard? && code <= d.code
    case HtmlCard(html, _) => d.HtmlCard? && d.html == html
    case HrCard(_) => d.HrCard?
  }

  /** Cards are only appended, and only the last one changes, as `CardGrows`
      allows. */
  predicate CardsGrow(a: seq<Card>, b: seq<Card>)
  {
    && |a| <= |b|
    && (forall i :: 0 <= i < |a| ==> CardGrows(a[i], b[i]))
    && (forall i :: 0 <= i < |a| - 1 ==> b[i] == a[i])
  }

  /** Every list of a shared arena only grows at its end, and lists are only
      added. */
  predicate ListsGrow<T(==)>(a: seq<seq<T>>, b: seq<seq<T>>)
  {
    |a| <= |b| && forall i :: 0 <= i < |a| ==> a[i] <= b[i]
  }

  /** `b` is a later state than `a`: sections, markups and atoms are only
      appended; cards, marker lists and item lists only grow; the flags that
      record a first `h3`, a first `hr` and the footer are never cleared. */
  predicate Extends(a: ParserState, b: ParserState)
  {
    && a.sections <= b.sections && a.markups <= b.markups && a.atoms <= b.atoms
    && CardsGrow(a.cards, b.cards)
    && ListsGrow(a.markerLists, b.markerLists)
    && ListsGrow(a.itemLists, b.itemLists)
    && (a.seenFirstH3 ==> b.seenFirstH3) && (a.seenFirstHr ==> b.seenFirstHr)
    && (a.seenFooter ==> b.seenFooter)
  }

  lemma CardGrowsRefl(c: Card)
    ensures CardGrows(c, c)
  {
  }

  lemma CardGrowsTrans(c: Card, d: Card, e: Card)
    requires CardGrows(c, d) && CardGrows(d, e)
    ensures CardGrows(c, e)
  {
  }

  lemma ListsGrowRefl<T>(a: seq<seq<T>>)
    ensures ListsGrow(a, a)
  {
  }

  lemma ExtendsRefl(a: ParserState)
    ensures Extends(a, a)
  {
    forall i | 0 <= i < |a.cards| ensures CardGrows(a.cards[i], a.cards[i]) {
      CardGrowsRefl(a.cards[i]);
    }
    ListsGrowRefl(a.markerLists);
    ListsGrowRefl(a.itemLists);
  }

  lemma ListsGrowTrans<T>(a: seq<seq<T>>, b: seq<seq<T>>, c: seq<seq<T>>)
    requires ListsGrow(a, b) && ListsGrow(b, c)
    ensures ListsGrow(a, c)
  {
    forall i | 0 <= i < |a| ensures a[i] <= c[i] {
      assert a[i] <= b[i] <= c[i];
    }
  }

  lemma ExtendsTrans(a: ParserState, b: ParserState, c: ParserState)
    requires Extends(a, b) && Extends(b, c)
    ensures Extends(a, c)
  {
    forall i | 0 <= i < |a.cards| ensures CardGrows(a.cards[i], c.cards[i]) {
      CardGrowsTrans(a.cards[i], b.cards[i], c.cards[i]);
    }
    ListsGrowTrans(a.markerLists, b.markerLists, c.markerLists);
    ListsGrowTrans(a.itemLists, b.itemLists, c.itemLists);
  }

  /** Changing only what `Extends` does not speak of. */
  lemma ExtendsOther(a: ParserState, b: ParserState)
    requires b.sections == a.sections && b.markups == a.markups && b.atoms == a.atoms && b.cards == a.cards
    requires b.markerLists == a.markerLists && b.itemLists == a.itemLists
    requires b.seenFirstH3 == a.seenFirstH3 && b.seenFirstHr == a.seenFirstHr && b.seenFooter == a.seenFooter
    ensures Extends(a, b)
  {
    ExtendsRefl(a);
  }

  lemma ListsAppend<T>(lists: seq<seq<T>>, k: nat, more: seq<T>)
    requires k < |lists|
    ensures ListsGrow(lists, lists[k := lists[k] + more])
  {
  }

  lemma ListsAdd<T>(lists: seq<seq<T>>)
    ensures ListsGrow(lists, lists + [[]])
  {
  }

  lemma AppendMarkerExtends(st: ParserState, m: Marker)
    requires st.currentMarkers < |st.markerLists|
    ensures Extends(st, AppendMarker(st, m))
  {
    ExtendsRefl(st);
    ListsAppend(st.markerLists, st.currentMarkers, [m]);
  }

  lemma NewListsExtend(st: ParserState)
    ensures Extends(st, NewMarkerList(st)) && Extends(st, NewItemList(st))
    ensures Extends(st, NewItemList(NewMarkerList(st)))
  {
    ExtendsRefl(st);
    ListsAdd(st.markerLists);
    ListsAdd(st.itemLists);
  }

  lemma AddCardExtends(st: ParserState, c: Card)
    ensures Extends(st, AddCard(st, c))
  {
    ExtendsRefl(st);
  }

  lemma SoftReturnExtends(st: ParserState)
    requires st.currentMarkers < |st.markerLists|
    ensures Extends(st, AddSoftReturn(st))
  {
    var st1 := st.(atoms := st.atoms + [SoftReturn]);
    ExtendsRefl(st);
    AppendMarkerExtends(st1, AtomMarker(|st.atoms|));
    ExtendsTrans(st, st1, AddSoftReturn(st));
  }

  lemma AppendCodeExtends(st: ParserState, text: string)
    requires AppendCode(st, text).Success?
    ensures Extends(st, AppendCode(st, text).value)
  {
    ExtendsRefl(st);
  }

  lemma CaptionExtends(st: ParserState, caption: string)
    requires |st.cards| > 0
    ensures Extends(st, WithCaption(st, caption))
  {
    ExtendsRefl(st);
  }

  lemma OpenCardExtends(st: ParserState, tag: string, d: Dict)
    requires ValidState(st) && OpenCard(st, tag, d).Success?
    ensures Extends(st, OpenCard(st, tag, d).value)
  {
    if tag == "pre" {
      if st.lastSectionTag == Some("pre") {
        AppendCodeExtends(st, "\n\n");
      } else {
        AddCardExtends(st, CodeCard("", None));
      }
    } else if tag == "hr" {
      OpenHrExtends(st);
    } else if CardFor(tag, d).value.Some? {
      AddCardExtends(st, CardFor(tag, d).value.value);
    } else {
      ExtendsRefl(st);
    }
  }

  lemma OpenHrExtends(st: ParserState)
    requires ValidState(st)
    ensures Extends(st, OpenHr(st))
  {
    var st1 := if st.seenFirstHr then AddCard(st, HrCard(None)) else st;
    AddCardExtends(st, HrCard(None));
    ExtendsRefl(st);
    ExtendsRefl(st1);
    assert Extends(st1, OpenHr(st));
    ExtendsTrans(st, st1, OpenHr(st));
  }

  lemma OpenElementExtends(st: ParserState, tag: string, d: Dict)
    requires ValidState(st) && |st.tagStack| > 0 && OpenElement(st, tag, d).Success?
    ensures Extends(st, OpenElement(st, tag, d).value)
  {
    if tag in BlockTags {
      OpenBlockExtends(st, tag, d);
    } else if tag == "br" {
      OpenBreakExtends(st);
    } else {
      OpenCardExtends(st, tag, d);
    }
  }

  lemma OpenBlockExtends(st: ParserState, tag: string, d: Dict)
    requires ValidState(st)
    ensures Extends(st, OpenBlock(st, tag, d))
  {
    NewListsExtend(st);
    var reset := NewItemList(NewMarkerList(st));
    ExtendsOther(reset, reset.(insideLinkSummaryDiv := true));
    ExtendsTrans(st, reset, reset.(insideLinkSummaryDiv := true));
  }

  lemma OpenBreakExtends(st: ParserState)
    requires ValidState(st) && |st.tagStack| > 0 && OpenBreak(st).Success?
    ensures Extends(st, OpenBreak(st).value)
  {
    var popped := st.(tagStack := st.tagStack[..|st.tagStack| - 1]);
    ExtendsOther(st, popped);
    if "pre" in popped.tagStack {
      AppendCodeExtends(popped, "\n");
      ExtendsTrans(st, popped, AppendCode(popped, "\n").value);
    } else {
      SoftReturnExtends(popped);
      ExtendsTrans(st, popped, AddSoftReturn(popped));
    }
  }

  lemma StartTagExtends(st: ParserState, tag: string, attrs: Attrs)
    requires ValidState(st) && StartTagStep(st, tag, attrs).Success?
    ensures Extends(st, StartTagStep(st, tag, attrs).value)
  {
    if st.seenFooter {
      ExtendsRefl(st);
    } else {
      var pushed := Pushed(st, tag);
      ExtendsOther(st, pushed.(seenFooter := st.seenFooter));
      if tag == "a" {
        ExtendsRefl(st);
      } else {
        OpenElementExtends(pushed, tag, AttrsToDict(attrs));
        ExtendsRefl(st);
        ExtendsTrans(st, pushed, OpenElement(pushed, tag, AttrsToDict(attrs)).value);
      }
    }
  }

  lemma MergeExtends(st: ParserState)
    requires ValidCore(st) && |st.sections| > 0 && !st.sections[|st.sections| - 1].ListRef?
    requires MergeBlockquote(st).Success?
    ensures Extends(st, MergeBlockquote(st).value)
  {
    var k := st.sections[|st.sections| - 1].markers;
    var st1 := AddSoftReturn(st);
    SoftReturnExtends(st);
    ListsAppend(st1.markerLists, k, st1.markerLists[st1.currentMarkers]);
    ExtendsRefl(st1);
    ExtendsTrans(st, st1, MergeBlockquote(st).value);
  }

  lemma CloseParentExtends(st: ParserState, tag: string)
    requires ValidCore(st)
    ensures Extends(st, CloseParent(st, tag).value)
  {
    ExtendsRefl(st);
    if tag == "li" {
      var l := st.currentListItemMarkers;
      var st1 := st.(itemLists := st.itemLists[l := st.itemLists[l] + [st.currentMarkers]]);
      ListsAppend(st.itemLists, l, [st.currentMarkers]);
      NewListsExtend(st1);
      ExtendsTrans(st, st1, NewMarkerList(st1));
    }
  }

  lemma CloseQuoteOrHeadingExtends(st: ParserState, tag: string)
    requires ValidCore(st) && BlockquoteTail(st) && CloseQuoteOrHeading(st, tag).Success?
    ensures Extends(st, CloseQuoteOrHeading(st, tag).value)
  {
    if tag == "blockquote" {
      CloseBlockquoteExtends(st);
    } else {
      CloseHeadingExtends(st, tag);
    }
  }

  lemma CloseBlockquoteExtends(st: ParserState)
    requires ValidCore(st) && BlockquoteTail(st) && CloseBlockquote(st).Success?
    ensures Extends(st, CloseBlockquote(st).value)
  {
    ExtendsRefl(st);
    if st.lastSectionTag == Some("blockquote") {
      MergeExtends(st);
    }
  }

  lemma CloseHeadingExtends(st: ParserState, tag: string)
    requires ValidCore(st)
    ensures Extends(st, CloseHeading(st, tag))
  {
    var m := st.currentMarkers;
    if tag == "h3" {
      var st1 := if st.seenFirstH3 then st.(sections := st.sections + [MarkupRef("h2", m)]) else st;
      SectionAddedExtends(st, MarkupRef("h2", m));
      ExtendsRefl(st);
      ExtendsRefl(st1);
      assert Extends(st1, CloseHeading(st, tag));
      ExtendsTrans(st, st1, CloseHeading(st, tag));
    } else if tag == "h4" {
      SectionAddedExtends(st, MarkupRef("h3", m));
    } else {
      ExtendsRefl(st);
    }
  }

  lemma SectionAddedExtends(st: ParserState, s: SectionRef)
    ensures Extends(st, st.(sections := st.sections + [s]))
  {
    ExtendsRefl(st);
  }

  lemma CloseSectionExtends(st: ParserState, tag: string)
    requires ValidState(st) && CloseSection(st, tag).Success?
    ensures Extends(st, CloseSection(st, tag).value)
  {
    var st1 := if tag == "p" then st.(sections := st.sections + [MarkupRef("p", st.currentMarkers)]) else st;
    ExtendsRefl(st);
    AddSectionValid(st, MarkupRef("p", st.currentMarkers));
    assert Extends(st, st1);
    if tag == "blockquote" || tag == "h3" || tag == "h4" {
      assert tag != "p";
      CloseQuoteOrHeadingExtends(st, tag);
    } else {
      CloseParentExtends(st1, tag);
      ExtendsTrans(st, st1, CloseSection(st, tag).value);
    }
  }

  lemma EndTagExtends(st: ParserState, tag: string)
    requires ValidState(st) && EndTagStep(st, tag).Success?
    ensures Extends(st, EndTagStep(st, tag).value)
  {
    if st.seenFooter {
      ExtendsRefl(st);
    } else {
      CloseSectionExtends(st, tag);
      var st1 := CloseSection(st, tag).value;
      ExtendsOther(st1, EndTagStep(st, tag).value);
      ExtendsTrans(st, st1, EndTagStep(st, tag).value);
    }
  }

  lemma DataExtends(st: ParserState, data: string)
    requires ValidState(st) && DataStep(st, data).Success?
    ensures Extends(st, DataStep(st, data).value)
  {
    if st.seenFooter {
      ExtendsRefl(st);
    } else if "figcaption" in st.tagStack {
      CaptionExtends(st, data);
    } else if "pre" in st.tagStack {
      AppendCodeExtends(st, data);
    } else {
      AppendMarkerExtends(st, TextMarker(ActiveMarkups(st.tagStack, |st.markups|), data));
    }
  }

  lemma StepExtends(st: ParserState, e: Event)
    requires ValidState(st) && Step(st, e).Success?
    ensures Extends(st, Step(st, e).value)
  {
    match e
    case StartTag(tag, attrs) => StartTagExtends(st, tag, attrs);
    case EndTag(tag) => EndTagExtends(st, tag);
    case Text(data) => DataExtends(st, data);
  }

  /** However a page goes on, what the parser has built so far is kept. */
  lemma {:induction false} RunExtends(st: ParserState, events: seq<Event>)
    requires ValidState(st) && Run(st, events).Success?
    ensures Extends(st, Run(st, events).value)
    decreases |events|
  {
    if events == [] {
      ExtendsRefl(st);
    } else {
      var st1 := Step(st, events[0]).value;
      StepExtends(st, events[0]);
      RunExtends(st1, events[1..]);
      ExtendsTrans(st, st1, Run(st, events).value);
    }
  }

  /** A section of the document only gains markers, or list items, as the
      page goes on: the shared lists are only ever appended to. */
  lemma SectionsOnlyGrow(a: ParserState, b: ParserState, i: nat)
    requires ValidState(a) && ValidState(b) && Extends(a, b) && i < |a.sections|
    ensures b.sections[i] == a.sections[i]
    ensures var s, t := ConvertState(a).sections[i], ConvertState(b).sections[i];
      && (s.MarkupSection? ==> t.MarkupSection? && t.tagName == s.tagName && s.markers <= t.markers)
      && (s.ListSection? ==> t.ListSection? && t.tagName == s.tagName && |s.items| <= |t.items|)
      && (s.CardSection? ==> t == s)
  {
    assert a.sections[i] == b.sections[i];
    assert RefInRange(a.sections[i], |a.markerLists|, |a.itemLists|, |a.cards|);
  }

  // ---------------------------------------------------------------------------
  // Markups come only from links

  /** `b` has the markups and the footer flag of `a`. */
  predicate SameMarkups(a: ParserState, b: ParserState)
  {
    b.markups == a.markups && b.seenFooter == a.seenFooter
  }

  lemma OpenCardSameMarkups(st: ParserState, tag: string, d: Dict)
    requires ValidState(st) && OpenCard(st, tag, d).Success?
    ensures SameMarkups(st, OpenCard(st, tag, d).value)
  {
    if tag == "pre" {
      assert SameMarkups(st, OpenPre(st).value);
    } else if tag == "hr" {
      assert SameMarkups(st, OpenHr(st));
    }
  }

  lemma OpenBlockSameMarkups(st: ParserState, tag: string, d: Dict)
    requires ValidState(st)
    ensures SameMarkups(st, OpenBlock(st, tag, d))
  {
  }

  lemma OpenBreakSameMarkups(st: ParserState)
    requires ValidState(st) && |st.tagStack| > 0 && OpenBreak(st).Success?
    ensures SameMarkups(st, OpenBreak(st).value)
  {
  }

  lemma OpenElementSameMarkups(st: ParserState, tag: string, d: Dict)
    requires ValidState(st) && |st.tagStack| > 0 && OpenElement(st, tag, d).Success?
    ensures SameMarkups(st, OpenElement(st, tag, d).value)
  {
    if tag in BlockTags {
      OpenBlockSameMarkups(st, tag, d);
    } else if tag == "br" {
      OpenBreakSameMarkups(st);
    } else {
      OpenCardSameMarkups(st, tag, d);
    }
  }

  lemma StartTagSameMarkups(st: ParserState, tag: string, attrs: Attrs)
    requires ValidState(st) && StartTagStep(st, tag, attrs).Success? && tag != "a"
    ensures var r := StartTagStep(st, tag, attrs).value;
      r.markups == st.markups && r.seenFooter == (st.seenFooter || tag == "footer")
  {
    if !st.seenFooter {
      StartElementStep(st, tag, attrs);
      OpenElementSameMarkups(Pushed(st, tag), tag, AttrsToDict(attrs));
    }
  }

  lemma CloseQuoteOrHeadingSameMarkups(st: ParserState, tag: string)
    requires ValidCore(st) && BlockquoteTail(st) && CloseQuoteOrHeading(st, tag).Success?
    ensures SameMarkups(st, CloseQuoteOrHeading(st, tag).value)
  {
    if tag == "blockquote" {
      if st.lastSectionTag == Some("blockquote") {
        assert SameMarkups(st, MergeBlockquote(st).value);
      }
    } else {
      assert SameMarkups(st, CloseHeading(st, tag));
    }
  }

  lemma CloseSectionSameMarkups(st: ParserState, tag: string)
    requires ValidState(st) && CloseSection(st, tag).Success?
    ensures SameMarkups(st, CloseSection(st, tag).value)
  {
    if tag == "blockquote" || tag == "h3" || tag == "h4" {
      CloseQuoteOrHeadingSameMarkups(st, tag);
    } else {
      var st1 := if tag == "p" then st.(sections := st.sections + [MarkupRef("p", st.currentMarkers)]) else st;
      AddSectionValid(st, MarkupRef("p", st.currentMarkers));
      CloseParentSameMarkups(st1, tag);
    }
  }

  lemma CloseParentSameMarkups(st: ParserState, tag: string)
    requires ValidCore(st)
    ensures SameMarkups(st, CloseParent(st, tag).value)
  {
  }

  lemma EndTagSameMarkups(st: ParserState, tag: string)
    requires ValidState(st) && EndTagStep(st, tag).Success?
    ensures SameMarkups(st, EndTagStep(st, tag).value)
  {
    if !st.seenFooter {
      CloseSectionSameMarkups(st, tag);
    }
  }

  lemma DataSameMarkups(st: ParserState, data: string)
    requires ValidState(st) && DataStep(st, data).Success?
    ensures SameMarkups(st, DataStep(st, data).value)
  {
  }

  /** Only an `<a>` start tag before the footer adds a markup; every other
      event leaves the markups as they were. */
  lemma MarkupsOnlyOnLink(st: ParserState, e: Event)
    requires ValidState(st) && Step(st, e).Success? && !(e.StartTag? && e.tag == "a")
    ensures Step(st, e).value.markups == st.markups
  {
    match e
    case StartTag(tag, attrs) => StartTagSameMarkups(st, tag, attrs);
    case EndTag(tag) => EndTagSameMarkups(st, tag);
    case Text(data) => DataSameMarkups(st, data);
  }

  /** One event: an `<a>` start tag before the footer appends exactly one
      markup, and the footer flag is set exactly by a `footer` start tag. */
  lemma StepMarkups(st: ParserState, e: Event)
    requires ValidState(st) && Step(st, e).Success?
    ensures var r := Step(st, e).value;
      && r.seenFooter == (st.seenFooter || (e.StartTag? && e.tag == "footer"))
      && st.markups <= r.markups
      && |r.markups| == |st.markups| + (if !st.seenFooter && e.StartTag? && e.tag == "a" then 1 else 0)
  {
    match e
    case StartTag(tag, attrs) =>
      if tag == "a" {
        if st.seenFooter {
        } else {
          LinkFromAttributes(st, attrs);
          var r := StartTagStep(st, tag, attrs).value;
          assert r.seenFooter == (tag == "footer");
        }
      } else {
        StartTagSameMarkups(st, tag, attrs);
      }
    case EndTag(tag) => EndTagSameMarkups(st, tag);
    case Text(data) => DataSameMarkups(st, data);
  }

  /** The `<a>` start tags before the first `footer` start tag. */
  function LinkStarts(events: seq<Event>): (n: nat)
    ensures n <= |events|
  {
    if events == [] then 0
    else if events[0].StartTag? && events[0].tag == "footer" then 0
    else (if events[0].StartTag? && events[0].tag == "a" then 1 else 0) + LinkStarts(events[1..])
  }

  /** Over a run, the markups grow by one link per `<a>` start tag before the
      footer, and only at their end. */
  lemma {:induction false} RunMarkups(st: ParserState, events: seq<Event>)
    requires ValidState(st) && Run(st, events).Success?
    ensures var r := Run(st, events).value;
      && st.markups <= r.markups
      && |r.markups| == |st.markups| + (if st.seenFooter then 0 else LinkStarts(events))
    decreases |events|
  {
    if events != [] {
      var st1 := Step(st, events[0]).value;
      StepMarkups(st, events[0]);
      RunMarkups(st1, events[1..]);
    }
  }

  /** A parsed page has em, strong and one link per `<a>` start tag before
      the footer. */
  lemma LinkMarkupCount(events: seq<Event>)
    requires ParseEvents(events).Success?
    ensures |ParseEvents(events).value.markups| == 2 + LinkStarts(events)
  {
    RunMarkups(Init(), events);
  }

  // ---------------------------------------------------------------------------
  // Cards and card sections

  /** The card indices of a document's card sections, in order. */
  function CardSectionIndices(sections: seq<Section>): seq<nat>
  {
    if sections == [] then []
    else
      var last := sections[|sections| - 1];
      CardSectionIndices(sections[..|sections| - 1]) + (if last.CardSection? then [last.cardIndex] else [])
  }

  lemma {:induction false} CardIndicesPrefix(st: ParserState, n: nat)
    requires ValidState(st) && n <= |st.sections|
    ensures CardSectionIndices(ConvertState(st).sections[..n]) == CardRefs(st.sections[..n])
  {
    if n > 0 {
      var doc := ConvertState(st);
      CardIndicesPrefix(st, n - 1);
      assert doc.sections[..n][..n - 1] == doc.sections[..n - 1];
      assert st.sections[..n][..n - 1] == st.sections[..n - 1];
      assert RefInRange(st.sections[n - 1], |st.markerLists|, |st.itemLists|, |st.cards|);
      assert doc.sections[n - 1] == ResolveSection(st, st.sections[n - 1]);
    }
  }

  /** Every card of the document is the target of exactly one card section,
      and the card sections come in card order. */
  lemma CardsInSectionOrder(st: ParserState)
    requires ValidState(st)
    ensures CardSectionIndices(ConvertState(st).sections) == Range(|st.cards|)
  {
    var doc := ConvertState(st);
    CardIndicesPrefix(st, |st.sections|);
    assert doc.sections[..|st.sections|] == doc.sections;
    assert st.sections[..|st.sections|] == st.sections;
  }

  // ---------------------------------------------------------------------------
  // Whole pages

  /** Every document the parser produces has Mobiledoc version 0.3.1, em and
      strong as markups 0 and 1 and only links after them, indices all in
      range, one card section per card in card order, and its JSON form
      decodes back to it. */
  lemma ParsedDocument(events: seq<Event>)
    requires ParseEvents(events).Success?
    ensures var doc := ParseEvents(events).value;
      && doc.version == "0.3.1"
      && |doc.markups| >= 2 && doc.markups[0] == Em && doc.markups[1] == Strong
      && (forall i :: 2 <= i < |doc.markups| ==> doc.markups[i].Link?)
      && IndicesInRange(doc)
      && CardSectionIndices(doc.sections) == Range(|doc.cards|)
      && DecodeDocument(EncodeDocument(doc)) == Some(doc)
  {
    var st := Run(Init(), events).value;
    CardsInSectionOrder(st);
    DecodeEncodeDocument(ConvertState(st));
  }

  lemma FooterSetsFlag(st: ParserState, attrs: Attrs)
    requires ValidState(st)
    ensures StartTagStep(st, "footer", attrs).Success?
    ensures StartTagStep(st, "footer", attrs).value.seenFooter
  {
  }

  /** Nothing after the start of the footer changes the document. */
  lemma FooterEndsPage(before: seq<Event>, attrs: Attrs, after: seq<Event>)
    ensures ParseEvents(before + [StartTag("footer", attrs)] + after) == ParseEvents(before + [StartTag("footer", attrs)])
  {
    var upto := before + [StartTag("footer", attrs)];
    RunConcat(Init(), upto, after);
    RunConcat(Init(), before, [StartTag("footer", attrs)]);
    match Run(Init(), before)
    case Failure(_) =>
    case Success(st) =>
      FooterSetsFlag(st, attrs);
      var st1 := StartTagStep(st, "footer", attrs).value;
      RunStep(st, StartTag("footer", attrs), st1, []);
      assert [StartTag("footer", attrs)] == [StartTag("footer", attrs)] + [];
      FooterFreezes(st1, after);
  }

  /** A page that is one paragraph of plain text. */
  lemma OneParagraphPage(text: string)
    ensures ParseEvents(ParagraphRun(text)) ==
      Success(Document("0.3.1", [], [], [Em, Strong], [MarkupSection("p", [TextMarker([], text)])]))
  {
    Paragraph(Init(), text);
    var st := ParagraphState(Init(), text);
    assert TextAt(Init(), text) == TextMarker([], text);
    assert ConvertState(st).sections == [MarkupSection("p", [TextMarker([], text)])];
  }
}
