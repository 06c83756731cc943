/** The Mobiledoc document the parser produces: four append-only containers
    (sections, markups, atoms, cards) tied together by indices, plus a format
    version. The typed values below are encoded into exactly the nested lists
    and dictionaries the parser builds (`[1, tag, markers]`, `[10, index]`,
    `[0, indices, count, text]`, ...), and decoding that encoding gives the
    values back. */
module Mobiledoc {
  import opened Common

  const Version: string := "0.3.1"

  /** `["em"]`, `["strong"]` and `["a", ["href", h]]`. */
  datatype Markup = Em | Strong | Link(href: string)

  /** `["soft-return", "", {}]`, the only atom the parser creates. */
  datatype Atom = SoftReturn

  /** `[0, indices, count, text]` or `[1, [], 0, atomIndex]`. */
  datatype Marker =
    | TextMarker(markupIndices: seq<nat>, text: string)
    | AtomMarker(atomIndex: nat)

  /** A card is a kind and a payload dictionary; any card may receive a caption
      after it is created, and the caption is always the last key. */
  datatype Card =
    | ImageCard(src: string, wide: bool, featured: bool, caption: Option<string>)
    | CodeCard(code: string, caption: Option<string>)
    | HtmlCard(html: string, caption: Option<string>)
    | HrCard(caption: Option<string>)

  /** `[1, tag, markers]`, `[3, tag, items]` and `[10, cardIndex]`. */
  datatype Section =
    | MarkupSection(tagName: string, markers: seq<Marker>)
    | ListSection(tagName: string, items: seq<seq<Marker>>)
    | CardSection(cardIndex: nat)

  datatype Document = Document(
    version: string,
    atoms: seq<Atom>,
    cards: seq<Card>,
    markups: seq<Markup>,
    sections: seq<Section>)

  predicate MarkerInRange(m: Marker, markupCount: nat, atomCount: nat)
  {
    match m
    case TextMarker(indices, _) => forall i :: 0 <= i < |indices| ==> indices[i] < markupCount
    case AtomMarker(a) => a < atomCount
  }

  predicate MarkersInRange(ms: seq<Marker>, markupCount: nat, atomCount: nat)
  {
    forall i :: 0 <= i < |ms| ==> MarkerInRange(ms[i], markupCount, atomCount)
  }

  predicate SectionInRange(s: Section, markupCount: nat, atomCount: nat, cardCount: nat)
  {
    match s
    case MarkupSection(_, ms) => MarkersInRange(ms, markupCount, atomCount)
    case ListSection(_, items) => forall i :: 0 <= i < |items| ==> MarkersInRange(items[i], markupCount, atomCount)
    case CardSection(c) => c < cardCount
  }

  /** Every index a section or marker stores names an existing card, markup or atom. */
  predicate IndicesInRange(doc: Document)
  {
    forall i :: 0 <= i < |doc.sections| ==>
      SectionInRange(doc.sections[i], |doc.markups|, |doc.atoms|, |doc.cards|)
  }

  // ---------------------------------------------------------------------------
  // The literal encoding

  datatype Json =
    | JBool(b: bool)
    | JInt(n: int)
    | JStr(s: string)
    | JArr(elems: seq<Json>)
    | JObj(members: seq<(string, Json)>)

  function EncodeAll<T>(xs: seq<T>, enc: T -> Json): (js: seq<Json>)
    ensures |js| == |xs|
    ensures forall i :: 0 <= i < |xs| ==> js[i] == enc(xs[i])
  {
    if xs == [] then [] else [enc(xs[0])] + EncodeAll(xs[1..], enc)
  }

  function DecodeAll<T>(js: seq<Json>, dec: Json -> Option<T>): Option<seq<T>>
  {
    if js == [] then Some([])
    else match (dec(js[0]), DecodeAll(js[1..], dec))
      case (Some(x), Some(xs)) => Some([x] + xs)
      case _ => None
  }

  /** Decoding an encoded sequence gives it back when it does so element by element. */
  lemma {:induction false} DecodeAllEncodeAll<T>(xs: seq<T>, enc: T -> Json, dec: Json -> Option<T>)
    requires forall i :: 0 <= i < |xs| ==> dec(enc(xs[i])) == Some(xs[i])
    ensures DecodeAll(EncodeAll(xs, enc), dec) == Some(xs)
  {
    if xs != [] {
      DecodeAllEncodeAll(xs[1..], enc, dec);
      assert EncodeAll(xs, enc)[1..] == EncodeAll(xs[1..], enc);
      assert xs == [xs[0]] + xs[1..];
    }
  }

  function EncodeNat(n: nat): Json { JInt(n) }

  function DecodeNat(j: Json): Option<nat>
  {
    if j.JInt? && j.n >= 0 then Some(j.n as nat) else None
  }

  function EncodeMarkup(m: Markup): Json
  {
    match m
    case Em => JArr([JStr("em")])
    case Strong => JArr([JStr("strong")])
    case Link(h) => JArr([JStr("a"), JArr([JStr("href"), JStr(h)])])
  }

  function DecodeMarkup(j: Json): Option<Markup>
  {
    if j == JArr([JStr("em")]) then Some(Em)
    else if j == JArr([JStr("strong")]) then Some(Strong)
    else if j.JArr? && |j.elems| == 2 && j.elems[0] == JStr("a") && j.elems[1].JArr?
      && |j.elems[1].elems| == 2 && j.elems[1].elems[0] == JStr("href") && j.elems[1].elems[1].JStr?
    then Some(Link(j.elems[1].elems[1].s))
    else None
  }

  function EncodeAtom(a: Atom): Json
  {
    JArr([JStr("soft-return"), JStr(""), JObj([])])
  }

  function DecodeAtom(j: Json): Option<Atom>
  {
    if j == JArr([JStr("soft-return"), JStr(""), JObj([])]) then Some(SoftReturn) else None
  }

  function EncodeMarker(m: Marker): Json
  {
    match m
    case TextMarker(indices, text) =>
      JArr([JInt(0), JArr(EncodeAll(indices, EncodeNat)), JInt(|indices|), JStr(text)])
    case AtomMarker(a) => JArr([JInt(1), JArr([]), JInt(0), JInt(a)])
  }

  function DecodeMarker(j: Json): Option<Marker>
  {
    if !(j.JArr? && |j.elems| == 4) then None
    else
      var e := j.elems;
      if e[0] == JInt(0) && e[1].JArr? && e[3].JStr? then
        match DecodeAll(e[1].elems, DecodeNat)
        case Some(indices) => if e[2] == JInt(|indices|) then Some(TextMarker(indices, e[3].s)) else None
        case None => None
      else if e[0] == JInt(1) && e[1] == JArr([]) && e[2] == JInt(0) && DecodeNat(e[3]).Some? then
        Some(AtomMarker(DecodeNat(e[3]).value))
      else None
  }

  function EncodeMarkers(ms: seq<Marker>): Json { JArr(EncodeAll(ms, EncodeMarker)) }

  function DecodeMarkers(j: Json): Option<seq<Marker>>
  {
    if j.JArr? then DecodeAll(j.elems, DecodeMarker) else None
  }

  function CaptionMembers(caption: Option<string>): seq<(string, Json)>
  {
    match caption
    case None => []
    case Some(c) => [("caption", JStr(c))]
  }

  function DecodeCaption(members: seq<(string, Json)>): Option<Option<string>>
  {
    if members == [] then Some(None)
    else if |members| == 1 && members[0].0 == "caption" && members[0].1.JStr? then Some(Some(members[0].1.s))
    else None
  }

  /** `['image', {"src": .., "cardWidth": "wide", "featured_image": True, "caption": ..}]`
      and the other three kinds, with the optional keys in insertion order. */
  function EncodeCard(c: Card): Json
  {
    match c
    case ImageCard(src, wide, featured, caption) =>
      JArr([JStr("image"), JObj([("src", JStr(src))]
        + (if wide then [("cardWidth", JStr("wide"))] else [])
        + (if featured then [("featured_image", JBool(true))] else [])
        + CaptionMembers(caption))])
    case CodeCard(code, caption) => JArr([JStr("code"), JObj([("code", JStr(code))] + CaptionMembers(caption))])
    case HtmlCard(html, caption) => JArr([JStr("html"), JObj([("html", JStr(html))] + CaptionMembers(caption))])
    case HrCard(caption) => JArr([JStr("hr"), JObj(CaptionMembers(caption))])
  }

  function DecodeImage(members: seq<(string, Json)>): Option<Card>
  {
    if |members| == 0 || members[0].0 != "src" || !members[0].1.JStr? then None
    else
      var rest := members[1..];
      var wide := |rest| > 0 && rest[0] == ("cardWidth", JStr("wide"));
      var rest' := if wide then rest[1..] else rest;
      var featured := |rest'| > 0 && rest'[0] == ("featured_image", JBool(true));
      var rest'' := if featured then rest'[1..] else rest';
      match DecodeCaption(rest'')
      case Some(caption) => Some(ImageCard(members[0].1.s, wide, featured, caption))
      case None => None
  }

  /** A payload `{key: text}` followed by an optional caption. */
  function DecodeTextPayload(key: string, members: seq<(string, Json)>): Option<(string, Option<string>)>
  {
    if |members| == 0 || members[0].0 != key || !members[0].1.JStr? then None
    else match DecodeCaption(members[1..])
      case Some(caption) => Some((members[0].1.s, caption))
      case None => None
  }

  function DecodeCard(j: Json): Option<Card>
  {
    if !(j.JArr? && |j.elems| == 2 && j.elems[1].JObj?) then None
    else
      var kind, members := j.elems[0], j.elems[1].members;
      if kind == JStr("image") then DecodeImage(members)
      else if kind == JStr("code") then
        match DecodeTextPayload("code", members)
        case Some((code, caption)) => Some(CodeCard(code, caption))
        case None => None
      else if kind == JStr("html") then
        match DecodeTextPayload("html", members)
        case Some((html, caption)) => Some(HtmlCard(html, caption))
        case None => None
      else if kind == JStr("hr") then
        match DecodeCaption(members)
        case Some(caption) => Some(HrCard(caption))
        case None => None
      else None
  }

  function EncodeSection(s: Section): Json
  {
    match s
    case MarkupSection(tag, ms) => JArr([JInt(1), JStr(tag), EncodeMarkers(ms)])
    case ListSection(tag, items) => JArr([JInt(3), JStr(tag), JArr(EncodeAll(items, EncodeMarkers))])
    case CardSection(c) => JArr([JInt(10), JInt(c)])
  }

  function DecodeSection(j: Json): Option<Section>
  {
    if !j.JArr? then None
    else
      var e := j.elems;
      if |e| == 3 && e[0] == JInt(1) && e[1].JStr? then
        match DecodeMarkers(e[2])
        case Some(ms) => Some(MarkupSection(e[1].s, ms))
        case None => None
      else if |e| == 3 && e[0] == JInt(3) && e[1].JStr? && e[2].JArr? then
        match DecodeAll(e[2].elems, DecodeMarkers)
        case Some(items) => Some(ListSection(e[1].s, items))
        case None => None
      else if |e| == 2 && e[0] == JInt(10) && DecodeNat(e[1]).Some? then
        Some(CardSection(DecodeNat(e[1]).value))
      else None
  }

  /** The dictionary `convert()` returns, keys in its order. */
  function EncodeDocument(doc: Document): Json
  {
    JObj([
      ("version", JStr(doc.version)),
      ("atoms", JArr(EncodeAll(doc.atoms, EncodeAtom))),
      ("cards", JArr(EncodeAll(doc.cards, EncodeCard))),
      ("markups", JArr(EncodeAll(doc.markups, EncodeMarkup))),
      ("sections", JArr(EncodeAll(doc.sections, EncodeSection)))])
  }

  function DecodeDocument(j: Json): Option<Document>
  {
    if !(j.JObj? && |j.members| == 5) then None
    else
      var m := j.members;
      if m[0].0 == "version" && m[0].1.JStr? && m[1].0 == "atoms" && m[1].1.JArr?
        && m[2].0 == "cards" && m[2].1.JArr? && m[3].0 == "markups" && m[3].1.JArr?
        && m[4].0 == "sections" && m[4].1.JArr?
      then DecodeContainers(m[0].1.s, m[1].1.elems, m[2].1.elems, m[3].1.elems, m[4].1.elems)
      else None
  }

  function DecodeContainers(version: string, atoms: seq<Json>, cards: seq<Json>,
                            markups: seq<Json>, sections: seq<Json>): Option<Document>
  {
    var a, c, m, s := DecodeAll(atoms, DecodeAtom), DecodeAll(cards, DecodeCard),
      DecodeAll(markups, DecodeMarkup), DecodeAll(sections, DecodeSection);
    if a.Some? && c.Some? && m.Some? && s.Some? then Some(Document(version, a.value, c.value, m.value, s.value))
    else None
  }

  // ---------------------------------------------------------------------------
  // The encoding loses nothing

  lemma DecodeEncodeMarkup(m: Markup)
    ensures DecodeMarkup(EncodeMarkup(m)) == Some(m)
  {
  }

  lemma DecodeEncodeAtom(a: Atom)
    ensures DecodeAtom(EncodeAtom(a)) == Some(a)
  {
    assert a == SoftReturn;
  }

  lemma DecodeEncodeMarker(m: Marker)
    ensures DecodeMarker(EncodeMarker(m)) == Some(m)
  {
    if m.TextMarker? {
      DecodeAllEncodeAll(m.markupIndices, EncodeNat, DecodeNat);
    }
  }

  lemma DecodeEncodeMarkers(ms: seq<Marker>)
    ensures DecodeMarkers(EncodeMarkers(ms)) == Some(ms)
  {
    forall i | 0 <= i < |ms| ensures DecodeMarker(EncodeMarker(ms[i])) == Some(ms[i]) {
      DecodeEncodeMarker(ms[i]);
    }
    DecodeAllEncodeAll(ms, EncodeMarker, DecodeMarker);
  }

  lemma DecodeEncodeCard(c: Card)
    ensures DecodeCard(EncodeCard(c)) == Some(c)
  {
    match c
    case ImageCard(src, wide, featured, caption) =>
      DecodeEncodeImage(src, wide, featured, caption);
    case CodeCard(code, caption) =>
      DecodeEncodePayload("code", code, caption);
    case HtmlCard(html, caption) =>
      DecodeEncodePayload("html", html, caption);
    case HrCard(caption) =>
  }

  lemma DecodeEncodeImage(src: string, wide: bool, featured: bool, caption: Option<string>)
    ensures var rest := (if wide then [("cardWidth", JStr("wide"))] else [])
        + (if featured then [("featured_image", JBool(true))] else [])
        + CaptionMembers(caption);
      DecodeImage([("src", JStr(src))] + rest) == Some(ImageCard(src, wide, featured, caption))
  {
    var rest := (if wide then [("cardWidth", JStr("wide"))] else [])
      + (if featured then [("featured_image", JBool(true))] else [])
      + CaptionMembers(caption);
    assert ([("src", JStr(src))] + rest)[1..] == rest;
  }

  lemma DecodeEncodePayload(key: string, text: string, caption: Option<string>)
    ensures DecodeTextPayload(key, [(key, JStr(text))] + CaptionMembers(caption)) == Some((text, caption))
  {
    assert ([(key, JStr(text))] + CaptionMembers(caption))[1..] == CaptionMembers(caption);
  }

  lemma DecodeEncodeSection(s: Section)
    ensures DecodeSection(EncodeSection(s)) == Some(s)
  {
    match s
    case MarkupSection(_, ms) => DecodeEncodeMarkers(ms);
    case ListSection(_, items) =>
      forall i | 0 <= i < |items| ensures DecodeMarkers(EncodeMarkers(items[i])) == Some(items[i]) {
        DecodeEncodeMarkers(items[i]);
      }
      DecodeAllEncodeAll(items, EncodeMarkers, DecodeMarkers);
    case CardSection(_) =>
  }

  lemma DecodeEncodeCards(cards: seq<Card>)
    ensures DecodeAll(EncodeAll(cards, EncodeCard), DecodeCard) == Some(cards)
  {
    forall i | 0 <= i < |cards| ensures DecodeCard(EncodeCard(cards[i])) == Some(cards[i]) {
      DecodeEncodeCard(cards[i]);
    }
    DecodeAllEncodeAll(cards, EncodeCard, DecodeCard);
  }

  lemma DecodeEncodeSections(sections: seq<Section>)
    ensures DecodeAll(EncodeAll(sections, EncodeSection), DecodeSection) == Some(sections)
  {
    forall i | 0 <= i < |sections| ensures DecodeSection(EncodeSection(sections[i])) == Some(sections[i]) {
      DecodeEncodeSection(sections[i]);
    }
    DecodeAllEncodeAll(sections, EncodeSection, DecodeSection);
  }

  lemma DecodeEncodeAtoms(atoms: seq<Atom>)
    ensures DecodeAll(EncodeAll(atoms, EncodeAtom), DecodeAtom) == Some(atoms)
  {
    forall i | 0 <= i < |atoms| ensures DecodeAtom(EncodeAtom(atoms[i])) == Some(atoms[i]) {
      DecodeEncodeAtom(atoms[i]);
    }
    DecodeAllEncodeAll(atoms, EncodeAtom, DecodeAtom);
  }

  lemma DecodeEncodeMarkups(markups: seq<Markup>)
    ensures DecodeAll(EncodeAll(markups, EncodeMarkup), DecodeMarkup) == Some(markups)
  {
    forall i | 0 <= i < |markups| ensures DecodeMarkup(EncodeMarkup(markups[i])) == Some(markups[i]) {
      DecodeEncodeMarkup(markups[i]);
    }
    DecodeAllEncodeAll(markups, EncodeMarkup, DecodeMarkup);
  }

  /** The five top-level keys are read back in the order they are written. */
  lemma DocumentKeys(doc: Document)
    ensures DecodeDocument(EncodeDocument(doc)) == DecodeContainers(doc.version, EncodeAll(doc.atoms, EncodeAtom),
      EncodeAll(doc.cards, EncodeCard), EncodeAll(doc.markups, EncodeMarkup), EncodeAll(doc.sections, EncodeSection))
  {
    var m := EncodeDocument(doc).members;
    assert m[0].0 == "version" && m[1].0 == "atoms" && m[2].0 == "cards";
    assert m[3].0 == "markups" && m[4].0 == "sections";
  }

  /** The dictionary the parser returns can be read back into the document it encodes. */
  lemma DecodeEncodeDocument(doc: Document)
    ensures DecodeDocument(EncodeDocument(doc)) == Some(doc)
  {
    DocumentKeys(doc);
    DecodeEncodeAtoms(doc.atoms);
    DecodeEncodeCards(doc.cards);
    DecodeEncodeMarkups(doc.markups);
    DecodeEncodeSections(doc.sections);
  }
}
