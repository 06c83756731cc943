# medium_to_ghost: the Medium export parser, in Dafny

medium_to_ghost moves posts from a Medium data export into Ghost. This
project models the two core parts of `medium_to_ghost/medium_post_parser.py`
and proves properties of them:

- `parse_medium_filename` splits an exported file name
  (`<date|draft>_<slug>-<uuid>.html`) into uuid, slug, date and status.
- `MediumHTMLParser` turns the start-tag, end-tag and text events of an
  exported page into a Mobiledoc 0.3.1 document. The document holds markups
  (em, strong, links), atoms (soft returns), cards (image, code, html, hr)
  and sections (paragraphs, headings, blockquotes, lists, card sections).

Modules and files:

- `common.dfy`, `Common`: `Option` and `Result`.
- `strings.dfy`, `Strings`: Python's `str.split` on one character, `str.join`
  and `in` on strings, with their round-trip lemmas.
- `filename.dfy`, `MediumFilename`: `parse_medium_filename`.
  `MediumFilenameExamples` holds the two file names of the repository's tests.
- `attributes.dfy`, `Attributes`: `attrs_to_dict`, and the
  `name="value"` attribute text that iframe and gist cards rebuild.
- `mobiledoc.dfy`, `Mobiledoc`: the document format. It covers the values
  `convert()` returns, their JSON form (the way `json.dumps` lays them out),
  and a decoder proved to invert the encoder.
- `parser.dfy`, `MediumPostParser`: the parser.
  - The specification is three step functions over a `ParserState` record,
    one per handler: `StartTagStep`, `EndTagStep` and `DataStep`.
  - The class `MediumHTMLParser` has the parser's fields. Each handler
    method is proved to do what its step function says.
  - `ValidState` is the invariant every step keeps.
- `properties.dfy`, `ParserProperties`: what each single event does. Most
  of these lemmas read one case of a step function off its definition, and
  Dafny proves them from the definition alone. The proof work is elsewhere:
  in keeping `ValidState` across every step (`parser.dfy`), in
  `attributes.dfy`, and in the run and document lemmas (`runs.dfy`,
  `documents.dfy`).
- `runs.dfy`, `ParserRuns`: what short runs of events build.
- `documents.dfy`, `ParsedDocuments`: what holds of every document.

Python shares list objects between variables, and the parser relies on this.
`section = [1, "p", markers]` stores the very list that `current_markers`
names. So text arriving after `</p>`, before the next block tag, still lands
in that paragraph. `sections[-1][2] += markers` extends a list in place.
The model keeps every marker list and every list-item list the parser
creates in two arenas, `markerLists` and `itemLists`. Sections and the
"current" lists hold positions in these arenas, and `convert()` reads each
list at its final contents.

Python exceptions (a `KeyError` on a missing attribute, an `IndexError` on
`cards[-1]`, `tag_stack[-1]` or `sections[-1][2]`) are modelled as the
error case of a `Result`, so every input has a defined outcome. A run of
events stops at the first error.

Two behaviours of the code deserve a note:

- The comment at `medium_post_parser.py:175-178` says adjacent blockquotes
  are joined back together. The merge at lines 405-412 appends the soft
  return to the second block's markers before they extend the first. So two
  blockquotes give `[text1, text2, soft-return]`, and the soft return comes
  after the second text rather than between the two.
  `ParserRuns.AdjacentQuotes` states this.
- The comment at line 199 says processing stops at the footer. A `footer`
  start tag still sets the flag and is pushed onto the tag stack
  (lines 200-206). Every later event then returns at once.
  `ParserProperties.FooterStopsParsing` states this.

## Model

| member | source | states |
|---|---|---|
| MediumFilename.ParseMediumFilename | medium_to_ghost/medium_post_parser.py:9-24 | the name parses exactly when it holds one underscore, and the error reports how many pieces the split gave; status is `draft` or `published`, and it is `draft` exactly when there is no date; the uuid holds no hyphen or dot and the slug holds no dot |
| MediumFilename.ParseComposed | medium_to_ghost/medium_post_parser.py:9-24 | a name composed as date, underscore, slug, hyphen, uuid, dot, extension parses back to those pieces, with `draft` giving no date, when only the one underscore occurs and the slug and uuid hold no dot and the uuid no hyphen |
| MediumFilenameExamples.PublishedExample | tests/test_medium_post_parser.py:10-18 | the published file name of the tests gives uuid `f40359318721`, the long slug, date `2016-06-13` and status `published` |
| MediumFilenameExamples.DraftExample | tests/test_medium_post_parser.py:20-28 | `draft_test-7e48eb14931e.html` gives uuid `7e48eb14931e`, slug `test`, no date and status `draft` |
| Strings.SplitJoin | medium_to_ghost/medium_post_parser.py:12-16 | splitting a join of one or more separator-free parts gives the parts back |
| Strings.JoinSplit | medium_to_ghost/medium_post_parser.py:14-16 | joining the pieces of a split restores the string |
| Attributes.KeyIndex | medium_to_ghost/medium_post_parser.py:188 | the position it gives is the first position of the key |
| Attributes.InsertFacts | medium_to_ghost/medium_post_parser.py:188 | assigning `d[k] = v` keeps keys distinct, adds exactly `k`, makes `d[k]` equal `v` and leaves every other key's value alone |
| Attributes.AttrsToDict | medium_to_ghost/medium_post_parser.py:182-188 | the dictionary has distinct keys, exactly the attribute names, and each key maps to the value its name was given last |
| Attributes.AttrsToDictOrder | medium_to_ghost/medium_post_parser.py:188 | the dictionary's keys come in the order of each name's first appearance |
| Attributes.AttrPieces | medium_to_ghost/medium_post_parser.py:297-299 | one `name="value"` piece per item, in item order |
| Attributes.BuildAttrString | medium_to_ghost/medium_post_parser.py:297-300 | the loop over the items builds the pieces joined by single spaces |
| Attributes.AttrStringSplits | medium_to_ghost/medium_post_parser.py:297-300 | for one or more attributes whose names and values hold no space, the attribute text splits back into its pieces |
| Mobiledoc.DecodeEncodeMarkup | medium_to_ghost/medium_post_parser.py:152-157 | the JSON form of em, strong and link markups decodes back to the markup |
| Mobiledoc.DecodeEncodeAtom | medium_to_ghost/medium_post_parser.py:356 | the `["soft-return", "", {}]` form decodes back to the atom |
| Mobiledoc.DecodeEncodeMarker | medium_to_ghost/medium_post_parser.py:360 | text markers `[0, markups, count, text]` and atom markers `[1, [], 0, atom]` decode back to the marker |
| Mobiledoc.DecodeEncodeCard | medium_to_ghost/medium_post_parser.py:247-264 | image, code, html and hr cards, with their optional caption, width and featured flag, decode back to the card |
| Mobiledoc.DecodeEncodeSection | medium_to_ghost/medium_post_parser.py:385 | markup sections `[1, tag, markers]`, list sections `[3, tag, items]` and card sections `[10, card]` decode back to the section |
| Mobiledoc.DecodeEncodeDocument | medium_to_ghost/medium_post_parser.py:484-496 | the JSON document (version, atoms, cards, markups, sections) decodes back to the document |
| MediumPostParser.Init | medium_to_ghost/medium_post_parser.py:147-180 | a new parser holds markups em and strong and nothing else, has every flag clear, and satisfies the invariant |
| MediumPostParser.PopTagStack | medium_to_ghost/medium_post_parser.py:433-435 | the pop loop and the final pop leave a proper prefix of the stack |
| MediumPostParser.StartTagStep | medium_to_ghost/medium_post_parser.py:190-361 | a start tag that does not raise keeps the invariant |
| MediumPostParser.CardFor | medium_to_ghost/medium_post_parser.py:246-330 | `img` and `script` raise exactly when `src` is missing, naming the tag and the attribute; only `img`, `iframe` and a `script` make a card from their attributes |
| MediumPostParser.MergeBlockquote | medium_to_ghost/medium_post_parser.py:405-412 | the merge keeps the sections and the invariant, and raises exactly when the last section is a card section |
| MediumPostParser.CloseSection | medium_to_ghost/medium_post_parser.py:380-424 | closing an element raises exactly when a blockquote follows a blockquote whose section is now a card; only section tags add sections; the stack is not touched |
| MediumPostParser.EndTagStep | medium_to_ghost/medium_post_parser.py:364-435 | an end tag that does not raise keeps the invariant |
| MediumPostParser.DataStep | medium_to_ghost/medium_post_parser.py:437-482 | text that does not raise keeps the invariant |
| MediumPostParser.Run | medium_to_ghost/medium_post_parser.py:190-482 | any run of events that does not raise keeps the invariant |
| MediumPostParser.ConvertState | medium_to_ghost/medium_post_parser.py:484-496 | the document has version 0.3.1 and the parser's atoms, cards and markups, one section per held section, and every index it holds is in range |
| MediumPostParser.MediumHTMLParser.constructor | medium_to_ghost/medium_post_parser.py:147-180 | the new object holds the initial state |
| MediumPostParser.MediumHTMLParser.HandleStartTag | medium_to_ghost/medium_post_parser.py:190-361 | the object ends in the state `StartTagStep` gives, or reports its error and is left unchanged |
| MediumPostParser.MediumHTMLParser.HandleEndTag | medium_to_ghost/medium_post_parser.py:364-435 | the object ends in the state `EndTagStep` gives, or reports its error and is left unchanged; the pop loop is proved against `PopTagStack` |
| MediumPostParser.MediumHTMLParser.HandleData | medium_to_ghost/medium_post_parser.py:437-482 | the object ends in the state `DataStep` gives, or reports its error and is left unchanged |
| MediumPostParser.MediumHTMLParser.HandleEvent | medium_to_ghost/medium_post_parser.py:190-482 | each tokenizer callback ends in the state `Step` gives, or reports its error and leaves the object unchanged |
| MediumPostParser.MediumHTMLParser.Convert | medium_to_ghost/medium_post_parser.py:484-496 | the document returned is `ConvertState` of the object's state |
| MediumPostParser.MediumHTMLParser.Feed | medium_to_ghost/medium_post_parser.py:72-74 | feeding events one by one ends where `Run` ends, and stops at the first error |
| ParserProperties.FooterFreezes | medium_to_ghost/medium_post_parser.py:200-201 | once the footer has started, no event changes anything |
| ParserProperties.FooterStopsParsing | medium_to_ghost/medium_post_parser.py:200-206 | `<footer>` is still pushed, and nothing after it has any effect |
| ParserProperties.PlainStartTag | medium_to_ghost/medium_post_parser.py:206 | a start tag with no Mobiledoc meaning only pushes the tag |
| ParserProperties.PlainEndTag | medium_to_ghost/medium_post_parser.py:433-435 | an end tag outside the section chain only pops the stack, or raises when the pop loop runs off the bottom |
| ParserProperties.TagOnStackCanClose | medium_to_ghost/medium_post_parser.py:433-435 | the pop loop never empties the stack when the closed tag is on it |
| ParserProperties.PopThroughVoidTags | medium_to_ghost/medium_post_parser.py:431-435 | closing a tag also pops the `img` and `br` entries above it |
| ParserProperties.PopWithoutVoidTags | medium_to_ghost/medium_post_parser.py:433-435 | without `img` or `br` on the stack, an end tag pops the top entry whatever its name |
| ParserProperties.PopExample | medium_to_ghost/medium_post_parser.py:433-435 | `["p", "em", "img"]` closed by `</em>` leaves `["p"]` |
| ParserProperties.BlockStarts | medium_to_ghost/medium_post_parser.py:217-223 | a block tag starts fresh marker and list-item lists |
| ParserProperties.SummaryDivStarts | medium_to_ghost/medium_post_parser.py:225-226 | a `div` whose last `class` contains `graf` marks a link summary |
| ParserProperties.PlainDivStarts | medium_to_ghost/medium_post_parser.py:217-226 | any other `div` only starts fresh lists |
| ParserProperties.SummaryDivEnds | medium_to_ghost/medium_post_parser.py:387-390 | the end of a link summary closes a paragraph over the current markers and clears the mark |
| ParserProperties.PlainDivEnds | medium_to_ghost/medium_post_parser.py:387-391 | the end of any other `div` adds no section |
| ParserProperties.ParagraphEnds | medium_to_ghost/medium_post_parser.py:384-386 | `</p>` closes a paragraph that holds the current marker list itself |
| ParserProperties.ListItemEnds | medium_to_ghost/medium_post_parser.py:391-393 | `</li>` makes the current markers the next item and starts a fresh marker list |
| ParserProperties.ListEnds | medium_to_ghost/medium_post_parser.py:394-399 | `</ul>` and `</ol>` close a list section over the current items |
| ParserProperties.FirstHrDropped | medium_to_ghost/medium_post_parser.py:335-343 | the first `<hr>` adds no card, only its mark |
| ParserProperties.LaterHrBecomesCard | medium_to_ghost/medium_post_parser.py:336-342 | every later `<hr>` adds an hr card and its card section |
| ParserProperties.FirstH3Dropped | medium_to_ghost/medium_post_parser.py:413-420 | the first `</h3>` (the post title) adds no section |
| ParserProperties.LaterH3BecomesH2 | medium_to_ghost/medium_post_parser.py:416-419 | each later `</h3>` closes an `h2` section |
| ParserProperties.H4BecomesH3 | medium_to_ghost/medium_post_parser.py:421-424 | `</h4>` closes an `h3` section |
| ParserProperties.PreStartsCode | medium_to_ghost/medium_post_parser.py:277-286 | a `<pre>` that does not follow a `</pre>` starts an empty code card and its section |
| ParserProperties.PreContinuesCode | medium_to_ghost/medium_post_parser.py:287-290 | a `<pre>` after a `</pre>` appends a blank line to the last code card |
| ParserProperties.PreAfterOtherCard | medium_to_ghost/medium_post_parser.py:290 | when the last card holds no code, that `<pre>` raises |
| ParserProperties.PreEnds | medium_to_ghost/medium_post_parser.py:427-435 | `</pre>` only records itself as the last section tag |
| ParserProperties.BreakInCode | medium_to_ghost/medium_post_parser.py:347-353 | a `<br>` in code appends a newline to the code card and leaves the stack as it was |
| ParserProperties.BreakInText | medium_to_ghost/medium_post_parser.py:354-361 | a `<br>` in text adds a soft-return atom and a marker pointing at it |
| ParserProperties.TextInCode | medium_to_ghost/medium_post_parser.py:457-459 | text inside `pre` is appended to the last code card |
| ParserProperties.TextBecomesMarker | medium_to_ghost/medium_post_parser.py:465-482 | other text appends a text marker with the active markups |
| ParserProperties.ActiveMarkupsMeaning | medium_to_ghost/medium_post_parser.py:465-480 | markup 0 applies exactly inside `em`, markup 1 exactly inside `strong`, a link exactly inside `a` (the latest, listed first); indices are in range and distinct |
| ParserProperties.TextInCaption | medium_to_ghost/medium_post_parser.py:451-453 | text in a `figcaption` becomes the caption of the last card |
| ParserProperties.CaptionReplaced | medium_to_ghost/medium_post_parser.py:451-453 | a second text in the same caption replaces the first |
| ParserProperties.CaptionWithoutCard | medium_to_ghost/medium_post_parser.py:452 | a caption with no card before it raises |
| ParserProperties.BlockquoteClosed | medium_to_ghost/medium_post_parser.py:402-404 | a blockquote that does not follow one closes its own section |
| ParserProperties.BlockquoteMerged | medium_to_ghost/medium_post_parser.py:405-412 | a blockquote after a blockquote adds a soft return to its markers and extends the previous section's markers by them, adding no section |
| ParserProperties.BlockquoteMergedWithItself | medium_to_ghost/medium_post_parser.py:405-412 | when both are the same list, the list is extended by itself |
| ParserProperties.BlockquoteAfterCard | medium_to_ghost/medium_post_parser.py:412 | a blockquote merge after a card section raises |
| ParserProperties.LastValueUnique | medium_to_ghost/medium_post_parser.py:188 | a name has one last value |
| ParserProperties.LookupIsLastValue | medium_to_ghost/medium_post_parser.py:188 | `attr_dict[k]` is `v` exactly when `v` is the last value given to `k` |
| ParserProperties.ImageCardFromAttributes | medium_to_ghost/medium_post_parser.py:246-269 | `<img>` adds an image card and its section: the source is the last `src`, wide exactly when it names `/max/1000/`, featured exactly when the last `data-is-featured` is `true` |
| ParserProperties.ImageWithoutSource | medium_to_ghost/medium_post_parser.py:248 | `<img>` without `src` raises |
| ParserProperties.LinkFromAttributes | medium_to_ghost/medium_post_parser.py:232-240 | `<a>` adds a link markup for the last `href` and pushes `a`; without `href` it raises |
| ParserProperties.IframeBecomesHtmlCard | medium_to_ghost/medium_post_parser.py:295-312 | `<iframe>` adds an html card rebuilding the tag from its attributes |
| ParserProperties.ScriptCards | medium_to_ghost/medium_post_parser.py:314-331 | `<script>` adds an html card only for a GitHub gist source, and raises without `src` |
| ParserRuns.RunConcat | medium_to_ghost/medium_post_parser.py:72-73 | handling two runs in turn is handling their concatenation |
| ParserRuns.CodeBlock | medium_to_ghost/medium_post_parser.py:271-290 | one or more consecutive `<pre>line</pre>` elements outside a caption make one code card, lines joined by blank lines, and one card section |
| ParserRuns.BrokenLineContinues | medium_to_ghost/medium_post_parser.py:347-353 | a `<pre>` line holding a `<br>`, right after another `<pre>`, extends the same code card by a blank line, the text before the break, a newline and the text after it |
| ParserRuns.FirstQuote | medium_to_ghost/medium_post_parser.py:400-404 | a blockquote after something else becomes a section holding its text |
| ParserRuns.NextQuote | medium_to_ghost/medium_post_parser.py:405-412 | a blockquote right after a blockquote adds no section; its text and a soft return extend the previous one |
| ParserRuns.AdjacentQuotes | medium_to_ghost/medium_post_parser.py:400-412 | two adjacent blockquotes make one section: first text, second text, soft return |
| ParserRuns.TextAfterParagraphJoinsIt | medium_to_ghost/medium_post_parser.py:380-386 | text after `</p>` and before the next block tag lands in that paragraph |
| ParserRuns.ListItems | medium_to_ghost/medium_post_parser.py:391-393 | a run of list items appends one item per text, in order, to the current list |
| ParserRuns.ListOfItems | medium_to_ghost/medium_post_parser.py:391-399 | a `ul` or `ol` of items becomes one list section whose items hold the texts in order |
| ParserRuns.LinkSummary | medium_to_ghost/medium_post_parser.py:225-226 | a link summary `div` becomes a paragraph holding its text |
| ParserRuns.PlainDiv | medium_to_ghost/medium_post_parser.py:387-391 | any other `div` adds no section |
| ParserRuns.Paragraph | medium_to_ghost/medium_post_parser.py:384-386 | `<p>text</p>` becomes a paragraph section holding the text |
| ParsedDocuments.RunExtends | medium_to_ghost/medium_post_parser.py:190-482 | nothing is ever removed: sections, markups and atoms are only appended, only the last card changes (a caption, more code), lists only grow at their end, first-seen flags stay set |
| ParsedDocuments.SectionsOnlyGrow | medium_to_ghost/medium_post_parser.py:380-412 | a section of the document keeps its kind and tag and only gains markers or items later |
| ParsedDocuments.CardsInSectionOrder | medium_to_ghost/medium_post_parser.py:268-342 | every card is the target of exactly one card section, in card order |
| ParsedDocuments.ParsedDocument | medium_to_ghost/medium_post_parser.py:484-496 | every document is version 0.3.1, starts its markups with em and strong followed only by links, has all indices in range, one card section per card, and its JSON form decodes back to it |
| ParsedDocuments.FooterEndsPage | medium_to_ghost/medium_post_parser.py:198-203 | whatever follows the footer's start tag, the document is the same |
| ParsedDocuments.OneParagraphPage | medium_to_ghost/medium_post_parser.py:147-496 | a page that is one plain paragraph gives the document with that paragraph alone |
| ParserRuns.TitledPage | medium_to_ghost/medium_post_parser.py:147-496 | `<hr><h3>title</h3><p>text<strong>bold</strong></p>` gives no card, the markups em and strong, and one paragraph section: the text with no markup, then the bold text with markup 1 (strong) |
| ParserRuns.TitledPageExample | medium_to_ghost/medium_post_parser.py:147-496 | the same page with the texts `Title`, `Hello ` and `world` |
| ParsedDocuments.MarkupsOnlyOnLink | medium_to_ghost/medium_post_parser.py:190-482 | every event other than an `<a>` start tag leaves the markups as they were: `markups.append` happens only at line 240 |
| ParsedDocuments.StepMarkups | medium_to_ghost/medium_post_parser.py:200-240 | one event extends the markups by exactly one, keeping the old ones as a prefix, when it is an `<a>` start tag before the footer, and by none otherwise; the footer flag is set by a `footer` start tag and never cleared |
| ParsedDocuments.RunMarkups | medium_to_ghost/medium_post_parser.py:200-240 | over a run, the markups gain one entry per `<a>` start tag that comes before the first `footer` start tag |
| ParsedDocuments.LinkMarkupCount | medium_to_ghost/medium_post_parser.py:152-156 | a parsed document has as many markups as the two it starts with (em and strong) plus one per `<a>` start tag before the footer |

## Left out

- HTML tokenisation: `HTMLParser.feed` is part of Python's standard library. The model takes the page as a sequence of start-tag (with attributes), end-tag and text events.
- `convert_medium_post_to_ghost_json`, the image downloader, the command line and `setup.py` are not part of this model. They do I/O (BeautifulSoup, the network, files) around the parser.
- The text of `json.dumps`: the `Json` datatype models its structure (key order, arrays, strings, integers, booleans), not its characters or escapes.
- Attributes without a value (`None` in Python) are not modelled: every attribute value is a string.
- After an exception Python leaves the parser half-updated, for example with the tag already pushed. The model's methods check for the error before changing anything and leave the object unchanged. The error reported is the same.
- MediumPostParser.MediumHTMLParser.HandleEndTag: runs the pop loop on a copy of the stack before updating the sections, instead of after. The result is the same because the section update does not read the stack.
- `markup_count` in `handle_data` is not a separate field: it is the length of the markup list, which is how the encoding writes it.
- Logging is left out.
