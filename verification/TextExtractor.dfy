/** The page text extractor: a machine of flags over parser events, against the meaning of the document tree. */
module TextExtractor {
  import opened Prelude
  import opened Text

  type Attrs = seq<(string, Option<string>)>

  datatype Event = StartTag(tag: string, attrs: Attrs) | EndTag(tag: string) | Data(data: string)

  const SKIP_TAGS: set<string> := {"script", "style", "noscript", "template", "svg"}

  // ---------------------------------------------------------------- the machine

  datatype State = State(title: string, description: string, chunks: seq<string>, skipDepth: nat, inTitle: bool)

  const INITIAL := State("", "", [], 0, false)

  /** `dict(attrs).get(name)`: the last occurrence counts, and an attribute without a value gives nothing. */
  function Attr(attrs: Attrs, name: string): Option<string> {
    if attrs == [] then None
    else if Last(attrs).0 == name then Last(attrs).1
    else Attr(attrs[..|attrs| - 1], name)
  }

  function OnStartTag(s: State, tag: string, attrs: Attrs): State {
    if tag in SKIP_TAGS then s.(skipDepth := s.skipDepth + 1)
    else if tag == "title" then s.(inTitle := true)
    else if tag == "meta" && Attr(attrs, "name") == Some("description") then
      match Attr(attrs, "content")
      case Some(content) => if content != "" then s.(description := content) else s
      case None => s
    else s
  }

  function OnEndTag(s: State, tag: string): State {
    if tag in SKIP_TAGS && s.skipDepth > 0 then s.(skipDepth := s.skipDepth - 1)
    else if tag == "title" then s.(inTitle := false)
    else s
  }

  function OnData(s: State, data: string): State {
    if s.skipDepth > 0 || Strip(data) == "" then s
    else if s.inTitle then s.(title := s.title + Strip(data))
    else s.(chunks := s.chunks + [Strip(data)])
  }

  function OnEvent(s: State, e: Event): State {
    match e
    case StartTag(tag, attrs) => OnStartTag(s, tag, attrs)
    case EndTag(tag) => OnEndTag(s, tag)
    case Data(data) => OnData(s, data)
  }

  function Run(s: State, es: seq<Event>): State
    decreases |es|
  {
    if es == [] then s else Run(OnEvent(s, es[0]), es[1..])
  }

  lemma {:induction false} RunInParts(s: State, front: seq<Event>, back: seq<Event>)
    ensures Run(s, front + back) == Run(Run(s, front), back)
    decreases |front|
  {
    if front == [] {
      assert front + back == back;
    } else {
      assert (front + back)[1..] == front[1..] + back;
      RunInParts(OnEvent(s, front[0]), front[1..], back);
    }
  }

  ghost predicate LastAttr(attrs: Attrs, name: string, i: nat) {
    i < |attrs| && attrs[i].0 == name && forall j :: i < j < |attrs| ==> attrs[j].0 != name
  }

  /** The value of an attribute is that of its last occurrence. */
  lemma {:induction false} AttrIsLast(attrs: Attrs, name: string, i: nat)
    ensures LastAttr(attrs, name, i) ==> Attr(attrs, name) == attrs[i].1
    ensures (forall j :: 0 <= j < |attrs| ==> attrs[j].0 != name) ==> Attr(attrs, name) == None
  {
    if attrs == [] {
    } else if Last(attrs).0 != name {
      AttrIsLast(attrs[..|attrs| - 1], name, i);
    }
  }

  // ---------------------------------------------------------------- arbitrary streams

  function Weigh(e: Event): int {
    if e.StartTag? && e.tag in SKIP_TAGS then 1
    else if e.EndTag? && e.tag in SKIP_TAGS then -1
    else 0
  }

  /** How many more skipped elements a stream opens than it closes. */
  function Balance(es: seq<Event>): int {
    if es == [] then 0 else Balance(es[..|es| - 1]) + Weigh(Last(es))
  }

  /** `d` is the largest balance of any suffix of `es`. */
  ghost predicate LargestBalance(es: seq<Event>, d: int) {
    (forall k :: 0 <= k <= |es| ==> Balance(es[k..]) <= d) &&
    exists k :: 0 <= k <= |es| && Balance(es[k..]) == d
  }

  lemma LargestBalanceStep(es: seq<Event>, e: Event, d: nat)
    requires LargestBalance(es, d)
    ensures LargestBalance(es + [e], if d + Weigh(e) >= 0 then d + Weigh(e) else 0)
  {
    var es' := es + [e];
    forall k | 0 <= k <= |es| ensures Balance(es'[k..]) == Balance(es[k..]) + Weigh(e) {
      assert es'[k..] == es[k..] + [e];
      assert (es[k..] + [e])[..|es[k..]|] == es[k..];
    }
    assert Balance(es'[|es'|..]) == 0;
    var k :| 0 <= k <= |es| && Balance(es[k..]) == d;
    assert Balance(es'[k..]) == d + Weigh(e);
  }

  lemma DepthStep(s: State, e: Event)
    ensures OnEvent(s, e).skipDepth == if s.skipDepth + Weigh(e) >= 0 then s.skipDepth + Weigh(e) else 0
  {
  }

  lemma RunOne(s: State, e: Event)
    ensures Run(s, [e]) == OnEvent(s, e)
  {
    assert [e][1..] == [];
  }

  /** Stray end tags are forgotten: the depth is the largest balance of any suffix, whatever the stream. */
  lemma {:induction false} SkipDepthIsLargestBalance(es: seq<Event>)
    ensures LargestBalance(es, Run(INITIAL, es).skipDepth)
  {
    if es == [] {
      assert Balance(es[0..]) == 0;
    } else {
      var front := es[..|es| - 1];
      SkipDepthIsLargestBalance(front);
      assert front + [Last(es)] == es;
      RunInParts(INITIAL, front, [Last(es)]);
      RunOne(Run(INITIAL, front), Last(es));
      DepthStep(Run(INITIAL, front), Last(es));
      LargestBalanceStep(front, Last(es), Run(INITIAL, front).skipDepth);
    }
  }

  // ---------------------------------------------------------------- documents

  /** `Void` is an element that is written without an end tag. */
  datatype Node =
    | Chars(data: string)
    | Void(tag: string, attrs: Attrs)
    | Element(tag: string, attrs: Attrs, children: seq<Node>)

  type Document = seq<Node>

  function Events(doc: Document): seq<Event> {
    if doc == [] then []
    else
      (match doc[0]
       case Chars(data) => [Data(data)]
       case Void(tag, attrs) => [StartTag(tag, attrs)]
       case Element(tag, attrs, children) => [StartTag(tag, attrs)] + Events(children) + [EndTag(tag)]) +
      Events(doc[1..])
  }

  /** Elements that skip or that title are written with an end tag. */
  predicate WellNested(doc: Document) {
    doc != [] ==>
      (match doc[0]
       case Chars(_) => true
       case Void(tag, _) => tag !in SKIP_TAGS && tag != "title"
       case Element(_, _, children) => WellNested(children)) &&
      WellNested(doc[1..])
  }

  predicate HasTitle(doc: Document) {
    doc != [] &&
    ((doc[0].Element? && (doc[0].tag == "title" || HasTitle(doc[0].children))) || HasTitle(doc[1..]))
  }

  predicate NestsTitles(doc: Document) {
    doc != [] &&
    ((doc[0].Element? &&
      ((doc[0].tag == "title" && HasTitle(doc[0].children)) || NestsTitles(doc[0].children))) ||
     NestsTitles(doc[1..]))
  }

  datatype Reading = Reading(title: string, chunks: seq<string>)

  /** The texts a reader of the tree sees: titles concatenated, other texts in document order, nothing skipped. */
  function Read(doc: Document, inTitle: bool, skipped: bool): Reading {
    if doc == [] then Reading("", [])
    else
      var rest := Read(doc[1..], inTitle, skipped);
      match doc[0]
      case Chars(data) =>
        if skipped || Strip(data) == "" then rest
        else if inTitle then rest.(title := Strip(data) + rest.title)
        else rest.(chunks := [Strip(data)] + rest.chunks)
      case Void(_, _) => rest
      case Element(tag, _, children) =>
        var inner := Read(children, inTitle || tag == "title", skipped || tag in SKIP_TAGS);
        Reading(inner.title + rest.title, inner.chunks + rest.chunks)
  }

  lemma {:induction false} SkippedReadsNothing(doc: Document, inTitle: bool)
    ensures Read(doc, inTitle, true) == Reading("", [])
    decreases doc
  {
    if doc == [] {
    } else {
      SkippedReadsNothing(doc[1..], inTitle);
      if doc[0].Element? {
        SkippedReadsNothing(doc[0].children, inTitle || doc[0].tag == "title");
      }
    }
  }

  /** Scripts, styles and their like are not read; any other element reads as its children. */
  lemma HiddenElements(tag: string, attrs: Attrs, children: Document)
    ensures var reading := Read([Element(tag, attrs, children)], false, false);
            if tag == "script" || tag == "style" || tag == "noscript" || tag == "template" || tag == "svg"
            then reading == Reading("", [])
            else reading == Read(children, tag == "title", false)
  {
    var doc := [Element(tag, attrs, children)];
    assert doc[1..] == [];
    if tag in SKIP_TAGS {
      SkippedReadsNothing(children, tag == "title");
    }
  }

  /** The content of the last description, wherever it stands, or else `fallback`. */
  function Described(doc: Document, fallback: string): string {
    if doc == [] then fallback
    else if doc[0].Chars? then Described(doc[1..], fallback)
    else
      var own := if doc[0].tag == "meta" && Attr(doc[0].attrs, "name") == Some("description") &&
                    Attr(doc[0].attrs, "content").Some? && Attr(doc[0].attrs, "content") != Some("")
                 then Attr(doc[0].attrs, "content").value else fallback;
      Described(doc[1..], if doc[0].Element? then Described(doc[0].children, own) else own)
  }

  /** Some visible text of an outer title follows the end of a title nested in it; `open` until such an end. */
  predicate Leaks(doc: Document, inTitle: bool, open: bool, skipped: bool) {
    doc != [] &&
    match doc[0]
    case Chars(data) =>
      (!skipped && Strip(data) != "" && inTitle && !open) || Leaks(doc[1..], inTitle, open, skipped)
    case Void(_, _) => Leaks(doc[1..], inTitle, open, skipped)
    case Element(tag, _, children) =>
      Leaks(children, inTitle || tag == "title", open || tag == "title", skipped || tag in SKIP_TAGS) ||
      Leaks(doc[1..], inTitle, open && tag != "title" && !HasTitle(children), skipped)
  }

  /** The length of the joined chunks, with a separator after each. */
  function Weight(chunks: seq<string>): nat {
    if chunks == [] then 0 else |chunks[0]| + 1 + Weight(chunks[1..])
  }

  lemma {:induction false} WeightInParts(a: seq<string>, b: seq<string>)
    ensures Weight(a + b) == Weight(a) + Weight(b)
  {
    if a == [] {
      assert a + b == b;
    } else {
      assert (a + b)[1..] == a[1..] + b;
      WeightInParts(a[1..], b);
    }
  }

  /** `s'` has read `r` on top of `s`, or else has chunk text beyond that. */
  ghost predicate HasRead(s: State, s': State, r: Reading, leaks: bool) {
    if leaks then Weight(s'.chunks) > Weight(s.chunks) + Weight(r.chunks) + 1
    else s'.title == s.title + r.title && s'.chunks == s.chunks + r.chunks
  }

  /** Everything `Run` does to the state over a document. */
  ghost predicate Follows(s: State, s': State, doc: Document, inTitle: bool) {
    s'.skipDepth == s.skipDepth && s'.inTitle == (s.inTitle && !HasTitle(doc)) &&
    s'.description == Described(doc, s.description) &&
    HasRead(s, s', Read(doc, inTitle, s.skipDepth > 0), Leaks(doc, inTitle, s.inTitle, s.skipDepth > 0))
  }

  lemma HasReadBoth(s: State, s1: State, s2: State, r1: Reading, r2: Reading, l1: bool, l2: bool)
    requires HasRead(s, s1, r1, l1) && HasRead(s1, s2, r2, l2)
    ensures HasRead(s, s2, Reading(r1.title + r2.title, r1.chunks + r2.chunks), l1 || l2)
  {
    WeightInParts(s.chunks, r1.chunks);
    WeightInParts(s1.chunks, r2.chunks);
    WeightInParts(r1.chunks, r2.chunks);
  }

  /** Running over a leaf, and over an element, from the outside in. */
  lemma RunHead(s: State, doc: Document)
    requires doc != []
    ensures var after := if doc[0].Chars? then OnData(s, doc[0].data)
                         else if doc[0].Void? then OnStartTag(s, doc[0].tag, doc[0].attrs)
                         else OnEndTag(
                                Run(OnStartTag(s, doc[0].tag, doc[0].attrs), Events(doc[0].children)), doc[0].tag);
            Run(s, Events(doc)) == Run(after, Events(doc[1..]))
  {
    var rest := Events(doc[1..]);
    match doc[0]
    case Chars(data) =>
      RunInParts(s, [Data(data)], rest);
      RunOne(s, Data(data));
    case Void(tag, attrs) =>
      RunInParts(s, [StartTag(tag, attrs)], rest);
      RunOne(s, StartTag(tag, attrs));
    case Element(tag, attrs, children) =>
      var inner := Events(children);
      RunInParts(s, [StartTag(tag, attrs)] + inner + [EndTag(tag)], rest);
      RunInParts(s, [StartTag(tag, attrs)] + inner, [EndTag(tag)]);
      RunInParts(s, [StartTag(tag, attrs)], inner);
      RunOne(s, StartTag(tag, attrs));
      RunOne(Run(OnStartTag(s, tag, attrs), inner), EndTag(tag));
  }

  lemma CharsFollow(s: State, doc: Document, inTitle: bool, s2: State)
    requires doc != [] && doc[0].Chars? && (s.inTitle ==> inTitle)
    requires Follows(OnData(s, doc[0].data), s2, doc[1..], inTitle)
    ensures Follows(s, s2, doc, inTitle)
  {
    var text := Strip(doc[0].data);
    var s1, skipped := OnData(s, doc[0].data), s.skipDepth > 0;
    var rest := Read(doc[1..], inTitle, skipped);
    var leaks := Leaks(doc[1..], inTitle, s.inTitle, skipped);
    if s.skipDepth == 0 && text != "" {
      WeightInParts(s.chunks, [text]);
      var r := if inTitle then Reading(text, []) else Reading("", [text]);
      HasReadBoth(s, s1, s2, r, rest, inTitle && !s.inTitle, leaks);
      assert Read(doc, inTitle, false) == Reading(r.title + rest.title, r.chunks + rest.chunks);
    }
  }

  lemma ElementRead(s: State, doc: Document, inTitle: bool, s2: State, s3: State)
    requires doc != [] && doc[0].Element? && (s.inTitle ==> inTitle)
    requires Follows(OnStartTag(s, doc[0].tag, doc[0].attrs), s2, doc[0].children, inTitle || doc[0].tag == "title")
    requires Follows(OnEndTag(s2, doc[0].tag), s3, doc[1..], inTitle)
    ensures HasRead(s, s3, Read(doc, inTitle, s.skipDepth > 0), Leaks(doc, inTitle, s.inTitle, s.skipDepth > 0))
  {
    var tag, children, skipped := doc[0].tag, doc[0].children, s.skipDepth > 0;
    var s1 := OnStartTag(s, tag, doc[0].attrs);
    var inner := Read(children, inTitle || tag == "title", skipped || tag in SKIP_TAGS);
    var leaks := Leaks(children, inTitle || tag == "title", s.inTitle || tag == "title", skipped || tag in SKIP_TAGS);
    assert HasRead(s, OnEndTag(s2, tag), inner, leaks);
    HasReadBoth(
      s, OnEndTag(s2, tag), s3, inner, Read(doc[1..], inTitle, skipped), leaks,
      Leaks(doc[1..], inTitle, s.inTitle && tag != "title" && !HasTitle(children), skipped));
  }

  lemma ElementFollows(s: State, doc: Document, inTitle: bool, s2: State, s3: State)
    requires doc != [] && doc[0].Element? && (s.inTitle ==> inTitle)
    requires Follows(OnStartTag(s, doc[0].tag, doc[0].attrs), s2, doc[0].children, inTitle || doc[0].tag == "title")
    requires Follows(OnEndTag(s2, doc[0].tag), s3, doc[1..], inTitle)
    ensures Follows(s, s3, doc, inTitle)
  {
    ElementRead(s, doc, inTitle, s2, s3);
  }

  lemma {:induction false} MachineFollowsTree(s: State, doc: Document, inTitle: bool)
    requires WellNested(doc) && (s.inTitle ==> inTitle)
    ensures Follows(s, Run(s, Events(doc)), doc, inTitle)
    decreases doc
  {
    if doc == [] {
    } else {
      RunHead(s, doc);
      match doc[0]
      case Chars(data) =>
        MachineFollowsTree(OnData(s, data), doc[1..], inTitle);
        CharsFollow(s, doc, inTitle, Run(s, Events(doc)));
      case Void(tag, attrs) =>
        MachineFollowsTree(OnStartTag(s, tag, attrs), doc[1..], inTitle);
      case Element(tag, attrs, children) =>
        var s1 := OnStartTag(s, tag, attrs);
        var s2 := Run(s1, Events(children));
        MachineFollowsTree(s1, children, inTitle || tag == "title");
        MachineFollowsTree(OnEndTag(s2, tag), doc[1..], inTitle);
        ElementFollows(s, doc, inTitle, s2, Run(s, Events(doc)));
    }
  }

  // ---------------------------------------------------------------- the extracted page

  lemma {:induction false} JoinWeight(chunks: seq<string>)
    ensures Weight(chunks) == if chunks == [] then 0 else |Join(" ", chunks)| + 1
  {
    if |chunks| > 1 {
      JoinWeight(chunks[1..]);
    }
  }

  /**
   * The extractor reads every document as its tree reads, exactly when no visible text of an outer title follows a
   * title nested in it; its description is the last one either way, and no flag stays set.
   */
  lemma ExtractorReadsTree(doc: Document)
    requires WellNested(doc)
    ensures var page, tree := Run(INITIAL, Events(doc)), Read(doc, false, false);
            page.description == Described(doc, "") && page.skipDepth == 0 && !page.inTitle &&
            (page.title == tree.title && Join(" ", page.chunks) == Join(" ", tree.chunks) <==>
             !Leaks(doc, false, false, false))
  {
    var page, tree := Run(INITIAL, Events(doc)), Read(doc, false, false);
    MachineFollowsTree(INITIAL, doc, false);
    JoinWeight(page.chunks);
    JoinWeight(tree.chunks);
    if !Leaks(doc, false, false, false) {
      assert page.title == tree.title && page.chunks == tree.chunks;
    }
  }

  lemma {:induction false} TitlesApartKeepFlag(doc: Document, inTitle: bool, open: bool, skipped: bool)
    requires !NestsTitles(doc) && (inTitle ==> open && !HasTitle(doc))
    ensures !Leaks(doc, inTitle, open, skipped)
    decreases doc
  {
    if doc == [] {
    } else {
      if doc[0].Element? {
        TitlesApartKeepFlag(
          doc[0].children, inTitle || doc[0].tag == "title", open || doc[0].tag == "title",
          skipped || doc[0].tag in SKIP_TAGS);
        TitlesApartKeepFlag(doc[1..], inTitle, open && doc[0].tag != "title" && !HasTitle(doc[0].children), skipped);
      } else {
        TitlesApartKeepFlag(doc[1..], inTitle, open, skipped);
      }
    }
  }

  /** Documents whose titles are not nested are read faithfully. */
  lemma TitlesApartAreRead(doc: Document)
    requires WellNested(doc) && !NestsTitles(doc)
    ensures Run(INITIAL, Events(doc)).title == Read(doc, false, false).title
    ensures Run(INITIAL, Events(doc)).chunks == Read(doc, false, false).chunks
  {
    TitlesApartKeepFlag(doc, false, false, false);
    MachineFollowsTree(INITIAL, doc, false);
  }

  /** A nested title that leaks: the tail of the outer one becomes page text. */
  lemma NestedTitleLeaks(tail: string)
    requires Strip(tail) != ""
    ensures var doc := [Element("title", [], [Element("title", [], []), Chars(tail)])];
            WellNested(doc) && NestsTitles(doc) &&
            Read(doc, false, false) == Reading(Strip(tail), []) &&
            Run(INITIAL, Events(doc)).title == "" && Run(INITIAL, Events(doc)).chunks == [Strip(tail)]
  {
    var inner := [Element("title", [], []), Chars(tail)];
    var doc := [Element("title", [], inner)];
    var last := [Chars(tail)];
    assert inner[1..] == last && last[1..] == [] && doc[1..] == [];
    assert Read(last, true, false) == Reading(Strip(tail), []);
    assert WellNested(last) && WellNested(inner) && HasTitle(inner);
    var open := OnStartTag(INITIAL, "title", []);
    RunHead(INITIAL, last);
    RunHead(open, inner);
    RunHead(INITIAL, doc);
    var final := OnData(INITIAL, tail);
    assert Run(INITIAL, Events(last)) == Run(final, []) == final;
    assert Run(open, Events(inner)) == final;
    assert Run(INITIAL, Events(doc)) == Run(OnEndTag(final, "title"), []) == final;
  }
}
