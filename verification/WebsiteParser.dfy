/** The extractor object whose handlers the parser calls. */
module WebsiteParser {
  import opened Prelude
  import opened Text
  import opened TextExtractor

  class Extractor {
    var title: string
    var description: string
    var chunks: seq<string>
    var skipDepth: nat
    var inTitle: bool

    ghost function State(): TextExtractor.State
      reads this
    {
      TextExtractor.State(title, description, chunks, skipDepth, inTitle)
    }

    constructor ()
      ensures State() == INITIAL
    {
      title, description, chunks, skipDepth, inTitle := "", "", [], 0, false;
    }

    method HandleStartTag(tag: string, attrs: Attrs)
      modifies this
      ensures State() == OnStartTag(old(State()), tag, attrs)
    {
      if tag in SKIP_TAGS {
        skipDepth := skipDepth + 1;
      } else if tag == "title" {
        inTitle := true;
      } else if tag == "meta" {
        var content := Attr(attrs, "content");
        if Attr(attrs, "name") == Some("description") && content.Some? && content.value != "" {
          description := content.value;
        }
      }
    }

    method HandleEndTag(tag: string)
      modifies this
      ensures State() == OnEndTag(old(State()), tag)
    {
      if tag in SKIP_TAGS && skipDepth > 0 {
        skipDepth := skipDepth - 1;
      } else if tag == "title" {
        inTitle := false;
      }
    }

    method HandleData(data: string)
      modifies this
      ensures State() == OnData(old(State()), data)
    {
      if skipDepth > 0 {
        return;
      }
      var text := Strip(data);
      if text == "" {
        return;
      }
      if inTitle {
        title := title + text;
      } else {
        chunks := chunks + [text];
      }
    }

    method Feed(es: seq<Event>)
      modifies this
      ensures State() == Run(old(State()), es)
    {
      for n := 0 to |es|
        invariant State() == Run(old(State()), es[..n])
      {
        RunInParts(old(State()), es[..n], [es[n]]);
        assert es[..n + 1] == es[..n] + [es[n]];
        RunOne(State(), es[n]);
        match es[n]
        case StartTag(tag, attrs) => HandleStartTag(tag, attrs);
        case EndTag(tag) => HandleEndTag(tag);
        case Data(data) => HandleData(data);
      }
      assert es[..|es|] == es;
    }

    function PageText(): string
      reads this
    {
      Join(" ", chunks)
    }
  }

  /** A page fed to a new extractor reads as its tree. */
  method ReadPage(doc: Document) returns (title: string, description: string, text: string)
    requires WellNested(doc)
    ensures description == Described(doc, "")
    ensures title == Read(doc, false, false).title && text == Join(" ", Read(doc, false, false).chunks) <==>
            !Leaks(doc, false, false, false)
  {
    var parser := new Extractor();
    parser.Feed(Events(doc));
    ExtractorReadsTree(doc);
    title, description, text := parser.title, parser.description, parser.PageText();
  }
}
