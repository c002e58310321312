/** The summary the word-lookup tab shows (eng.py:508-534), lifted out of
    _fetch_meaning_thread: a function of the looked-up word and the decoded
    JSON reply of the dictionary service. */
module Dictionary {
  import opened Outcomes

  /** One element of a meaning's "definitions" list: its "definition" and
      "example" keys (None when the key is missing). */
  datatype Sense = Sense(definition: Option<string>, example: Option<string>)

  /** One element of "meanings": its "partOfSpeech" and "definitions". */
  datatype Meaning = Meaning(partOfSpeech: Option<string>, definitions: seq<Sense>)

  /** One element of the reply: its "word", the "text" of each element of
      "phonetics", and "meanings"; a missing list is the empty list. */
  datatype Entry = Entry(word: Option<string>, phonetics: seq<Option<string>>, meanings: seq<Meaning>)

  /** The decoded reply: a JSON list of entries, or any other JSON value. */
  datatype Reply = NotAList | Entries(entries: seq<Entry>)

  /** The one line kind the summary can hold, by the text it starts with. */
  datatype Line =
    | WordLine(title: string)
    | PronunciationLine(text: string)
    | PartOfSpeechLine(part: string)
    | DefinitionLine(text: string)
    | ExampleLine(text: string)
    | NoMeaningsLine
    | NotFoundLine(word: string)

  function Text(l: Line): string {
    match l
    case WordLine(t) => "Word: " + t + "\n"
    case PronunciationLine(p) => "Pronunciation: " + p + "\n"
    case PartOfSpeechLine(p) => "Part of speech: " + p + "\n"
    case DefinitionLine(d) => "Definition: " + d + "\n"
    case ExampleLine(e) => "Example: " + e + "\n"
    case NoMeaningsLine => "No meanings found.\n"
    case NotFoundLine(w) => "No definition found for \"" + w + "\".\n"
  }

  function Render(lines: seq<Line>): string {
    if lines == [] then "" else Text(lines[0]) + Render(lines[1..])
  }

  lemma {:induction false} RenderAppend(a: seq<Line>, b: seq<Line>)
    ensures Render(a + b) == Render(a) + Render(b)
  {
    if a == [] {
      assert a + b == b;
    } else {
      assert (a + b)[1..] == a[1..] + b;
      RenderAppend(a[1..], b);
    }
  }

  /** Python's truth test on a value that is a string or None. */
  predicate Truthy(s: Option<string>) {
    s.Some? && s.value != ""
  }

  predicate EndsWith(s: string, suffix: string) {
    |suffix| <= |s| && s[|s| - |suffix|..] == suffix
  }

  /** The entry the summary is made from: the first, when the reply is a
      non-empty list. */
  function FirstEntry(reply: Reply): Option<Entry> {
    if reply.Entries? && |reply.entries| > 0 then Some(reply.entries[0]) else None
  }

  /** The first definition of the first meaning, with that meaning. */
  function FirstSense(e: Entry): Option<(Meaning, Sense)> {
    if |e.meanings| > 0 && |e.meanings[0].definitions| > 0
    then Some((e.meanings[0], e.meanings[0].definitions[0]))
    else None
  }

  function PronunciationLines(phonetics: seq<Option<string>>): seq<Line> {
    if |phonetics| > 0 && Truthy(phonetics[0]) then [PronunciationLine(phonetics[0].value)] else []
  }

  function MeaningLines(e: Entry): seq<Line> {
    if e.meanings == [] then [NoMeaningsLine]
    else match FirstSense(e)
      case None => []
      case Some((meaning, sense)) =>
        [PartOfSpeechLine(meaning.partOfSpeech.GetOr("")), DefinitionLine(sense.definition.GetOr(""))] +
        (if Truthy(sense.example) then [ExampleLine(sense.example.value)] else [])
  }

  /** The lines of the summary, in order. */
  function SummaryLines(word: string, reply: Reply): (lines: seq<Line>)
    ensures |lines| >= 1
    ensures FirstEntry(reply).None? ==> lines == [NotFoundLine(word)]
    ensures FirstEntry(reply).Some? ==> lines[0] == WordLine(FirstEntry(reply).value.word.GetOr(word))
  {
    match FirstEntry(reply)
    case None => [NotFoundLine(word)]
    case Some(e) => [WordLine(e.word.GetOr(word))] + PronunciationLines(e.phonetics) + MeaningLines(e)
  }

  /** The Part of speech line appears exactly when the first meaning has a
      definition, and shows that meaning's part of speech. */
  lemma PartOfSpeechShown(word: string, reply: Reply, part: string)
    ensures PartOfSpeechLine(part) in SummaryLines(word, reply) <==>
      && FirstEntry(reply).Some?
      && FirstSense(FirstEntry(reply).value).Some?
      && part == FirstSense(FirstEntry(reply).value).value.0.partOfSpeech.GetOr("")
  {
  }

  /** The Definition line appears exactly when the first meaning has a
      definition, and shows that definition. */
  lemma DefinitionShown(word: string, reply: Reply, text: string)
    ensures DefinitionLine(text) in SummaryLines(word, reply) <==>
      && FirstEntry(reply).Some?
      && FirstSense(FirstEntry(reply).value).Some?
      && text == FirstSense(FirstEntry(reply).value).value.1.definition.GetOr("")
  {
  }

  /** The Example line appears exactly when that definition has a non-empty example. */
  lemma ExampleShown(word: string, reply: Reply, text: string)
    ensures ExampleLine(text) in SummaryLines(word, reply) <==>
      && FirstEntry(reply).Some?
      && FirstSense(FirstEntry(reply).value).Some?
      && FirstSense(FirstEntry(reply).value).value.1.example == Some(text)
      && text != ""
  {
  }

  /** The pronunciation is the first phonetics entry's text, when non-empty. */
  lemma PronunciationShown(word: string, reply: Reply, text: string)
    ensures PronunciationLine(text) in SummaryLines(word, reply) <==>
      && FirstEntry(reply).Some?
      && |FirstEntry(reply).value.phonetics| > 0
      && FirstEntry(reply).value.phonetics[0] == Some(text)
      && text != ""
  {
  }

  /** "No meanings found." appears exactly when the entry has no meanings. */
  lemma NoMeaningsShown(word: string, reply: Reply)
    ensures NoMeaningsLine in SummaryLines(word, reply) <==>
      FirstEntry(reply).Some? && FirstEntry(reply).value.meanings == []
  {
  }

  lemma RenderSnoc(lines: seq<Line>, l: Line)
    ensures Render(lines + [l]) == Render(lines) + Text(l)
  {
    RenderAppend(lines, [l]);
    assert Render([l]) == Text(l) + Render([]);
  }

  /** A reply with no entry to show gives exactly the not-found line. */
  lemma NotFoundText(word: string, reply: Reply)
    requires FirstEntry(reply).None?
    ensures Render(SummaryLines(word, reply)) == "No definition found for \"" + word + "\".\n"
  {
  }

  /** Otherwise the summary starts with the Word line. */
  lemma WordLineFirst(word: string, reply: Reply)
    requires FirstEntry(reply).Some?
    ensures "Word: " + FirstEntry(reply).value.word.GetOr(word) + "\n" <= Render(SummaryLines(word, reply))
  {
  }

  /** An entry without meanings ends its summary with "No meanings found." */
  lemma NoMeaningsLast(word: string, reply: Reply)
    requires FirstEntry(reply).Some? && FirstEntry(reply).value.meanings == []
    ensures EndsWith(Render(SummaryLines(word, reply)), "No meanings found.\n")
  {
    var e := FirstEntry(reply).value;
    var head := [WordLine(e.word.GetOr(word))] + PronunciationLines(e.phonetics);
    assert SummaryLines(word, reply) == head + [NoMeaningsLine];
    RenderSnoc(head, NoMeaningsLine);
  }

  /** The summary as _fetch_meaning_thread builds it, by appending to short_text;
      each append is one line's f-string, spelled out in Text. */
  method BuildSummary(word: string, reply: Reply) returns (shortText: string)
    ensures shortText == Render(SummaryLines(word, reply))
    ensures FirstEntry(reply).None? ==> shortText == "No definition found for \"" + word + "\".\n"
    ensures FirstEntry(reply).Some? ==>
      "Word: " + FirstEntry(reply).value.word.GetOr(word) + "\n" <= shortText
    ensures FirstEntry(reply).Some? && FirstEntry(reply).value.meanings == [] ==>
      EndsWith(shortText, "No meanings found.\n")
  {
    shortText := "";
    if reply.Entries? && |reply.entries| > 0 {
      var entry := reply.entries[0];
      var wordTitle := entry.word.GetOr(word);
      shortText := shortText + Text(WordLine(wordTitle));
      ghost var lines := [WordLine(wordTitle)];
      RenderSnoc([], WordLine(wordTitle));
      var phonetics := entry.phonetics;
      if |phonetics| > 0 {
        var p := phonetics[0];
        if p.Some? && p.value != "" {
          shortText := shortText + Text(PronunciationLine(p.value));
          RenderSnoc(lines, PronunciationLine(p.value));
          lines := lines + [PronunciationLine(p.value)];
        }
      }
      ghost var head := lines;
      var meanings := entry.meanings;
      if |meanings| > 0 {
        var firstMeaning := meanings[0];
        var part := firstMeaning.partOfSpeech.GetOr("");
        var defs := firstMeaning.definitions;
        if |defs| > 0 {
          var d0 := defs[0];
          var definition := d0.definition.GetOr("");
          var example := d0.example;
          shortText := shortText + Text(PartOfSpeechLine(part));
          RenderSnoc(lines, PartOfSpeechLine(part));
          lines := lines + [PartOfSpeechLine(part)];
          shortText := shortText + Text(DefinitionLine(definition));
          RenderSnoc(lines, DefinitionLine(definition));
          lines := lines + [DefinitionLine(definition)];
          if example.Some? && example.value != "" {
            shortText := shortText + Text(ExampleLine(example.value));
            RenderSnoc(lines, ExampleLine(example.value));
            lines := lines + [ExampleLine(example.value)];
          }
        }
      } else {
        shortText := shortText + Text(NoMeaningsLine);
        RenderSnoc(lines, NoMeaningsLine);
        lines := lines + [NoMeaningsLine];
      }
      assert head == [WordLine(wordTitle)] + PronunciationLines(entry.phonetics);
      assert lines == head + MeaningLines(entry);
      assert lines == SummaryLines(word, reply);
      WordLineFirst(word, reply);
      if meanings == [] {
        NoMeaningsLast(word, reply);
      }
    } else {
      shortText := Text(NotFoundLine(word));
      NotFoundText(word, reply);
    }
  }
}
