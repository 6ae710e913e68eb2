/**
 * The text form of the pronunciation dictionary in the settings form of
 * `src/SpeechSynthSettingsTab.ts`: the text area shows one `word=pronunciation`
 * line per entry, and every edit parses the whole text back into a fresh
 * dictionary.
 */
module Pronunciation {
  import opened Options
  import opened Strings

  type Dictionary = map<string, string>

  /** One line of the text area: `const [word, pronunciation] = line.split('=')`,
      kept when both pieces are truthy (non-empty) BEFORE trimming, and stored
      trimmed. Only the pieces before the second `=` are looked at. */
  function ParseLine(line: string): Option<(string, string)>
  {
    var parts := Split(line, '=');
    if |parts| >= 2 && parts[0] != [] && parts[1] != [] then
      Some((Trim(parts[0]), Trim(parts[1])))
    else
      None
  }

  /** The one word an assignment to a plain object does not store: writing
      `dictionary["__proto__"]` calls the setter every object inherits, and that
      setter ignores a string value. */
  const ProtoKey := "__proto__"

  /** `dictionary[word] = pronunciation` on the object the parser builds. */
  function Assign(d: Dictionary, word: string, pronunciation: string): Dictionary
  {
    if word == ProtoKey then d else d[word := pronunciation]
  }

  /** The dictionary the `forEach` over `lines` builds: each kept line assigns its
      word, so a later line for the same word overwrites an earlier one. */
  function ParseLines(lines: seq<string>): Dictionary
  {
    if lines == [] then map[]
    else
      var d := ParseLines(lines[..|lines| - 1]);
      match ParseLine(lines[|lines| - 1])
      case None => d
      case Some((word, pronunciation)) => Assign(d, word, pronunciation)
  }

  /** The dictionary the text area's text denotes. */
  function Parse(text: string): Dictionary
  {
    ParseLines(Split(text, '\n'))
  }

  /** The parser of the text area's `onChange`: split on newlines and add every
      kept line to a dictionary that starts out empty. */
  method ParseDictionary(text: string) returns (dictionary: Dictionary)
    ensures dictionary == Parse(text)
  {
    var lines := Split(text, '\n');
    dictionary := map[];
    var i := 0;
    while i < |lines|
      invariant 0 <= i <= |lines|
      invariant dictionary == ParseLines(lines[..i])
    {
      assert lines[..i + 1][..i] == lines[..i];
      var entry := ParseLine(lines[i]);
      if entry.Some? && entry.value.0 != ProtoKey {
        dictionary := dictionary[entry.value.0 := entry.value.1];
      }
      i := i + 1;
    }
    assert lines[..|lines|] == lines;
  }

  /** The line the text area shows for one entry. */
  function EntryLine(entry: (string, string)): string
  {
    entry.0 + "=" + entry.1
  }

  function EntryLines(entries: seq<(string, string)>): (lines: seq<string>)
    ensures |lines| == |entries|
    ensures forall i :: 0 <= i < |entries| ==> lines[i] == EntryLine(entries[i])
  {
    if entries == [] then [] else [EntryLine(entries[0])] + EntryLines(entries[1..])
  }

  /** No newline in any word or pronunciation. */
  predicate SingleLineEntries(entries: seq<(string, string)>)
  {
    forall i :: 0 <= i < |entries| ==> '\n' !in entries[i].0 && '\n' !in entries[i].1
  }

  /** The text the text area is filled with: the entries, in the order the host
      enumerates them, as `word=pronunciation` lines joined by newlines. When
      no entry spans lines, splitting the text on newlines gives one line per
      entry. */
  function Serialize(entries: seq<(string, string)>): (text: string)
    ensures entries == [] ==> text == ""
    ensures entries != [] && SingleLineEntries(entries) ==> Split(text, '\n') == EntryLines(entries)
  {
    SplitEntryLines(entries);
    Join(EntryLines(entries), '\n')
  }

  lemma SplitEntryLines(entries: seq<(string, string)>)
    ensures entries != [] && SingleLineEntries(entries) ==> Split(Join(EntryLines(entries), '\n'), '\n') == EntryLines(entries)
  {
    var lines := EntryLines(entries);
    if entries != [] && SingleLineEntries(entries) {
      forall i | 0 <= i < |lines| ensures '\n' !in lines[i] {
        assert lines[i] == entries[i].0 + "=" + entries[i].1;
      }
      SplitJoin(lines, '\n');
    }
  }

  /** `entries` lists the dictionary `d` (as `Object.entries` does, in some order). */
  predicate Enumerates(entries: seq<(string, string)>, d: Dictionary)
  {
    && (forall i :: 0 <= i < |entries| ==> entries[i].0 in d && d[entries[i].0] == entries[i].1)
    && (forall k :: k in d ==> exists i :: 0 <= i < |entries| && entries[i].0 == k)
  }

  /** A word or pronunciation that survives the text form unchanged. */
  predicate Plain(s: string)
  {
    s != [] && IsTrimmed(s) && '=' !in s && '\n' !in s
  }

  /** Whether line `i` of `lines` is kept with word `word` and stores it. */
  predicate Defines(lines: seq<string>, i: int, word: string)
    requires 0 <= i < |lines|
  {
    ParseLine(lines[i]).Some? && ParseLine(lines[i]).value.0 == word && word != ProtoKey
  }

  // ---------------------------------------------------------------------------
  // One line

  /** Every line with at least one `=` is `word=pronunciation` followed by
      nothing or by text starting with a second `=`: such a line is kept exactly
      when both pieces are non-empty, and then it stores the trimmed pieces;
      whatever follows the second `=` is dropped. */
  lemma ParseLineShape(word: string, pronunciation: string, tail: string)
    requires '=' !in word && '=' !in pronunciation
    requires tail == [] || tail[0] == '='
    ensures ParseLine(word + "=" + pronunciation + tail)
         == if word != [] && pronunciation != [] then Some((Trim(word), Trim(pronunciation))) else None
  {
    var line := word + "=" + pronunciation + tail;
    assert line == word + ['='] + (pronunciation + tail);
    SplitAtSeparator(word, pronunciation + tail, '=');
    var afterWord := Split(pronunciation + tail, '=');
    assert Split(line, '=') == [word] + afterWord;
    SplitPrefix(pronunciation, tail, '=');
    assert Split(tail, '=')[0] == [];
    assert afterWord[0] == pronunciation;
  }

  /** A line with no `=` (an empty line in particular) adds nothing. */
  lemma LineWithoutEqualsIsSkipped(line: string)
    requires '=' !in line
    ensures ParseLine(line) == None
  {
    SplitWithoutSeparator(line, '=');
  }

  /** The non-empty test comes before trimming: a word or pronunciation made of
      white space is kept, and its piece is stored as the empty string. */
  lemma BlankPiecesAreKept(word: string, pronunciation: string)
    requires '=' !in word && '=' !in pronunciation
    requires word != [] && pronunciation != []
    ensures AllWhitespace(pronunciation) ==> ParseLine(word + "=" + pronunciation) == Some((Trim(word), []))
    ensures AllWhitespace(word) ==> ParseLine(word + "=" + pronunciation) == Some(([], Trim(pronunciation)))
  {
    var none: string := [];
    ParseLineShape(word, pronunciation, none);
    assert word + "=" + pronunciation + none == word + "=" + pronunciation;
  }

  /** A line whose word is `__proto__` passes the parser's test but stores
      nothing, so it does not survive a round trip. */
  lemma ProtoLineIsDropped(pronunciation: string)
    requires pronunciation != [] && '=' !in pronunciation && '\n' !in pronunciation
    ensures ParseLine(ProtoKey + "=" + pronunciation) == Some((ProtoKey, Trim(pronunciation)))
    ensures Parse(ProtoKey + "=" + pronunciation) == map[]
  {
    var word, none: string := ProtoKey, [];
    var line := word + "=" + pronunciation;
    assert ParseLine(line) == Some((word, Trim(pronunciation))) by {
      ParseLineShape(word, pronunciation, none);
      assert line == word + "=" + pronunciation + none;
      assert IsTrimmed(word);
    }
    assert Split(line, '\n') == [line] by {
      assert '\n' !in word + "=";
      SplitWithoutSeparator(line, '\n');
    }
    var lines: seq<string> := [line];
    assert lines[..0] == [];
    assert ParseLines(lines) == Assign(map[], word, Trim(pronunciation));
  }

  /** Only the text between the first and second `=` becomes the pronunciation. */
  lemma SecondEqualsEndsPronunciation()
    ensures ParseLine("a=b=c") == Some(("a", "b"))
  {
    var a, b, tail: string := "a", "b", "=c";
    ParseLineShape(a, b, tail);
    assert "a=b=c" == a + "=" + b + tail;
    assert ParseLine(a + "=" + b + tail) == Some((Trim(a), Trim(b)));
    assert Trim(a) == a by { assert IsTrimmed(a); }
    assert Trim(b) == b by { assert IsTrimmed(b); }
  }

  /** A plain entry's line parses back to that entry. */
  lemma EntryLineParses(entry: (string, string))
    requires Plain(entry.0) && Plain(entry.1)
    ensures ParseLine(EntryLine(entry)) == Some(entry)
  {
    ParseLineShape(entry.0, entry.1, []);
    assert EntryLine(entry) == entry.0 + "=" + entry.1 + [];
  }

  // ---------------------------------------------------------------------------
  // Whole text

  /** A word is in the parsed dictionary exactly when some line is kept with it. */
  lemma {:induction false} ParsedWords(lines: seq<string>, word: string)
    ensures word in ParseLines(lines) <==> exists i :: 0 <= i < |lines| && Defines(lines, i, word)
  {
    if lines != [] {
      var n := |lines| - 1;
      var init := lines[..n];
      ParsedWords(init, word);
      ParseLinesStep(lines, word);
      forall i | 0 <= i < n ensures Defines(init, i, word) == Defines(lines, i, word) {
        assert init[i] == lines[i];
      }
    }
  }

  /** The last line adds its word to what the lines before it define. */
  lemma ParseLinesStep(lines: seq<string>, word: string)
    requires lines != []
    ensures word in ParseLines(lines)
        <==> Defines(lines, |lines| - 1, word) || word in ParseLines(lines[..|lines| - 1])
  {
  }

  /** The last kept line for a word other than `__proto__` decides its
      pronunciation. */
  lemma {:induction false} LastLineWins(lines: seq<string>, i: int, word: string, pronunciation: string)
    requires 0 <= i < |lines|
    requires ParseLine(lines[i]) == Some((word, pronunciation)) && word != ProtoKey
    requires forall j :: i < j < |lines| ==> !Defines(lines, j, word)
    ensures word in ParseLines(lines) && ParseLines(lines)[word] == pronunciation
  {
    var init := lines[..|lines| - 1];
    if i < |lines| - 1 {
      assert !Defines(lines, |lines| - 1, word);
      forall j | i < j < |init| ensures !Defines(init, j, word) {
        assert !Defines(lines, j, word);
      }
      LastLineWins(init, i, word, pronunciation);
    }
  }

  /** Every word and pronunciation the parser stores is trimmed. */
  lemma {:induction false} ParsedEntriesAreTrimmed(lines: seq<string>)
    ensures forall w :: w in ParseLines(lines) ==> IsTrimmed(w) && IsTrimmed(ParseLines(lines)[w])
  {
    if lines != [] {
      ParsedEntriesAreTrimmed(lines[..|lines| - 1]);
    }
  }

  /** An empty text area clears the dictionary. */
  lemma EmptyTextIsEmptyDictionary()
    ensures Parse("") == map[]
  {
    assert Split("", '\n') == [[]];
    LineWithoutEqualsIsSkipped([]);
    var lines: seq<string> := [[]];
    assert lines[..0] == [];
  }

  /** The round trip of the text area: showing a dictionary whose words and
      pronunciations are plain, with no word `__proto__`, and parsing the text
      back gives the same dictionary, whatever order the entries were listed
      in. */
  lemma RoundTrip(d: Dictionary, entries: seq<(string, string)>)
    requires Enumerates(entries, d)
    requires forall w :: w in d ==> Plain(w) && w != ProtoKey && Plain(d[w])
    ensures Parse(Serialize(entries)) == d
  {
    if entries == [] {
      EmptyTextIsEmptyDictionary();
      assert d == map[];
    } else {
      assert SingleLineEntries(entries);
      SplitEntryLines(entries);
      assert Parse(Serialize(entries)) == ParseLines(EntryLines(entries));
      ParsedLinesAreDictionary(d, entries);
    }
  }

  /** Parsing the lines of an enumeration of `d` gives `d`. */
  lemma ParsedLinesAreDictionary(d: Dictionary, entries: seq<(string, string)>)
    requires Enumerates(entries, d)
    requires forall w :: w in d ==> Plain(w) && w != ProtoKey && Plain(d[w])
    ensures ParseLines(EntryLines(entries)) == d
  {
    EntryLinesParse(entries);
    ParseLinesCollects(EntryLines(entries), entries);
    CollectIsDictionary(entries, d);
  }

  /** The entries of an enumeration of `d` collect into `d`. */
  lemma CollectIsDictionary(entries: seq<(string, string)>, d: Dictionary)
    requires Enumerates(entries, d)
    ensures Collect(entries) == d
  {
    CollectEnumeration(entries, d);
    var c := Collect(entries);
    forall w | w in d ensures w in c {
      var i :| 0 <= i < |entries| && entries[i].0 == w;
    }
    assert c.Keys == d.Keys;
  }

  /** Each line shown for plain entries parses back to its entry. */
  lemma EntryLinesParse(entries: seq<(string, string)>)
    requires forall i :: 0 <= i < |entries| ==> Plain(entries[i].0) && Plain(entries[i].1)
    ensures forall i :: 0 <= i < |entries| ==> ParseLine(EntryLines(entries)[i]) == Some(entries[i])
  {
    forall i | 0 <= i < |entries| ensures ParseLine(EntryLines(entries)[i]) == Some(entries[i]) {
      EntryLineParses(entries[i]);
    }
  }

  /** The dictionary of a list of entries, a later entry overwriting an earlier
      one with the same word. */
  function Collect(entries: seq<(string, string)>): Dictionary
  {
    if entries == [] then map[]
    else Collect(entries[..|entries| - 1])[entries[|entries| - 1].0 := entries[|entries| - 1].1]
  }

  /** Lines that each parse to one entry build the dictionary of those entries. */
  lemma {:induction false} ParseLinesCollects(lines: seq<string>, entries: seq<(string, string)>)
    requires |lines| == |entries|
    requires forall i :: 0 <= i < |lines| ==> ParseLine(lines[i]) == Some(entries[i])
    requires forall i :: 0 <= i < |entries| ==> entries[i].0 != ProtoKey
    ensures ParseLines(lines) == Collect(entries)
  {
    if lines != [] {
      var n := |lines| - 1;
      ParseLinesCollects(lines[..n], entries[..n]);
    }
  }

  /** The entries of an enumeration of `d` collect into part of `d` that holds
      every listed word. */
  lemma {:induction false} CollectEnumeration(entries: seq<(string, string)>, d: Dictionary)
    requires forall i :: 0 <= i < |entries| ==> entries[i].0 in d && d[entries[i].0] == entries[i].1
    ensures forall k :: k in Collect(entries) ==> k in d && Collect(entries)[k] == d[k]
    ensures forall i :: 0 <= i < |entries| ==> entries[i].0 in Collect(entries)
  {
    if entries != [] {
      var n := |entries| - 1;
      CollectEnumeration(entries[..n], d);
      forall i | 0 <= i < n ensures entries[i].0 in Collect(entries[..n]) {
        assert entries[..n][i] == entries[i];
      }
    }
  }
}
