/** Which names a report lists: those that some line mentions, in its own place or in free text. */
module StatsListing {
  import opened Wrappers
  import opened Text
  import opened WatchEvents
  import opened LogText
  import opened LogRecords
  import opened WatchStats
  import opened StatsReport

  /** The value of the last `watch=` word. */
  function LastWatch(words: seq<string>): Option<string> {
    if words == [] then None else
      var pair := SplitOnce(words[|words| - 1], "=");
      if pair.Some? && pair.value.0 == "watch" then Some(pair.value.1) else LastWatch(words[..|words| - 1])
  }

  lemma {:induction false} LastWatchWins(words: seq<string>)
    ensures "watch" in FieldsOf(words) <==> LastWatch(words).Some?
    ensures "watch" in FieldsOf(words) ==> FieldsOf(words)["watch"] == LastWatch(words).value
  {
    hide SplitOnce;
    if words != [] { LastWatchWins(words[..|words| - 1]); }
  }

  lemma {:induction false} LastWatchConcat(a: seq<string>, b: seq<string>)
    ensures LastWatch(a + b) == if LastWatch(b).Some? then LastWatch(b) else LastWatch(a)
  {
    hide SplitOnce;
    if b == [] {
      assert a + b == a;
    } else {
      LastWatchConcat(a, b[..|b| - 1]);
      assert (a + b)[..|a + b| - 1] == a + b[..|b| - 1];
    }
  }

  /** The name a line with free text is read under: the last one its text gives, else its own. */
  function Blamed(watch: string, detail: string): string {
    var last := LastWatch(Words(detail)); if last.Some? then last.value else watch
  }

  function Mention(line: Line): Option<string> {
    match line
    case Told(watch, entry) =>
      Some(if entry.event.CommandFailure? then Blamed(watch, DetailOf(entry.event)) else watch)
    case WatchError(_, watch, error) => Some(Blamed(watch, "error=" + Sanitize(error)))
    case Stopped(_) => None
  }

  lemma FreeTextIsBlamed(codec: Codec, at: int, watch: string, event: string, detail: string)
    requires codec.Faithful() && codec.Represents(at) && ':' !in event && Solid(watch) && detail != []
    ensures var r := Reading(codec, FormatLine(codec.format(at), watch, event, detail));
      r.Some? && r.value.watch == Blamed(watch, detail)
  {
    hide Reading, Words, FieldsOf, LastWatch, Solid;
    var word := "watch=" + watch;
    WatchWord(watch);
    StampedReads(codec, at, event, word + " " + detail);
    assert word + " " + detail == word + [' '] + detail == "watch=" + watch + (" " + detail);
    WordsApart(word, ' ', detail);
    LastWatchConcat([word], Words(detail));
    LastWatchWins([word] + Words(detail));
  }

  lemma WatchWord(watch: string)
    requires Solid(watch)
    ensures Words("watch=" + watch) == ["watch=" + watch] && LastWatch(["watch=" + watch]) == Some(watch)
  {
    hide Solid, Words, SplitOnce;
    WatchIsTidy(watch);
    TokenReads(map[], ("watch", watch));
    WatchSplits(watch);
  }

  lemma WatchSplits(watch: string)
    ensures SplitOnce("watch=" + watch, "=") == Some(("watch", watch))
  {
    ClearOf("watch", "=");
    SplitOnceAt("watch", "=", watch);
    assert "watch" + "=" + watch == "watch=" + watch;
  }

  lemma LineMentions(codec: Codec, line: Line)
    requires codec.Faithful() && codec.Represents(When(line)) && (line.Stopped? || Solid(line.watch))
    ensures var r := Reading(codec, TextOf(codec, line));
      (r.Some? <==> Mention(line).Some?) && (r.Some? ==> r.value.watch == Mention(line).value)
  {
    hide Reading, FormatLine, Record, Solid, Stamped, Sanitize, Blamed;
    StatsReport.LineIsRead(codec, line);
    match line
    case Told(watch, entry) =>
      if entry.event.CommandFailure? {
        TitleIsPlain(entry.event);
        FreeTextIsBlamed(codec, entry.at, watch, Title(entry.event), DetailOf(entry.event));
      } else {
        RecordNames(watch, entry);
      }
    case WatchError(at, watch, error) =>
      FreeTextIsBlamed(codec, at, watch, "watch.error", "error=" + Sanitize(error));
    case Stopped(_) =>
  }

  lemma RecordNames(watch: string, entry: Entry)
    ensures Record(watch, entry).watch == watch
  {}

  ghost predicate Mentioned(lines: seq<Line>, name: string) {
    exists i :: 0 <= i < |lines| && Mention(lines[i]) == Some(name)
  }

  predicate SolidLines(lines: seq<Line>) {
    forall k :: 0 <= k < |lines| ==> lines[k].Stopped? || Solid(lines[k].watch)
  }

  /** A name is in the report exactly when some line mentions it: its own, or another's free text. */
  lemma {:induction false} ListedIsMentioned(codec: Codec, lines: seq<Line>, name: string, filter: Option<string>)
    requires codec.Faithful() && Dated(codec, lines) && SolidLines(lines)
    ensures Listed(filter, Parsed(codec, Texts(codec, lines)), name) <==> Wanted(filter, name) && Mentioned(lines, name)
  {
    hide Reading, TextOf, Solid, Mention, Wanted;
    var texts := Texts(codec, lines);
    if lines == [] {
      assert texts == [];
    } else {
      var front, last := lines[..|lines| - 1], lines[|lines| - 1];
      assert Texts(codec, front) == texts[..|texts| - 1];
      ListedIsMentioned(codec, front, name, filter);
      var log := Parsed(codec, Texts(codec, front));
      assert Parsed(codec, texts) == MoreLog(codec, last, log);
      LineMentions(codec, last);
      MentionedAppend(front, last, name);
      assert lines == front + [last];
      var r := Reading(codec, texts[|texts| - 1]);
      if r.Some? { OfAppend(name, log, r.value); }
    }
  }

  lemma MentionedAppend(lines: seq<Line>, line: Line, name: string)
    ensures Mentioned(lines + [line], name) <==> Mentioned(lines, name) || Mention(line) == Some(name)
  {
    hide Mention;
    var more := lines + [line];
    assert more[|lines|] == line;
    if Mentioned(lines, name) {
      var i :| 0 <= i < |lines| && Mention(lines[i]) == Some(name);
      assert more[i] == lines[i];
    }
  }

  /** A watch that logged anything but free text is in the report, unless the filter asks for another. */
  lemma LoggedIsListed(codec: Codec, lines: seq<Line>, i: nat, filter: Option<string>)
    requires codec.Faithful() && Dated(codec, lines) && SolidLines(lines)
    requires i < |lines| && lines[i].Told? && !lines[i].entry.event.CommandFailure? && Wanted(filter, lines[i].watch)
    ensures Listed(filter, Parsed(codec, Texts(codec, lines)), lines[i].watch)
  {
    hide Blamed, Listed;
    assert Mention(lines[i]) == Some(lines[i].watch);
    ListedIsMentioned(codec, lines, lines[i].watch, filter);
  }

  /** An error text is enough to list a watch that never logged anything. */
  lemma ErrorTextListsAGhost(codec: Codec, at: int, watch: string)
    requires codec.Faithful() && codec.Represents(at) && Solid(watch)
    ensures var lines := [WatchError(at, watch, "no watch=ghost")];
      Own("ghost", lines) == [] && Listed(None, Parsed(codec, Texts(codec, lines)), "ghost")
  {
    hide Solid, Listed, Blamed, Sanitize;
    var lines := [WatchError(at, watch, "no watch=ghost")];
    SanitizeKeepsPlain("no watch=ghost");
    GhostIsBlamed(watch);
    assert Mention(lines[0]) == Some("ghost");
    ListedIsMentioned(codec, lines, "ghost", None);
  }

  lemma GhostIsBlamed(watch: string)
    ensures Blamed(watch, "error=" + "no watch=ghost") == "ghost"
  {
    hide Solid, Words, LastWatch;
    var lead, blame := "error=no", "watch=" + "ghost";
    assert "error=" + "no watch=ghost" == lead + [' '] + blame;
    WordsApart(lead, ' ', blame);
    SolidWords();
    WatchWord("ghost");
    LastWatchConcat(Words(lead), Words(blame));
  }

  lemma SolidWords()
    ensures Solid("ghost")
  {}

  lemma SanitizeKeepsPlain(s: string)
    requires '\r' !in s && '\n' !in s
    ensures Sanitize(s) == s
  {}
}
