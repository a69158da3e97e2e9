/**
 * The text of the watchdog's log: how one line is written, and how the statistics read it back.
 * A timestamp is a number of nanoseconds; its RFC 3339 text is given by a codec.
 */
module LogText {
  import opened Wrappers
  import opened Text
  import opened WatchEvents

  type Pair = (string, string)

  datatype LogEvent = LogEvent(timestamp: int, event: string, watch: string, fields: map<string, string>)

  /** The text of an instant; only those from `first` to `last` have one. */
  datatype Codec = Codec(format: int -> string, parse: string -> Option<int>, first: int, last: int) {
    predicate Represents(t: int) { first <= t <= last }

    ghost predicate Faithful() {
      forall t :: Represents(t) ==> parse(format(t)) == Some(t) && ']' !in format(t)
    }
  }

  /** The characters with the Unicode property White_Space. */
  predicate Space(c: char) {
    || '\U{0009}' <= c <= '\U{000D}' || c == ' ' || c == '\U{0085}' || c == '\U{00A0}' || c == '\U{1680}'
    || '\U{2000}' <= c <= '\U{200A}' || c == '\U{2028}' || c == '\U{2029}' || c == '\U{202F}'
    || c == '\U{205F}' || c == '\U{3000}'
  }

  predicate Solid(s: string) { forall i :: 0 <= i < |s| ==> !Space(s[i]) }

  function WordEnd(s: string): (n: nat)
    ensures n <= |s| && Solid(s[..n]) && (n < |s| ==> Space(s[n]))
  {
    if s == [] || Space(s[0]) then 0 else
      var n := WordEnd(s[1..]);
      assert s[..n + 1] == [s[0]] + s[1..][..n];
      n + 1
  }

  /** Rust's `split_whitespace`. */
  function Words(s: string): (words: seq<string>)
    ensures forall k :: 0 <= k < |words| ==> words[k] != [] && Solid(words[k])
    decreases |s|
  {
    if s == [] then [] else if Space(s[0]) then Words(s[1..])
    else [s[..WordEnd(s)]] + Words(s[WordEnd(s)..])
  }

  lemma WordEndIs(s: string, n: nat)
    requires n <= |s| && Solid(s[..n]) && (n < |s| ==> Space(s[n]))
    ensures WordEnd(s) == n
  {
    var m := WordEnd(s);
    forall i | 0 <= i < n ensures !Space(s[i]) { assert s[..n][i] == s[i]; }
    forall i | 0 <= i < m ensures !Space(s[i]) { assert s[..m][i] == s[i]; }
  }

  lemma WordEndApart(a: string, c: char, b: string)
    requires Space(c) && a != [] && !Space(a[0])
    ensures 0 < WordEnd(a) && WordEnd(a + [c] + b) == WordEnd(a)
  {
    hide Space;
    var n := WordEnd(a);
    assert (a + [c] + b)[..n] == a[..n];
    WordEndIs(a + [c] + b, n);
  }

  lemma {:induction false} WordsApart(a: string, c: char, b: string)
    requires Space(c)
    ensures Words(a + [c] + b) == Words(a) + Words(b)
    decreases |a|
  {
    hide Space, Solid, WordEnd;
    var s := a + [c] + b;
    if a == [] {
      assert s[1..] == b;
    } else if Space(a[0]) {
      assert s[1..] == a[1..] + [c] + b;
      WordsApart(a[1..], c, b);
    } else {
      var n := WordEnd(a);
      WordEndApart(a, c, b);
      assert s[..n] == a[..n];
      assert s[n..] == a[n..] + [c] + b;
      WordsApart(a[n..], c, b);
      assert [a[..n]] + (Words(a[n..]) + Words(b)) == [a[..n]] + Words(a[n..]) + Words(b);
    }
  }

  lemma OneWord(s: string)
    requires s != [] && Solid(s)
    ensures Words(s) == [s]
  {
    assert s[..|s|] == s;
    WordEndIs(s, |s|);
    assert s[|s|..] == [];
  }

  /** The fields read from the words of a line; a later word wins over an earlier one. */
  function FieldsOf(words: seq<string>): map<string, string> {
    if words == [] then map[] else AddField(FieldsOf(words[..|words| - 1]), words[|words| - 1])
  }

  function AddField(fields: map<string, string>, word: string): map<string, string> {
    match SplitOnce(word, "=")
    case None => fields
    case Some(pair) => fields[pair.0 := pair.1]
  }

  function EventOf(timestamp: int, event: string, fields: map<string, string>): Option<LogEvent> {
    if "watch" in fields then Some(LogEvent(timestamp, event, fields["watch"], fields)) else None
  }

  /** What the statistics read from a line, if anything. */
  function Reading(codec: Codec, line: string): Option<LogEvent> {
    if line == [] || line[0] != '[' then None else
    match SplitOnce(line[1..], "] ")
    case None => None
    case Some(stamped) =>
      match codec.parse(stamped.0)
      case None => None
      case Some(timestamp) =>
        match SplitOnce(stamped.1, ": ")
        case None => None
        case Some(named) => EventOf(timestamp, named.0, FieldsOf(Words(named.1)))
  }

  method ParseLogEvent(codec: Codec, line: string) returns (r: Option<LogEvent>)
    ensures r == Reading(codec, line)
  {
    if line == [] || line[0] != '[' { return None; }
    var stamped := SplitOnce(line[1..], "] ");
    if stamped.None? { return None; }
    var timestamp := codec.parse(stamped.value.0);
    if timestamp.None? { return None; }
    var named := SplitOnce(stamped.value.1, ": ");
    if named.None? { return None; }
    var fields: map<string, string> := map[];
    var words := Words(named.value.1);
    for i := 0 to |words|
      invariant fields == FieldsOf(words[..i])
    {
      assert words[..i + 1][..i] == words[..i];
      var pair := SplitOnce(words[i], "=");
      if pair.None? { continue; }
      fields := fields[pair.value.0 := pair.value.1];
    }
    assert words[..|words|] == words;
    if "watch" !in fields { return None; }
    r := Some(LogEvent(timestamp.value, named.value.0, fields["watch"], fields));
  }

  function Stamped(stamp: string, event: string, rest: string): string {
    "[" + stamp + "] " + event + ": " + rest
  }

  function FormatLine(stamp: string, watch: string, event: string, detail: string): string {
    Stamped(stamp, event, "watch=" + watch + if detail == [] then [] else " " + detail)
  }

  lemma ClearOf(a: string, sep: string)
    requires sep != [] && sep[0] !in a
    ensures Clear(a, sep)
  {
    forall k | 0 <= k < |a| ensures !StartsWith((a + sep)[k..], sep) {
      var from := (a + sep)[k..];
      assert from[0] == a[k];
    }
  }

  lemma StampedReads(codec: Codec, at: int, event: string, rest: string)
    requires codec.Faithful() && codec.Represents(at) && ':' !in event
    ensures Reading(codec, Stamped(codec.format(at), event, rest)) == EventOf(at, event, FieldsOf(Words(rest)))
  {
    hide Words, FieldsOf, SplitOnce, Clear;
    var stamp := codec.format(at);
    var line := Stamped(stamp, event, rest);
    var body := event + ": " + rest;
    assert line[1..] == stamp + "] " + body;
    ClearOf(stamp, "] ");
    SplitOnceAt(stamp, "] ", body);
    ClearOf(event, ": ");
    SplitOnceAt(event, ": ", rest);
  }

  // ---- key=value details ----

  function Token(pair: Pair): string { pair.0 + "=" + pair.1 }

  /** The `key=value` words of a detail, one space between them. */
  function Detail(pairs: seq<Pair>): string {
    if pairs == [] then ""
    else if |pairs| == 1 then Token(pairs[0])
    else Detail(pairs[..|pairs| - 1]) + " " + Token(pairs[|pairs| - 1])
  }

  function MapOf(pairs: seq<Pair>): map<string, string> {
    if pairs == [] then map[]
    else MapOf(pairs[..|pairs| - 1])[pairs[|pairs| - 1].0 := pairs[|pairs| - 1].1]
  }

  predicate TidyPair(pair: Pair) { Solid(pair.0) && '=' !in pair.0 && Solid(pair.1) }

  predicate Tidy(pairs: seq<Pair>) { forall k :: 0 <= k < |pairs| ==> TidyPair(pairs[k]) }

  predicate DistinctKeys(pairs: seq<Pair>) {
    forall j, k :: 0 <= j < k < |pairs| ==> pairs[j].0 != pairs[k].0
  }

  lemma TokenReads(fields: map<string, string>, pair: Pair)
    requires TidyPair(pair)
    ensures AddField(fields, Token(pair)) == fields[pair.0 := pair.1]
    ensures Words(Token(pair)) == [Token(pair)]
  {
    ClearOf(pair.0, "=");
    SplitOnceAt(pair.0, "=", pair.1);
    OneWord(Token(pair));
  }

  lemma {:induction false} DetailReads(pairs: seq<Pair>)
    requires Tidy(pairs)
    ensures FieldsOf(Words(Detail(pairs))) == MapOf(pairs)
  {
    hide AddField, TidyPair, Token, Words;
    if pairs == [] {
      assert Words([]) == [] by { NoWords(); }
    } else {
      var front, last := pairs[..|pairs| - 1], pairs[|pairs| - 1];
      DetailReads(front);
      TokenReads(MapOf(front), last);
      if front == [] {
        FieldsOfAppend([], Token(last));
        assert [] + [Token(last)] == [Token(last)];
      } else {
        WordsApart(Detail(front), ' ', Token(last));
        FieldsOfAppend(Words(Detail(front)), Token(last));
      }
    }
  }

  lemma NoWords() ensures Words([]) == [] {}

  lemma FieldsOfAppend(words: seq<string>, word: string)
    ensures FieldsOf(words + [word]) == AddField(FieldsOf(words), word)
  {
    assert (words + [word])[..|words|] == words;
  }

  lemma {:induction false} MapOfKeys(pairs: seq<Pair>)
    requires DistinctKeys(pairs)
    ensures forall k :: 0 <= k < |pairs| ==> pairs[k].0 in MapOf(pairs) && MapOf(pairs)[pairs[k].0] == pairs[k].1
    ensures forall key :: key in MapOf(pairs) ==> exists k :: 0 <= k < |pairs| && pairs[k].0 == key
  {
    if pairs != [] {
      var front := pairs[..|pairs| - 1];
      MapOfKeys(front);
      forall key | key in MapOf(pairs) ensures exists k :: 0 <= k < |pairs| && pairs[k].0 == key {
        if key in MapOf(front) {
          var k :| 0 <= k < |front| && front[k].0 == key;
          assert pairs[k].0 == key;
        } else {
          assert pairs[|pairs| - 1].0 == key;
        }
      }
    }
  }

  function WithWatch(watch: string, pairs: seq<Pair>): seq<Pair> { [("watch", watch)] + pairs }

  lemma {:induction false} RestIsDetail(watch: string, pairs: seq<Pair>)
    ensures "watch=" + watch + (if Detail(pairs) == [] then [] else " " + Detail(pairs))
         == Detail(WithWatch(watch, pairs))
  {
    var all := WithWatch(watch, pairs);
    if pairs == [] {
    } else {
      var front, last := pairs[..|pairs| - 1], pairs[|pairs| - 1];
      RestIsDetail(watch, front);
      assert all[..|all| - 1] == WithWatch(watch, front);
      assert |Token(last)| > 0;
      if front != [] { assert |Detail(front)| > 0; }
      var lead, end := "watch=" + watch, Token(last);
      assert lead + (" " + Detail(front)) + " " + end == lead + (" " + (Detail(front) + " " + end));
    }
  }

  /** Reading back a formatted line of `key=value` words. */
  lemma LineRoundTrip(codec: Codec, at: int, watch: string, event: string, pairs: seq<Pair>)
    requires codec.Faithful() && codec.Represents(at) && ':' !in event
    requires Solid(watch) && Tidy(pairs) && DistinctKeys(WithWatch(watch, pairs))
    ensures Reading(codec, FormatLine(codec.format(at), watch, event, Detail(pairs)))
         == Some(LogEvent(at, event, watch, MapOf(WithWatch(watch, pairs))))
    ensures forall k :: 0 <= k < |pairs| ==>
      pairs[k].0 in MapOf(WithWatch(watch, pairs)) && MapOf(WithWatch(watch, pairs))[pairs[k].0] == pairs[k].1
    ensures forall key :: key in MapOf(WithWatch(watch, pairs)) ==>
      key == "watch" || exists k :: 0 <= k < |pairs| && pairs[k].0 == key
  {
    hide Detail, Words, FieldsOf, Solid, Tidy, TidyPair, Reading, DistinctKeys, MapOf, WithWatch, Stamped;
    var all := WithWatch(watch, pairs);
    KeysOfWatched(watch, pairs);
    WithWatchIsTidy(watch, pairs);
    RestIsDetail(watch, pairs);
    StampedReads(codec, at, event, Detail(all));
    DetailReads(all);
  }

  lemma WithWatchIsTidy(watch: string, pairs: seq<Pair>)
    requires Solid(watch) && Tidy(pairs)
    ensures Tidy(WithWatch(watch, pairs))
  {
    hide Solid;
    var all := WithWatch(watch, pairs);
    assert TidyPair(all[0]) by { WatchIsTidy(watch); }
    forall k | 0 <= k < |all| ensures TidyPair(all[k]) {
      if k > 0 { assert all[k] == pairs[k - 1]; }
    }
  }

  lemma WatchIsTidy(watch: string)
    requires Solid(watch)
    ensures TidyPair(("watch", watch))
  {}

  lemma KeysOfWatched(watch: string, pairs: seq<Pair>)
    requires DistinctKeys(WithWatch(watch, pairs))
    ensures var m := MapOf(WithWatch(watch, pairs));
      && "watch" in m && m["watch"] == watch
      && (forall k :: 0 <= k < |pairs| ==> pairs[k].0 in m && m[pairs[k].0] == pairs[k].1)
      && (forall key :: key in m ==> key == "watch" || exists k :: 0 <= k < |pairs| && pairs[k].0 == key)
  {
    var all := WithWatch(watch, pairs);
    var m := MapOf(all);
    MapOfKeys(all);
    assert all[0] == ("watch", watch);
    forall k | 0 <= k < |pairs| ensures pairs[k].0 in m && m[pairs[k].0] == pairs[k].1 {
      assert all[k + 1] == pairs[k];
    }
    forall key | key in m && key != "watch" ensures exists k :: 0 <= k < |pairs| && pairs[k].0 == key {
      var j :| 0 <= j < |all| && all[j].0 == key;
      assert pairs[j - 1].0 == key;
    }
  }

  // ---- any detail ----

  lemma {:induction false} FieldsAreSolid(words: seq<string>)
    requires forall k :: 0 <= k < |words| ==> Solid(words[k])
    ensures forall key :: key in FieldsOf(words) ==> Solid(FieldsOf(words)[key])
  {
    if words != [] {
      FieldsAreSolid(words[..|words| - 1]);
      var last := words[|words| - 1];
      var pair := SplitOnce(last, "=");
      if pair.Some? {
        assert last[|pair.value.0| + 1..] == pair.value.1;
      }
    }
  }

  lemma {:induction false} KeyStays(words: seq<string>, k: nat, key: string)
    requires k < |words| && SplitOnce(words[k], "=").Some? && SplitOnce(words[k], "=").value.0 == key
    ensures key in FieldsOf(words)
  {
    hide SplitOnce;
    if k < |words| - 1 { KeyStays(words[..|words| - 1], k, key); }
  }

  /**
   * A formatted line is always read, with its own timestamp and event name. The watch that is read
   * differs from the one that was written when that name holds white space, and may do so when the
   * detail is free text.
   */
  lemma LineIsRead(codec: Codec, at: int, watch: string, event: string, detail: string)
    requires codec.Faithful() && codec.Represents(at) && ':' !in event
    ensures var r := Reading(codec, FormatLine(codec.format(at), watch, event, detail));
      r.Some? && r.value.timestamp == at && r.value.event == event && Solid(r.value.watch)
  {
    hide Words, FieldsOf, Reading;
    var rest := "watch=" + watch + if detail == [] then [] else " " + detail;
    StampedReads(codec, at, event, rest);
    FirstWordNamesTheWatch(watch + if detail == [] then [] else " " + detail);
    assert rest == "watch=" + (watch + if detail == [] then [] else " " + detail);
    FieldsAreSolid(Words(rest));
  }

  lemma FirstWordNamesTheWatch(tail: string)
    ensures "watch" in FieldsOf(Words("watch=" + tail))
  {
    var s := "watch=" + tail;
    var n := WordEnd(s);
    assert forall i :: 0 <= i < 6 ==> !Space(s[i]);
    var word := s[..n];
    assert word == "watch" + "=" + s[6..n];
    ClearOf("watch", "=");
    SplitOnceAt("watch", "=", s[6..n]);
    assert Words(s)[0] == word;
    KeyStays(Words(s), 0, "watch");
  }

  /** A line of `key=value` words gives its watch back exactly when the name has no white space. */
  lemma WatchSurvivesWhenSolid(codec: Codec, at: int, watch: string, event: string, pairs: seq<Pair>)
    requires codec.Faithful() && codec.Represents(at) && ':' !in event && Tidy(pairs) && DistinctKeys(WithWatch(watch, pairs))
    ensures var r := Reading(codec, FormatLine(codec.format(at), watch, event, Detail(pairs)));
      r.Some? && (r.value.watch == watch <==> Solid(watch))
  {
    LineIsRead(codec, at, watch, event, Detail(pairs));
    if Solid(watch) { LineRoundTrip(codec, at, watch, event, pairs); }
  }
}
