/** The chain and log of the Azure hop (MuttrHop/index.js): the chain is a
    comma-separated list of `name(direction)` labels; the log travels as a
    JSON array of one-line records, and the decoder also reads the
    newline-separated form. */
module HopCodec {
  import opened Wrappers
  import opened Text
  import opened Json

  const ChainSeparator := ","

  /** `hopLabel`: `name(direction)`. */
  function HopLabel(name: string, direction: string): (r: string)
    ensures r != "" && r[|r| - 1] == ')'
    ensures ',' !in name && ',' !in direction ==> ',' !in r
  {
    name + "(" + direction + ")"
  }

  /** `newChain`: the label alone, or the prior chain, a comma and the label. */
  function NewChain(prior: string, tag: string): (r: string)
    ensures prior == "" ==> r == tag
    ensures prior != "" ==> prior + ChainSeparator <= r && r[|prior| + 1..] == tag
  {
    if prior != "" then prior + ChainSeparator + tag else tag
  }

  /** The labels a chain lists. */
  function ChainLabels(chain: string): seq<string>
  {
    if chain == "" then [] else Split(chain, ',')
  }

  /** A label a chain can list: non-empty and free of the separator. */
  predicate ChainLabel(tag: string)
  {
    tag != "" && ',' !in tag
  }

  /** A chain written from labels lists those labels. */
  lemma ChainOfLabels(labels: seq<string>)
    requires forall k :: 0 <= k < |labels| ==> ChainLabel(labels[k])
    ensures ChainLabels(Join(labels, ChainSeparator)) == labels
  {
    if labels != [] {
      JoinNonEmpty(labels, ChainSeparator);
      SplitJoin(labels, ',');
    }
  }

  /** Extending the chain of some labels lists exactly one label more, last. */
  lemma ChainGrowsByOne(labels: seq<string>, tag: string)
    requires forall k :: 0 <= k < |labels| ==> ChainLabel(labels[k])
    requires ChainLabel(tag)
    ensures NewChain(Join(labels, ChainSeparator), tag) == Join(labels + [tag], ChainSeparator)
    ensures ChainLabels(NewChain(Join(labels, ChainSeparator), tag)) == labels + [tag]
  {
    JoinSnoc(labels, tag, ChainSeparator);
    if labels != [] {
      JoinNonEmpty(labels, ChainSeparator);
    }
    assert NewChain(Join(labels, ChainSeparator), tag) == Join(labels + [tag], ChainSeparator);
    forall k | 0 <= k < |labels + [tag]|
      ensures ChainLabel((labels + [tag])[k])
    {
      if k < |labels| {
        assert (labels + [tag])[k] == labels[k];
      }
    }
    ChainOfLabels(labels + [tag]);
  }

  /** An entry of a JSON log array: a string as it is, any other value in
      its JSON text. */
  function EntryText(j: Json): string
  {
    if j.JStr? then j.s else Stringify(j)
  }

  /** The newline form: each line trimmed, empty lines dropped. */
  function LinesOf(s: string): (r: seq<string>)
    ensures forall k :: 0 <= k < |r| ==> r[k] != ""
  {
    DropEmpty(TrimAll(Split(s, '\n')))
  }

  /** `parseHopLogHeader`: never fails. A blank header is no lines; a JSON
      array gives one line per element, in order; anything else is read in
      the newline form. An absent header is "". */
  function ParseHopLogHeader(value: string, parse: Parser): (r: seq<string>)
    ensures Trim(value) == "" ==> r == []
    ensures Trim(value) != "" && parse(Trim(value)).Some? && parse(Trim(value)).value.JArr? ==>
      var items := parse(Trim(value)).value.items;
      |r| == |items| && forall k :: 0 <= k < |items| ==> r[k] == EntryText(items[k])
    ensures Trim(value) != "" && !(parse(Trim(value)).Some? && parse(Trim(value)).value.JArr?) ==>
      r == LinesOf(Trim(value))
  {
    var s := Trim(value);
    if s == "" then []
    else
      match parse(s)
      case Some(JArr(items)) => seq(|items|, k requires 0 <= k < |items| => EntryText(items[k]))
      case _ => LinesOf(s)
  }

  /** `JSON.stringify(lines)`: the header a hop sends. */
  function EncodeLog(lines: seq<string>): string
  {
    Stringify(StrArray(lines))
  }

  /** Decoding an encoded log gives back its lines, whatever they hold. */
  lemma DecodeEncode(lines: seq<string>, parse: Parser)
    requires ParseInvertsStringify(parse)
    ensures ParseHopLogHeader(EncodeLog(lines), parse) == lines
  {
    var j := StrArray(lines);
    StringifyBracketed(j);
    StrArrayPlain(lines);
    assert parse(Stringify(j)) == Some(j);
    var r := ParseHopLogHeader(EncodeLog(lines), parse);
    assert |r| == |lines|;
    forall k | 0 <= k < |lines| ensures r[k] == lines[k] {
      assert j.items[k] == JStr(lines[k]);
    }
  }

  /** A line with no white space at either end and no line feed. */
  predicate CleanLine(line: string)
  {
    line != [] && !IsSpace(line[0]) && !IsSpace(line[|line| - 1]) && '\n' !in line
  }

  /** The decoder reads a newline-separated log of clean lines, the form the
      Cloudflare worker sends, back into its lines. */
  lemma DecodeNewlineLog(lines: seq<string>, parse: Parser)
    requires |lines| >= 1 && forall k :: 0 <= k < |lines| ==> CleanLine(lines[k])
    requires var s := Join(lines, "\n"); !(parse(s).Some? && parse(s).value.JArr?)
    ensures ParseHopLogHeader(Join(lines, "\n"), parse) == lines
  {
    var s := Join(lines, "\n");
    JoinEnds(lines, "\n");
    TrimOfTrimmed(s);
    SplitJoin(lines, '\n');
    TrimAllClean(lines);
  }

  /** Clean lines are their own trims. */
  lemma {:induction false} TrimAllClean(lines: seq<string>)
    requires forall k :: 0 <= k < |lines| ==> CleanLine(lines[k])
    ensures TrimAll(lines) == lines
  {
    if lines != [] {
      TrimOfTrimmed(lines[0]);
      TrimAllClean(lines[1..]);
      assert TrimAll(lines) == [Trim(lines[0])] + TrimAll(lines[1..]);
    }
  }

  /** A join of non-empty parts starts where the first part starts and ends
      where the last part ends. */
  lemma {:induction false} JoinEnds(xs: seq<string>, sep: string)
    requires |xs| >= 1 && forall k :: 0 <= k < |xs| ==> xs[k] != ""
    ensures var s := Join(xs, sep); s != [] && s[0] == xs[0][0] && s[|s| - 1] == xs[|xs| - 1][|xs[|xs| - 1]| - 1]
  {
    if |xs| > 1 {
      JoinEnds(xs[1..], sep);
    }
  }

  /** `delay_ms` as `JSON.stringify` writes `parseInt(DELAY_MS || "0", 10)`:
      the integer, or `null` when it is not a number. */
  function DelayJson(delay: Option<int>): (j: Json)
    ensures delay.None? ==> j == JNull
    ensures delay.Some? ==> j.JNum? && j.text == IntToString(delay.value)
  {
    match delay
    case None => JNull
    case Some(n) =>
      var t := IntToString(n);
      assert IsNumeral(t) by {
        var d := NatToString(if n < 0 then -n else n);
        assert t == (if n < 0 then "-" + d else d);
      }
      JNum(t)
  }

  /** The record a hop logs for its visit. */
  function LogRecord(name: string, direction: string, path: string, delay: Option<int>, chain: string, timestamp: string): Json
  {
    JObj([("hop", JStr(name)), ("direction", JStr(direction)), ("path", JStr(path)),
          ("delay_ms", DelayJson(delay)), ("chain", JStr(chain)), ("timestamp", JStr(timestamp))])
  }

  /** `currentHopLogLine`: the record on one line. */
  function LogLine(name: string, direction: string, path: string, delay: Option<int>, chain: string, timestamp: string): (r: string)
    ensures CleanLine(r) && r[0] == '{'
  {
    var j := LogRecord(name, direction, path, delay, chain, timestamp);
    StringifyBracketed(j);
    StringifyNoLineFeed(j);
    Stringify(j)
  }

  /** `newLogLines`: the decoded prior log and this hop's line. */
  function NewLogLines(prior: string, line: string, parse: Parser): (r: seq<string>)
    ensures |r| == |ParseHopLogHeader(prior, parse)| + 1
    ensures r[..|r| - 1] == ParseHopLogHeader(prior, parse) && r[|r| - 1] == line
  {
    ParseHopLogHeader(prior, parse) + [line]
  }

  /** The log header a hop passes on decodes to exactly one line more than
      it received, its own line last. */
  lemma LogGrowsByOne(prior: string, line: string, parse: Parser)
    requires ParseInvertsStringify(parse)
    ensures ParseHopLogHeader(EncodeLog(NewLogLines(prior, line, parse)), parse) == ParseHopLogHeader(prior, parse) + [line]
  {
    DecodeEncode(NewLogLines(prior, line, parse), parse);
  }
}
