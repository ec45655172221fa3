/** The text visualizer dialog: which formats are offered for a text, which one is shown, and
    how the shown text is cut into numbered lines. */
module TextVisualizer {
  import opened Wrappers
  import opened Text

  const XmlFormat := "xml"
  const JsonFormat := "json"
  const PlaintextFormat := "plaintext"

  /** `StringLogLine`: one displayed line. */
  datatype LogLine = LogLine(lineNumber: nat, content: string, isFormatted: bool)

  // ---------------------------------------------------------------------------
  // Line splitting
  // ---------------------------------------------------------------------------

  predicate IsBreakChar(c: char) {
    c == '\r' || c == '\n'
  }

  /** `s.Split(["\r\n", "\r", "\n"], StringSplitOptions.None)`: at each position the separators
      are tried in that order, so `\r\n` is one break. */
  function SplitLines(s: string): (r: seq<string>)
    ensures |r| > 0
  {
    if |s| == 0 then [""]
    else if |s| > 1 && s[0] == '\r' && s[1] == '\n' then [""] + SplitLines(s[2..])
    else if IsBreakChar(s[0]) then [""] + SplitLines(s[1..])
    else
      var rest := SplitLines(s[1..]);
      [[s[0]] + rest[0]] + rest[1..]
  }

  /** The number of line breaks in `s`, a `\r\n` pair counting once. */
  function LineBreaks(s: string): nat {
    if |s| == 0 then 0
    else if |s| > 1 && s[0] == '\r' && s[1] == '\n' then 1 + LineBreaks(s[2..])
    else (if IsBreakChar(s[0]) then 1 else 0) + LineBreaks(s[1..])
  }

  /** There is one line more than there are breaks. */
  lemma {:induction false} SplitLinesCount(s: string)
    ensures |SplitLines(s)| == LineBreaks(s) + 1
  {
    if |s| > 1 && s[0] == '\r' && s[1] == '\n' {
      SplitLinesCount(s[2..]);
    } else if |s| > 0 {
      SplitLinesCount(s[1..]);
    }
  }

  /** No line contains a break character. */
  lemma {:induction false} SplitLinesHaveNoBreaks(s: string)
    ensures forall i, k :: 0 <= i < |SplitLines(s)| && 0 <= k < |SplitLines(s)[i]| ==> !IsBreakChar(SplitLines(s)[i][k])
  {
    if |s| > 1 && s[0] == '\r' && s[1] == '\n' {
      SplitLinesHaveNoBreaks(s[2..]);
    } else if |s| > 0 && IsBreakChar(s[0]) {
      SplitLinesHaveNoBreaks(s[1..]);
    } else if |s| > 0 {
      SplitLinesHaveNoBreaks(s[1..]);
      var rest := SplitLines(s[1..]);
      assert SplitLines(s) == [[s[0]] + rest[0]] + rest[1..];
      forall i, k | 0 <= i < |SplitLines(s)| && 0 <= k < |SplitLines(s)[i]|
        ensures !IsBreakChar(SplitLines(s)[i][k])
      {
        if i == 0 {
          if k > 0 { assert SplitLines(s)[0][k] == rest[0][k - 1]; }
        } else {
          assert SplitLines(s)[i] == rest[i];
        }
      }
    }
  }

  /** Without carriage returns the lines are exactly the pieces between the `\n`s, and joining
      them with `\n` gives the text back. */
  lemma {:induction false} SplitLinesRoundTrip(s: string)
    requires '\r' !in s
    ensures SplitLines(s) == Split(s, '\n')
    ensures Join("\n", SplitLines(s)) == s
  {
    SplitLinesIsSplit(s);
    JoinSplit(s, '\n');
  }

  lemma {:induction false} SplitLinesIsSplit(s: string)
    requires '\r' !in s
    ensures SplitLines(s) == Split(s, '\n')
  {
    if |s| > 0 {
      assert s[0] != '\r';
      assert '\r' !in s[1..] by {
        forall k | 0 <= k < |s[1..]| ensures s[1..][k] != '\r' { assert s[1..][k] == s[k + 1]; }
      }
      SplitLinesIsSplit(s[1..]);
    }
  }

  // ---------------------------------------------------------------------------
  // The dialog
  // ---------------------------------------------------------------------------

  class TextVisualizerDialog {
    /** `Content.Text`. */
    var contentText: string
    var enabledOptions: set<string>
    var formattedText: string
    var formatKind: string
    /** `FormatJson`: the indented rendering, or `None` where it throws a `JsonException`. */
    const formatJson: string -> Option<string>
    /** `XDocument.Parse(text).ToString()`, or `None` where it throws an `XmlException`. */
    const formatXml: string -> Option<string>

    /** The offered formats: always plain text, and at most one of JSON and XML. */
    ghost predicate Valid()
      reads this
    {
      PlaintextFormat in enabledOptions && enabledOptions <= {PlaintextFormat, JsonFormat, XmlFormat} &&
      !(JsonFormat in enabledOptions && XmlFormat in enabledOptions) &&
      formatKind in {PlaintextFormat, JsonFormat, XmlFormat}
    }

    constructor(formatJson: string -> Option<string>, formatXml: string -> Option<string>)
      ensures this.formatJson == formatJson && this.formatXml == formatXml
      ensures contentText == "" && enabledOptions == {} && formattedText == "" && formatKind == PlaintextFormat
    {
      this.formatJson := formatJson;
      this.formatXml := formatXml;
      contentText := "";
      enabledOptions := {};
      formattedText := "";
      formatKind := PlaintextFormat;
    }

    /** `TryFormatJson`: on success shows the formatted JSON; on failure changes nothing. */
    method TryFormatJson() returns (ok: bool)
      modifies this
      ensures ok == formatJson(contentText).Some?
      ensures ok ==> formattedText == formatJson(contentText).value && formatKind == JsonFormat
      ensures !ok ==> formattedText == old(formattedText) && formatKind == old(formatKind)
      ensures contentText == old(contentText) && enabledOptions == old(enabledOptions)
    {
      match formatJson(contentText)
      case Some(formatted) =>
        formattedText := formatted;
        formatKind := JsonFormat;
        ok := true;
      case None =>
        ok := false;
    }

    /** `TryFormatXml`: on success shows the formatted XML; on failure changes nothing. */
    method TryFormatXml() returns (ok: bool)
      modifies this
      ensures ok == formatXml(contentText).Some?
      ensures ok ==> formattedText == formatXml(contentText).value && formatKind == XmlFormat
      ensures !ok ==> formattedText == old(formattedText) && formatKind == old(formatKind)
      ensures contentText == old(contentText) && enabledOptions == old(enabledOptions)
    {
      match formatXml(contentText)
      case Some(formatted) =>
        formattedText := formatted;
        formatKind := XmlFormat;
        ok := true;
      case None =>
        ok := false;
    }

    /** `OnParametersSet` for the text `text`: JSON is tried first, then XML, else the raw text. */
    method OnParametersSet(text: string)
      modifies this
      ensures Valid() && contentText == text
      ensures formatJson(text).Some? ==>
                enabledOptions == {PlaintextFormat, JsonFormat} &&
                formatKind == JsonFormat && formattedText == formatJson(text).value
      ensures formatJson(text).None? && formatXml(text).Some? ==>
                enabledOptions == {PlaintextFormat, XmlFormat} &&
                formatKind == XmlFormat && formattedText == formatXml(text).value
      ensures formatJson(text).None? && formatXml(text).None? ==>
                enabledOptions == {PlaintextFormat} && formatKind == PlaintextFormat && formattedText == text
    {
      contentText := text;
      enabledOptions := {};
      enabledOptions := enabledOptions + {PlaintextFormat};
      var json := TryFormatJson();
      if json {
        enabledOptions := enabledOptions + {JsonFormat};
      } else {
        var xml := TryFormatXml();
        if xml {
          enabledOptions := enabledOptions + {XmlFormat};
        } else {
          formattedText := contentText;
          formatKind := PlaintextFormat;
        }
      }
    }

    /** `ChangeFormat`: XML and JSON keep the current display when their parse fails; any other
        id, null included, shows the raw text. The offered formats do not change. */
    method ChangeFormat(newFormat: Option<string>)
      requires Valid()
      modifies this
      ensures Valid() && enabledOptions == old(enabledOptions) && contentText == old(contentText)
      ensures newFormat == Some(XmlFormat) ==>
                if formatXml(contentText).Some?
                then formatKind == XmlFormat && formattedText == formatXml(contentText).value
                else formatKind == old(formatKind) && formattedText == old(formattedText)
      ensures newFormat == Some(JsonFormat) ==>
                if formatJson(contentText).Some?
                then formatKind == JsonFormat && formattedText == formatJson(contentText).value
                else formatKind == old(formatKind) && formattedText == old(formattedText)
      ensures newFormat != Some(XmlFormat) && newFormat != Some(JsonFormat) ==>
                formatKind == PlaintextFormat && formattedText == contentText
    {
      if newFormat == Some(XmlFormat) {
        var _ := TryFormatXml();
      } else if newFormat == Some(JsonFormat) {
        var _ := TryFormatJson();
      } else {
        formattedText := contentText;
        formatKind := PlaintextFormat;
      }
    }

    /** `GetLines`: the shown text cut at its line breaks, numbered from 0, flagged as formatted
        unless it is plain text. */
    function GetLines(): (r: seq<LogLine>)
      reads this
      ensures |r| == |SplitLines(formattedText)| == LineBreaks(formattedText) + 1
      ensures forall i :: 0 <= i < |r| ==>
                r[i].lineNumber == i && r[i].content == SplitLines(formattedText)[i] &&
                (r[i].isFormatted <==> formatKind != PlaintextFormat)
    {
      SplitLinesCount(formattedText);
      var lines := SplitLines(formattedText);
      var isFormatted := formatKind != PlaintextFormat;
      seq(|lines|, i requires 0 <= i < |lines| => LogLine(i, lines[i], isFormatted))
    }
  }
}
