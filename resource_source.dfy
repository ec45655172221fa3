/** The "Source" column of the resources page: which of a resource's origins is shown
    (project, executable, container image, or a `resource.source` property), and how an
    executable's arguments are quoted into one command line. */
module ResourceSource {
  import opened Wrappers
  import opened Text
  import ResourceModel

  /** True when `c` occurs in `s`. */
  predicate Has(s: string, c: char) {
    exists i :: 0 <= i < |s| && s[i] == c
  }

  /** Whether an argument must be quoted: it contains a space, a double quote or a
      backslash. Other characters (tabs, line breaks) are not considered. */
  predicate NeedsQuoting(argument: string) {
    Has(argument, ' ') || Has(argument, '"') || Has(argument, '\\')
  }

  /** The inside of a quoted argument: each backslash and each double quote is preceded by
      a backslash; every other character is copied. */
  function EscapedBody(argument: string): string {
    if |argument| == 0 then ""
    else
      var c := argument[0];
      (if c == '\\' then "\\\\" else if c == '"' then "\\\"" else [c]) + EscapedBody(argument[1..])
  }

  /** The quoting rule of `EscapeCommandLineArgument`. */
  function EscapedArgument(argument: string): string {
    if |argument| == 0 then "\"\""
    else if NeedsQuoting(argument) then "\"" + EscapedBody(argument) + "\""
    else argument
  }

  lemma {:induction false} EscapedBodyAppend(a: string, c: char)
    ensures EscapedBody(a + [c]) ==
            EscapedBody(a) + (if c == '\\' then "\\\\" else if c == '"' then "\\\"" else [c])
    decreases |a|
  {
    if |a| == 0 {
      assert a + [c] == [c];
    } else {
      assert (a + [c])[1..] == a[1..] + [c];
      EscapedBodyAppend(a[1..], c);
    }
  }

  /** `EscapeCommandLineArgument`, with the string builder as a growing sequence. */
  method EscapeCommandLineArgument(argument: string) returns (r: string)
    ensures r == EscapedArgument(argument)
  {
    if |argument| == 0 {
      return "\"\"";
    }
    if NeedsQuoting(argument) {
      var escapedArgument := "\"";
      var i := 0;
      while i < |argument|
        invariant 0 <= i <= |argument|
        invariant escapedArgument == "\"" + EscapedBody(argument[..i])
      {
        var c := argument[i];
        EscapedBodyAppend(argument[..i], c);
        assert argument[..i + 1] == argument[..i] + [c];
        if c == '\\' {
          escapedArgument := escapedArgument + ['\\'] + ['\\'];
        } else if c == '"' {
          escapedArgument := escapedArgument + ['\\'] + ['"'];
        } else {
          escapedArgument := escapedArgument + [c];
        }
        i := i + 1;
      }
      assert argument[..i] == argument;
      escapedArgument := escapedArgument + ['"'];
      return escapedArgument;
    }
    return argument;
  }

  // ----- Reading a command line back: the reference against which quoting is judged -----

  /** Reads the inside of a quoted argument up to its closing quote: a backslash takes the
      next character literally. Returns the argument and what follows the closing quote. */
  function ReadQuoted(t: string): (r: (string, string))
    ensures |r.1| <= |t|
  {
    if |t| == 0 then ("", "")
    else if t[0] == '"' then ("", t[1..])
    else if t[0] == '\\' && |t| >= 2 then
      var rest := ReadQuoted(t[2..]);
      ([t[1]] + rest.0, rest.1)
    else
      var rest := ReadQuoted(t[1..]);
      ([t[0]] + rest.0, rest.1)
  }

  /** Reads an unquoted argument up to the next space. */
  function ReadBare(t: string): (r: (string, string))
    ensures |r.1| <= |t|
  {
    if |t| == 0 || t[0] == ' ' then ("", t)
    else
      var rest := ReadBare(t[1..]);
      ([t[0]] + rest.0, rest.1)
  }

  function ReadArgument(t: string): (r: (string, string))
    ensures |r.1| <= |t|
  {
    if |t| > 0 && t[0] == '"' then ReadQuoted(t[1..]) else ReadBare(t)
  }

  /** Splits a command line into arguments separated by single spaces. */
  function SplitCommandLine(t: string): seq<string>
    decreases |t|
  {
    var (argument, rest) := ReadArgument(t);
    if |rest| > 0 && rest[0] == ' ' then [argument] + SplitCommandLine(rest[1..]) else [argument]
  }

  lemma {:induction false} ReadQuotedEscapedBody(a: string, rest: string)
    ensures ReadQuoted(EscapedBody(a) + "\"" + rest) == (a, rest)
    decreases |a|
  {
    if |a| == 0 {
      assert EscapedBody(a) + "\"" + rest == "\"" + rest;
    } else {
      var c := a[0];
      var tail := EscapedBody(a[1..]) + "\"" + rest;
      ReadQuotedEscapedBody(a[1..], rest);
      var prefix := if c == '\\' then "\\\\" else if c == '"' then "\\\"" else [c];
      assert EscapedBody(a) == prefix + EscapedBody(a[1..]);
      var t := prefix + tail;
      assert EscapedBody(a) + "\"" + rest == t;
      if c == '\\' || c == '"' {
        assert t[0] == '\\' && t[1] == c && |t| >= 2 && t[2..] == tail;
        assert ReadQuoted(t) == ([c] + ReadQuoted(tail).0, ReadQuoted(tail).1);
      } else {
        assert t[0] == c && t[1..] == tail;
        assert ReadQuoted(t) == ([c] + ReadQuoted(tail).0, ReadQuoted(tail).1);
      }
      assert a == [c] + a[1..];
    }
  }

  lemma {:induction false} ReadBareWord(a: string, rest: string)
    requires !Has(a, ' ')
    requires |rest| == 0 || rest[0] == ' '
    ensures ReadBare(a + rest) == (a, rest)
    decreases |a|
  {
    if |a| == 0 {
      assert a + rest == rest;
    } else {
      assert !Has(a[1..], ' ') by {
        forall i | 0 <= i < |a[1..]| ensures a[1..][i] != ' ' {
          assert a[1..][i] == a[i + 1];
        }
      }
      assert a[0] != ' ';
      assert (a + rest)[1..] == a[1..] + rest;
      ReadBareWord(a[1..], rest);
      assert a == [a[0]] + a[1..];
    }
  }

  /** Reading the quoted form of an argument gives the argument back, and stops right
      where the quoted form ends. */
  lemma ReadEscapedArgument(a: string, rest: string)
    requires |rest| == 0 || rest[0] == ' '
    ensures ReadArgument(EscapedArgument(a) + rest) == (a, rest)
  {
    var e := EscapedArgument(a);
    if |a| == 0 {
      assert e + rest == "\"" + ("\"" + rest);
      assert ReadArgument(e + rest) == ReadQuoted("\"" + rest);
      assert ReadQuoted("\"" + rest) == ("", rest);
    } else if NeedsQuoting(a) {
      assert e + rest == "\"" + (EscapedBody(a) + "\"" + rest);
      assert ReadArgument(e + rest) == ReadQuoted(EscapedBody(a) + "\"" + rest);
      ReadQuotedEscapedBody(a, rest);
    } else {
      assert a[0] != '"';
      assert ReadArgument(e + rest) == ReadBare(a + rest);
      ReadBareWord(a, rest);
    }
  }

  /** Quoting every argument and joining them with spaces loses nothing: splitting the
      command line gives the arguments back. */
  lemma {:induction false} SplitJoinedArguments(arguments: seq<string>)
    requires |arguments| > 0
    ensures SplitCommandLine(Join(" ", EscapeAll(arguments))) == arguments
    decreases |arguments|
  {
    var e := EscapedArgument(arguments[0]);
    if |arguments| == 1 {
      assert Join(" ", EscapeAll(arguments)) == e + "";
      ReadEscapedArgument(arguments[0], "");
    } else {
      var tail := Join(" ", EscapeAll(arguments[1..]));
      assert EscapeAll(arguments)[1..] == EscapeAll(arguments[1..]);
      assert Join(" ", EscapeAll(arguments)) == e + (" " + tail);
      ReadEscapedArgument(arguments[0], " " + tail);
      assert (" " + tail)[1..] == tail;
      SplitJoinedArguments(arguments[1..]);
    }
  }

  function EscapeAll(arguments: seq<string>): (r: seq<string>)
    ensures |r| == |arguments|
    ensures forall i :: 0 <= i < |arguments| ==> r[i] == EscapedArgument(arguments[i])
  {
    if |arguments| == 0 then [] else [EscapedArgument(arguments[0])] + EscapeAll(arguments[1..])
  }

  // ----- The resource's origins and the chosen source -----

  /** What the resource's snapshot offers. Each `TryGet…` call becomes an optional value;
      `executableArguments` is `None` when the property is absent and `Some([])` when the
      array is empty or default. */
  datatype ResourceOrigins = ResourceOrigins(
    isProject: bool,
    executablePath: Option<string>,
    executableArguments: Option<seq<string>>,
    projectPath: Option<string>,
    containerImage: Option<string>,
    sourceProperty: Option<ResourceModel.PropertyValue>)

  /** The tuple `GetCommandLineInfo` returns. */
  datatype CommandLineInfo = CommandLineInfo(
    arguments: Option<seq<string>>,
    argumentsString: Option<string>,
    fullCommandLine: string)

  datatype SourceView = SourceView(
    value: string,
    contentAfterValue: Option<string>,
    valueToVisualize: string,
    tooltip: string)

  /** `GetCommandLineInfo`. */
  function GetCommandLineInfo(origins: ResourceOrigins, executablePath: string): (r: Option<CommandLineInfo>)
    ensures origins.executableArguments.None? <==> r.None?
    ensures origins.executableArguments == Some([]) ==>
              r == Some(CommandLineInfo(None, None, executablePath))
    ensures origins.executableArguments.Some? && |origins.executableArguments.value| > 0 ==>
              r.Some? && r.value.arguments.Some? && r.value.argumentsString.Some? &&
              r.value.arguments.value == EscapeAll(origins.executableArguments.value) &&
              r.value.fullCommandLine == executablePath + " " + r.value.argumentsString.value &&
              SplitCommandLine(r.value.argumentsString.value) == origins.executableArguments.value
  {
    match origins.executableArguments
    case None => None
    case Some(arguments) =>
      if |arguments| == 0 then Some(CommandLineInfo(None, None, executablePath))
      else
        var escapedArguments := EscapeAll(arguments);
        var argumentsString := Join(" ", escapedArguments);
        SplitJoinedArguments(arguments);
        Some(CommandLineInfo(Some(escapedArguments), Some(argumentsString), executablePath + " " + argumentsString))
  }

  /** The arguments DCP puts before the project path of a project it runs. */
  const DcpDefaultArguments: seq<string> := ["run", "--no-build", "--project"]

  /** Hiding DCP's defaults: when the arguments start with them and go on, the defaults and
      the project path after them are dropped. */
  function VisibleArgumentsString(arguments: seq<string>, argumentsString: string): (r: string)
    ensures |arguments| > |DcpDefaultArguments| && arguments[..|DcpDefaultArguments|] == DcpDefaultArguments ==>
              r == Join(" ", arguments[|DcpDefaultArguments| + 1..])
    ensures !(|arguments| > |DcpDefaultArguments| && arguments[..|DcpDefaultArguments|] == DcpDefaultArguments) ==>
              r == argumentsString
  {
    if |arguments| > |DcpDefaultArguments| && arguments[..|DcpDefaultArguments|] == DcpDefaultArguments then
      Join(" ", arguments[|DcpDefaultArguments| + 1..])
    else argumentsString
  }

  /** `GetSourceViewModel`. `fileName` is `Path.GetFileName`, whose separator rules depend
      on the operating system. */
  function GetSourceViewModel(origins: ResourceOrigins, fileName: string -> string): (r: Option<SourceView>)
    // Projects are also executables, so the project test comes first.
    ensures origins.isProject && origins.projectPath.Some? ==>
              r.Some? && r.value.value == fileName(origins.projectPath.value)
    // A project without an executable command line falls back to its project path.
    ensures origins.isProject && origins.projectPath.Some? &&
            (origins.executablePath.None? || origins.executableArguments.None? ||
             origins.executableArguments == Some([])) ==>
              r.value.valueToVisualize == origins.projectPath.value &&
              r.value.tooltip == origins.projectPath.value &&
              r.value.contentAfterValue.None?
    // A project with a command line shows its file name, the arguments with DCP's defaults
    // hidden, and the full command line.
    ensures origins.isProject && origins.projectPath.Some? && origins.executablePath.Some? &&
            origins.executableArguments.Some? && |origins.executableArguments.value| > 0 ==>
              var info := GetCommandLineInfo(origins, origins.executablePath.value).value;
              r == Some(SourceView(
                fileName(origins.projectPath.value),
                Some(VisibleArgumentsString(info.arguments.value, info.argumentsString.value)),
                info.fullCommandLine,
                info.fullCommandLine))
    // An executable shows its file name and its full command line.
    ensures !(origins.isProject && origins.projectPath.Some?) && origins.executablePath.Some? ==>
              var info := GetCommandLineInfo(origins, origins.executablePath.value);
              r == Some(SourceView(
                fileName(origins.executablePath.value),
                if info.Some? then info.value.argumentsString else None,
                if info.Some? then info.value.fullCommandLine else origins.executablePath.value,
                if info.Some? then info.value.fullCommandLine else ""))
    // Then the container image, then a string-valued source property; otherwise nothing.
    ensures !(origins.isProject && origins.projectPath.Some?) && origins.executablePath.None? &&
            origins.containerImage.Some? ==>
              var image := origins.containerImage.value;
              r == Some(SourceView(image, None, image, image))
    ensures !(origins.isProject && origins.projectPath.Some?) && origins.executablePath.None? &&
            origins.containerImage.None? ==>
              match origins.sourceProperty
              case Some(StringValue(s)) => r == Some(SourceView(s, None, s, s))
              case _ => r.None?
  {
    var info := if origins.executablePath.Some? then GetCommandLineInfo(origins, origins.executablePath.value) else None;
    if origins.isProject && origins.projectPath.Some? then
      var projectPath := origins.projectPath.value;
      if info.Some? && info.value.arguments.Some? && info.value.argumentsString.Some? then
        var arguments := info.value.arguments.value;
        var contentAfterValue := VisibleArgumentsString(arguments, info.value.argumentsString.value);
        Some(SourceView(fileName(projectPath), Some(contentAfterValue), info.value.fullCommandLine, info.value.fullCommandLine))
      else
        Some(SourceView(fileName(projectPath), if info.Some? then info.value.argumentsString else None, projectPath, projectPath))
    else if origins.executablePath.Some? then
      Some(SourceView(
        fileName(origins.executablePath.value),
        if info.Some? then info.value.argumentsString else None,
        if info.Some? then info.value.fullCommandLine else origins.executablePath.value,
        if info.Some? then info.value.fullCommandLine else ""))
    else if origins.containerImage.Some? then
      var image := origins.containerImage.value;
      Some(SourceView(image, None, image, image))
    else
      match origins.sourceProperty
      case Some(StringValue(s)) => Some(SourceView(s, None, s, s))
      case _ => None
  }

  /** A project run by DCP: the column shows the project's file name followed by exactly the
      arguments the user gave after DCP's defaults and the project path, and the tooltip is
      the whole command line. */
  lemma ProjectSourceHidesDcpDefaults(origins: ResourceOrigins, fileName: string -> string, userArguments: seq<string>)
    requires origins.isProject && origins.projectPath.Some? && origins.executablePath.Some?
    requires origins.executableArguments == Some(DcpDefaultArguments + [origins.projectPath.value] + userArguments)
    requires |userArguments| > 0
    ensures var r := GetSourceViewModel(origins, fileName);
            r.Some? && r.value.value == fileName(origins.projectPath.value) &&
            r.value.contentAfterValue.Some? &&
            SplitCommandLine(r.value.contentAfterValue.value) == userArguments &&
            r.value.tooltip == r.value.valueToVisualize &&
            r.value.tooltip == origins.executablePath.value + " " +
                               Join(" ", EscapeAll(origins.executableArguments.value))
  {
    var arguments := origins.executableArguments.value;
    var escaped := EscapeAll(arguments);
    assert EscapedArgument("run") == "run";
    assert EscapedArgument("--no-build") == "--no-build" by {
      assert !NeedsQuoting("--no-build");
    }
    assert EscapedArgument("--project") == "--project" by {
      assert !NeedsQuoting("--project");
    }
    assert escaped[..3] == DcpDefaultArguments;
    assert arguments[4..] == userArguments;
    assert escaped[4..] == EscapeAll(userArguments);
    SplitJoinedArguments(userArguments);
  }

  /** A project run by DCP with no user arguments: after the defaults and the project path
      nothing is left, so the column shows an empty argument string. */
  lemma ProjectWithOnlyDcpDefaultsShowsNoArguments(origins: ResourceOrigins, fileName: string -> string)
    requires origins.isProject && origins.projectPath.Some? && origins.executablePath.Some?
    requires origins.executableArguments == Some(DcpDefaultArguments + [origins.projectPath.value])
    ensures var r := GetSourceViewModel(origins, fileName);
            r.Some? && r.value.contentAfterValue == Some("")
  {
    var escaped := EscapeAll(origins.executableArguments.value);
    assert EscapedArgument("run") == "run";
    assert EscapedArgument("--no-build") == "--no-build" by {
      assert !NeedsQuoting("--no-build");
    }
    assert EscapedArgument("--project") == "--project" by {
      assert !NeedsQuoting("--project");
    }
    assert escaped[..3] == DcpDefaultArguments;
    assert escaped[4..] == [];
  }

  /** A project whose arguments do not start with DCP's defaults followed by something more
      shows all of them, quoted as on the command line, and the tooltip is the whole line. */
  lemma ProjectWithOtherArgumentsShowsThemAll(origins: ResourceOrigins, fileName: string -> string)
    requires origins.isProject && origins.projectPath.Some? && origins.executablePath.Some?
    requires origins.executableArguments.Some? && |origins.executableArguments.value| > 0
    requires var arguments := origins.executableArguments.value;
             !(|arguments| > |DcpDefaultArguments| && arguments[..|DcpDefaultArguments|] == DcpDefaultArguments)
    ensures var r := GetSourceViewModel(origins, fileName);
            var shown := Join(" ", EscapeAll(origins.executableArguments.value));
            r.Some? && r.value.contentAfterValue == Some(shown) &&
            SplitCommandLine(shown) == origins.executableArguments.value &&
            r.value.tooltip == r.value.valueToVisualize &&
            r.value.tooltip == origins.executablePath.value + " " + shown
  {
    var arguments := origins.executableArguments.value;
    if |arguments| > |DcpDefaultArguments| {
      EscapedDefaultsAreDefaults(arguments);
    }
  }

  /** Only DCP's defaults themselves escape to DCP's defaults. */
  lemma EscapedDefaultsAreDefaults(arguments: seq<string>)
    requires |arguments| > |DcpDefaultArguments|
    ensures EscapeAll(arguments)[..|DcpDefaultArguments|] == DcpDefaultArguments ==>
              arguments[..|DcpDefaultArguments|] == DcpDefaultArguments
  {
    var escaped := EscapeAll(arguments);
    var d := DcpDefaultArguments;
    if escaped[..3] == d {
      forall i | 0 <= i < 3
        ensures arguments[i] == d[i]
      {
        assert escaped[i] == escaped[..3][i] == d[i];
        assert escaped[i] == EscapedArgument(arguments[i]);
        EscapedPlainWord(arguments[i], d[i]);
      }
      assert arguments[..3] == d;
    }
  }

  /** Each of DCP's default arguments is the escaped form only of itself: none of them starts
      with a double quote. */
  lemma EscapedPlainWord(a: string, w: string)
    requires w in DcpDefaultArguments
    ensures EscapedArgument(a) == w ==> a == w
  {
    if |a| > 0 && NeedsQuoting(a) {
      assert EscapedArgument(a)[0] == '"';
    }
  }
}
