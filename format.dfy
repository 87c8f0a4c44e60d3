/** The formatter of the debug logger: the line one unfiltered call writes. */
module Format {
  import opened Levels

  /** An extra argument of a log call: the JavaScript values a caller passes.
      Numbers are kept as integers; their text comes from the renderer. */
  datatype Value =
    | Undefined
    | Null
    | Boolean(b: bool)
    | Number(n: int)
    | Text(s: string)
    | Array(items: seq<Value>)
    | Object(fields: seq<(string, Value)>)
    | Function(source: string)

  /** JavaScript's `typeof`. Like the language, it calls null "object". */
  function TypeOf(v: Value): string
  {
    match v
    case Undefined => "undefined"
    case Null => "object"
    case Boolean(_) => "boolean"
    case Number(_) => "number"
    case Text(_) => "string"
    case Array(_) => "object"
    case Object(_) => "object"
    case Function(_) => "function"
  }

  /** The host's two renderings of a value: JSON serialisation and plain
      string conversion. */
  datatype Renderer = Renderer(json: Value -> string, text: Value -> string)

  /** How one extra argument is written: JSON for null, arrays and objects,
      plain text for everything else. */
  function RenderArg(v: Value, r: Renderer): (s: string)
    ensures v.Null? || v.Array? || v.Object? ==> s == r.json(v)
    ensures !(v.Null? || v.Array? || v.Object?) ==> s == r.text(v)
  {
    if TypeOf(v) == "object" then r.json(v) else r.text(v)
  }

  /** The rendered arguments, one per argument, in the order given. */
  function RenderAll(args: seq<Value>, r: Renderer): (parts: seq<string>)
    ensures |parts| == |args|
    ensures forall i :: 0 <= i < |args| ==> parts[i] == RenderArg(args[i], r)
  {
    if args == [] then [] else [RenderArg(args[0], r)] + RenderAll(args[1..], r)
  }

  /** The parts with `sep` between each neighbouring pair. */
  function Join(parts: seq<string>, sep: string): string
  {
    if parts == [] then ""
    else if |parts| == 1 then parts[0]
    else parts[0] + sep + Join(parts[1..], sep)
  }

  /** The bracketed prefix: timestamp, resource name, category and level. */
  function Prefix(timestamp: string, resourceName: string, category: DebugModule, level: LogLevel): string
  {
    "[" + timestamp + "] [" + resourceName + "] [" + ModuleTag(category) + "] [" + LevelTag(level) + "]"
  }

  /** The line written for one call. */
  function FormatMessage(timestamp: string, resourceName: string, category: DebugModule, level: LogLevel,
                         message: string, args: seq<Value>, r: Renderer): string
  {
    var formattedMessage := Prefix(timestamp, resourceName, category, level) + " " + message;
    if |args| > 0 then formattedMessage + " " + Join(RenderAll(args, r), " ")
    else formattedMessage
  }

  /** Reference reading of the tail of a line: each part preceded by one space. */
  function SpaceEach(parts: seq<string>): string
  {
    if parts == [] then "" else " " + parts[0] + SpaceEach(parts[1..])
  }

  /** A space followed by the space-joined parts is each part preceded by a space. */
  lemma {:induction false} JoinIsSpaceEach(parts: seq<string>)
    requires parts != []
    ensures " " + Join(parts, " ") == SpaceEach(parts)
  {
    if |parts| == 1 {
      assert parts[1..] == [];
    } else {
      JoinIsSpaceEach(parts[1..]);
    }
  }

  /** Joining one more part at the end adds the separator and that part. */
  lemma {:induction false} JoinAppend(parts: seq<string>, p: string, sep: string)
    requires parts != []
    ensures Join(parts + [p], sep) == Join(parts, sep) + sep + p
  {
    if |parts| == 1 {
      assert (parts + [p])[1..] == [p];
    } else {
      assert (parts + [p])[1..] == parts[1..] + [p];
      JoinAppend(parts[1..], p, sep);
    }
  }

  /** The shape of every line: the prefix, one space, the message, and then
      each rendered argument in order, each preceded by exactly one space. */
  lemma FormatShape(timestamp: string, resourceName: string, category: DebugModule, level: LogLevel,
                    message: string, args: seq<Value>, r: Renderer)
    ensures FormatMessage(timestamp, resourceName, category, level, message, args, r) ==
      "[" + timestamp + "] [" + resourceName + "] [" + ModuleTag(category) + "] [" + LevelTag(level) + "] "
      + message + SpaceEach(RenderAll(args, r))
  {
    if |args| > 0 {
      JoinIsSpaceEach(RenderAll(args, r));
    }
  }

  /** Without extra arguments the line ends with the message: no trailing space. */
  lemma FormatWithoutArgs(timestamp: string, resourceName: string, category: DebugModule, level: LogLevel,
                          message: string, r: Renderer)
    ensures FormatMessage(timestamp, resourceName, category, level, message, [], r) ==
      "[" + timestamp + "] [" + resourceName + "] [" + ModuleTag(category) + "] [" + LevelTag(level) + "] " + message
  {
  }

  /** Passing one more argument appends one space and that argument's rendering
      to the line and changes nothing before it. */
  lemma FormatAppendArg(timestamp: string, resourceName: string, category: DebugModule, level: LogLevel,
                        message: string, args: seq<Value>, a: Value, r: Renderer)
    ensures FormatMessage(timestamp, resourceName, category, level, message, args + [a], r) ==
      FormatMessage(timestamp, resourceName, category, level, message, args, r) + " " + RenderArg(a, r)
  {
    var parts := RenderAll(args, r);
    assert RenderAll(args + [a], r) == parts + [RenderArg(a, r)];
    if |args| > 0 {
      JoinAppend(parts, RenderArg(a, r), " ");
    } else {
      assert parts + [RenderArg(a, r)] == [RenderArg(a, r)];
    }
  }

  /** The worked example: a server error "Boom" with one object argument. */
  lemma BoomExample(timestamp: string, resourceName: string, r: Renderer)
    ensures FormatMessage(timestamp, resourceName, Server, Error, "Boom", [Object([("code", Number(42))])], r) ==
      "[" + timestamp + "] [" + resourceName + "] [SERVER] [ERROR] Boom " + r.json(Object([("code", Number(42))]))
  {
  }

  /** The string arguments built from `strings`. */
  function TextArgs(strings: seq<string>): (args: seq<Value>)
    ensures |args| == |strings|
    ensures forall i :: 0 <= i < |strings| ==> args[i] == Text(strings[i])
  {
    if strings == [] then [] else [Text(strings[0])] + TextArgs(strings[1..])
  }

  /** Strings are written as they are: with a renderer whose plain conversion
      of a string is that string, any sequence of string arguments follows
      the message verbatim, in order, each string preceded by one space. */
  lemma StringArgsVerbatim(timestamp: string, resourceName: string, category: DebugModule, level: LogLevel,
                           message: string, strings: seq<string>, r: Renderer)
    requires forall s :: r.text(Text(s)) == s
    ensures FormatMessage(timestamp, resourceName, category, level, message, TextArgs(strings), r) ==
      Prefix(timestamp, resourceName, category, level) + " " + message + SpaceEach(strings)
  {
    var args := TextArgs(strings);
    var parts := RenderAll(args, r);
    forall i | 0 <= i < |strings|
      ensures parts[i] == strings[i]
    {
      assert args[i] == Text(strings[i]);
      assert parts[i] == r.text(Text(strings[i]));
    }
    assert parts == strings;
    FormatShape(timestamp, resourceName, category, level, message, args, r);
  }
}
