/**
 * The console logger of the command-line pipeline: one line per call, made of the level
 * in brackets, the logger's context in brackets when it has one, and the content.
 */
module Logging {
  import Base

  datatype Level = Debug | Info | Warn | Error

  function LevelName(level: Level): string
  {
    match level
    case Debug => "debug"
    case Info => "info"
    case Warn => "warn"
    case Error => "error"
  }

  /** The line `log` writes. */
  function Format(context: Base.Option<string>, level: Level, content: string): string
  {
    "[" + LevelName(level) + "]" + (if context.Some? then " [" + context.value + "]" else "") + " " + content
  }

  /** The level a line starts with, read back from its leading `[<level>]`. */
  function LevelOf(line: string): Base.Option<Level>
  {
    if "[debug]" <= line then Base.Some(Debug)
    else if "[info]" <= line then Base.Some(Info)
    else if "[warn]" <= line then Base.Some(Warn)
    else if "[error]" <= line then Base.Some(Error)
    else Base.None
  }

  lemma FormatStart(context: Base.Option<string>, level: Level, content: string)
    ensures "[" + LevelName(level) + "]" <= Format(context, level, content)
  {
    var head := "[" + LevelName(level) + "]";
    var rest := (if context.Some? then " [" + context.value + "]" else "") + " " + content;
    assert Format(context, level, content) == head + rest;
  }

  /** The level can be read back from every line, whatever the context and content. */
  lemma LevelRecoverable(context: Base.Option<string>, level: Level, content: string)
    ensures LevelOf(Format(context, level, content)) == Base.Some(level)
  {
    var line := Format(context, level, content);
    FormatStart(context, level, content);
    match level
    case Debug =>
    case Info =>
      assert line[1] == 'i';
    case Warn =>
      assert line[1] == 'w';
    case Error =>
      assert line[1] == 'e';
  }

  /** The content ends the line, after one space. */
  lemma ContentEndsLine(context: Base.Option<string>, level: Level, content: string)
    ensures var line := Format(context, level, content);
            |line| > |content| && line[|line| - |content| - 1..] == " " + content
  {
    var head := "[" + LevelName(level) + "]" + (if context.Some? then " [" + context.value + "]" else "");
    assert Format(context, level, content) == head + (" " + content);
  }

  /** The context segment is left out only for a missing context: an empty context still
      writes ` []`, three characters more. */
  lemma EmptyContextWritten(level: Level, content: string)
    ensures |Format(Base.Some(""), level, content)| == |Format(Base.None, level, content)| + 3
  {
  }

  /** `Logger`: a context fixed at construction, and the lines written so far standing in
      for the console. */
  class Logger {
    const context: Base.Option<string>
    var lines: seq<string>

    constructor(context: Base.Option<string>)
      ensures this.context == context && lines == []
    {
      this.context := context;
      lines := [];
    }

    /** `log`: exactly one line is written. */
    method Log(level: Level, content: string)
      modifies this`lines
      ensures lines == old(lines) + [Format(context, level, content)]
    {
      lines := lines + [Format(context, level, content)];
    }

    method Debug(content: string)
      modifies this`lines
      ensures lines == old(lines) + [Format(context, Level.Debug, content)]
    {
      Log(Level.Debug, content);
    }

    method Info(content: string)
      modifies this`lines
      ensures lines == old(lines) + [Format(context, Level.Info, content)]
    {
      Log(Level.Info, content);
    }

    method Warn(content: string)
      modifies this`lines
      ensures lines == old(lines) + [Format(context, Level.Warn, content)]
    {
      Log(Level.Warn, content);
    }

    method Error(content: string)
      modifies this`lines
      ensures lines == old(lines) + [Format(context, Level.Error, content)]
    {
      Log(Level.Error, content);
    }
  }
}
