/**
 * The start-up of the module: the default logger is created, then the
 * `--logger-*` flags of the argument list are read into an options object
 * (`getBooleanOption`, `getArrayOption`) that is handed to `setOptions`.
 */
module CommandLine {
  import opened JsBuiltins
  import opened Console
  import opened OptionsStore
  import Logging

  /** The boolean options, in the order they are read. */
  datatype Flag = Enable | Stack | All | Logs | Asserts | Warnings | Colour

  const Flags: seq<Flag> := [Enable, Stack, All, Logs, Asserts, Warnings, Colour]

  function FlagName(f: Flag): string
  {
    match f
    case Enable => "enable"
    case Stack => "stack"
    case All => "all"
    case Logs => "logs"
    case Asserts => "asserts"
    case Warnings => "warnings"
    case Colour => "colour"
  }

  const Prefix := "--logger-"

  function FlagOption(f: Flag): string { Prefix + FlagName(f) }

  const LoggersOption := Prefix + "loggers"

  /** The slot of the options object that a flag fills. */
  function Slot(s: Settings, f: Flag): Field
  {
    match f
    case Enable => s.enable
    case Stack => s.stack
    case All => s.all
    case Logs => s.logs
    case Asserts => s.asserts
    case Warnings => s.warnings
    case Colour => s.colour
  }

  /** `options[_option] = value` for a boolean flag. */
  function WithSlot(s: Settings, f: Flag, v: Field): (r: Settings)
    ensures Slot(r, f) == v && r.loggers == s.loggers
    ensures forall g :: g != f ==> Slot(r, g) == Slot(s, g)
  {
    match f
    case Enable => s.(enable := v)
    case Stack => s.(stack := v)
    case All => s.(all := v)
    case Logs => s.(logs := v)
    case Asserts => s.(asserts := v)
    case Warnings => s.(warnings := v)
    case Colour => s.(colour := v)
  }

  /** What a boolean flag leaves in the options object: a found value is stored, nothing else is. */
  function Store(s: Settings, f: Flag, v: Field): Settings
  {
    if v.Boolean? then WithSlot(s, f, v) else s
  }

  /** `args[k]`, which is undefined outside the argument list. */
  function Token(args: seq<string>, k: int): Option<string>
  {
    if 0 <= k < |args| then Some(args[k]) else None
  }

  /** `${value}` of a token. */
  function TokenText(t: Option<string>): string
  {
    match t
    case None => "undefined"
    case Some(v) => v
  }

  /** The advisory printed for an option whose value cannot be used. */
  function InvalidNotice(option: string, value: string): Event
  {
    Log(Formatted("[nodejs-logger]@{red} Invalid argument " + option + ":" + value + " @{!red}"))
  }

  /** The token after the first occurrence of `option`, when the option occurs. */
  function ValueAfter(args: seq<string>, option: string): Option<Option<string>>
  {
    var index := IndexOf(args, option);
    if index < 0 then None else Some(Token(args, index + 1))
  }

  /** `value === "true"` for the two tokens a boolean flag accepts. */
  function FlagValue(value: Option<string>): (r: Field)
    ensures r != NonBoolean
    ensures r.Boolean? <==> value == Some("true") || value == Some("false")
    ensures r.Boolean? ==> r.value == (value == Some("true"))
  {
    if value == Some("true") then Boolean(true)
    else if value == Some("false") then Boolean(false)
    else Undefined
  }

  /** What `getBooleanOption` stores: the token after the first occurrence of the flag, when it is "true" or "false". */
  function BooleanOption(args: seq<string>, f: Flag): (r: Field)
    ensures r != NonBoolean
  {
    match ValueAfter(args, FlagOption(f))
    case None => Undefined
    case Some(value) => FlagValue(value)
  }

  /** What `getBooleanOption` prints: the advisory for a flag followed by anything else. */
  function BooleanNotice(args: seq<string>, f: Flag): seq<Event>
  {
    match ValueAfter(args, FlagOption(f))
    case None => []
    case Some(value) => if FlagValue(value).Boolean? then [] else [InvalidNotice(FlagOption(f), TokenText(value))]
  }

  /** `parseInt(args[index + 1])`, with NaN read as 0. */
  function ArrayCount(args: seq<string>, index: int): int
  {
    match ParseInt(TokenText(Token(args, index + 1)))
    case None => 0
    case Some(n) => n
  }

  /** What `getArrayOption` stores: the `total` tokens after the count, when the count is positive. */
  function ArrayOption(args: seq<string>): Option<seq<string>>
  {
    var index := IndexOf(args, LoggersOption);
    var total := ArrayCount(args, index);
    if index < 0 || total <= 0 then None
    else Some(Slice(args, index + 2, index + 2 + total))
  }

  /** What `getArrayOption` prints. */
  function ArrayNotice(args: seq<string>): seq<Event>
  {
    var index := IndexOf(args, LoggersOption);
    var total := ArrayCount(args, index);
    if index < 0 || total > 0 then []
    else [InvalidNotice(LoggersOption, IntToString(total))]
  }

  /** The options object `init` builds. */
  function Parse(args: seq<string>): Settings
  {
    Settings(BooleanOption(args, Enable), BooleanOption(args, Stack), BooleanOption(args, All),
             BooleanOption(args, Logs), BooleanOption(args, Asserts), BooleanOption(args, Warnings),
             BooleanOption(args, Colour), ArrayOption(args))
  }

  /** Everything `init` prints while reading the arguments, in order. */
  function ParseNotices(args: seq<string>): seq<Event>
  {
    BooleanNotice(args, Enable) + BooleanNotice(args, Stack) + BooleanNotice(args, All)
    + BooleanNotice(args, Logs) + BooleanNotice(args, Asserts) + BooleanNotice(args, Warnings)
    + BooleanNotice(args, Colour) + ArrayNotice(args)
  }

  /**
   * A boolean flag is decided by the token after its first occurrence: it is
   * stored exactly when that token is "true" or "false", and otherwise the
   * token, or "undefined" when there is none, is reported.
   */
  lemma BooleanFirstOccurrence(args: seq<string>, f: Flag, i: nat)
    requires i < |args| && args[i] == FlagOption(f) && FlagOption(f) !in args[..i]
    ensures BooleanOption(args, f).Boolean? <==> i + 1 < |args| && args[i + 1] in {"true", "false"}
    ensures BooleanOption(args, f).Boolean? ==> BooleanOption(args, f).value == (args[i + 1] == "true")
    ensures BooleanNotice(args, f) == [] <==> BooleanOption(args, f).Boolean?
    ensures BooleanNotice(args, f) != [] ==>
      BooleanNotice(args, f) == [InvalidNotice(FlagOption(f), if i + 1 < |args| then args[i + 1] else "undefined")]
  {
    IndexOfFirst(args, FlagOption(f), i);
  }

  /** A flag that does not occur leaves its slot unset and prints nothing. */
  lemma BooleanAbsent(args: seq<string>, f: Flag)
    requires FlagOption(f) !in args
    ensures BooleanOption(args, f) == Undefined && BooleanNotice(args, f) == []
  {
  }

  /**
   * The allow-list is the window of at most `n` tokens after the count that
   * follows the first `--logger-loggers`, cut short at the end of the list;
   * a count that is not positive, or missing, is reported instead.
   */
  lemma ArrayWindow(args: seq<string>, i: nat)
    requires i < |args| && args[i] == LoggersOption && LoggersOption !in args[..i]
    ensures var n := ArrayCount(args, i);
      (n > 0 ==> i + 2 <= |args| && ArrayOption(args) == Some(args[i + 2..Min(i + 2 + n, |args|)]) && ArrayNotice(args) == [])
      && (n <= 0 ==> ArrayOption(args) == None && ArrayNotice(args) == [InvalidNotice(LoggersOption, IntToString(n))])
    ensures i + 1 == |args| ==> ArrayCount(args, i) == 0
  {
    IndexOfFirst(args, LoggersOption, i);
    if i + 1 == |args| {
      ParseIntNaN("undefined");
    }
  }

  /** The arguments that set a boolean flag to a boolean value; nothing for any other slot. */
  function RenderFlag(f: Flag, v: Field): seq<string>
  {
    if v.Boolean? then [FlagOption(f), if v.value then "true" else "false"] else []
  }

  function RenderFlags(s: Settings, fs: seq<Flag>): seq<string>
  {
    if fs == [] then [] else RenderFlag(fs[0], Slot(s, fs[0])) + RenderFlags(s, fs[1..])
  }

  /** `--logger-loggers <count> <name> ...` for an allow-list. */
  function RenderLoggers(loggers: Option<seq<string>>): seq<string>
  {
    match loggers
    case None => []
    case Some(names) => [LoggersOption, IntToString(|names|)] + names
  }

  /** An argument list that asks for the options object `s`. */
  function Render(s: Settings): seq<string>
  {
    RenderFlags(s, Flags) + RenderLoggers(s.loggers)
  }

  /** An options object the flags can express: booleans or nothing, and a non-empty allow-list of names that are not options. */
  predicate Renderable(s: Settings)
  {
    && (forall f :: Slot(s, f) != NonBoolean)
    && (s.loggers.Some? ==>
          |s.loggers.value| > 0 && forall k :: 0 <= k < |s.loggers.value| ==> !(Prefix <= s.loggers.value[k]))
  }

  lemma FlagOptionInjective(f: Flag, g: Flag)
    ensures FlagOption(f) == FlagOption(g) ==> f == g
  {
    if FlagOption(f) == FlagOption(g) {
      assert FlagOption(f)[|Prefix|..] == FlagName(f);
      assert FlagOption(g)[|Prefix|..] == FlagName(g);
    }
  }

  lemma FlagIsNotLoggers(f: Flag)
    ensures Prefix <= FlagOption(f) && FlagOption(f) != LoggersOption
  {
    assert FlagOption(f)[|Prefix|..] == FlagName(f);
    assert LoggersOption[|Prefix|..] == "loggers";
  }

  lemma {:induction false} LoggersNotRendered(s: Settings, fs: seq<Flag>)
    ensures LoggersOption !in RenderFlags(s, fs)
  {
    if fs != [] {
      FlagIsNotLoggers(fs[0]);
      LoggersNotRendered(s, fs[1..]);
    }
  }

  lemma ValueAfterSkips(p: seq<string>, q: seq<string>, option: string)
    requires option !in p
    ensures ValueAfter(p + q, option) == ValueAfter(q, option)
  {
    IndexOfSkip(p, q, option);
    var k := IndexOf(q, option);
    if k >= 0 {
      assert Token(p + q, |p| + k + 1) == Token(q, k + 1);
    }
  }

  /** What the lookup of a flag finds in arguments rendered from the slot value `v`. */
  function RenderedValue(v: Field): Option<Option<string>>
  {
    if v.Boolean? then Some(Some(if v.value then "true" else "false")) else None
  }

  /** An option directly followed by a value is found with that value. */
  lemma ValueAfterHead(option: string, value: string, q: seq<string>)
    ensures ValueAfter([option, value] + q, option) == Some(Some(value))
  {
    var args := [option, value] + q;
    assert args[0] == option;
    assert Token(args, 1) == Some(value);
  }

  /** The lookup of `f` in one rendered flag followed by `tail`. */
  lemma RenderFlagStep(g: Flag, v: Field, f: Flag, tail: seq<string>)
    ensures ValueAfter(RenderFlag(g, v) + tail, FlagOption(f)) ==
      if g == f && v.Boolean? then RenderedValue(v) else ValueAfter(tail, FlagOption(f))
  {
    if v.Boolean? {
      var text := if v.value then "true" else "false";
      assert RenderFlag(g, v) + tail == [FlagOption(g), text] + tail;
      if g == f {
        ValueAfterHead(FlagOption(f), text, tail);
      } else {
        FlagOptionInjective(f, g);
        ValueAfterSkips(RenderFlag(g, v), tail, FlagOption(f));
      }
    } else {
      assert RenderFlag(g, v) + tail == tail;
    }
  }

  /** The flags rendered from `fs` put the rendered slot value of `s` after each flag of `fs`. */
  lemma {:induction false} RenderedFlag(s: Settings, fs: seq<Flag>, f: Flag, rest: seq<string>)
    requires FlagOption(f) !in rest
    ensures ValueAfter(RenderFlags(s, fs) + rest, FlagOption(f)) == if f in fs then RenderedValue(Slot(s, f)) else None
    decreases |fs|
  {
    if fs == [] {
      assert RenderFlags(s, fs) + rest == rest;
    } else {
      var g := fs[0];
      var tail := RenderFlags(s, fs[1..]) + rest;
      assert RenderFlags(s, fs) + rest == RenderFlag(g, Slot(s, g)) + tail;
      RenderFlagStep(g, Slot(s, g), f, tail);
      RenderedFlag(s, fs[1..], f, rest);
      assert f in fs <==> f == g || f in fs[1..] by {
        assert fs == [g] + fs[1..];
      }
    }
  }

  lemma PositiveCountIsNotAnOption(n: nat)
    requires n > 0
    ensures !(Prefix <= IntToString(n))
  {
    assert IsDigit(NatToString(n)[0]);
  }

  lemma FlagNotInLoggers(f: Flag, loggers: Option<seq<string>>)
    requires loggers.Some? ==>
      |loggers.value| > 0 && forall k :: 0 <= k < |loggers.value| ==> !(Prefix <= loggers.value[k])
    ensures FlagOption(f) !in RenderLoggers(loggers)
  {
    if loggers.Some? {
      var names := loggers.value;
      PositiveCountIsNotAnOption(|names|);
      FlagIsNotLoggers(f);
      assert RenderLoggers(loggers) == [LoggersOption, IntToString(|names|)] + names;
    }
  }

  lemma CountReadsBack(n: nat)
    requires n > 0
    ensures ParseInt(IntToString(n)) == Some(n)
  {
    assert IntToString(n) + [] == IntToString(n);
    ParseIntOfIntToString(n, []);
  }

  /** A first `--logger-loggers` at `i` with a positive count `n` selects the slice of `n` tokens after the count. */
  lemma ArrayAt(args: seq<string>, i: nat, n: int)
    requires IndexOf(args, LoggersOption) == i
    requires ArrayCount(args, i) == n && n > 0
    ensures ArrayOption(args) == Some(Slice(args, i + 2, i + 2 + n)) && ArrayNotice(args) == []
  {
  }

  /** The count of `--logger-loggers` at `i` is what `parseInt` makes of the token after it. */
  lemma CountAt(args: seq<string>, i: nat, n: nat)
    requires n > 0 && Token(args, i + 1) == Some(IntToString(n))
    ensures ArrayCount(args, i) == n
  {
    CountReadsBack(n);
  }

  /** Where the parts of `pre + [x] + ([c] + rest)` sit. */
  lemma Layout<T>(pre: seq<T>, x: T, c: T, rest: seq<T>)
    ensures var s := pre + [x] + ([c] + rest);
      |s| == |pre| + 2 + |rest| && s[|pre| + 1] == c && s[|pre| + 2..] == rest
  {
    var s := pre + [x] + ([c] + rest);
    assert s[|pre| + 2..] == rest;
  }

  lemma RenderedNames(pre: seq<string>, names: seq<string>)
    requires LoggersOption !in pre && |names| > 0
    ensures ArrayOption(pre + [LoggersOption] + ([IntToString(|names|)] + names)) == Some(names)
    ensures ArrayNotice(pre + [LoggersOption] + ([IntToString(|names|)] + names)) == []
  {
    var count := IntToString(|names|);
    var args := pre + [LoggersOption] + ([count] + names);
    IndexOfAfter(pre, LoggersOption, [count] + names);
    Layout(pre, LoggersOption, count, names);
    CountAt(args, |pre|, |names|);
    ArrayAt(args, |pre|, |names|);
    SliceToEnd(args, |pre| + 2, |pre| + 2 + |names|);
  }

  lemma RenderedLoggers(pre: seq<string>, loggers: Option<seq<string>>)
    requires LoggersOption !in pre
    requires loggers.Some? ==> |loggers.value| > 0
    ensures ArrayOption(pre + RenderLoggers(loggers)) == loggers
    ensures ArrayNotice(pre + RenderLoggers(loggers)) == []
  {
    if loggers.Some? {
      var names := loggers.value;
      assert pre + RenderLoggers(loggers) == pre + [LoggersOption] + ([IntToString(|names|)] + names);
      RenderedNames(pre, names);
    } else {
      assert pre + RenderLoggers(loggers) == pre;
    }
  }

  lemma AllFlags(f: Flag)
    ensures f in Flags
  {
  }

  lemma FlagLookup(s: Settings, f: Flag)
    requires Renderable(s)
    ensures ValueAfter(Render(s), FlagOption(f)) == RenderedValue(Slot(s, f))
  {
    FlagNotInLoggers(f, s.loggers);
    AllFlags(f);
    RenderedFlag(s, Flags, f, RenderLoggers(s.loggers));
  }

  lemma FlagReadsBack(s: Settings, f: Flag)
    requires Renderable(s)
    ensures BooleanOption(Render(s), f) == Slot(s, f)
    ensures BooleanNotice(Render(s), f) == []
  {
    FlagLookup(s, f);
  }

  /** The allow-list reads back from the rendered arguments. */
  lemma LoggersReadBack(s: Settings)
    requires Renderable(s)
    ensures ArrayOption(Render(s)) == s.loggers
    ensures ArrayNotice(Render(s)) == []
  {
    LoggersNotRendered(s, Flags);
    RenderedLoggers(RenderFlags(s, Flags), s.loggers);
  }

  /** An argument list whose every option reads back as a slot of `s` parses to `s`. */
  lemma ParseOfSlots(args: seq<string>, s: Settings)
    requires forall f :: BooleanOption(args, f) == Slot(s, f)
    requires ArrayOption(args) == s.loggers
    ensures Parse(args) == s
  {
    assert BooleanOption(args, Enable) == s.enable;
    assert BooleanOption(args, Stack) == s.stack;
    assert BooleanOption(args, All) == s.all;
    assert BooleanOption(args, Logs) == s.logs;
    assert BooleanOption(args, Asserts) == s.asserts;
    assert BooleanOption(args, Warnings) == s.warnings;
    assert BooleanOption(args, Colour) == s.colour;
  }

  /** An argument list none of whose options is reported prints nothing while it is read. */
  lemma NoticesOfSlots(args: seq<string>)
    requires forall f :: BooleanNotice(args, f) == []
    requires ArrayNotice(args) == []
    ensures ParseNotices(args) == []
  {
    assert BooleanNotice(args, Enable) == [];
    assert BooleanNotice(args, Stack) == [];
    assert BooleanNotice(args, All) == [];
    assert BooleanNotice(args, Logs) == [];
    assert BooleanNotice(args, Asserts) == [];
    assert BooleanNotice(args, Warnings) == [];
    assert BooleanNotice(args, Colour) == [];
  }

  /**
   * Reading back the arguments rendered from a renderable options object
   * gives that object, with no advisory printed.
   */
  lemma ParseRender(s: Settings)
    requires Renderable(s)
    ensures Parse(Render(s)) == s
    ensures ParseNotices(Render(s)) == []
  {
    forall f
      ensures BooleanOption(Render(s), f) == Slot(s, f) && BooleanNotice(Render(s), f) == []
    {
      FlagReadsBack(s, f);
    }
    LoggersReadBack(s);
    ParseOfSlots(Render(s), s);
    NoticesOfSlots(Render(s));
  }

  /** The local state of `init`: the argument list, the options object it fills and what it has printed. */
  class ArgumentParser {
    const args: seq<string>
    var options: Settings
    var emitted: seq<Event>

    constructor (args: seq<string>)
      ensures this.args == args && options == NoSettings && emitted == []
    {
      this.args := args;
      options := NoSettings;
      emitted := [];
    }

    /** `getBooleanOption(_option)` */
    method GetBooleanOption(f: Flag)
      modifies this
      ensures options == Store(old(options), f, BooleanOption(args, f))
      ensures emitted == old(emitted) + BooleanNotice(args, f)
    {
      var option := FlagOption(f);
      var index := IndexOf(args, option);
      if index > -1 {
        var value := Token(args, index + 1);
        if value != Some("true") && value != Some("false") {
          emitted := emitted + [InvalidNotice(option, TokenText(value))];
        } else {
          options := WithSlot(options, f, Boolean(value == Some("true")));
        }
      }
    }

    /** `getArrayOption("loggers")` */
    method GetArrayOption()
      modifies this
      ensures options == old(options).(loggers := if ArrayOption(args).Some? then ArrayOption(args) else old(options).loggers)
      ensures emitted == old(emitted) + ArrayNotice(args)
    {
      var index := IndexOf(args, LoggersOption);
      if index > -1 {
        var total := ArrayCount(args, index);
        if total <= 0 {
          emitted := emitted + [InvalidNotice(LoggersOption, IntToString(total))];
        } else {
          options := options.(loggers := Some(Slice(args, index + 2, index + 2 + total)));
        }
      }
    }
  }

  /** The seven boolean flags of `init`, read in order into an empty options object. */
  method ReadBooleans(parser: ArgumentParser)
    requires parser.options == NoSettings && parser.emitted == []
    modifies parser
    ensures parser.options == Parse(parser.args).(loggers := None)
    ensures parser.emitted == BooleanNotice(parser.args, Enable) + BooleanNotice(parser.args, Stack)
      + BooleanNotice(parser.args, All) + BooleanNotice(parser.args, Logs) + BooleanNotice(parser.args, Asserts)
      + BooleanNotice(parser.args, Warnings) + BooleanNotice(parser.args, Colour)
  {
    ghost var expected := Parse(parser.args);
    parser.GetBooleanOption(Enable);
    assert parser.emitted == BooleanNotice(parser.args, Enable);
    assert parser.options == NoSettings.(enable := expected.enable);
    parser.GetBooleanOption(Stack);
    assert parser.options == NoSettings.(enable := expected.enable, stack := expected.stack);
    parser.GetBooleanOption(All);
    assert parser.options == NoSettings.(enable := expected.enable, stack := expected.stack, all := expected.all);
    parser.GetBooleanOption(Logs);
    assert parser.options == NoSettings.(enable := expected.enable, stack := expected.stack, all := expected.all,
                                         logs := expected.logs);
    parser.GetBooleanOption(Asserts);
    assert parser.options == NoSettings.(enable := expected.enable, stack := expected.stack, all := expected.all,
                                         logs := expected.logs, asserts := expected.asserts);
    parser.GetBooleanOption(Warnings);
    assert parser.options == NoSettings.(enable := expected.enable, stack := expected.stack, all := expected.all,
                                         logs := expected.logs, asserts := expected.asserts, warnings := expected.warnings);
    parser.GetBooleanOption(Colour);
  }

  /** The flags of `init`, read one after another into an empty options object. */
  method ReadArguments(args: seq<string>) returns (parsed: Settings, notices: seq<Event>)
    ensures parsed == Parse(args)
    ensures notices == ParseNotices(args)
  {
    var parser := new ArgumentParser(args);
    ReadBooleans(parser);
    parser.GetArrayOption();
    parsed, notices := parser.options, parser.emitted;
  }

  /**
   * Module start-up with the argument list `args`: the options object and
   * the registry with its default logger exist, the flags have been read in
   * order, and the options hold what `setOptions` makes of them.
   */
  method Init(args: seq<string>) returns (options: Options, registry: Logging.Registry, emitted: seq<Event>)
    ensures fresh(options) && fresh(registry)
    ensures registry.Valid() && registry.options == options
    ensures registry.loggers.Keys == {Logging.DefaultName, Logging.DefaultKey}
    ensures options.Snapshot() == Apply(Defaults, Parse(args))
    ensures emitted == ParseNotices(args) + SetOptionsOutput(Parse(args))
  {
    options := new Options();
    registry := new Logging.Registry(options);
    var parsed, notices := ReadArguments(args);
    var printed := options.SetOptions(parsed);
    emitted := notices + printed;
  }
}
