/**
 * The process-wide options record of the logger and `setOptions`, which
 * updates it from an options object supplied by the caller.
 */
module OptionsStore {
  import opened JsBuiltins
  import opened Console

  /**
   * What one property of the incoming options object holds: nothing
   * (`undefined`), a boolean, or any other value.
   */
  datatype Field = Undefined | Boolean(value: bool) | NonBoolean

  /**
   * The options object handed to `setOptions`: one slot per recognised
   * property. `loggers` is `Some` exactly when the property is an array.
   */
  datatype Settings = Settings(
    enable: Field,
    stack: Field,
    all: Field,
    logs: Field,
    asserts: Field,
    warnings: Field,
    colour: Field,
    loggers: Option<seq<string>>)

  /** The empty options object `{}`. */
  const NoSettings := Settings(Undefined, Undefined, Undefined, Undefined, Undefined, Undefined, Undefined, None)

  /** The stored options, as a value. */
  datatype Config = Config(
    stack: bool,
    all: bool,
    logs: bool,
    asserts: bool,
    warnings: bool,
    colour: bool,
    loggers: seq<string>)

  /** The initial value of the stored options. */
  const Defaults := Config(stack := false, all := true, logs := true, asserts := true,
                           warnings := true, colour := true, loggers := [])

  /** The notice printed whenever `stack: true` is applied. */
  const StackNotice := "[nodejs-logger]@{red} Stack enabled, this may decrease performance!! @{!red}"

  /** A stored flag after a slot was applied to it: only a boolean replaces it. */
  function Override(slot: Field, current: bool): bool
  {
    if slot.Boolean? then slot.value else current
  }

  /** The stored options after the boolean properties of `s` (all but `enable`) were applied to `c`. */
  function ApplyFlags(c: Config, s: Settings): Config
  {
    c.(stack := Override(s.stack, c.stack),
       all := Override(s.all, c.all),
       asserts := Override(s.asserts, c.asserts),
       warnings := Override(s.warnings, c.warnings),
       logs := Override(s.logs, c.logs),
       colour := Override(s.colour, c.colour))
  }

  /** The stored options after the `loggers` property of `s` was applied to `c`. */
  function ApplyAllowList(c: Config, s: Settings): Config
  {
    match s.loggers
    case None => c
    case Some(names) => c.(all := if s.all == Undefined then false else c.all, loggers := names)
  }

  /** The stored options after `setOptions(s)`, given the options `c` before it. */
  function Apply(c: Config, s: Settings): Config
  {
    if s.enable == Boolean(false) then
      c.(all := false, logs := false, warnings := false, asserts := false)
    else
      ApplyAllowList(ApplyFlags(c, s), s)
  }

  /** What `setOptions(s)` prints: the stack notice when it applies `stack: true`. */
  function SetOptionsOutput(s: Settings): seq<Event>
  {
    if s.enable != Boolean(false) && s.stack == Boolean(true) then [Log(Formatted(StackNotice))] else []
  }

  /** The module-level `options` object. */
  class Options {
    var stack: bool
    var all: bool
    var logs: bool
    var asserts: bool
    var warnings: bool
    var colour: bool
    var loggers: seq<string>

    function Snapshot(): Config
      reads this
    {
      Config(stack, all, logs, asserts, warnings, colour, loggers)
    }

    /** The object literal that initialises `options`. */
    constructor ()
      ensures Snapshot() == Defaults
    {
      stack, all, logs, asserts, warnings, colour := false, true, true, true, true, true;
      loggers := [];
    }

    /**
     * `setOptions(json)`: an `enable: false` disables output and ends the
     * call; otherwise the boolean properties are stored, then an array of
     * logger names becomes the allow-list.
     */
    method SetOptions(json: Settings) returns (emitted: seq<Event>)
      modifies this
      ensures Snapshot() == Apply(old(Snapshot()), json)
      ensures emitted == SetOptionsOutput(json)
    {
      if json.enable == Boolean(false) {
        all := false;
        logs := false;
        warnings := false;
        asserts := false;
        return [];
      }
      emitted := SetFlags(json);
      SetAllowList(json);
    }

    /**
     * The boolean properties of `setOptions`: each one stored only when it
     * is a boolean (`Override` keeps the stored flag for any other value);
     * `stack: true` prints the stack notice.
     */
    method SetFlags(json: Settings) returns (emitted: seq<Event>)
      modifies this
      ensures Snapshot() == ApplyFlags(old(Snapshot()), json)
      ensures emitted == if json.stack == Boolean(true) then [Log(Formatted(StackNotice))] else []
    {
      emitted := [];
      if json.stack.Boolean? {
        stack := json.stack.value;
        if stack {
          emitted := [Log(Formatted(StackNotice))];
        }
      }
      all := Override(json.all, all);
      asserts := Override(json.asserts, asserts);
      warnings := Override(json.warnings, warnings);
      logs := Override(json.logs, logs);
      colour := Override(json.colour, colour);
    }

    /** The `loggers` property of `setOptions`: an array replaces the allow-list and, unless `all` was given, turns `all` off. */
    method SetAllowList(json: Settings)
      modifies this
      ensures Snapshot() == ApplyAllowList(old(Snapshot()), json)
    {
      if json.loggers.Some? {
        if json.all == Undefined {
          all := false;
        }
        loggers := json.loggers.value;
      }
    }
  }

  /**
   * `enable: false` turns off `all`, `logs`, `warnings` and `asserts`, keeps
   * `stack`, `colour` and the allow-list, and makes every other property of
   * the same call irrelevant.
   */
  lemma EnableFalseShortCircuits(c: Config, s: Settings)
    requires s.enable == Boolean(false)
    ensures var r := Apply(c, s);
      !r.all && !r.logs && !r.warnings && !r.asserts &&
      r.stack == c.stack && r.colour == c.colour && r.loggers == c.loggers
    ensures Apply(c, s) == Apply(c, NoSettings.(enable := Boolean(false)))
    ensures SetOptionsOutput(s) == []
  {
  }

  /** Only `enable: false` does anything: `enable: true` or any other value is the same as leaving it out. */
  lemma EnableOtherwiseIgnored(c: Config, s: Settings)
    requires s.enable != Boolean(false)
    ensures Apply(c, s) == Apply(c, s.(enable := Undefined))
  {
  }

  /**
   * Away from the short circuit, each of `stack`, `asserts`, `warnings`,
   * `logs` and `colour` takes the supplied value exactly when it is a boolean
   * and is otherwise left as it was.
   */
  lemma BooleanOnlyUpdates(c: Config, s: Settings)
    requires s.enable != Boolean(false)
    ensures var r := Apply(c, s);
      (if s.stack.Boolean? then r.stack == s.stack.value else r.stack == c.stack) &&
      (if s.asserts.Boolean? then r.asserts == s.asserts.value else r.asserts == c.asserts) &&
      (if s.warnings.Boolean? then r.warnings == s.warnings.value else r.warnings == c.warnings) &&
      (if s.logs.Boolean? then r.logs == s.logs.value else r.logs == c.logs) &&
      (if s.colour.Boolean? then r.colour == s.colour.value else r.colour == c.colour)
  {
  }

  /**
   * `all` takes a supplied boolean; an array of names replaces the allow-list
   * and forces `all` off exactly when `all` is undefined in the same call; a
   * non-boolean `all` is neither stored nor forces anything.
   */
  lemma LoggersAndAll(c: Config, s: Settings)
    requires s.enable != Boolean(false)
    ensures var r := Apply(c, s);
      (s.all.Boolean? ==> r.all == s.all.value) &&
      (s.all == NonBoolean ==> r.all == c.all) &&
      (s.all == Undefined ==> r.all == (c.all && s.loggers.None?)) &&
      (r.loggers == if s.loggers.Some? then s.loggers.value else c.loggers)
  {
  }

  /** Only the properties of the call matter once the short circuit is passed: a second identical call changes nothing. */
  lemma ApplyIdempotent(c: Config, s: Settings)
    ensures Apply(Apply(c, s), s) == Apply(c, s)
  {
    if s.enable == Boolean(false) {
      return;
    }
    var once := Apply(c, s);
    var twice := Apply(once, s);
    assert twice.all == once.all;
    assert twice.loggers == once.loggers;
    assert twice.stack == once.stack && twice.logs == once.logs && twice.asserts == once.asserts
      && twice.warnings == once.warnings && twice.colour == once.colour;
  }
}
