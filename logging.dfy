/**
 * Loggers and the registry that hands them out: the gates that decide
 * whether `log`, `warning` and `assert` write anything, the `Logger` class,
 * and the get-or-create function the module exports.
 */
module Logging {
  import opened JsBuiltins
  import opened Console
  import opened OptionsStore
  import opened Format

  /** `options.all || options.loggers.indexOf(this.name) > -1`: the logger is switched on. */
  function Selected(c: Config, name: string): (r: bool)
    ensures r <==> c.all || name in c.loggers
  {
    c.all || IndexOf(c.loggers, name) > -1
  }

  /** Whether `log` writes a line. */
  function LogGate(c: Config, name: string): (r: bool)
    ensures r <==> (c.all || name in c.loggers) && c.logs
  {
    Selected(c, name) && c.logs
  }

  /** Whether `warning` writes a line. */
  function WarningGate(c: Config, name: string): (r: bool)
    ensures r <==> (c.all || name in c.loggers) && c.warnings
  {
    Selected(c, name) && c.warnings
  }

  /** Whether `assert` hands its line to the console: whatever `all` and the allow-list say. */
  function AssertGate(c: Config): (r: bool)
    ensures r <==> c.asserts
  {
    c.asserts
  }

  /** A named logger; every logger reads the same process-wide options. */
  class Logger {
    const name: string
    const options: Options

    constructor (name: string, options: Options)
      ensures this.name == name && this.options == options
    {
      this.name := name;
      this.options := options;
    }

    /** `log(object)`: one line in black, coloured as the options say, exactly when the log gate is open. */
    method Log(payload: string, frame: RawFrame) returns (emitted: seq<Event>)
      ensures LogGate(options.Snapshot(), name) ==>
        emitted == [Event.Log(GetString(name, payload, Black, options.colour, options.stack, frame))]
      ensures !LogGate(options.Snapshot(), name) ==> emitted == []
    {
      emitted := [];
      if LogGate(options.Snapshot(), name) {
        var line := GetString(name, payload, Black, options.colour, options.stack, frame);
        emitted := [Event.Log(line)];
      }
    }

    /** `warning(object)`: one line in red, coloured as the options say, exactly when the warning gate is open. */
    method Warning(payload: string, frame: RawFrame) returns (emitted: seq<Event>)
      ensures WarningGate(options.Snapshot(), name) ==>
        emitted == [Event.Log(GetString(name, payload, Red, options.colour, options.stack, frame))]
      ensures !WarningGate(options.Snapshot(), name) ==> emitted == []
    {
      emitted := [];
      if WarningGate(options.Snapshot(), name) {
        var line := GetString(name, payload, Red, options.colour, options.stack, frame);
        emitted := [Event.Log(line)];
      }
    }

    /**
     * `assert(assertion, object)`: when asserts are on, the assertion and the
     * plain line go to the console's assert; the colour option is not consulted.
     */
    method Assert(assertion: bool, payload: string, frame: RawFrame) returns (emitted: seq<Event>)
      ensures AssertGate(options.Snapshot()) ==>
        emitted == [Event.Assert(assertion, Plain(PlainLine(name, payload, options.stack, Resolve(frame))))]
      ensures !AssertGate(options.Snapshot()) ==> emitted == []
    {
      emitted := [];
      if AssertGate(options.Snapshot()) {
        var line := GetString(name, payload, Red, false, options.stack, frame);
        emitted := [Event.Assert(assertion, line)];
      }
    }
  }

  /** The value passed as a logger name: absent, a string, or any other value, truthy or not. */
  datatype NameArg = Missing | Text(s: string) | Other(truthy: bool)

  /** `!name`: undefined, the empty string and the falsy non-strings (null, 0, false, NaN). */
  predicate Falsy(name: NameArg)
  {
    name.Missing? || name == Text("") || name == Other(false)
  }

  /** A call that either returns a value or throws an `Error` with a message. */
  datatype Result<T> = Success(value: T) | Failure(message: string)

  const ConstructorMismatch := "Type mismatch, name should be a string."
  const NameMismatch := "Name must be a string"

  /** The default logger's own name, and the second key it is registered under. */
  const DefaultName := "Logger"
  const DefaultKey := "default"

  /** The module-level `loggers` object, keyed by name. */
  class Registry {
    const options: Options
    var loggers: map<string, Logger>

    /**
     * The default logger is registered as "Logger" and as "default"; every
     * other key names the logger it holds; all loggers share the options.
     */
    ghost predicate Valid()
      reads this
    {
      && DefaultName in loggers && DefaultKey in loggers
      && loggers[DefaultKey] == loggers[DefaultName]
      && (forall k | k in loggers && k != DefaultKey :: loggers[k].name == k)
      && (forall k | k in loggers :: loggers[k].options == options)
    }

    /** Module load: `new Logger("Logger")` registers itself, then `loggers.default` is set. */
    constructor (options: Options)
      ensures Valid() && this.options == options
      ensures loggers.Keys == {DefaultName, DefaultKey}
      ensures fresh(loggers[DefaultName])
    {
      this.options := options;
      loggers := map[];
      new;
      var made := Construct(Text(DefaultName));
      loggers := loggers[DefaultKey := made.value];
    }

    /** `loggers.default` */
    function Default(): Logger
      reads this
      requires Valid()
    {
      loggers[DefaultKey]
    }

    /** `new Logger(name)`: a non-string name throws; otherwise a fresh logger registers itself under its name. */
    method Construct(name: NameArg) returns (r: Result<Logger>)
      modifies this
      ensures name.Text? ==>
        (r.Success? && fresh(r.value) && r.value.name == name.s
         && r.value.options == options && loggers == old(loggers)[name.s := r.value])
      ensures !name.Text? ==> r == Failure(ConstructorMismatch) && loggers == old(loggers)
    {
      if !name.Text? {
        return Failure(ConstructorMismatch);
      }
      var logger := new Logger(name.s, options);
      loggers := loggers[name.s := logger];
      r := Success(logger);
    }

    /**
     * The exported get-or-create function: a falsy name gives the default
     * logger, any other non-string throws, and a string gives the logger
     * registered under it, after creating one if there is none.
     */
    method GetLogger(name: NameArg) returns (r: Result<Logger>)
      requires Valid()
      modifies this
      ensures Valid()
      ensures Falsy(name) ==> r == Success(old(Default())) && loggers == old(loggers)
      ensures !Falsy(name) && !name.Text? ==> r == Failure(NameMismatch) && loggers == old(loggers)
      ensures name.Text? && name.s != "" && name.s in old(loggers) ==>
        r == Success(old(loggers)[name.s]) && loggers == old(loggers)
      ensures name.Text? && name.s != "" && name.s !in old(loggers) ==>
        (r.Success? && fresh(r.value) && r.value.name == name.s && r.value.options == options
         && loggers == old(loggers)[name.s := r.value])
    {
      if Falsy(name) {
        return Success(loggers[DefaultKey]);
      }
      if !name.Text? {
        return Failure(NameMismatch);
      }
      if name.s !in loggers {
        var made := Construct(name);
        assert made.Success?;
      }
      r := Success(loggers[name.s]);
    }
  }

  /** Two keys share a logger only when they are the default logger's two keys. */
  lemma SharedOnlyByDefault(reg: Registry, a: string, b: string)
    requires reg.Valid()
    requires a in reg.loggers && b in reg.loggers && a != b
    requires reg.loggers[a] == reg.loggers[b]
    ensures {a, b} == {DefaultName, DefaultKey}
  {
  }

  /** Unlike `log` and `warning`, `assert` is not switched by `all` or the allow-list. */
  lemma AssertIgnoresSelection(c: Config, all: bool, loggers: seq<string>)
    ensures AssertGate(c.(all := all, loggers := loggers)) == AssertGate(c)
  {
  }

  /** After `enable: false` none of the three gates is open, whatever the logger. */
  lemma DisabledIsSilent(c: Config, s: Settings, name: string)
    requires s.enable == Boolean(false)
    ensures !LogGate(Apply(c, s), name) && !WarningGate(Apply(c, s), name) && !AssertGate(Apply(c, s))
  {
  }

  /**
   * An allow-list given without `all` switches on exactly the listed
   * loggers; `log` then writes for them while `logs` is on.
   */
  lemma AllowListSelects(c: Config, s: Settings, names: seq<string>, name: string)
    requires s.enable != Boolean(false) && s.all == Undefined && s.loggers == Some(names)
    ensures LogGate(Apply(c, s), name) <==> name in names && Apply(c, s).logs
    ensures WarningGate(Apply(c, s), name) <==> name in names && Apply(c, s).warnings
  {
  }

  /** `all: true` in the same call overrides any allow-list. */
  lemma AllOverridesAllowList(c: Config, s: Settings, name: string)
    requires s.enable != Boolean(false) && s.all == Boolean(true)
    ensures LogGate(Apply(c, s), name) == Apply(c, s).logs
    ensures WarningGate(Apply(c, s), name) == Apply(c, s).warnings
  {
  }

  // The registry of the source is a plain object literal, so a key lookup
  // also finds what every object inherits from Object.prototype.

  /** The properties a plain object inherits from `Object.prototype`. */
  const PrototypeProperties: set<string> := {
    "constructor", "__proto__", "__defineGetter__", "__defineSetter__", "__lookupGetter__",
    "__lookupSetter__", "hasOwnProperty", "isPrototypeOf", "propertyIsEnumerable",
    "toLocaleString", "toString", "valueOf"}

  /** What `loggers[key]` yields on the plain object. */
  datatype Property = OwnLogger(logger: Logger) | Inherited(key: string) | NoProperty

  function PropertyAsWritten(own: map<string, Logger>, key: string): Property
  {
    if key in own then OwnLogger(own[key])
    else if key in PrototypeProperties then Inherited(key)
    else NoProperty
  }

  /** What the source's get-or-create does for a non-empty string. */
  datatype Outcome = Returns(property: Property) | CreatesLogger

  /** `if (!loggers[name]) loggers[name] = new Logger(name); return loggers[name];` on the plain object. */
  function GetLoggerAsWritten(own: map<string, Logger>, key: string): Outcome
  {
    var found := PropertyAsWritten(own, key);
    if found.NoProperty? then CreatesLogger else Returns(found)
  }

  /**
   * As written, a name such as "toString" is never given a logger: the
   * lookup finds the inherited member (a function, or `Object.prototype`
   * itself for "__proto__"), which is truthy, and returns it.
   */
  lemma PrototypeNameEscapesAsWritten(own: map<string, Logger>, key: string)
    requires key in PrototypeProperties && key !in own
    ensures GetLoggerAsWritten(own, key) == Returns(Inherited(key))
  {
  }

  /**
   * For every other name the as-written lookup agrees with `Registry.GetLogger`:
   * it creates a logger exactly when the name is unregistered, and otherwise
   * returns the registered one.
   */
  lemma AsWrittenAgreesElsewhere(own: map<string, Logger>, key: string)
    requires key !in PrototypeProperties
    ensures GetLoggerAsWritten(own, key) == CreatesLogger <==> key !in own
    ensures key in own ==> GetLoggerAsWritten(own, key) == Returns(OwnLogger(own[key]))
  {
  }
}
