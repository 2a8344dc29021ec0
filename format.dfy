/**
 * The text of one logged line: `_getString_` of the Logger class, and the
 * call-site values (`__from_file`, `__from_function`, `__from_line`) that
 * stack mode puts into it.
 */
module Format {
  import opened JsBuiltins
  import opened Console

  /** The two colours the logger asks the formatter for. */
  datatype Colour = Black | Red

  function ColourName(c: Colour): string
  {
    match c
    case Black => "black"
    case Red => "red"
  }

  /**
   * What the runtime reports for the frame of the logger's caller:
   * `getFileName()`, `getFunctionName()` (`None` for null) and `getLineNumber()`.
   */
  datatype RawFrame = RawFrame(fileName: string, functionName: Option<string>, lineNumber: nat)

  /** The call site as the log line shows it. */
  datatype CallSite = CallSite(file: string, caller: string, line: nat)

  /** `__from_file`: what follows the last backslash of the file name, or all of it when there is none. */
  function BaseName(path: string): (r: string)
    ensures '\\' !in r
    ensures |r| <= |path| && r == path[|path| - |r|..]
    ensures |r| < |path| ==> path[|path| - |r| - 1] == '\\'
    ensures '\\' !in path ==> r == path
  {
    var index := LastIndexOf(path, '\\');
    if index > -1 then path[index + 1..] else path
  }

  /** `__from_function`: the runtime's function name, or "anonymous" when it has none. */
  function FunctionLabel(name: Option<string>): (r: string)
    ensures r != ""
    ensures name.Some? && name.value != "" ==> r == name.value
    ensures !(name.Some? && name.value != "") ==> r == "anonymous"
  {
    if name.Some? && name.value != "" then name.value else "anonymous"
  }

  function Resolve(raw: RawFrame): CallSite
  {
    CallSite(BaseName(raw.fileName), FunctionLabel(raw.functionName), raw.lineNumber)
  }

  /** `${__from_file}:${__from_function}:${__from_line}` */
  function SiteText(site: CallSite): string
  {
    site.file + ":" + site.caller + ":" + NatToString(site.line)
  }

  /** What closes the bracketed logger name: a space follows it unless the call site does. */
  function Gap(stack: bool): string
  {
    if stack then "]" else "] "
  }

  /** What follows the bracketed logger name: the call site in stack mode, then the payload. */
  function Tail(payload: string, stack: bool, site: CallSite): string
  {
    if stack then " At " + SiteText(site) + " => " + payload else payload
  }

  /** The line `_getString_` builds without colour. */
  function PlainLine(name: string, payload: string, stack: bool, site: CallSite): string
  {
    "[" + name + Gap(stack) + Tail(payload, stack, site)
  }

  function Open(c: Colour): string { "@{" + ColourName(c) + "}" }

  function Close(c: Colour): string { "@{!" + ColourName(c) + "}" }

  /** The template `_getString_` hands to the colour formatter: name and tail each wrapped in the colour. */
  function ColourTemplate(name: string, colour: Colour, payload: string, stack: bool, site: CallSite): string
  {
    "[" + Open(colour) + name + Close(colour) + Gap(stack) + Open(colour) + Tail(payload, stack, site) + Close(colour)
  }

  /** The text a reader sees: a template without its `@{...}` markup tokens. */
  function StripMarkup(s: string): string
    decreases |s|
  {
    if |s| == 0 then ""
    else if s[0] == '@' && |s| >= 2 && s[1] == '{' && '}' in s[2..] then
      StripMarkup(s[IndexOf(s[2..], '}') + 3..])
    else [s[0]] + StripMarkup(s[1..])
  }

  function Visible(t: Text): string
  {
    match t
    case Plain(s) => s
    case Formatted(template) => StripMarkup(template)
  }

  /** None of the text the caller controls could be taken for markup. */
  predicate MarkupFree(name: string, payload: string, site: CallSite)
  {
    '@' !in name && '@' !in payload && '@' !in site.file && '@' !in site.caller
  }

  /**
   * `_getString_(object, colour, useColour)` in the current stack mode: the
   * formatter is used exactly when `useColour` holds, and either way the
   * visible text is the plain line.
   */
  function GetString(name: string, payload: string, colour: Colour, useColour: bool, stack: bool, raw: RawFrame): (t: Text)
    ensures t.Formatted? <==> useColour
    ensures MarkupFree(name, payload, Resolve(raw)) ==> Visible(t) == PlainLine(name, payload, stack, Resolve(raw))
  {
    var site := Resolve(raw);
    if useColour then
      var template := ColourTemplate(name, colour, payload, stack, site);
      assert MarkupFree(name, payload, site) ==> StripMarkup(template) == PlainLine(name, payload, stack, site) by {
        if MarkupFree(name, payload, site) {
          TemplateShowsPlainLine(name, colour, payload, stack, site);
        }
      }
      Formatted(template)
    else Plain(PlainLine(name, payload, stack, site))
  }

  lemma {:induction false} StripPlainPrefix(x: string, rest: string)
    requires '@' !in x
    ensures StripMarkup(x + rest) == x + StripMarkup(rest)
  {
    if x != [] {
      var s := x + rest;
      assert s[0] == x[0] && x[0] != '@';
      assert s[1..] == x[1..] + rest;
      StripPlainPrefix(x[1..], rest);
      assert x == [x[0]] + x[1..];
    } else {
      assert x + rest == rest;
    }
  }

  lemma StripToken(word: string, rest: string)
    requires '}' !in word
    ensures StripMarkup("@{" + word + "}" + rest) == StripMarkup(rest)
  {
    var s := "@{" + word + "}" + rest;
    assert s[2..] == word + "}" + rest;
    IndexOfAfter(word, '}', rest);
    assert s[|word| + 3..] == rest;
  }

  /** A coloured stretch shows as its text alone. */
  lemma StripColoured(colour: Colour, x: string, rest: string)
    requires '@' !in x
    ensures StripMarkup(Open(colour) + (x + (Close(colour) + rest))) == x + StripMarkup(rest)
  {
    var word := ColourName(colour);
    assert '}' !in word && '}' !in "!" + word;
    assert Close(colour) + rest == "@{" + ("!" + word) + "}" + rest;
    StripToken("!" + word, rest);
    StripPlainPrefix(x, Close(colour) + rest);
    assert Open(colour) + (x + (Close(colour) + rest)) == "@{" + word + "}" + (x + (Close(colour) + rest));
    StripToken(word, x + (Close(colour) + rest));
  }

  lemma TailMarkupFree(payload: string, stack: bool, site: CallSite)
    requires '@' !in payload && '@' !in site.file && '@' !in site.caller
    ensures '@' !in Tail(payload, stack, site)
  {
    var digits := NatToString(site.line);
    assert '@' !in digits by {
      assert AllDigits(digits);
    }
  }

  /** The gap and the coloured tail show as the gap and the tail. */
  lemma StripColouredTail(colour: Colour, gap: string, tail: string)
    requires '@' !in gap && '@' !in tail
    ensures StripMarkup(gap + (Open(colour) + (tail + Close(colour)))) == gap + tail
  {
    StripColoured(colour, tail, []);
    assert Close(colour) + [] == Close(colour);
    assert tail + [] == tail;
    StripPlainPrefix(gap, Open(colour) + (tail + Close(colour)));
  }

  /** A markup-free opening bracket in front of a template whose nested form shows as `shown`. */
  lemma StripBracketed(lb: string, o: string, name: string, c: string, gap: string, tail: string, shown: string)
    requires '@' !in lb
    requires StripMarkup(o + (name + (c + (gap + (o + (tail + c)))))) == shown
    ensures StripMarkup(lb + o + name + c + gap + o + tail + c) == lb + shown
  {
    Regroup(lb, o, name, c, gap, o, tail, c);
    StripPlainPrefix(lb, o + (name + (c + (gap + (o + (tail + c))))));
  }

  /** The shape of every colour template: the name and the tail each wrapped in the colour. */
  lemma StripTemplate(colour: Colour, name: string, gap: string, tail: string)
    requires '@' !in name && '@' !in gap && '@' !in tail
    ensures StripMarkup("[" + Open(colour) + name + Close(colour) + gap + Open(colour) + tail + Close(colour))
         == "[" + name + gap + tail
  {
    var o, c := Open(colour), Close(colour);
    var coloured := gap + (o + (tail + c));
    StripColouredTail(colour, gap, tail);
    StripColoured(colour, name, coloured);
    StripBracketed("[", o, name, c, gap, tail, name + (gap + tail));
    Regroup4("[", name, gap, tail);
  }

  /** Erasing the markup from the colour template leaves exactly the plain line. */
  lemma TemplateShowsPlainLine(name: string, colour: Colour, payload: string, stack: bool, site: CallSite)
    requires MarkupFree(name, payload, site)
    ensures StripMarkup(ColourTemplate(name, colour, payload, stack, site)) == PlainLine(name, payload, stack, site)
  {
    TailMarkupFree(payload, stack, site);
    StripTemplate(colour, name, Gap(stack), Tail(payload, stack, site));
  }

  lemma Regroup4(a: string, b: string, c: string, d: string)
    ensures a + b + c + d == a + (b + (c + d))
  {
  }

  lemma Regroup(a: string, b: string, c: string, d: string, e: string, f: string, g: string, h: string)
    ensures a + b + c + d + e + f + g + h == a + (b + (c + (d + (e + (f + (g + h))))))
  {
  }

  /** The parts a plain line is made of. */
  datatype LineParts = LineParts(name: string, site: Option<CallSite>, payload: string)

  /** `s` without the text `lit` at its front, when it starts with it. */
  function ReadLiteral(lit: string, s: string): (r: Option<string>)
    ensures r.Some? <==> lit <= s
    ensures r.Some? ==> s == lit + r.value
  {
    if lit <= s then Some(s[|lit|..]) else None
  }

  /** The text before the first `stop` in `s` and the text after it. */
  function ReadUntil(stop: char, s: string): (r: Option<(string, string)>)
    ensures r.Some? <==> stop in s
    ensures r.Some? ==> stop !in r.value.0 && s == r.value.0 + [stop] + r.value.1
  {
    var k := IndexOf(s, stop);
    if k < 0 then None
    else
      assert s == s[..k] + [stop] + s[k + 1..];
      Some((s[..k], s[k + 1..]))
  }

  /** The decimal number at the front of `s` and the text after it. */
  function ReadNumber(s: string): (r: Option<(nat, string)>)
    ensures r.Some? <==> |s| > 0 && IsDigit(s[0])
    ensures r.Some? ==> r.value.1 == [] || !IsDigit(r.value.1[0])
  {
    var k := DigitPrefixLength(s);
    if k == 0 then None else Some((DecimalValue(s[..k]), s[k..]))
  }

  lemma ReadLiteralOf(lit: string, rest: string)
    ensures ReadLiteral(lit, lit + rest) == Some(rest)
  {
    assert lit <= lit + rest;
    assert (lit + rest)[|lit|..] == rest;
  }

  lemma ReadUntilOf(stop: char, p: string, q: string)
    requires stop !in p
    ensures ReadUntil(stop, p + [stop] + q) == Some((p, q))
  {
    IndexOfAfter(p, stop, q);
    var s := p + [stop] + q;
    assert s[..|p|] == p;
    assert s[|p| + 1..] == q;
  }

  lemma ReadNumberOf(n: nat, rest: string)
    requires rest == [] || !IsDigit(rest[0])
    ensures ReadNumber(NatToString(n) + rest) == Some((n, rest))
  {
    var digits := NatToString(n);
    DigitPrefixOf(digits, rest);
    assert (digits + rest)[..|digits|] == digits;
    assert (digits + rest)[|digits|..] == rest;
  }

  /** Reads `file:function:line => ` off the front of `s`, returning the call site and what follows. */
  function ReadSite(s: string): Option<(CallSite, string)>
  {
    match ReadUntil(':', s)
    case None => None
    case Some((file, r1)) =>
      match ReadUntil(':', r1)
      case None => None
      case Some((caller, r2)) =>
        match ReadNumber(r2)
        case None => None
        case Some((line, r3)) =>
          match ReadLiteral(" => ", r3)
          case None => None
          case Some(payload) => Some((CallSite(file, caller, line), payload))
  }

  /** Splits a plain line, written in the given stack mode, back into its parts. */
  function ReadPlainLine(line: string, stack: bool): Option<LineParts>
  {
    match ReadLiteral("[", line)
    case None => None
    case Some(r0) =>
      match ReadUntil(']', r0)
      case None => None
      case Some((name, r1)) =>
        if !stack then
          match ReadLiteral(" ", r1)
          case None => None
          case Some(payload) => Some(LineParts(name, None, payload))
        else
          match ReadLiteral(" At ", r1)
          case None => None
          case Some(r2) =>
            match ReadSite(r2)
            case None => None
            case Some((site, payload)) => Some(LineParts(name, Some(site), payload))
  }

  lemma ReadSiteOfSiteText(site: CallSite, payload: string)
    requires ':' !in site.file && ':' !in site.caller
    ensures ReadSite(SiteText(site) + " => " + payload) == Some((site, payload))
  {
    var digits := NatToString(site.line);
    var r3 := " => " + payload;
    var r2 := digits + r3;
    var r1 := site.caller + [':'] + r2;
    assert SiteText(site) + " => " + payload == site.file + [':'] + r1;
    ReadUntilOf(':', site.file, r1);
    ReadUntilOf(':', site.caller, r2);
    ReadNumberOf(site.line, r3);
    ReadLiteralOf(" => ", payload);
  }

  /**
   * A plain line reads back as the name, call site and payload it was built
   * from, as long as the name has no `]` and, in stack mode, the file and
   * function names have no `:`.
   */
  lemma ReadPlainLineInverts(name: string, payload: string, stack: bool, site: CallSite)
    requires ']' !in name
    requires stack ==> ':' !in site.file && ':' !in site.caller
    ensures ReadPlainLine(PlainLine(name, payload, stack, site), stack)
         == Some(LineParts(name, if stack then Some(site) else None, payload))
  {
    var r2 := SiteText(site) + " => " + payload;
    var r1 := if stack then " At " + r2 else " " + payload;
    var r0 := name + [']'] + r1;
    assert Gap(stack) + Tail(payload, stack, site) == [']'] + r1;
    assert PlainLine(name, payload, stack, site) == "[" + r0;
    ReadLiteralOf("[", r0);
    ReadUntilOf(']', name, r1);
    if stack {
      ReadLiteralOf(" At ", r2);
      ReadSiteOfSiteText(site, payload);
    } else {
      ReadLiteralOf(" ", payload);
    }
  }
}
