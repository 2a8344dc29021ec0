/**
 * The console the logger writes to, as a record of what is handed to it.
 * `colours.formatter` belongs to an external library; a `Formatted(template)`
 * text stands for whatever that formatter makes of `template`.
 */
module Console {

  datatype Text =
    | Plain(s: string)            // a string written as it is
    | Formatted(template: string) // colours.formatter(template)

  datatype Event =
    | Log(text: Text)                     // console.log(text)
    | Assert(assertion: bool, text: Text) // console.assert(assertion, text)
}
