/** The argument type of command-line tools that read from or write to either a named file
    or the standard stream (standard input for inputs, standard output for outputs).

    On the command line a single dash selects the standard stream; every other text is taken
    as a file path, exactly as written.
 */
module IoArgs {

  /** The command-line text that selects the standard stream. */
  const StdStreamToken: string := "-"

  /** Either the standard stream, or the file at `path`. The path is kept as the text it
      was given as, with no trimming, normalisation or check that the file exists. */
  datatype IoArg = StdStream | File(path: string) {

    /** `true` for a file, `false` for the standard stream: it holds exactly of the values
        that carry a path. */
    predicate IsFile()
      ensures IsFile() <==> exists p :: this == File(p)
    {
      match this
      case StdStream => false
      case File(_) => true
    }
  }

  /** The outcome of a conversion from text. */
  datatype Result<+T, +E> = Ok(value: T) | Err(error: E)

  /** The error type of the conversion from text. The Rust crate's error type has no values;
      Dafny has no empty datatype, so this one has a single value, and `FromStr` is proved
      never to return it. */
  datatype ParseError = ParseError

  /** The argument selected by the command-line text `s`. */
  function Parse(s: string): (a: IoArg)
    ensures a.IsFile() <==> s != StdStreamToken
    ensures a != File(StdStreamToken)
  {
    if s == StdStreamToken then StdStream else File(s)
  }

  /** Conversion from text in the shape of a fallible parser. It never fails: conversion is
      total over all texts, the empty one included. Its two ensures on the value fix it for
      every text: the dash gives the standard stream, any other text the file with that path. */
  function FromStr(s: string): (r: Result<IoArg, ParseError>)
    ensures r.Ok?
    ensures Render(r.value) == s
    ensures r.value != File(StdStreamToken)
  {
    Ok(Parse(s))
  }

  /** The command-line text that denotes `a`: the dash for the standard stream, the path
      itself for a file. */
  function Render(a: IoArg): (s: string)
    ensures a != File(StdStreamToken) ==> Parse(s) == a
  {
    match a
    case StdStream => StdStreamToken
    case File(p) => p
  }

  /** The dash yields the standard stream; every other text yields the file with exactly
      that text as its path. */
  lemma ParseCases(s: string)
    ensures s == StdStreamToken ==> Parse(s) == StdStream
    ensures s != StdStreamToken ==> Parse(s) == File(s) && Parse(s).path == s
  {
  }

  /** Parsing loses nothing: the text is recovered from the argument. */
  lemma RenderParse(s: string)
    ensures Render(Parse(s)) == s
  {
  }

  /** Different texts never select the same argument. */
  lemma ParseInjective(s1: string, s2: string)
    requires Parse(s1) == Parse(s2)
    ensures s1 == s2
  {
    RenderParse(s1);
    RenderParse(s2);
  }

  /** The arguments that some text selects are exactly those other than the file whose path
      text is the dash: no text yields the path text "-" (a file of that name is still reached
      through another spelling of its path, such as "./-"). */
  lemma ParseImage(a: IoArg)
    ensures (exists s :: Parse(s) == a) <==> a != File(StdStreamToken)
  {
    if a != File(StdStreamToken) {
      assert Parse(Render(a)) == a;
    }
  }

  /** The two cases the `parsing` test in `io_arg.rs` checks, and the empty text, which
      is a path like any other. */
  lemma ParsingExamples()
    ensures FromStr("-") == Ok(StdStream)
    ensures FromStr("filename").Ok? && FromStr("filename").value.File?
    ensures Parse("") == File("")
  {
  }
}
