# io-arg: the file-or-standard-stream argument

A model of `IoArg`, the argument type that lets a command-line tool accept either a file
path or the standard stream (standard input for an input argument, standard output for an
output argument). On the command line a single dash `-` selects the standard stream; any
other text, the empty text included, is a file path kept exactly as written.

The model lives in `io_arg.dfy`, module `IoArgs`:

- `IoArg` is a datatype with the two variants `StdStream` and `File(path)`; the path is a
  `string`. Its member predicate `IsFile` models `is_file`.
- `Parse` maps text to an argument; `FromStr` wraps it in the `Result` that the standard
  text-conversion interface returns. The Rust crate's error type has no values; Dafny has no
  empty datatype, so the model's `ParseError` has one value, and `FromStr` is proved never
  to return it: the result is always `Ok`.
- `Render` is an addition of the model, not of the Rust crate: the text that denotes an
  argument (`-` for the standard stream, the path for a file). It is the partner against
  which parsing is shown to lose nothing.

## Model

| member | source | states |
|---|---|---|
| IoArgs.Parse | src/io_arg.rs:61-64 | the parsed argument is a file exactly when the text is not `-`, and is never the file whose path text is `-` |
| IoArgs.FromStr | src/io_arg.rs:57-66 | conversion always succeeds (the error type has no values), the text is recovered from the result by `Render`, and the result is never the path text `-`; together these fix the result: `-` gives the standard stream, any other text the file with exactly that path |
| IoArgs.Render | src/io_arg.rs:22-29 | for every argument other than the file named `-`, parsing its text gives that argument back |
| IoArgs.IoArg.IsFile | src/io_arg.rs:35-44 | `IsFile` holds exactly of the values that carry some path: false for the standard stream, true for every file |
| IoArgs.ParseCases | src/io_arg.rs:61-63 | `-` yields the standard stream; any other text yields a file whose path is that very text |
| IoArgs.RenderParse | src/io_arg.rs:61-64 | rendering a parsed argument gives back the original text |
| IoArgs.ParseInjective | src/io_arg.rs:61-64 | two texts that parse to equal arguments are the same text |
| IoArgs.ParseImage | src/io_arg.rs:7-8 | an argument is the result of parsing some text if and only if it is not the file whose path text is `-` |
| IoArgs.ParsingExamples | src/io_arg.rs:74-81 | `-` converts to the standard stream and `filename` to a file (the `parsing` test in `io_arg.rs`), and the empty text to the file with the empty path |

## Left out

- `open_as_input` and `open_as_output` (src/io_arg.rs:46-54) only forward to the input and output openers; opening a file or a standard stream is operating-system I/O.
- The input opener and its buffered reader (src/input.rs:16-30: standard input locked, a file wrapped in a buffered reader), and the output opener and its writer (src/output.rs:16-31: standard output locked, a file written directly with no buffer): they are thin wrappers over the platform's file and stream handles and are not part of this model.
- The demo program and the crate's module declarations and re-exports are not part of this model.
- Path equality: the model compares paths as text. The Rust crate keeps the text verbatim in a `PathBuf`, but the derived equality of `IoArg` uses the platform's path comparison, which compares path components, so two texts such as `a/b` and `a//b`, or `-/` and `-`, give arguments the Rust crate considers equal. `Parse` (never the file `-`), `ParseImage` and `ParseInjective` are therefore about the stored path text, not about that component-wise equality: in the Rust crate `-/` yields a value equal to the file `-`.
- Paths are modelled as strings of characters; the platform's byte-level or wide-character path encoding is not modelled.
