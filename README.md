# clausewitz-parser in Dafny

A model of the core of `clausewitz-parser`. This TypeScript library reads and writes the
Clausewitz data format: `key = value` entries, where a value is an
identifier, a number, a quoted string or a nested `{ ... }` object. A key
repeated at one level collects its values into an array. The model covers
five parts:

- the character patterns (`utils.ts`, module `Utils`);
- the tokenizer (`lexer.ts`, module `Lexing`, facts in `LexingFacts`). Its
  specification is the pure function `Lex`: the token sequence of an input
  and how it stops, which is end of input, a lexical error, or a comment with
  no line break after it, on which the source loops forever. Class `Lexer`
  keeps the source's `index` and `line`. Its method `NextToken` is one
  resumption of the `tokenize` generator, and is proved to hand out `Lex`'s
  tokens one per call;
- one level of parsed data (`context.ts`, module `Contexts`). The function
  `Assign` is the meaning of `setData`. Class `Context` holds the mutable
  `data`, and its methods are proved to change `data` as `Assign` says;
- the parser (`parse.ts`, modules `Parsing`, `ParsingFacts` and
  `ParsingText`). It has two descriptions:
  - `Block` is a recursive descent over one nesting level;
  - `Loop` is the source's flat loop over a stack of open levels.

  Lemma `ParseIsTree` proves the two equal on every token sequence. Method
  `Parse` runs the source's loop over `Context` objects, pulls tokens from
  a `Lexer`, and is proved to compute `Parsed(input)`;
- the serializer (`stringify.ts`, module `Stringifying`). `Stringified` is
  the text `stringify` returns. Methods `Stringify`, `Entries`, `Write` and
  `Pad` are the source's accumulator loops and recursion, proved to build
  exactly that text.

Two modules relate the parts:

- `FlatForm` works out what compact mode's three replacements make of the
  lines. For objects whose keys and texts need no repair (`Plain`), the
  result is the one-line form `Flat`: every entry is written as
  `key = value `, and a nested object as `{ entries }` (`TopForm`).
  `StringifyText` applies this to the objects of the stringify tests.
- `RoundTrip` proves that `parse(stringify(obj))` gives `obj` back
  (`CompactRoundTrip`) for a class of objects. In these objects every key
  is an identifier and is used once per object. Every value is one of:
  - a number lexeme;
  - an identifier other than `yes`/`no` in any letter case;
  - a string holding whitespace, with no quote, line break or tab and no
    two whitespace characters in a row;
  - such an object.

  The proof follows the text through the lexer. After every key, value and
  closing brace the text has a blank, and that blank is the character the
  lexer drops after an identifier or a number. The tokens then spell the
  object's entries, and the parser assigns them back in order.

The model follows the code as written, including its surprising behaviour:

- The lexer always drops the character right after an identifier or a
  number. The `collect` loop stops on that character, and the `tokenize`
  loop then advances past it. So `key=1` fails (`EqualsAgainstKeyFails`),
  `key = 1}` loses its extra brace (`BraceAgainstNumberIgnored`), and a line
  break after an identifier is not counted (`LineBreakLostAfterKey`).
- A comment that no line break follows makes `tokenize` loop forever. The
  model gives this the stop `Hang` and the parse outcome `Diverges`.
- Input that ends inside an object is not an error. The object read so far
  stays in place (`UnclosedObject`).
- A key that repeats after a falsy first value (`no`, `0`, `""`) overwrites
  that value instead of collecting it (`AssignOverwritesFalsy`).
- `stringify` leaves out every key whose value is an array
  (`ArraysSkipped`). It writes `true`/`false` for booleans, which `parse`
  reads back as strings (`BooleanReadBack`).
- A nested object is written by a recursive call in compact mode, whatever
  the mode of the outer call. Each level is collapsed on its own, and the
  lead left before a nested level's first key depends on the depth:
  nothing at level 1, a tab at level 2 and one blank deeper (`LevelForm`).
  The outer level then squashes it to the single blank after `{`.
- In compact mode, `stringify` replaces only the first tab, because
  `replace('\t', '')` takes a string pattern. The model does the same
  (`DropFirstTab`).

Values are `Types.Value`:

- `Bool`;
- `Num(lexeme)`: a number keeps the text it was read from;
- `Str`;
- `Obj(fields)`: an object is a sequence of `(key, value)` fields in
  insertion order, the order in which JavaScript enumerates string keys;
- `Arr(elems)`.

## Model

| member | source | states |
|---|---|---|
| Utils.IsAlphaUnderscore | src/utils.ts:2-4 | `/^[a-zA-Z_]*$/`: every character is an ASCII letter or `_` |
| Utils.IsAlphaNumericUnderscore | src/utils.ts:7-9 | `/^[a-zA-Z0-9_]*$/`: every character is an ASCII letter, a digit or `_` |
| Utils.IsNumber | src/utils.ts:12-14 | `/^[+-]?([0-9]*[.])?[0-9]*$/`: an optional sign, then digits with at most one dot |
| Utils.AlphaUnderscoreChar | src/utils.ts:2-4 | on one character, `isAlphaUnderscore` holds exactly for an ASCII letter or `_` |
| Utils.AlphaNumericUnderscoreChar | src/utils.ts:7-9 | on one character, `isAlphaNumericUnderscore` holds exactly for an ASCII letter, a digit or `_` |
| Utils.EmptyAccepted | src/utils.ts:2-14 | all three patterns accept the empty string |
| Utils.AlphaImpliesAlphaNumeric | src/utils.ts:2-9 | every string `isAlphaUnderscore` accepts is accepted by `isAlphaNumericUnderscore` |
| Utils.NumberIff | src/utils.ts:12-14 | the number pattern holds exactly when the string has only signs, digits and dots, a sign only first, and at most one dot |
| Utils.NumberChar | src/utils.ts:12-14 | on one character, the number pattern holds exactly for a digit, `.`, `+` or `-` |
| Utils.NumbersAccepted | src/utils.ts:12-14 | `.5`, `-1.25` and `100` are numbers |
| Utils.NumbersRejected | src/utils.ts:12-14 | `1-2`, `1.2.3` and `1a` are not numbers |
| Types.Find | src/context.ts:20 | the position of the key in the object, if it is present: the first entry holding it |
| Types.Lookup | src/context.ts:20 | `this.data[key]`: the value stored under the key, or none |
| Types.LookupUnique | src/context.ts:20 | in an object with unique keys, the property lookup finds the entry holding the key |
| Contexts.ValueDigits | src/parse.ts:89-91 | the digits `parseFloat` reads from a number lexeme: those of the longest prefix `[+-]?[0-9]*(.[0-9]*)?` |
| Contexts.IsZeroOrNaN | src/context.ts:24 | `parseFloat(lexeme)` is 0, -0 or NaN: every digit it reads is `0`, or it reads none |
| Contexts.Truthy | src/context.ts:24 | the `if (data)` test: `false`, 0, NaN and `''` are falsy, everything else is truthy |
| Contexts.Assign | src/context.ts:19-39 | `setData`: add a new key at the end; overwrite a falsy value; append to a truthy array; replace another truthy value by `[old, value]` |
| Contexts.Attach | src/context.ts:42-48 | what the object `setChild` stored under the key holds once its level is filled: the key's value, or the last element of its array |
| Contexts.FalsyNumbers | src/context.ts:24 | `0` and `-0.00` are falsy, and so are the lexemes `.` and `+-1`, which `parseFloat` reads as NaN |
| Contexts.TruthyNumbers | src/context.ts:24 | `.5` is truthy, and so is `1-2`, which `parseFloat` reads as 1, whatever follows the digits it reads |
| Contexts.TruthyFraction | src/context.ts:24 | leading zeros do not make a number falsy when a later digit is non-zero |
| Contexts.AssignAbsent | src/context.ts:36-38 | a key not present yet is added at the end and holds the value itself |
| Contexts.AssignMerges | src/context.ts:29-34 | a key holding a truthy non-array value then holds `[old, value]` |
| Contexts.AssignAppends | src/context.ts:26-28 | a key holding a truthy array gets the value appended, with earlier elements kept in order |
| Contexts.AssignOverwritesFalsy | src/context.ts:24-38 | a key holding a falsy value is overwritten, not merged |
| Contexts.AssignFrame | src/context.ts:19-39 | only the entry for the key changes: every other key keeps its value and position |
| Contexts.AssignKeepsUniqueKeys | src/context.ts:19-39 | `setData` keeps the keys of an object unique |
| Contexts.RepeatedKeyCollects | src/context.ts:19-39 | a key assigned two or more times, the first value truthy, holds the array of all its values in order |
| Contexts.AttachAfterPlaceholder | src/context.ts:42-48 | filling the placeholder object that `setChild` stored gives the same entries as storing the finished child directly |
| Contexts.AttachKeepsUniqueKeys | src/context.ts:42-48 | writing a child back keeps the keys unique |
| Contexts.Context.Root | src/context.ts:9-12 | a root context has no data and no parent |
| Contexts.Context.Nested | src/context.ts:47 | a child context has no data yet and the given parent |
| Contexts.Context.SetData | src/context.ts:19-39 | the new data is `Assign(old data, key, value)` |
| Contexts.Context.SetChild | src/context.ts:42-48 | stores an empty object under the key and returns a fresh child context whose parent is this one |
| Contexts.Context.WriteBack | src/context.ts:42-48 | the parent's placeholder for this context now holds this context's data |
| Lexing.Span | src/lexer.ts:80-87 | the length of the run of characters at the start of the input that pass the test |
| Lexing.Collected | src/lexer.ts:71-90 | `collect`: the current character and the run after it that passes the test; the character that stops the run is skipped by the next turn of `tokenize` |
| Lexing.Quoted | src/lexer.ts:93-121 | `string()`: the text up to the closing quote; an illegal-line-break error on a line break, an unterminated-string error at end of input |
| Lexing.Comment | src/lexer.ts:160-165 | the `#` case: skip to the next line break, or hang when none follows |
| Lexing.Other | src/lexer.ts:169-180 | the `default` case: an identifier, then a number, otherwise `UnexpectedCharacter` with the character and the line |
| Lexing.Scan | src/lexer.ts:141-181 | one turn of the `tokenize` loop: skip a blank, count a line break, yield `{`, `}` or `=`, or go to the comment, string or default case; stop at end of input |
| Lexing.Lex | src/lexer.ts:137-183 | the whole sequence `tokenize` yields, and how it stops: end of input, an error, or a hang |
| Lexing.SpanUnique | src/lexer.ts:71-90 | a run of matching characters that ends at a mismatch or at the end of input has the length `Span` gives |
| Lexing.QuotedEnds | src/lexer.ts:93-121 | when the string characters after the quote end at a given position, the string is a token, an unterminated-string error or an illegal-line-break error |
| Lexing.CommentEnds | src/lexer.ts:160-165 | a comment is skipped up to the next line break, and hangs if there is none |
| Lexing.Lexer.constructor | src/lexer.ts:37-45 | a new lexer has read nothing, is at line 0, and will yield `Lex(input, 0)` |
| Lexing.Lexer.Peek | src/lexer.ts:48-50 | the character after the cursor, or none |
| Lexing.Lexer.Curr | src/lexer.ts:53-55 | the character under the cursor, or none |
| Lexing.Lexer.Next | src/lexer.ts:58-60 | advances the cursor by one and returns the character it lands on |
| Lexing.Lexer.IsEnd | src/lexer.ts:63-65 | true exactly when no character is left to read |
| Lexing.Lexer.Collect | src/lexer.ts:71-90 | the lexeme is the current character and the run of matching characters after it; the cursor ends on the first mismatch |
| Lexing.Lexer.ScanString | src/lexer.ts:93-121 | reads up to the closing quote; fails on a line break or at end of input; the cursor ends on the closing quote |
| Lexing.Lexer.CreateToken | src/lexer.ts:132-134 | the token carries the current line |
| Lexing.Lexer.ReadIdentifier | src/lexer.ts:124-129 | an identifier token made of the current character and the letters, digits and `_` after it |
| Lexing.Lexer.SkipComment | src/lexer.ts:160-165 | advances to the last character before the next line break, and reports whether one exists |
| Lexing.Lexer.Dispatch | src/lexer.ts:142-181 | one `switch` on the current character does what `Scan` says: skip, count a line, yield or stop |
| Lexing.Lexer.CommentArm | src/lexer.ts:160-165 | the `#` case does what `Comment` says |
| Lexing.Lexer.StringArm | src/lexer.ts:166-168 | the `"` case does what `Quoted` says |
| Lexing.Lexer.Default | src/lexer.ts:169-180 | the default case yields an identifier or a number, or throws `UnexpectedCharacter`, as `Other` says |
| Lexing.Lexer.NextToken | src/lexer.ts:137-183 | one `next()` gives the first item of the remaining token sequence, and the generator then holds the rest |
| LexingFacts.BlankSkipped | src/lexer.ts:144-147 | space, `\r` and `\t` produce nothing and the line stays the same |
| LexingFacts.NewlineCounted | src/lexer.ts:148-150 | a line break produces nothing and moves to the next line |
| LexingFacts.OperatorToken | src/lexer.ts:151-159 | `{`, `}` and `=` each give one token holding that character |
| LexingFacts.StringToken | src/lexer.ts:93-121 | a string token is the text between the quotes as it stands, and the closing quote is consumed |
| LexingFacts.StringLineBreak | src/lexer.ts:101-103 | a line break before the closing quote is an error |
| LexingFacts.StringUnterminated | src/lexer.ts:113-115 | input that ends inside a string is an error |
| LexingFacts.IdentifierToken | src/lexer.ts:124-129 | an identifier is the longest run of identifier characters, and the character after it is dropped |
| LexingFacts.NumberToken | src/lexer.ts:175-177 | a number is the longest run of number characters, and the character after it is dropped |
| LexingFacts.CommentSkipped | src/lexer.ts:160-165 | a comment runs up to the line break, which is then read as usual |
| LexingFacts.CommentHangs | src/lexer.ts:162-164 | a comment that no line break follows is never left |
| LexingFacts.UnexpectedCharacterFails | src/lexer.ts:178-180 | any other character stops the sequence with an error naming it and the current line |
| LexingFacts.LexWellFormed | src/lexer.ts:137-183 | every token's text has the form of its kind, lies at or after the starting line, and lines never decrease |
| LexingFacts.IdentifierThen | src/lexer.ts:124-129 | a whole identifier followed by other text lexes to one identifier token, with one character of the rest dropped |
| LexingFacts.NumberThen | src/lexer.ts:175-177 | a whole number lexeme followed by other text lexes to one number token, with one character of the rest dropped |
| LexingFacts.EqualsLostAfterKey | src/lexer.ts:80-141 | in `key=1` only the key and the number are yielded |
| LexingFacts.BraceLostAfterNumber | src/lexer.ts:80-141 | in `key = 1}` the `}` is not yielded |
| LexingFacts.LineBreakLostAfterKey | src/lexer.ts:80-150 | a line break right after an identifier is not counted |
| Parsing.Lower | src/parse.ts:21 | `toLowerCase`: ASCII capitals become lower case, every other character stays |
| Parsing.ParseIdentifier | src/parse.ts:20-29 | `yes` gives true and `no` gives false, in any letter case; any other identifier stays text |
| Parsing.RightValue | src/parse.ts:81-92 | the value a right-hand token stores: a parsed identifier, a string's text or a number's lexeme |
| Parsing.AfterKey | src/parse.ts:73-98 | the two pulls after a key: `=` is required, then a value, `{`, or an error |
| Parsing.Block | src/parse.ts:63-114 | recursive descent over one level: its entries up to the `}` that closes it, or up to end of input |
| Parsing.SetTop | src/parse.ts:83-91 | `ctx.setData` on the innermost open level |
| Parsing.Open | src/parse.ts:93-95 | `ctx = ctx.setChild(key)`: an empty object under the key and a new innermost level |
| Parsing.Close | src/parse.ts:106 | `ctx = ctx.parent`, the closed level visible through the shared object in the level below |
| Parsing.Unwind | src/parse.ts:113 | `root.data` with every level still open visible in the level below |
| Parsing.Loop | src/parse.ts:70-113 | the `for` loop of `parse` over the token sequence, with a stack of open levels |
| Parsing.ParseTokens | src/parse.ts:65-113 | `parse` run on a token sequence from an empty root |
| Parsing.Parsed | src/parse.ts:63-114 | `parse(input)`: the loop on the tokens of `Lex(input, 0)` |
| Parsing.ParseIdentifierCases | src/parse.ts:20-29 | `yes` in any letter case is true, `no` in any letter case is false, every other identifier is its text |
| Parsing.ParseIsTree | src/parse.ts:63-114 | the source's loop over a stack of levels and the recursive descent give the same outcome on every token sequence |
| Parsing.LoopFollowsBlock | src/parse.ts:70-111 | from any position, the loop continues with what the recursive descent reads for the current level |
| Parsing.Pull | src/parse.ts:73-79 | one `iter.next()` gives the next item of the token sequence |
| Parsing.Store | src/parse.ts:83-91 | `ctx.setData` changes the current level as `Assign` says, and the context chain still matches the open levels |
| Parsing.Descend | src/parse.ts:93-95 | `ctx = ctx.setChild(key)` opens a new level under the key |
| Parsing.Ascend | src/parse.ts:106 | `ctx = ctx.parent` closes the current level into its placeholder |
| Parsing.ReadRight | src/parse.ts:73-98 | pulls `=` and the right-hand side, with the outcome `AfterKey` describes: a value, an opening brace, an error or a hang |
| Parsing.Entry | src/parse.ts:72-99 | one `key = ...` entry moves the loop on as `Loop` says |
| Parsing.Leave | src/parse.ts:100-107 | a `}` at the root fails with `UnexpectedToken`; otherwise the current level is closed |
| Parsing.Act | src/parse.ts:71-110 | acting on one token moves the loop on as `Loop` says, and any other token kind fails |
| Parsing.Finish | src/parse.ts:111-113 | at the end of input, the root holds every open level written into its parent |
| Parsing.Step | src/parse.ts:70-110 | one turn of the loop keeps the objects in step with `Loop` |
| Parsing.ParseFrom | src/parse.ts:65-113 | returns `ParseTokens` of the lexer's token sequence |
| Parsing.Parse | src/parse.ts:63-114 | returns `Parsed(input)` |
| ParsingFacts.AssignProper | src/context.ts:19-39 | storing a proper value that is not an array keeps an object proper |
| ParsingFacts.BlockProper | src/parse.ts:63-114 | the recursive descent builds proper objects: unique keys, and arrays only of two or more non-array values |
| ParsingFacts.ParsedProper | src/parse.ts:63-114 | whatever `parse` returns is a proper object |
| ParsingFacts.Meanings | src/parse.ts:83-95 | the values of entries, one per entry, in order |
| ParsingFacts.BlockReads | src/parse.ts:70-99 | the recursive descent reads the tokens of sound entries as the object they assign, in order |
| ParsingFacts.SpelledDocument | src/parse.ts:63-114 | the tokens that spell sound entries parse to what those entries assign |
| ParsingFacts.Document | src/parse.ts:63-114 | tokens made of sound entries parse to what they assign; a lexical error or a hang after them is reported instead |
| ParsingFacts.MeaningNotArray | src/parse.ts:83-95 | one entry never stores an array |
| ParsingFacts.RepeatedKeyArray | src/__test__/parse.spec.ts:82-131 | two or more entries with the same key, the first truthy, give that key the array of their values in order, objects included |
| ParsingFacts.RepeatedKeyParsed | src/__test__/parse.spec.ts:82-113 | such entries alone parse to an object whose only key holds that array |
| ParsingFacts.UnclosedObject | src/parse.ts:111-113 | input that ends inside an object parses without error, as if the object had been closed |
| ParsingFacts.RootBraceFails | src/parse.ts:100-104 | a `}` where a key of the root is due fails, whatever follows |
| ParsingFacts.NonKeyFails | src/parse.ts:108-109 | an `=`, `{`, number or string where a key is due fails |
| ParsingFacts.MissingEqualsFails | src/parse.ts:73-77 | a key must be followed by `=` |
| ParsingFacts.BadValueFails | src/parse.ts:96-97 | `key =` followed by `=` or `}` fails |
| ParsingFacts.EndAfterKeyFails | src/parse.ts:73-79 | input that ends after a key, or after `key =`, fails |
| ParsingText.AssignmentLexes | src/lexer.ts:124-159 | `key = ` lexes to the key and `=`, the blank after the key being the dropped character |
| ParsingText.OneEntry | src/parse.ts:72-92 | a single `key = value` entry parses to a one-field object |
| ParsingText.IdentifierValue | src/__test__/parse.spec.ts:8-43 | `key = value` for an identifier value gives a boolean for `yes`/`no` in any case, the text otherwise |
| ParsingText.NumberValue | src/__test__/parse.spec.ts:4-20 | `key = 100` and `key = .5` keep the number's lexeme |
| ParsingText.StringValue | src/__test__/parse.spec.ts:34-36 | `key = "text"` gives the text between the quotes |
| ParsingText.UnterminatedStringFails | src/__test__/parse.spec.ts:45-49 | a string value that the input ends in fails with the lexer's error |
| ParsingText.MultilineStringFails | src/__test__/parse.spec.ts:51-58 | a line break inside a string value fails, whatever follows |
| ParsingText.LeadingBraceFails | src/parse.ts:100-104 | a leading `}` fails at once, and the rest of the input is never scanned |
| ParsingText.EqualsAgainstKeyFails | src/lexer.ts:80-87 | `key=1` fails on the number, because the `=` is dropped |
| ParsingText.BraceAgainstNumberIgnored | src/lexer.ts:80-87 | `key = 1}` parses without error, because the `}` is dropped |
| Stringifying.Padded | src/stringify.ts:3-11 | `pad(str, level)`: `level` tabs, then the string |
| Stringifying.Newlines | src/stringify.ts:50 | `.replace(/\n/g, ' ')` |
| Stringifying.DropFirstTab | src/stringify.ts:50 | `.replace('\t', '')`, which removes only the first tab |
| Stringifying.Collapse | src/stringify.ts:50 | `.replace(/\s{2,}/g, ' ')`: from the left, each whole run of two or more whitespace characters becomes one blank |
| Stringifying.Compact | src/stringify.ts:49-51 | the three replacements of compact mode, in order |
| Stringifying.Shown | src/stringify.ts:40-42 | a scalar's text, in quotes when it holds whitespace |
| Stringifying.Text | src/stringify.ts:36-42 | a value as written after `key = `: a nested object as `{`, a line break, its compact text one level deeper and `}` padded |
| Stringifying.Line | src/stringify.ts:30-45 | one entry's contribution: nothing for an array, otherwise `key = value` and a line break, padded |
| Stringifying.Body | src/stringify.ts:24-47 | the text the loop over the keys accumulates in `data`, in key order |
| Stringifying.Stringified | src/stringify.ts:23-54 | `stringify(obj, level, pretty)`: the body, passed through the three replacements unless `pretty` |
| Stringifying.Tabs | src/stringify.ts:6-8 | `level` characters, all tabs |
| Stringifying.Pad | src/stringify.ts:3-11 | `pad` returns `level` tabs followed by the string |
| Stringifying.SpaceRun | src/stringify.ts:50 | the length of the whitespace run at the start: all whitespace, followed by a non-whitespace character or the end |
| Stringifying.NewlinesSpec | src/stringify.ts:50 | after `.replace(/\n/g, ' ')` no line break is left, and the visible characters are unchanged |
| Stringifying.DropFirstTabSpec | src/stringify.ts:50 | `.replace('\t', '')` removes the first tab only and keeps every other character in order |
| Stringifying.CollapseVisible | src/stringify.ts:50 | `.replace(/\s{2,}/g, ' ')` keeps the visible characters and adds only blanks |
| Stringifying.CollapseSpaced | src/stringify.ts:50 | after collapsing, no two whitespace characters are adjacent |
| Stringifying.CollapseKeepsSpaced | src/stringify.ts:50 | text without adjacent whitespace is left unchanged |
| Stringifying.CollapseIdempotent | src/stringify.ts:50 | collapsing twice is collapsing once |
| Stringifying.CompactSpec | src/stringify.ts:49-51 | compact mode leaves no line break and no adjacent whitespace, and keeps the visible characters |
| Stringifying.BodyStep | src/stringify.ts:26-47 | the text of the first `i + 1` entries is that of the first `i` plus the `i`-th entry's line: empty for an array, `key = value` padded otherwise |
| Stringifying.BodyAppend | src/stringify.ts:26-47 | the text of two lists of entries is the text of the first followed by that of the second |
| Stringifying.CompactOutput | src/stringify.ts:49-51 | compact mode leaves the text on one line with no run of whitespace |
| Stringifying.NestedOnOneLine | src/stringify.ts:36-38 | a nested object is written as `key = {`, a single line, and `}` at the entry's own indentation |
| Stringifying.WithoutArrays | src/stringify.ts:30-34 | keeps exactly the entries whose value is not an array, in order |
| Stringifying.ArraysSkipped | src/stringify.ts:30-34 | the text equals the text of the object with its array entries removed |
| Stringifying.EntryShows | src/stringify.ts:44 | the text holds an `=` as soon as one value is not an array |
| Stringifying.EmptyExactlyForArrays | src/stringify.ts:23-54 | the result is empty exactly when every value is an array, the empty object included |
| Stringifying.Stringify | src/stringify.ts:23-54 | returns `Stringified(obj, level, pretty)` |
| Stringifying.Entries | src/stringify.ts:24-47 | the loop over the keys builds the lines of every non-array entry, in key order |
| Stringifying.Write | src/stringify.ts:36-42 | a nested object is `{`, the compact text of its fields one level deeper, and `}` padded; a scalar is quoted when it holds whitespace |
| FlatForm.CollapseAppend | src/stringify.ts:50 | after a visible character, `.replace(/\s{2,}/g, ' ')` on two joined texts is the two results joined |
| FlatForm.CollapseJoin | src/stringify.ts:50 | a whitespace run between two visible characters becomes one blank, or stays if it is one character, and the texts on either side collapse on their own |
| FlatForm.NewlinesLine | src/stringify.ts:44-50 | after `.replace(/\n/g, ' ')`, one entry's line is its padding, `key = `, the value's text and a blank |
| FlatForm.NewlinesBody | src/stringify.ts:26-50 | `.replace(/\n/g, ' ')` on the lines of plain entries turns each line's break into a blank and changes nothing else |
| FlatForm.RawNoTab | src/stringify.ts:50 | at level 0 no tab is left once the nested levels are compacted, so `.replace('\t', '')` removes nothing |
| FlatForm.FlatEnds | src/stringify.ts:44 | the one-line form holds no tab, starts with a visible character and ends in one blank after a visible character |
| FlatForm.ItemCollapse | src/stringify.ts:44 | `key = value` collapses to the key, ` = ` and the value's one-line form |
| FlatForm.ValueCollapse | src/stringify.ts:36-42 | a value's text collapses to its one-line form and starts and ends with a visible character; a nested object becomes `{ entries }` |
| FlatForm.Tail | src/stringify.ts:26-47 | the lines from the first key on, breaks replaced, collapse to the one-line form of the entries |
| FlatForm.LevelForm | src/stringify.ts:37 | a nested level's compact text is empty for no entries, and otherwise its lead followed by the one-line form |
| FlatForm.TopForm | src/stringify.ts:23-54 | for plain objects, compact `stringify` at level 0 returns the one-line form: `key = value ` per entry, nested objects as `{ entries }` |
| RoundTrip.ReadablePlain | src/stringify.ts:36-44 | keys and texts of the round-trip class need no repair by compact mode |
| RoundTrip.LexKeyed | src/lexer.ts:124-159 | `key = ` lexes to the key and `=`, the blank after the key being the dropped character |
| RoundTrip.LexScalar | src/lexer.ts:93-177 | a scalar's text and a blank lex to one token: an identifier, a number, or a string without its quotes |
| RoundTrip.LexBraced | src/lexer.ts:151-156 | `{ `, text and `} ` lex to `{`, the text's tokens and `}` |
| RoundTrip.LexValue | src/lexer.ts:137-183 | a value's one-line form and a blank lex to the value's tokens, whatever follows |
| RoundTrip.LexEntry | src/lexer.ts:137-183 | `key = value ` lexes to the tokens of the entry the field spells, whatever follows |
| RoundTrip.LexFlat | src/lexer.ts:137-183 | the one-line form of an object lexes to the tokens spelling its entries, in order, whatever follows |
| RoundTrip.LexWhole | src/lexer.ts:137-183 | the one-line form alone lexes to exactly those tokens and ends at the end of input |
| RoundTrip.MeaningBack | src/parse.ts:83-95 | the entry spelt from a field means that field's value: identifiers other than `yes`/`no`, numbers, strings and objects are read back unchanged |
| RoundTrip.ApplyBack | src/context.ts:19-39 | assigning the entries of an object with unique keys, none of them present yet, appends its fields in order |
| RoundTrip.CompactRoundTrip | src/stringify.ts:23-54 | `parse(stringify(obj))` returns `obj` for every object of the round-trip class |
| RoundTrip.BooleanReadBack | src/parse.ts:20-29 | `stringify` of a boolean entry parses back to the string `true` or `false` |
| StringifyText.PrimitivesWritten | src/__test__/stringify.spec.ts:4-11 | `{a: 'Foobar', b: 10}` is written `a = Foobar b = 10` and one trailing blank |
| StringifyText.PrimitivesReadBack | src/__test__/stringify.spec.ts:4-11 | that text parses back to `{a: 'Foobar', b: 10}` |
| StringifyText.TwoWords | src/stringify.ts:40-41 | two words with a blank between them hold whitespace, and compact mode leaves them as they are |
| StringifyText.SpacedStringQuoted | src/__test__/stringify.spec.ts:13-19 | `{test: 'Hello World'}` is written `test = "Hello World"` and one trailing blank |
| StringifyText.ObjectsInline | src/__test__/stringify.spec.ts:21-33 | the nested object of the test is written `test = { prop1 = Foo prop2 = { test = Hello } prop3 = { test = World } }` and one trailing blank |

## Left out

- Numbers are kept as their lexemes. `parseFloat` is modelled only where it matters, in the truthiness test of `setData`: a lexeme is falsy when `parseFloat` reads it as zero or NaN. Underflow is not modelled: `parseFloat` reads a lexeme whose value is below about 2.5e-324 as zero (for example `0.` followed by 400 zeros and `1`), while the model calls it truthy as soon as a digit other than `0` is read. `stringify` writes a number's lexeme, not JavaScript's shortest form of the float.
- Error messages are not formatted. An error is the datatype `LexError` or `ParseError`, with the offending token or character and line.
- When the input ends after a key or after `key =`, the source reads `.type` of `undefined` and throws a `TypeError`. The model reports `UnexpectedEnd`.
- The `Error('Unexpected error.')` branch of `collect` (src/lexer.ts:75-77) cannot be reached from `tokenize`, which calls `collect` only on a character. It is left out.
- The line counter is a `nat`. The source's `index` starts at -1, which the model keeps.
- `types.ts` is not part of this model. Values are `Types.Value`: scalars, objects as ordered fields, and arrays. JavaScript objects with prototype properties, `hasOwnProperty` and integer-like keys enumerated first are not modelled; keys keep insertion order.
- `stringify` on values `parse` never produces (`null`, functions, arrays nested in arrays) is not modelled. `Write` and `Text` require a value that is not an array, as the only call site guarantees.
- The unused helper `foo` (src/stringify.ts:13-21) and the empty `for (const _ of val)` loop over an array (src/stringify.ts:31-33) do nothing and are left out.
- The `it.only` test (src/__test__/stringify.spec.ts:35-45) asserts nothing and is left out. Its `.only` disables the other stringify tests.
- The parse tests' concrete inputs are stated for every key and value of the same form (`IdentifierValue`, `NumberValue`, `RepeatedKeyArray`, ...). Literal multi-line inputs are not stated. The stringify tests are stated as lemmas on the tests' concrete objects (`StringifyText`). `text.trim()` is not modelled: each expected text is stated with the one blank that `trim` removes.
- StringifyText.ObjectsInline: the expected text is stated as three pieces joined, which equal the test's literal.
- RoundTrip.CompactRoundTrip: the round trip is proved for compact mode only, and only for the round-trip class. Outside it, the source does not give the object back. A key or string needing quotes is mangled. A key with `"` in it breaks the text. `yes`/`no` strings come back as booleans. Arrays are dropped. Pretty mode is not covered. Compact mode also rewrites the text inside quotes: a string with two whitespace characters in a row comes back with one blank (`{a: 'x  y'}` is written `a = "x y" `), and the first tab of the whole text is removed, inside a string too (`{a: 'x\ty'}` comes back as `xy`). Numbers are round-tripped as lexemes only, since the model writes a number's lexeme. The source stores `parseFloat(lexeme)` and writes the float as JavaScript prints it, so some numbers in the class do not come back in the source. A lexeme `parseFloat` reads as NaN (such as `.`) is written `NaN` and read back as a string. A value of 1e21 or more, or below 1e-6, is written with an exponent such as `1e+21`. The lexer then drops the `e` and reads `+21` where a key is due, and `parse` fails with `UnexpectedToken`. Other lexemes come back as the same number with a different spelling (`1.50` as `1.5`).
- Characters are Unicode scalar values, not UTF-16 code units. The source indexes `input` by code unit (src/lexer.ts:48-60). Where a token is due, a character outside the Basic Multilingual Plane makes the source throw `UnexpectedCharacter` with a lone high surrogate. `Lexing.Other` names the whole character instead. Strings and comments carry the same text either way, and identifiers are ASCII.
- A comment that never ends makes `tokenize` loop forever. The model reports this as the stop `Hang` and the outcome `Diverges`; it does not model non-termination itself.
- Stringifying.Stringify: a value holding a boolean is written as `true` or `false`, which `parse` reads back as a string (`BooleanReadBack`). No round trip `parse(stringify(x)) == x` is claimed for booleans.
