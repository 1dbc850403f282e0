# The spotfiles tokenizer, modelled in Dafny

spotfiles reads a dotfile description language. Its lexer
(`src/lexer/iterator.rs`, `src/lexer/token.rs`) turns the text into a stream
of tokens that depends on indentation:

- `Indent`/`DeIndent` carry the change of depth in their length;
- `Newline`;
- `Move(Link)` for `->` and `Move(Copy)` for `>`;
- `Name`, a compound name made of identifier runs and the markers `*`, `&` and `\`.

This project models that tokenizer as the code is written, and proves what it
guarantees.

Files:

- `tokens.dfy`: module `Tokens`.
  - The token values of `token.rs`, and the five constructors the tokenizer calls.
  - `Balance`: total Indent length minus total DeIndent length.
  - Module `Wrappers` with `Option`.
- `transitions.dfy`: module `Transitions`, the tokenizer as a transition system on values.
  - A `Machine` is a snapshot of a `TokenIterator`: position in the input, cursor `Location`, lexer `State` and indentation depth.
  - Each private method of `TokenIterator` has a step function from the snapshot before the call to the snapshot after it. A tail call of `self.next()` is the step result `Continue`.
  - `DispatchStep` is the `match` of `Iterator::next`.
  - `Run` is one whole call of `next`: the dispatch repeated until a step yields.
  - `LexFrom`/`Lex` give the complete token stream.
  - Every step preserves the invariant `Wf`:
    - the cursor is the location of the position;
    - a pending name is never empty;
    - its identifier slices lie inside the consumed input;
    - an identifier can only be its first part.
- `properties.dfy` states what one call of `next` does, branch by branch, and proves the stream-wide facts:
  - the Indent and DeIndent lengths cancel over the whole stream;
  - token locations never go backwards;
  - once `next` returns `None` it keeps returning `None`;
  - each call of `next` yields the next element of `Lex`.
- `iterator.dfy` has the imperative model.
  - Classes `CharsLoc` (the located character source) and `TokenIterator`, with the Rust fields as Dafny fields.
  - Each private method is proved to have exactly the effect of its step function.
  - `TokenIterator.RunUntilYield` turns the chain of tail calls into a `while` loop with exactly the effect of `Run`.
  - `TokenIterator.Next` is proved to return element `k` of `Lex(input)` on its `k`-th call, and `None` after the last.
- `scenarios.dfy` works out the complete token stream of small inputs, step by step.

The character source is a `seq<char>`, and slice indices are character positions.

### Behaviour worth knowing

The model follows the code, including these consequences of it:

- **Names at `\n`, `#` and the end of input.** A name pending at `\n`, `#` or the end of input is lost: those branches never look at the pending name.
  - Nothing is ever pushed onto `token_stack`; `next` only pops it.
  - So `"a\n"` gives only `[Newline]`, and `"a#x"` gives only the Newline of the comment.
- **Names at blanks.** After a blank flushes a name, the state stays `PartialName`. The next identifier character extends the same slice across the blank, so `"a b "` yields `Name[a]` and then `Name["a b"]`.
- **Identifier after a marker.** An identifier character after a marker does not push a new `Ident`. `name` only extends a last part that is an identifier, and only pushes when the list is empty. So `"*b "` gives `Name[*]`.
- **Operator fallback.** `move_kind` sets the state to `Normal` before looking at the next character, and consumes that character whatever it is. An operator that is not completed therefore:
  - drops the pending name;
  - loses the character after it;
  - starts a new name made of the operator character alone.
  - So `"x-y "` gives `Name["-"]`.
- **Tabs.** A tab counts one column, the same as a space.
- **The slash marker.** The slash marker comes from a backslash `\`.
- **DeIndent at column 0.** The DeIndent arm of `set_partial`, for a name at column 0 of an indented line, is never taken. Its `match` looks at the state it has just set to `PartialName`.
- **Name length.** `Token::name` takes a string and uses its length, but `white_space` passes it the list of parts. In the model a Name carries its parts, and its length is the number of characters they spell (one per marker).

## Model

| member | source | states |
|---|---|---|
| Tokens.IndentToken | src/lexer/token.rs:33-39 | an Indent at the given location whose length raises the depth by exactly the given amount |
| Tokens.DeIndentToken | src/lexer/token.rs:40-46 | a DeIndent at the given location whose length lowers the depth by exactly the given amount |
| Tokens.NewlineToken | src/lexer/token.rs:47-53 | a Newline at the location, as wide as one line feed, with no effect on depth |
| Tokens.MoveToken | src/lexer/token.rs:54-64 | a Move of the given kind whose length is the width of the operator as written (2 for `->`, 1 for `>`) |
| Tokens.NameToken | src/lexer/token.rs:65-71 | a Name with the given parts whose length is the number of characters the parts spell |
| Tokens.NameLengthIsSpelling | src/lexer/token.rs:65-71 | summing the part widths gives the length of the spelled name |
| Transitions.Advance | src/lexer/iterator.rs:30-43 | consuming a line feed moves to column 0 of the next line; any other character moves one column right; the cursor always moves forward |
| Transitions.LocAtMonotone | src/lexer/iterator.rs:30-43 | the cursor after more input is never before the cursor after less |
| Transitions.TakeStr | src/lexer/iterator.rs:23-25 | the text of a slice has both ends included, and holds the input characters from start to end in order |
| Transitions.Consume | src/lexer/iterator.rs:30-43 | reading a character advances the position by one and keeps the snapshot invariant |
| Transitions.Resolve | src/lexer/iterator.rs:113-122 | one output part per slice, in order; identifier slices become the text they cover; markers stay the same marker |
| Transitions.BlankRun | src/lexer/iterator.rs:94-96 | the length of the maximal run of spaces and tabs at a position; the first non-blank is not consumed |
| Transitions.SkipLine | src/lexer/iterator.rs:79-81 | the skip stops just past the first line feed, or at the end of input when there is none; no line feed is skipped before it |
| Transitions.LineCommentStep | src/lexer/iterator.rs:77-84 | a comment returns a Newline at the cursor just after `#`, skips to just past the next line feed (or to the end), sets the state to `Newline`, and leaves the depth alone |
| Transitions.NewlineStep | src/lexer/iterator.rs:86-89 | a line feed returns a Newline at the cursor after it, sets the state to `Newline`, and keeps position and depth |
| Transitions.WhiteSpaceStep | src/lexer/iterator.rs:91-127 | a blank never ends the stream and only moves forward; the depth changes by exactly the length of the Indent or DeIndent it yields |
| Transitions.SetPartialStep | src/lexer/iterator.rs:146-161 | the state becomes a name of the one given part, starting at the cursor; position and depth unchanged; always a tail call |
| Transitions.SingleNameStep | src/lexer/iterator.rs:163-171 | a marker never yields a token, and changes neither position nor depth |
| Transitions.NameStep | src/lexer/iterator.rs:173-212 | an identifier character never yields a token, and changes neither position nor depth; the name stays well shaped |
| Transitions.MoveKindStep | src/lexer/iterator.rs:129-144 | an operator never ends the stream and only moves forward; the depth is unchanged; a yielded token is a Move of that kind, at the cursor after the lookahead, with state `Normal` |
| Transitions.FinalizerStep | src/lexer/iterator.rs:214-222 | the depth becomes 0; a DeIndent that closes the whole depth is returned exactly when the depth was positive |
| Transitions.DispatchStep | src/lexer/iterator.rs:227-241 | one dispatch keeps the invariant and only moves forward; a tail call always consumes input; `None` comes exactly at the end of input with no open depth; the depth changes by what the token says |
| Transitions.Run | src/lexer/iterator.rs:225-243 | one call of `next` changes the depth by exactly what its token says; `None` only once the input is used up and the depth is 0 |
| Transitions.LexFrom | src/lexer/iterator.rs:225-243 | the tokens still to come close exactly the depth that is open |
| Properties.CommentBranch | src/lexer/iterator.rs:77-84 | `#` consumes through the next line feed or to the end, returns a Newline at the cursor just after `#`, and drops any pending name |
| Properties.LineFeedBranch | src/lexer/iterator.rs:86-89 | `\n` returns a Newline at column 0 of the next line and drops any pending name |
| Properties.IndentationBranch | src/lexer/iterator.rs:93-109 | at the start of a line the depth is one plus the blanks that follow; it is compared with the indentation to give an Indent, a tail call or a DeIndent |
| Properties.NameFlushBranch | src/lexer/iterator.rs:111-124 | a blank inside a name returns the name at its start location, with its resolved parts, and keeps the state |
| Properties.BlankBranch | src/lexer/iterator.rs:125 | a blank in the middle of a line is skipped |
| Properties.OperatorBranch | src/lexer/iterator.rs:129-143 | `-` then `>` is a Link, and `>` then a blank is a Copy, located after both characters |
| Properties.OperatorFallbackBranch | src/lexer/iterator.rs:129-143 | a mismatched operator drops the next character and the pending name, and starts a name with the operator alone |
| Properties.MarkerBranch | src/lexer/iterator.rs:163-171 | `*`, `&` and `\` are appended to a pending name, or start a new one |
| Properties.IdentBranch | src/lexer/iterator.rs:173-212 | another character extends an identifier last part, is dropped after a marker, or starts a new name |
| Properties.EndBranch | src/lexer/iterator.rs:214-222 | at the end, a DeIndent closes the open depth if there is one, otherwise the stream ends |
| Properties.ExhaustedStaysExhausted | src/lexer/iterator.rs:227-241 | after `None`, every later call returns `None` and changes nothing |
| Properties.LexFromStep | src/lexer/iterator.rs:227-241 | one call of `next` takes the first of the tokens still to come |
| Properties.LexBalanced | src/lexer/iterator.rs:214-222 | over the whole stream, Indent lengths and DeIndent lengths cancel |
| Properties.DispatchMonotone | src/lexer/iterator.rs:227-241 | a dispatch never yields a token located before everything already yielded |
| Properties.RunMonotone | src/lexer/iterator.rs:227-241 | a call of `next` never yields a token located before the last one |
| Properties.LexFromMonotone | src/lexer/iterator.rs:227-241 | the remaining stream is ordered by location, and starts no earlier than the last token |
| Properties.LexMonotone | src/lexer/iterator.rs:227-241 | token locations never go backwards in the stream |
| Iterator.CharsLoc.constructor | src/lexer/iterator.rs:15-22 | a source at the start of the input, at line 0, column 0 |
| Iterator.CharsLoc.Peek | src/lexer/iterator.rs:94-96 | the lookahead `take_while_ref` uses returns the next character without consuming it, and `None` at the end |
| Iterator.CharsLoc.Next | src/lexer/iterator.rs:30-43 | returns the index and character and advances the cursor (new line on `\n`, next column otherwise); at the end returns `None` and changes nothing |
| Iterator.TokenIterator.constructor | src/lexer/iterator.rs:68-75 | the initial snapshot: position 0, state `Newline`, depth 0, nothing yielded |
| Iterator.TokenIterator.LineComment | src/lexer/iterator.rs:77-84 | the skip loop has exactly the effect of `LineCommentStep` |
| Iterator.TokenIterator.Newline | src/lexer/iterator.rs:86-89 | has exactly the effect of `NewlineStep` |
| Iterator.TokenIterator.WhiteSpace | src/lexer/iterator.rs:91-127 | the blank-counting loop and the depth comparison have exactly the effect of `WhiteSpaceStep` |
| Iterator.TokenIterator.MoveOperator | src/lexer/iterator.rs:129-144 | has exactly the effect of `MoveKindStep` |
| Iterator.TokenIterator.SetPartial | src/lexer/iterator.rs:146-161 | has exactly the effect of `SetPartialStep` |
| Iterator.TokenIterator.SingleName | src/lexer/iterator.rs:163-171 | has exactly the effect of `SingleNameStep` |
| Iterator.TokenIterator.Name | src/lexer/iterator.rs:173-212 | has exactly the effect of `NameStep` |
| Iterator.TokenIterator.Finalizer | src/lexer/iterator.rs:214-222 | has exactly the effect of `FinalizerStep` |
| Iterator.TokenIterator.PopToken | src/lexer/iterator.rs:228 | `Vec::pop`: the last token is removed and returned, or `None` if the stack is empty |
| Iterator.TokenIterator.Dispatch | src/lexer/iterator.rs:228-240 | has exactly the effect of `DispatchStep` |
| Iterator.TokenIterator.RunUntilYield | src/lexer/iterator.rs:227-241 | the loop that replaces the tail calls of `self.next()` has exactly the effect of `Run`, and keeps the token stack empty |
| Iterator.TokenIterator.Next | src/lexer/iterator.rs:225-243 | the `k`-th call returns element `k` of `Lex(input)`, or `None` after the last one; what was returned so far followed by what is still to come is always `Lex(input)`; the iterator invariant is kept |
| Properties.NextOfStream | src/lexer/iterator.rs:225-243 | if the tokens returned so far followed by the tokens still to come are the whole stream, one more call returns the next stream element (or `None` at the end) and the split still holds |
| Scenarios.NameBeforeLineFeed | src/lexer/iterator.rs:86-89 | `"a\n"` gives only `Newline` at line 1, column 0: the pending name is dropped |
| Scenarios.TabAndSpaceIndent | src/lexer/iterator.rs:91-109 | `"\t b"` gives `Indent 2` at the `b` and the final `DeIndent 2`: a tab is one column, and the name at the end of input is dropped |
| Scenarios.LinkLine | src/lexer/iterator.rs:129-143 | `"a ->"` gives `Name[a]` at the blank, then `Link` located after both operator characters |
| Scenarios.CopyLine | src/lexer/iterator.rs:129-143 | `"> "` gives one `Copy`, located after the blank it takes |
| Scenarios.CommentAfterName | src/lexer/iterator.rs:77-84 | `"a#x"` gives one Newline just after the `#`; the pending name is dropped |
| Scenarios.NameExtendsOverBlank | src/lexer/iterator.rs:111-124 | `"a b "` gives `Name[a]` and then `Name["a b"]` |
| Scenarios.IdentAfterMarkerDropped | src/lexer/iterator.rs:190-204 | `"*b "` gives `Name[*]`: the `b` is dropped |
| Scenarios.DashFallback | src/lexer/iterator.rs:138-142 | `"x-y "` gives `Name["-"]` |

## Left out

- Bytes and Unicode: the Rust source slices the input by the byte offsets of `char_indices`; the model slices by character positions. Lines and columns are counted in characters in both. On non-ASCII input the two differ in two ways:
  - `take_str` (iterator.rs:23-25) panics when an `Ident` ends in a multi-byte character (for example `"é "`), because `end + 1` is not a character boundary; the model returns the text instead;
  - the index `move_kind` and `name` receive is a byte offset in the source, a character position in the model.
- Integer width: `usize` overflow of line, column and depth counters is not modelled; the counters are unbounded.
- Lifetimes and borrowing: token text is modelled as a copied `string`, not as a view that borrows the input.
- `src/lexer.rs` (the grammar that consumes the tokens), `src/lexer/mod.rs` and `src/main.rs` (file reading and printing) are not part of this model.
- The debugging rendering of tokens (`INDENT n`, `<part@part>`) exists in no modelled source file and is not part of this model.
- The iterator adaptors (`take_while`, `take_while_ref`, `count`, `last`) are modelled by their effect on the cursor: the loops in `LineComment` and `WhiteSpace`, with `SkipLine` and `BlankRun` as their specifications. They are not modelled as lazy iterators.
- Stack depth: Rust does not guarantee tail calls, so each `self.next()` in `white_space`, `set_partial`, `single_name` and `name` (iterator.rs:104, 125, 159, 170, 211) adds a stack frame for every character skipped without a token. `RunUntilYield` models that recursion as a loop, so it does not capture the stack overflow a long tokenless run could cause.
- `Option::or` in `next` evaluates its argument eagerly. The model does the same: it always dispatches on a character even when a token was popped. Since the stack is never pushed, that case cannot occur.
- Iterator.TokenIterator.SetPartial: the method leaves out the DeIndent arm that `SetPartialStep` keeps, because that arm can never be taken; the two equal each other on every input.
- Tokens.NameToken: its length counts characters of the spelled parts rather than the UTF-8 bytes `str::len` would count, because the source passes a part list where a string is expected.
