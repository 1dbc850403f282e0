/**
 * The objects of src/lexer/iterator.rs: `CharsLoc`, the character source with
 * its cursor, and `TokenIterator`, the tokenizer. Every method is proved to
 * have the effect of its step function in module Transitions, and
 * `TokenIterator.Next` to hand out `Lex(input)` one token per call.
 */
module Iterator {
  import opened Wrappers
  import opened Tokens
  import opened Transitions
  import Properties

  /** `CharsLoc` (iterator.rs:7-44): the characters of the input with a line/column cursor. */
  class CharsLoc {
    const chars: seq<char>
    /** How many characters the underlying `CharIndices` has handed out. */
    var pos: nat
    var location: Location

    ghost predicate Valid()
      reads this
    {
      pos <= |chars| && location == LocAt(chars, pos)
    }

    /** `CharsLoc::new` (iterator.rs:15-22). */
    constructor (input: seq<char>)
      ensures Valid() && chars == input && pos == 0 && location == Location(0, 0)
    {
      chars := input;
      pos := 0;
      location := Location(0, 0);
    }

    /** The look-ahead that `take_while_ref` makes through a clone of the source. */
    method Peek() returns (c: Option<char>)
      requires Valid()
      ensures c.Some? <==> pos < |chars|
      ensures c.Some? ==> c.value == chars[pos]
    {
      if pos < |chars| {
        c := Some(chars[pos]);
      } else {
        c := None;
      }
    }

    /**
     * `Iterator::next` for `CharsLoc` (iterator.rs:30-43): the next character
     * with its index; a line feed moves the cursor to column 0 of the next
     * line, any other character one column on; at the end nothing changes.
     */
    method Next() returns (r: Option<(nat, char)>)
      requires Valid()
      modifies this
      ensures Valid()
      ensures old(pos) < |chars| ==> r == Some((old(pos), chars[old(pos)])) && pos == old(pos) + 1
      ensures old(pos) < |chars| && chars[old(pos)] == '\n' ==>
        location == Location(old(location).line + 1, 0)
      ensures old(pos) < |chars| && chars[old(pos)] != '\n' ==>
        location == Location(old(location).line, old(location).column + 1)
      ensures old(pos) == |chars| ==> r == None && pos == old(pos) && location == old(location)
    {
      if pos < |chars| {
        r := Some((pos, chars[pos]));
        if chars[pos] == '\n' {
          location := location.(line := location.line + 1, column := 0);
        } else {
          location := location.(column := location.column + 1);
        }
        pos := pos + 1;
      } else {
        r := None;
      }
    }
  }

  /** `TokenIterator` (iterator.rs:60-65, 67-242). */
  class TokenIterator {
    const charsLoc: CharsLoc
    var state: State
    var indentation: nat
    var tokenStack: seq<Token>
    /** The tokens `Next` has returned so far. */
    ghost var emitted: seq<Token>

    ghost function Snapshot(): Machine
      reads this, charsLoc
    {
      Machine(charsLoc.pos, charsLoc.location, state, indentation)
    }

    /** The invariant every private method keeps. */
    ghost predicate Consistent()
      reads this, charsLoc
    {
      Wf(charsLoc.chars, Snapshot())
    }

    /**
     * Between calls of `Next`: the token stack is empty, the tokens returned
     * so far followed by those still to come are the stream of the input, and
     * the depth is the balance of the tokens returned so far.
     */
    ghost predicate Valid()
      reads this, charsLoc
    {
      && Consistent()
      && tokenStack == []
      && emitted + LexFrom(charsLoc.chars, Snapshot()) == Lex(charsLoc.chars)
      && indentation == Balance(emitted)
    }

    /** `TokenIterator::new` (iterator.rs:68-75). */
    constructor (input: seq<char>)
      ensures Valid() && fresh(charsLoc)
      ensures charsLoc.chars == input && Snapshot() == Initial() && emitted == []
    {
      charsLoc := new CharsLoc(input);
      state := State.Newline;
      indentation := 0;
      tokenStack := [];
      emitted := [];
    }

    /** `line_comment` (iterator.rs:77-84). */
    method LineComment() returns (t: Token)
      requires Consistent()
      modifies charsLoc, this`state
      ensures Consistent()
      ensures (t, Snapshot()) == LineCommentStep(charsLoc.chars, old(Snapshot()))
    {
      var commentLoc := charsLoc.location;
      ghost var start := charsLoc.pos;
      var done := false;
      while !done
        invariant charsLoc.Valid() && start <= charsLoc.pos
        invariant done ==> charsLoc.pos == SkipLine(charsLoc.chars, start)
        invariant !done ==> SkipLine(charsLoc.chars, start) == SkipLine(charsLoc.chars, charsLoc.pos)
        modifies charsLoc
        decreases |charsLoc.chars| - charsLoc.pos, if done then 0 else 1
      {
        var r := charsLoc.Next();
        match r
        case None => done := true;
        case Some((_, c)) => done := c == '\n';
      }
      state := State.Newline;
      t := NewlineToken(commentLoc);
    }

    /** `newline` (iterator.rs:86-89). */
    method Newline() returns (t: Token)
      requires Consistent()
      modifies this`state
      ensures Consistent()
      ensures (t, Snapshot()) == NewlineStep(charsLoc.chars, old(Snapshot()))
    {
      state := State.Newline;
      t := NewlineToken(charsLoc.location);
    }

    /** `white_space` (iterator.rs:91-127). */
    method WhiteSpace() returns (s: Step)
      requires Consistent()
      modifies charsLoc, this`state, this`indentation
      ensures Consistent()
      ensures (s, Snapshot()) == WhiteSpaceStep(charsLoc.chars, old(Snapshot()))
    {
      match state
      case Newline =>
        ghost var start := charsLoc.pos;
        var count := 0;
        var next := charsLoc.Peek();
        while next.Some? && IsBlank(next.value)
          invariant charsLoc.Valid() && charsLoc.pos == start + count
          invariant BlankRun(charsLoc.chars, start) == count + BlankRun(charsLoc.chars, charsLoc.pos)
          invariant next.Some? <==> charsLoc.pos < |charsLoc.chars|
          invariant next.Some? ==> next.value == charsLoc.chars[charsLoc.pos]
          modifies charsLoc
          decreases |charsLoc.chars| - charsLoc.pos
        {
          var _ := charsLoc.Next();
          count := count + 1;
          next := charsLoc.Peek();
        }
        var depth := count + 1;
        state := State.Normal;
        var old_indentation := indentation;
        if old_indentation < depth {
          indentation := depth;
          s := Yield(Some(IndentToken(charsLoc.location, depth - old_indentation)));
        } else if old_indentation == depth {
          s := Continue;
        } else {
          indentation := depth;
          s := Yield(Some(DeIndentToken(charsLoc.location, old_indentation - depth)));
        }
      case PartialName(startLoc, slices) =>
        s := Yield(Some(NameToken(startLoc, Resolve(charsLoc.chars, slices))));
      case Normal =>
        s := Continue;
    }

    /** `move_kind` (iterator.rs:129-144). */
    method MoveOperator(start: nat, kind: MoveKind) returns (s: Step)
      requires Consistent() && start < charsLoc.pos
      modifies charsLoc, this`state
      ensures Consistent()
      ensures (s, Snapshot()) == MoveKindStep(charsLoc.chars, old(Snapshot()), start, kind)
    {
      state := State.Normal;
      var r := charsLoc.Next();
      match kind
      case Copy =>
        if r.Some? && (r.value.1 == ' ' || r.value.1 == '\t') {
          s := Yield(Some(MoveToken(charsLoc.location, kind)));
        } else {
          s := Name(start);
        }
      case Link =>
        if r.Some? && r.value.1 == '>' {
          s := Yield(Some(MoveToken(charsLoc.location, kind)));
        } else {
          s := Name(start);
        }
    }

    /** `set_partial` (iterator.rs:146-161). */
    method SetPartial(part: NamePart<Slice>) returns (s: Step)
      requires Consistent() && SliceIn(part, charsLoc.pos)
      modifies this`state
      ensures Consistent()
      ensures (s, Snapshot()) == SetPartialStep(charsLoc.chars, old(Snapshot()), part)
    {
      state := PartialName(charsLoc.location, [part]);
      // The state was just assigned, so the arm of iterator.rs:155-158 that
      // would answer a DeIndent for a name at the start of a line never runs.
      s := Continue;
    }

    /** `single_name` (iterator.rs:163-171). */
    method SingleName(part: NamePart<Slice>) returns (s: Step)
      requires Consistent() && !part.Ident?
      modifies this`state
      ensures Consistent()
      ensures (s, Snapshot()) == SingleNameStep(charsLoc.chars, old(Snapshot()), part)
    {
      match state
      case PartialName(startLoc, slices) =>
        state := PartialName(startLoc, slices + [part]);
        s := Continue;
      case _ =>
        s := SetPartial(part);
    }

    /** `name` (iterator.rs:173-212). */
    method Name(index: nat) returns (s: Step)
      requires Consistent() && index < charsLoc.pos
      requires state.PartialName? ==> index + 1 == charsLoc.pos
      modifies this`state
      ensures Consistent()
      ensures (s, Snapshot()) == NameStep(charsLoc.chars, old(Snapshot()), index)
    {
      match state
      case PartialName(startLoc, slices) =>
        var parts := slices;
        var wasNone: bool;
        if |parts| > 0 {
          var last := parts[|parts| - 1];
          if last.Ident? {
            parts := parts[..|parts| - 1] + [Ident(last.text.(end := index))];
          }
          wasNone := false;
        } else {
          wasNone := true;
        }
        if wasNone {
          parts := parts + [Ident(Slice(index, index))];
        }
        state := PartialName(startLoc, parts);
        s := Continue;
      case _ =>
        s := SetPartial(Ident(Slice(index, index)));
    }

    /** `finalizer` (iterator.rs:214-222). */
    method Finalizer() returns (t: Option<Token>)
      requires Consistent()
      modifies this`indentation
      ensures Consistent()
      ensures (t, Snapshot()) == FinalizerStep(charsLoc.chars, old(Snapshot()))
    {
      var old_indentation := indentation;
      if old_indentation > 0 {
        indentation := 0;
        t := Some(DeIndentToken(charsLoc.location, old_indentation));
      } else {
        t := None;
      }
    }

    /** `Vec::pop` on the token stack. */
    method PopToken() returns (t: Option<Token>)
      modifies this`tokenStack
      ensures old(tokenStack) == [] ==> t == None && tokenStack == []
      ensures old(tokenStack) != [] ==>
        t == Some(old(tokenStack)[|old(tokenStack)| - 1]) && tokenStack == old(tokenStack)[..|old(tokenStack)| - 1]
    {
      if tokenStack == [] {
        t := None;
      } else {
        t := Some(tokenStack[|tokenStack| - 1]);
        tokenStack := tokenStack[..|tokenStack| - 1];
      }
    }

    /** The `match` of `Iterator::next` (iterator.rs:228-240): read one character and dispatch. */
    method Dispatch() returns (s: Step)
      requires Consistent()
      modifies charsLoc, this`state, this`indentation
      ensures Consistent()
      ensures (s, Snapshot()) == DispatchStep(charsLoc.chars, old(Snapshot()))
    {
      var r := charsLoc.Next();
      match r
      case Some((index, c)) =>
        match c {
        case '#' =>
          var t := LineComment();
          s := Yield(Some(t));
        case '\n' =>
          var t := Newline();
          s := Yield(Some(t));
        case ' ' => s := WhiteSpace();
        case '\t' => s := WhiteSpace();
        case '>' => s := MoveOperator(index, Copy);
        case '-' => s := MoveOperator(index, Link);
        case '*' => s := SingleName(Star);
        case '&' => s := SingleName(Ampersand);
        case '\\' => s := SingleName(Slash);
        case _ => s := Name(index);
        }
      case None =>
        var t := Finalizer();
        s := Yield(t);
    }

    /**
     * The body of `Iterator::next` for `TokenIterator` (iterator.rs:227-241).
     * The tail calls of `self.next()` in the private methods become the
     * iterations of the loop, so the loop runs until a step yields.
     */
    method RunUntilYield() returns (t: Option<Token>)
      requires Consistent() && tokenStack == []
      modifies charsLoc, this`state, this`indentation, this`tokenStack
      ensures Consistent() && tokenStack == []
      ensures (t, Snapshot()) == Run(charsLoc.chars, old(Snapshot()))
    {
      ghost var input := charsLoc.chars;
      ghost var m0 := Snapshot();
      while true
        invariant Consistent() && tokenStack == []
        invariant Run(input, Snapshot()) == Run(input, m0)
        decreases |input| - charsLoc.pos
      {
        ghost var before := Snapshot();
        var popped := PopToken();
        var step := Dispatch();
        assert popped == None && (step, Snapshot()) == DispatchStep(input, before);
        // `Option::or` takes its argument evaluated, so a character is read
        // even when a token was popped.
        var result := if popped.Some? then Yield(popped) else step;
        if result.Yield? {
          t := result.token;
          return;
        }
      }
    }

    /**
     * `Iterator::next` for `TokenIterator`: it returns the next token of
     * `Lex(input)`, or `None` once all of them have been returned.
     */
    method Next() returns (t: Option<Token>)
      requires Valid()
      modifies this, charsLoc
      ensures Valid()
      ensures (t, Snapshot()) == Run(charsLoc.chars, old(Snapshot()))
      ensures emitted == old(emitted) + (if t.Some? then [t.value] else [])
      ensures t == if |old(emitted)| < |Lex(charsLoc.chars)| then Some(Lex(charsLoc.chars)[|old(emitted)|]) else None
    {
      ghost var input := charsLoc.chars;
      ghost var m0 := Snapshot();
      Properties.NextOfStream(input, m0, emitted);
      t := RunUntilYield();
      emitted := emitted + (if t.Some? then [t.value] else []);
      assert emitted + LexFrom(input, Snapshot()) == Lex(input);
      if t.Some? {
        BalanceAppend(old(emitted), t.value);
      }
    }
  }
}
