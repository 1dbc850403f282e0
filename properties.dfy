/**
 * What the tokenizer of src/lexer/iterator.rs guarantees, stated on the
 * transition model: one lemma per dispatch branch of `Iterator::next`, and
 * the stream-wide facts (indentation balance, ordered locations, and the end
 * of the stream).
 */
module Properties {
  import opened Wrappers
  import opened Tokens
  import opened Transitions

  // ---------------------------------------------------------------------------
  // One call of `next`, branch by branch
  // ---------------------------------------------------------------------------

  /**
   * `#` (iterator.rs:77-84, 230): everything up to and including the next line
   * feed, or to the end, is consumed; one Newline is returned at the cursor
   * just after the `#`; the state becomes `Newline`, dropping any pending name.
   */
  lemma CommentBranch(input: seq<char>, m: Machine)
    requires Wf(input, m) && m.pos < |input| && input[m.pos] == '#'
    ensures var (s, m') := DispatchStep(input, m);
      && s == Yield(Some(NewlineToken(LocAt(input, m.pos + 1))))
      && m'.state == State.Newline && m'.indentation == m.indentation
      && m.pos < m'.pos
      && (forall i :: m.pos < i < m'.pos - 1 ==> input[i] != '\n')
      && ((m'.pos > m.pos + 1 && input[m'.pos - 1] == '\n')
          || (m'.pos == |input| && forall i :: m.pos < i < m'.pos ==> input[i] != '\n'))
  {
  }

  /**
   * `\n` (iterator.rs:86-89, 231): one Newline at the cursor after the line
   * feed, which is column 0 of the next line; any pending name is dropped.
   */
  lemma LineFeedBranch(input: seq<char>, m: Machine)
    requires Wf(input, m) && m.pos < |input| && input[m.pos] == '\n'
    ensures var (s, m') := DispatchStep(input, m);
      && s == Yield(Some(NewlineToken(Location(m.loc.line + 1, 0))))
      && m'.loc == Location(m.loc.line + 1, 0)
      && m'.pos == m.pos + 1 && m'.state == State.Newline && m'.indentation == m.indentation
  {
  }

  /**
   * A space or tab at the start of a line (iterator.rs:93-109): the depth is
   * one plus the blanks that follow it; the first non-blank is not consumed;
   * the state becomes `Normal`; the depth is compared with the indentation.
   * Tabs and spaces both count one.
   */
  lemma IndentationBranch(input: seq<char>, m: Machine)
    requires Wf(input, m) && m.pos < |input| && IsBlank(input[m.pos]) && m.state == State.Newline
    ensures var (s, m') := DispatchStep(input, m);
      var depth := m'.pos - m.pos;
      && depth >= 1
      && (forall i :: m.pos <= i < m'.pos ==> IsBlank(input[i]))
      && (m'.pos == |input| || !IsBlank(input[m'.pos]))
      && m'.state == State.Normal && m'.loc == LocAt(input, m'.pos)
      && (m.indentation < depth ==> s == Yield(Some(IndentToken(m'.loc, depth - m.indentation))) && m'.indentation == depth)
      && (m.indentation == depth ==> s == Continue && m'.indentation == m.indentation)
      && (m.indentation > depth ==> s == Yield(Some(DeIndentToken(m'.loc, m.indentation - depth))) && m'.indentation == depth)
  {
  }

  /**
   * A space or tab inside a name (iterator.rs:111-124): the name is returned
   * at the location where it started, and the state, parts included, stays.
   */
  lemma NameFlushBranch(input: seq<char>, m: Machine)
    requires Wf(input, m) && m.pos < |input| && IsBlank(input[m.pos]) && m.state.PartialName?
    ensures var (s, m') := DispatchStep(input, m);
      && s == Yield(Some(NameToken(m.state.startLoc, Resolve(input, m.state.slices))))
      && m'.state == m.state && m'.pos == m.pos + 1 && m'.indentation == m.indentation
  {
    var m1 := Consume(input, m);
    assert DispatchStep(input, m) == WhiteSpaceStep(input, m1);
  }

  /** A space or tab in the middle of a line is skipped (iterator.rs:125). */
  lemma BlankBranch(input: seq<char>, m: Machine)
    requires Wf(input, m) && m.pos < |input| && IsBlank(input[m.pos]) && m.state == State.Normal
    ensures DispatchStep(input, m) == (Continue, Consume(input, m))
  {
  }

  /** `-` then `>` is a Link; `>` then a blank is a Copy (iterator.rs:129-143). */
  lemma OperatorBranch(input: seq<char>, m: Machine, kind: MoveKind)
    requires Wf(input, m) && m.pos + 1 < |input|
    requires input[m.pos] == (if kind == Link then '-' else '>')
    requires Completes(kind, input[m.pos + 1])
    ensures var (s, m') := DispatchStep(input, m);
      && s == Yield(Some(MoveToken(LocAt(input, m.pos + 2), kind)))
      && m'.pos == m.pos + 2 && m'.state == State.Normal && m'.indentation == m.indentation
  {
  }

  /**
   * An operator that is not completed (iterator.rs:135, 141): the character
   * after it is consumed and lost, any pending name is dropped, and a new name
   * starts with the one-character slice of the operator itself.
   */
  lemma OperatorFallbackBranch(input: seq<char>, m: Machine, kind: MoveKind)
    requires Wf(input, m) && m.pos < |input|
    requires input[m.pos] == (if kind == Link then '-' else '>')
    requires m.pos + 1 == |input| || !Completes(kind, input[m.pos + 1])
    ensures var (s, m') := DispatchStep(input, m);
      var after := if m.pos + 1 == |input| then m.pos + 1 else m.pos + 2;
      && s == Continue
      && m'.pos == after && m'.indentation == m.indentation
      && m'.state == PartialName(LocAt(input, after), [Ident(Slice(m.pos, m.pos))])
  {
  }

  function MarkerOf(c: char): NamePart<Slice>
  {
    if c == '*' then Star else if c == '&' then Ampersand else Slash
  }

  /**
   * `*`, `&` and `\` (iterator.rs:163-171, 235-237): appended to a pending
   * name, otherwise the first part of a new one; never a token, never a
   * change of depth.
   */
  lemma MarkerBranch(input: seq<char>, m: Machine)
    requires Wf(input, m) && m.pos < |input|
    requires input[m.pos] == '*' || input[m.pos] == '&' || input[m.pos] == '\\'
    ensures var (s, m') := DispatchStep(input, m);
      && s == Continue && m'.pos == m.pos + 1 && m'.indentation == m.indentation
      && m'.state == match m.state
        case PartialName(startLoc, slices) => PartialName(startLoc, slices + [MarkerOf(input[m.pos])])
        case _ => PartialName(LocAt(input, m.pos + 1), [MarkerOf(input[m.pos])])
  {
    var m1 := Consume(input, m);
    assert DispatchStep(input, m) == SingleNameStep(input, m1, MarkerOf(input[m.pos]));
  }

  predicate Reserved(c: char)
  {
    c == '#' || c == '\n' || IsBlank(c) || c == '>' || c == '-' || c == '*' || c == '&' || c == '\\'
  }

  /**
   * Any other character (iterator.rs:173-212, 238): it extends the identifier
   * of a pending name whose last part is an identifier, is dropped when that
   * last part is a marker, and otherwise starts a new name.
   */
  lemma IdentBranch(input: seq<char>, m: Machine)
    requires Wf(input, m) && m.pos < |input| && !Reserved(input[m.pos])
    ensures var (s, m') := DispatchStep(input, m);
      && s == Continue && m'.pos == m.pos + 1 && m'.indentation == m.indentation
      && m'.state == match m.state
        case PartialName(startLoc, slices) =>
          if slices[|slices| - 1].Ident? then PartialName(startLoc, [Ident(Slice(slices[0].text.start, m.pos))])
          else m.state
        case _ => PartialName(LocAt(input, m.pos + 1), [Ident(Slice(m.pos, m.pos))])
  {
    if m.state.PartialName? && m.state.slices[|m.state.slices| - 1].Ident? {
      assert |m.state.slices| == 1;
    }
  }

  /**
   * End of input (iterator.rs:214-222, 240): a DeIndent that closes the whole
   * depth when one is open, otherwise the end of the stream.
   */
  lemma EndBranch(input: seq<char>, m: Machine)
    requires Wf(input, m) && m.pos == |input|
    ensures var (s, m') := DispatchStep(input, m);
      && m' == m.(indentation := 0)
      && (m.indentation > 0 ==> s == Yield(Some(DeIndentToken(m.loc, m.indentation))))
      && (m.indentation == 0 ==> s == Yield(None))
  {
  }

  // ---------------------------------------------------------------------------
  // The stream
  // ---------------------------------------------------------------------------

  /** Once `next` has returned `None`, every later call returns `None` and changes nothing. */
  lemma {:induction false} ExhaustedStaysExhausted(input: seq<char>, m: Machine)
    requires Wf(input, m) && Run(input, m).0.None?
    ensures var m' := Run(input, m).1;
      m'.indentation == 0 && m'.pos == |input| && Run(input, m') == (None, m')
  {
    var m' := Run(input, m).1;
    assert DispatchStep(input, m') == (Yield(None), m');
  }

  /**
   * One call of `next` takes the first of the tokens still to come; after
   * `None` none are left.
   */
  lemma LexFromStep(input: seq<char>, m: Machine)
    requires Wf(input, m)
    ensures var (t, m') := Run(input, m);
      LexFrom(input, m) == (if t.Some? then [t.value] else []) + LexFrom(input, m')
  {
    var (t, m') := Run(input, m);
    if t.None? {
      ExhaustedStaysExhausted(input, m);
    }
  }

  /**
   * If `done` are the tokens returned so far and `m` the snapshot, one more
   * call of `next` returns the next token of the stream, or `None` when all
   * of them have been returned, and the same split holds afterwards.
   */
  lemma NextOfStream(input: seq<char>, m: Machine, done: seq<Token>)
    requires Wf(input, m) && done + LexFrom(input, m) == Lex(input)
    ensures var (t, m') := Run(input, m);
      && (done + (if t.Some? then [t.value] else [])) + LexFrom(input, m') == Lex(input)
      && t == if |done| < |Lex(input)| then Some(Lex(input)[|done|]) else None
  {
    var (t, m') := Run(input, m);
    LexFromStep(input, m);
    var rest := LexFrom(input, m');
    if t.Some? {
      assert done + LexFrom(input, m) == (done + [t.value]) + rest;
      assert Lex(input)[|done|] == t.value;
    } else {
      ExhaustedStaysExhausted(input, m);
      LexFromStep(input, m');
      assert rest == [];
    }
  }

  /** Over the whole stream the Indent lengths and the DeIndent lengths cancel. */
  lemma LexBalanced(input: seq<char>)
    ensures Balance(Lex(input)) == 0
  {
  }

  predicate NonDecreasing(ts: seq<Token>)
  {
    forall i :: 0 <= i < |ts| - 1 ==> LocLe(ts[i].location, ts[i + 1].location)
  }

  /** The location no later token can precede: where the pending name began, else the cursor. */
  function Anchor(m: Machine): Location
  {
    if m.state.PartialName? then m.state.startLoc else m.loc
  }

  /** `last` is at most every location a later token can have. */
  predicate Settled(input: seq<char>, m: Machine, last: Location)
  {
    LocLe(last, Anchor(m)) || (m.pos == |input| && m.indentation == 0)
  }

  lemma DispatchMonotone(input: seq<char>, m: Machine, last: Location)
    requires Wf(input, m) && Settled(input, m, last)
    ensures var (s, m') := DispatchStep(input, m);
      match s
      case Continue => Settled(input, m', last)
      case Yield(None) => true
      case Yield(Some(t)) => LocLe(last, t.location) && Settled(input, m', t.location)
  {
    var (s, m') := DispatchStep(input, m);
    LocAtMonotone(input, m.pos, m'.pos);
    if m.pos < |input| {
      var c := input[m.pos];
      var m1 := Consume(input, m);
      LocAtMonotone(input, m1.pos, m'.pos);
      if c == '#' || c == '\n' || IsBlank(c) {
      } else if c == '>' || c == '-' {
        var kind := if c == '>' then Copy else Link;
        assert (s, m') == MoveKindStep(input, m1, m.pos, kind);
      } else {
      }
    }
  }

  lemma {:induction false} RunMonotone(input: seq<char>, m: Machine, last: Location)
    requires Wf(input, m) && Settled(input, m, last)
    ensures var (t, m') := Run(input, m);
      t.Some? ==> LocLe(last, t.value.location) && Settled(input, m', t.value.location)
    decreases |input| - m.pos
  {
    DispatchMonotone(input, m, last);
    var (s, m') := DispatchStep(input, m);
    if s.Continue? {
      RunMonotone(input, m', last);
    }
  }

  lemma {:induction false} LexFromMonotone(input: seq<char>, m: Machine, last: Location)
    requires Wf(input, m) && Settled(input, m, last)
    ensures var ts := LexFrom(input, m);
      NonDecreasing(ts) && (|ts| > 0 ==> LocLe(last, ts[0].location))
    decreases |input| - m.pos, m.indentation
  {
    var (t, m') := Run(input, m);
    if t.Some? {
      RunMonotone(input, m, last);
      LexFromMonotone(input, m', t.value.location);
      var rest := LexFrom(input, m');
      var ts := [t.value] + rest;
      assert LexFrom(input, m) == ts;
      forall i | 0 <= i < |ts| - 1
        ensures LocLe(ts[i].location, ts[i + 1].location)
      {
        if i > 0 {
          assert ts[i] == rest[i - 1] && ts[i + 1] == rest[i];
        }
      }
    }
  }

  /** Token locations never go backwards along the stream. */
  lemma LexMonotone(input: seq<char>)
    ensures NonDecreasing(Lex(input))
  {
    LexFromMonotone(input, Initial(), Location(0, 0));
  }
}
