/**
 * The tokenizer of src/lexer/iterator.rs as a transition system on values.
 *
 * A `Machine` is a snapshot of a `TokenIterator`: the character source's
 * position and cursor, the lexer state and the indentation depth. Each
 * private method of the iterator has a step function here that maps the
 * snapshot before the call to the snapshot after it. Where the Rust method
 * ends in a tail call of `self.next()`, its step function returns `Continue`.
 * `Run` iterates `DispatchStep` until a step yields; that is one call of
 * `Iterator::next`. `Lex` is the whole token stream.
 */
module Transitions {
  import opened Wrappers
  import opened Tokens

  predicate IsBlank(c: char)
  {
    c == ' ' || c == '\t'
  }

  // ---------------------------------------------------------------------------
  // The located character source (CharsLoc)
  // ---------------------------------------------------------------------------

  /** The cursor after consuming `c`: a line feed starts a new line, anything else moves one column. */
  function Advance(loc: Location, c: char): (r: Location)
    ensures LocLe(loc, r) && r != loc
    ensures c == '\n' ==> r.line == loc.line + 1 && r.column == 0
    ensures c != '\n' ==> r.line == loc.line && r.column == loc.column + 1
  {
    if c == '\n' then Location(loc.line + 1, 0) else Location(loc.line, loc.column + 1)
  }

  /** The cursor of a `CharsLoc` that has consumed the first `pos` characters. */
  function LocAt(input: seq<char>, pos: nat): Location
    requires pos <= |input|
  {
    if pos == 0 then Location(0, 0) else Advance(LocAt(input, pos - 1), input[pos - 1])
  }

  /** The cursor never moves backwards. */
  lemma {:induction false} LocAtMonotone(input: seq<char>, i: nat, j: nat)
    requires i <= j <= |input|
    ensures LocLe(LocAt(input, i), LocAt(input, j))
    decreases j - i
  {
    if i < j {
      LocAtMonotone(input, i, j - 1);
    }
  }

  /** Inclusive character range of an identifier run. */
  datatype Slice = Slice(start: nat, end: nat)

  /** `CharsLoc::take_str`: the text of `slice`, both ends included. */
  function TakeStr(input: seq<char>, slice: Slice): (s: string)
    requires slice.start <= slice.end < |input|
    ensures |s| == slice.end - slice.start + 1
    ensures forall i :: 0 <= i < |s| ==> s[i] == input[slice.start + i]
  {
    input[slice.start .. slice.end + 1]
  }

  // ---------------------------------------------------------------------------
  // Lexer state
  // ---------------------------------------------------------------------------

  datatype State = Newline | Normal | PartialName(startLoc: Location, slices: seq<NamePart<Slice>>)

  datatype Machine = Machine(pos: nat, loc: Location, state: State, indentation: nat)

  /** What one private method hands back: a result for `next`, or a tail call of `next`. */
  datatype Step = Yield(token: Option<Token>) | Continue

  /** `TokenIterator::new`. */
  function Initial(): Machine
  {
    Machine(0, Location(0, 0), State.Newline, 0)
  }

  predicate SliceIn(p: NamePart<Slice>, pos: nat)
  {
    p.Ident? ==> p.text.start <= p.text.end < pos
  }

  /**
   * The shape every accumulated name keeps: never empty, every identifier
   * slice inside the consumed input, and an identifier only as the first part
   * (later identifier characters never push a part).
   */
  predicate PartsOk(slices: seq<NamePart<Slice>>, pos: nat)
  {
    && |slices| > 0
    && (forall i :: 0 <= i < |slices| && slices[i].Ident? ==> slices[i].text.start <= slices[i].text.end < pos)
    && (forall i :: 1 <= i < |slices| ==> !slices[i].Ident?)
  }

  /** The invariant of a snapshot: the cursor is that of the position, and the name is well shaped. */
  predicate Wf(input: seq<char>, m: Machine)
  {
    && m.pos <= |input|
    && m.loc == LocAt(input, m.pos)
    && (m.state.PartialName? ==> PartsOk(m.state.slices, m.pos) && LocLe(m.state.startLoc, m.loc))
  }

  /** `CharsLoc::next` when a character is left. */
  function Consume(input: seq<char>, m: Machine): (r: Machine)
    requires Wf(input, m) && m.pos < |input|
    ensures Wf(input, r)
    ensures r.pos == m.pos + 1 && r.state == m.state && r.indentation == m.indentation
  {
    m.(pos := m.pos + 1, loc := Advance(m.loc, input[m.pos]))
  }

  function OptDelta(t: Option<Token>): int
  {
    match t
    case Some(tok) => Delta(tok)
    case None => 0
  }

  function StepDelta(s: Step): int
  {
    if s.Yield? then OptDelta(s.token) else 0
  }

  // ---------------------------------------------------------------------------
  // Name parts
  // ---------------------------------------------------------------------------

  function ResolvePart(input: seq<char>, p: NamePart<Slice>): NamePart<string>
    requires SliceIn(p, |input|)
  {
    match p
    case Ident(s) => Ident(TakeStr(input, s))
    case Star => Star
    case Ampersand => Ampersand
    case Slash => Slash
  }

  /**
   * The parts of a Name token (iterator.rs:113-122): each identifier slice
   * becomes its text, the markers are kept as they are.
   */
  function Resolve(input: seq<char>, slices: seq<NamePart<Slice>>): (r: seq<NamePart<string>>)
    requires forall i :: 0 <= i < |slices| && slices[i].Ident? ==> slices[i].text.start <= slices[i].text.end < |input|
    ensures |r| == |slices|
    ensures forall i :: 0 <= i < |slices| ==> (r[i].Ident? <==> slices[i].Ident?)
    ensures forall i :: 0 <= i < |slices| && slices[i].Ident? ==>
      r[i].text == input[slices[i].text.start .. slices[i].text.end + 1]
    ensures forall i :: 0 <= i < |slices| ==>
      (r[i].Star? <==> slices[i].Star?) && (r[i].Ampersand? <==> slices[i].Ampersand?) && (r[i].Slash? <==> slices[i].Slash?)
  {
    if slices == [] then [] else [ResolvePart(input, slices[0])] + Resolve(input, slices[1..])
  }

  // ---------------------------------------------------------------------------
  // Scanning helpers (the effect of the iterator adaptors on the cursor)
  // ---------------------------------------------------------------------------

  /**
   * The number of blanks starting at `p`, as `take_while_ref` counts them: the
   * first non-blank is looked at but not consumed.
   */
  function BlankRun(input: seq<char>, p: nat): (n: nat)
    requires p <= |input|
    ensures p + n <= |input|
    ensures forall i :: p <= i < p + n ==> IsBlank(input[i])
    ensures p + n == |input| || !IsBlank(input[p + n])
    decreases |input| - p
  {
    if p < |input| && IsBlank(input[p]) then 1 + BlankRun(input, p + 1) else 0
  }

  /**
   * Where `take_while(c != '\n').last()` leaves the source started at `p`:
   * just past the first line feed, which is consumed too, or at the end.
   */
  function SkipLine(input: seq<char>, p: nat): (q: nat)
    requires p <= |input|
    ensures p <= q <= |input|
    ensures forall i :: p <= i < q - 1 ==> input[i] != '\n'
    ensures (q > p && input[q - 1] == '\n') || (q == |input| && forall i :: p <= i < q ==> input[i] != '\n')
    decreases |input| - p
  {
    if p == |input| then p else if input[p] == '\n' then p + 1 else SkipLine(input, p + 1)
  }

  // ---------------------------------------------------------------------------
  // The private methods of TokenIterator, one step function each. Each takes
  // the snapshot after `next` has consumed the dispatched character.
  // ---------------------------------------------------------------------------

  /** `line_comment` (iterator.rs:77-84). */
  function LineCommentStep(input: seq<char>, m: Machine): (r: (Token, Machine))
    requires Wf(input, m)
    ensures Wf(input, r.1) && r.1.pos >= m.pos && r.1.indentation == m.indentation && Delta(r.0) == 0
    ensures r.0 == NewlineToken(m.loc) && r.1.state == State.Newline && r.1.pos == SkipLine(input, m.pos)
  {
    var q := SkipLine(input, m.pos);
    (NewlineToken(m.loc), m.(pos := q, loc := LocAt(input, q), state := State.Newline))
  }

  /** `newline` (iterator.rs:86-89). */
  function NewlineStep(input: seq<char>, m: Machine): (r: (Token, Machine))
    requires Wf(input, m)
    ensures Wf(input, r.1) && r.1.pos == m.pos && r.1.indentation == m.indentation && Delta(r.0) == 0
    ensures r.0 == NewlineToken(m.loc) && r.1.state == State.Newline
  {
    (NewlineToken(m.loc), m.(state := State.Newline))
  }

  /** `white_space` (iterator.rs:91-127). */
  function WhiteSpaceStep(input: seq<char>, m: Machine): (r: (Step, Machine))
    requires Wf(input, m)
    ensures Wf(input, r.1) && r.1.pos >= m.pos && r.0 != Yield(None)
    ensures r.1.indentation == m.indentation + StepDelta(r.0)
  {
    match m.state
    case Newline =>
      var depth := BlankRun(input, m.pos) + 1;
      var q := m.pos + depth - 1;
      var m' := m.(pos := q, loc := LocAt(input, q), state := State.Normal);
      if m.indentation < depth then
        (Yield(Some(IndentToken(m'.loc, depth - m.indentation))), m'.(indentation := depth))
      else if m.indentation == depth then
        (Continue, m')
      else
        (Yield(Some(DeIndentToken(m'.loc, m.indentation - depth))), m'.(indentation := depth))
    case PartialName(startLoc, slices) =>
      (Yield(Some(NameToken(startLoc, Resolve(input, slices)))), m)
    case Normal =>
      (Continue, m)
  }

  /** `set_partial` (iterator.rs:146-161): start a new name with one part. */
  function SetPartialStep(input: seq<char>, m: Machine, part: NamePart<Slice>): (r: (Step, Machine))
    requires Wf(input, m) && SliceIn(part, m.pos)
    ensures Wf(input, r.1)
    ensures r.0 == Continue
    ensures r.1.pos == m.pos && r.1.indentation == m.indentation
    ensures r.1.state == PartialName(m.loc, [part])
  {
    var m' := m.(state := PartialName(m.loc, [part]));
    var reset := m'.(indentation := 0);
    // The match at iterator.rs:154 looks at the state just assigned, so the
    // DeIndent arm for a name at the start of a line never fires.
    if m'.state.Newline? && m.indentation != 0 then
      (Yield(Some(DeIndentToken(m'.loc, m.indentation))), reset)
    else
      (Continue, m')
  }

  /** `single_name` (iterator.rs:163-171): a marker part. */
  function SingleNameStep(input: seq<char>, m: Machine, part: NamePart<Slice>): (r: (Step, Machine))
    requires Wf(input, m) && !part.Ident?
    ensures Wf(input, r.1) && r.0 == Continue && r.1.pos == m.pos && r.1.indentation == m.indentation
  {
    match m.state
    case PartialName(startLoc, slices) =>
      (Continue, m.(state := PartialName(startLoc, slices + [part])))
    case _ =>
      SetPartialStep(input, m, part)
  }

  /**
   * `name` (iterator.rs:173-212): an identifier character at `index`, which
   * is the character just consumed unless `move_kind` falls back here.
   */
  function NameStep(input: seq<char>, m: Machine, index: nat): (r: (Step, Machine))
    requires Wf(input, m) && index < m.pos
    requires m.state.PartialName? ==> index + 1 == m.pos
    ensures Wf(input, r.1) && r.0 == Continue && r.1.pos == m.pos && r.1.indentation == m.indentation
  {
    match m.state
    case PartialName(startLoc, slices) =>
      if |slices| > 0 then
        var last := slices[|slices| - 1];
        var slices' :=
          if last.Ident? then slices[..|slices| - 1] + [Ident(Slice(last.text.start, index))]
          else slices;
        (Continue, m.(state := PartialName(startLoc, slices')))
      else
        (Continue, m.(state := PartialName(startLoc, [Ident(Slice(index, index))])))
    case _ =>
      SetPartialStep(input, m, Ident(Slice(index, index)))
  }

  /** Whether the character after an operator's first completes it. */
  predicate Completes(kind: MoveKind, c: char)
  {
    match kind
    case Copy => IsBlank(c)
    case Link => c == '>'
  }

  /**
   * `move_kind` (iterator.rs:129-144): the state becomes `Normal` first, the
   * next character is consumed whatever it is, and on a mismatch a name
   * starts at the operator's own index.
   */
  function MoveKindStep(input: seq<char>, m: Machine, start: nat, kind: MoveKind): (r: (Step, Machine))
    requires Wf(input, m) && start < m.pos
    ensures Wf(input, r.1) && r.1.pos >= m.pos && r.0 != Yield(None)
    ensures r.1.indentation == m.indentation && StepDelta(r.0) == 0
    ensures r.0.Yield? ==> r.0 == Yield(Some(MoveToken(r.1.loc, kind))) && r.1.state == State.Normal
  {
    var m1 := m.(state := State.Normal);
    if m1.pos < |input| then
      var m2 := Consume(input, m1);
      if Completes(kind, input[m1.pos]) then
        (Yield(Some(MoveToken(m2.loc, kind))), m2)
      else
        NameStep(input, m2, start)
    else
      NameStep(input, m1, start)
  }

  /** `finalizer` (iterator.rs:214-222): close all open indentation at the end. */
  function FinalizerStep(input: seq<char>, m: Machine): (r: (Option<Token>, Machine))
    requires Wf(input, m)
    ensures Wf(input, r.1) && r.1 == m.(indentation := 0)
    ensures r.0.None? <==> m.indentation == 0
    ensures m.indentation + OptDelta(r.0) == 0
  {
    if m.indentation > 0 then
      (Some(DeIndentToken(m.loc, m.indentation)), m.(indentation := 0))
    else
      (None, m)
  }

  /**
   * The body of `Iterator::next` (iterator.rs:227-241) up to its tail calls:
   * read one character and dispatch on it. The popped token stack is always
   * empty (it is never pushed) and is left to the class model.
   */
  function DispatchStep(input: seq<char>, m: Machine): (r: (Step, Machine))
    requires Wf(input, m)
    ensures Wf(input, r.1) && r.1.pos >= m.pos
    ensures r.1.indentation == m.indentation + StepDelta(r.0)
    ensures r.0.Continue? ==> r.1.pos > m.pos
    ensures r.1.pos == m.pos ==> m.pos == |input| && r.0.Yield? && r.1.indentation == 0
    ensures r.0 == Yield(None) <==> m.pos == |input| && m.indentation == 0
    ensures r.0 == Yield(None) ==> r.1 == m
  {
    if m.pos == |input| then
      var (t, m') := FinalizerStep(input, m);
      (Yield(t), m')
    else
      var index := m.pos;
      var m1 := Consume(input, m);
      match input[index]
      case '#' =>
        var (t, m2) := LineCommentStep(input, m1);
        (Yield(Some(t)), m2)
      case '\n' =>
        var (t, m2) := NewlineStep(input, m1);
        (Yield(Some(t)), m2)
      case ' ' => WhiteSpaceStep(input, m1)
      case '\t' => WhiteSpaceStep(input, m1)
      case '>' => MoveKindStep(input, m1, index, Copy)
      case '-' => MoveKindStep(input, m1, index, Link)
      case '*' => SingleNameStep(input, m1, Star)
      case '&' => SingleNameStep(input, m1, Ampersand)
      case '\\' => SingleNameStep(input, m1, Slash)
      case _ => NameStep(input, m1, index)
  }

  /**
   * One call of `Iterator::next`: dispatch until a step yields. Every call
   * changes the depth by exactly what its token says, and `None` comes only
   * once the input is used up and no indentation is open.
   */
  function Run(input: seq<char>, m: Machine): (r: (Option<Token>, Machine))
    requires Wf(input, m)
    ensures Wf(input, r.1) && r.1.pos >= m.pos
    ensures r.1.indentation == m.indentation + OptDelta(r.0)
    ensures r.0.None? ==> r.1.pos == |input| && r.1.indentation == 0
    ensures r.1.pos == m.pos ==> r.1.indentation == 0 && (r.0.None? <==> m.indentation == 0)
    decreases |input| - m.pos
  {
    var (s, m') := DispatchStep(input, m);
    match s
    case Yield(t) => (t, m')
    case Continue => Run(input, m')
  }

  /** The tokens still to come from snapshot `m`; they close exactly the open depth. */
  function LexFrom(input: seq<char>, m: Machine): (ts: seq<Token>)
    requires Wf(input, m)
    ensures m.indentation + Balance(ts) == 0
    decreases |input| - m.pos, m.indentation
  {
    var (t, m') := Run(input, m);
    match t
    case None => []
    case Some(tok) =>
      var rest := LexFrom(input, m');
      assert ([tok] + rest)[1..] == rest;
      [tok] + rest
  }

  /** The whole token stream of `input`. */
  function Lex(input: seq<char>): seq<Token>
  {
    LexFrom(input, Initial())
  }
}
