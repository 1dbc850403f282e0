/** The optional value returned by the character source and the tokenizer. */
module Wrappers {
  datatype Option<T> = None | Some(value: T)
}

/**
 * Token values of the spotfiles lexer (src/lexer/token.rs): the kinds, the
 * location and length a token carries, and the constructors the tokenizer calls.
 */
module Tokens {

  /** The two file operations a move line can name: `->` links, `>` copies. */
  datatype MoveKind = Link | Copy

  /**
   * One part of a compound name: a run of identifier text, or one of the three
   * single-character markers. `T` is the representation of the text: slice
   * indices while the tokenizer accumulates a name, copied text in a token.
   */
  datatype NamePart<T> = Ident(text: T) | Star | Ampersand | Slash

  /**
   * Indent and DeIndent carry no depth of their own: the depth travels in the
   * token's length. A Name carries its list of parts (see the README on why a
   * list and not one string).
   */
  datatype TokenKind = Indent | DeIndent | Newline | Move(move: MoveKind) | Name(parts: seq<NamePart<string>>)

  /** Zero-based line and column, counted in characters. */
  datatype Location = Location(line: nat, column: nat)

  datatype Length = Length(value: nat)

  datatype Token = Token(kind: TokenKind, location: Location, length: Length)

  /** The order Rust derives for `Location`: by line, then by column. */
  predicate LocLe(a: Location, b: Location)
  {
    a.line < b.line || (a.line == b.line && a.column <= b.column)
  }

  /** How each operator is written in the source text. */
  function OperatorText(k: MoveKind): string
  {
    match k
    case Link => "->"
    case Copy => ">"
  }

  /** The character each part is spelled with; a slash part comes from a backslash. */
  function PartText(p: NamePart<string>): string
  {
    match p
    case Ident(s) => s
    case Star => "*"
    case Ampersand => "&"
    case Slash => "\\"
  }

  /** The parts of a name written one after the other. */
  function Spelling(parts: seq<NamePart<string>>): string
  {
    if parts == [] then [] else PartText(parts[0]) + Spelling(parts[1..])
  }

  function PartWidth(p: NamePart<string>): nat
  {
    if p.Ident? then |p.text| else 1
  }

  /** The length stored in a Name token: the sum of the widths of its parts. */
  function NameLength(parts: seq<NamePart<string>>): nat
  {
    if parts == [] then 0 else PartWidth(parts[0]) + NameLength(parts[1..])
  }

  /** A Name token's length is the number of characters its parts spell. */
  lemma {:induction false} NameLengthIsSpelling(parts: seq<NamePart<string>>)
    ensures NameLength(parts) == |Spelling(parts)|
  {
    if parts != [] {
      NameLengthIsSpelling(parts[1..]);
    }
  }

  /**
   * How much a token changes the indentation depth: an Indent raises it by its
   * length, a DeIndent lowers it by its length, every other token leaves it.
   */
  function Delta(t: Token): int
  {
    match t.kind
    case Indent => t.length.value
    case DeIndent => -(t.length.value as int)
    case _ => 0
  }

  /** Total Indent length minus total DeIndent length over a token sequence. */
  function Balance(ts: seq<Token>): int
  {
    if ts == [] then 0 else Delta(ts[0]) + Balance(ts[1..])
  }

  lemma {:induction false} BalanceAppend(ts: seq<Token>, t: Token)
    ensures Balance(ts + [t]) == Balance(ts) + Delta(t)
  {
    if ts == [] {
      assert [t][1..] == [];
    } else {
      assert (ts + [t])[1..] == ts[1..] + [t];
      BalanceAppend(ts[1..], t);
    }
  }

  /** `Token::indent`: an Indent at `loc` that raises the depth by `depth`. */
  function IndentToken(loc: Location, depth: nat): (t: Token)
    ensures t.kind == Indent && t.location == loc
    ensures Delta(t) == depth
  {
    Token(Indent, loc, Length(depth))
  }

  /** `Token::de_indent`: a DeIndent at `loc` that lowers the depth by `depth`. */
  function DeIndentToken(loc: Location, depth: nat): (t: Token)
    ensures t.kind == DeIndent && t.location == loc
    ensures Delta(t) == -(depth as int)
  {
    Token(DeIndent, loc, Length(depth))
  }

  /** `Token::newline`: one line break, one character wide. */
  function NewlineToken(loc: Location): (t: Token)
    ensures t.kind == Newline && t.location == loc
    ensures t.length.value == |"\n"| && Delta(t) == 0
  {
    Token(Newline, loc, Length(1))
  }

  /** `Token::move_kind`: its length is the width of the operator as written. */
  function MoveToken(loc: Location, k: MoveKind): (t: Token)
    ensures t.kind == Move(k) && t.location == loc
    ensures t.length.value == |OperatorText(k)| && Delta(t) == 0
  {
    var len := match k
      case Link => 2
      case Copy => 1;
    Token(Move(k), loc, Length(len))
  }

  /** `Token::name`: its length is the number of characters the parts spell. */
  function NameToken(loc: Location, parts: seq<NamePart<string>>): (t: Token)
    ensures t.kind == Name(parts) && t.location == loc
    ensures t.length.value == |Spelling(parts)| && Delta(t) == 0
  {
    NameLengthIsSpelling(parts);
    Token(Name(parts), loc, Length(NameLength(parts)))
  }
}
