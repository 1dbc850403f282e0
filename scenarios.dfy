/**
 * Whole token streams of small inputs, as the tokenizer of
 * src/lexer/iterator.rs produces them. Each proof walks the dispatch steps
 * one by one; the snapshots are written out so that the trace can be read.
 */
module Scenarios {
  import opened Wrappers
  import opened Tokens
  import opened Transitions
  import opened Properties

  /** A name made of one identifier slice resolves to the text it covers. */
  lemma ResolveOne(input: seq<char>, s: Slice)
    requires s.start <= s.end < |input|
    ensures Resolve(input, [Ident(s)]) == [Ident(input[s.start .. s.end + 1])]
  {
    var r := Resolve(input, [Ident(s)]);
    assert r[0] == Ident(input[s.start .. s.end + 1]);
  }

  /** A name that ends at a line feed is dropped: only the Newline comes out. */
  lemma NameBeforeLineFeed()
    ensures Lex("a\n") == [NewlineToken(Location(1, 0))]
  {
    var input := "a\n";
    var m0 := Initial();
    var m1 := Machine(1, Location(0, 1), PartialName(Location(0, 1), [Ident(Slice(0, 0))]), 0);
    var m2 := Machine(2, Location(1, 0), State.Newline, 0);
    IdentBranch(input, m0);
    assert DispatchStep(input, m0) == (Continue, m1);
    assert DispatchStep(input, m1) == (Yield(Some(NewlineToken(Location(1, 0)))), m2);
    assert DispatchStep(input, m2) == (Yield(None), m2);
  }

  /**
   * A tab and a space at the start of a line are depth 2: the Indent is at
   * the first non-blank, the name there is dropped at the end of input, and
   * the finalizer closes the depth.
   */
  lemma TabAndSpaceIndent()
    ensures Lex("\t b") == [IndentToken(Location(0, 2), 2), DeIndentToken(Location(0, 3), 2)]
  {
    var input := "\t b";
    var m0 := Initial();
    var m1 := Machine(2, Location(0, 2), State.Normal, 2);
    var m2 := Machine(3, Location(0, 3), PartialName(Location(0, 3), [Ident(Slice(2, 2))]), 2);
    var m3 := m2.(indentation := 0);
    assert BlankRun(input, 1) == 1;
    assert DispatchStep(input, m0) == (Yield(Some(IndentToken(Location(0, 2), 2))), m1);
    IdentBranch(input, m1);
    assert DispatchStep(input, m1) == (Continue, m2);
    assert DispatchStep(input, m2) == (Yield(Some(DeIndentToken(Location(0, 3), 2))), m3);
    assert DispatchStep(input, m3) == (Yield(None), m3);
  }

  /** A move line: the name before the operator comes out at the blank, the Link after both of its characters. */
  lemma LinkLine()
    ensures Lex("a ->") == [NameToken(Location(0, 1), [Ident("a")]), MoveToken(Location(0, 4), Link)]
  {
    var input := "a ->";
    var m0 := Initial();
    var m1 := Machine(1, Location(0, 1), PartialName(Location(0, 1), [Ident(Slice(0, 0))]), 0);
    var m2 := m1.(pos := 2, loc := Location(0, 2));
    var m3 := Machine(4, Location(0, 4), State.Normal, 0);
    IdentBranch(input, m0);
    assert DispatchStep(input, m0) == (Continue, m1);
    ResolveOne(input, Slice(0, 0));
    assert input[0..1] == "a";
    NameFlushBranch(input, m1);
    assert DispatchStep(input, m1) == (Yield(Some(NameToken(Location(0, 1), [Ident("a")]))), m2);
    OperatorBranch(input, m2, Link);
    assert DispatchStep(input, m2) == (Yield(Some(MoveToken(Location(0, 4), Link))), m3);
    assert DispatchStep(input, m3) == (Yield(None), m3);
  }

  /** A Copy takes the blank after `>` with it. */
  lemma CopyLine()
    ensures Lex("> ") == [MoveToken(Location(0, 2), Copy)]
  {
    var input := "> ";
    var m0 := Initial();
    var m1 := Machine(2, Location(0, 2), State.Normal, 0);
    OperatorBranch(input, m0, Copy);
    assert DispatchStep(input, m0) == (Yield(Some(MoveToken(Location(0, 2), Copy))), m1);
    assert DispatchStep(input, m1) == (Yield(None), m1);
  }

  /**
   * A comment is one Newline, located just after the `#`; the pending name
   * before it is dropped and the rest of the line is skipped.
   */
  lemma CommentAfterName()
    ensures Lex("a#x") == [NewlineToken(Location(0, 2))]
  {
    var input := "a#x";
    var m0 := Initial();
    var m1 := Machine(1, Location(0, 1), PartialName(Location(0, 1), [Ident(Slice(0, 0))]), 0);
    var m2 := Machine(3, Location(0, 3), State.Newline, 0);
    IdentBranch(input, m0);
    assert DispatchStep(input, m0) == (Continue, m1);
    assert SkipLine(input, 2) == 3;
    assert DispatchStep(input, m1) == (Yield(Some(NewlineToken(Location(0, 2)))), m2);
    assert DispatchStep(input, m2) == (Yield(None), m2);
  }

  /** The second name of `NameExtendsOverBlank`: the slice of `a` grows over the blank to `a b`. */
  lemma NameExtendsOverBlankEnd()
    ensures LexFrom("a b ", Machine(2, Location(0, 2), PartialName(Location(0, 1), [Ident(Slice(0, 0))]), 0))
      == [NameToken(Location(0, 1), [Ident("a b")])]
  {
    var input := "a b ";
    var m2 := Machine(2, Location(0, 2), PartialName(Location(0, 1), [Ident(Slice(0, 0))]), 0);
    var m3 := Machine(3, Location(0, 3), PartialName(Location(0, 1), [Ident(Slice(0, 2))]), 0);
    var m4 := m3.(pos := 4, loc := Location(0, 4));
    IdentBranch(input, m2);
    assert DispatchStep(input, m2) == (Continue, m3);
    ResolveOne(input, Slice(0, 2));
    assert input[0..3] == "a b";
    NameFlushBranch(input, m3);
    assert DispatchStep(input, m3) == (Yield(Some(NameToken(Location(0, 1), [Ident("a b")]))), m4);
    assert DispatchStep(input, m4) == (Yield(None), m4);
  }

  /** After a blank flushes a name the name stays open, so the next identifier character extends it over the blank. */
  lemma NameExtendsOverBlank()
    ensures Lex("a b ") == [NameToken(Location(0, 1), [Ident("a")]), NameToken(Location(0, 1), [Ident("a b")])]
  {
    var input := "a b ";
    var m0 := Initial();
    var m1 := Machine(1, Location(0, 1), PartialName(Location(0, 1), [Ident(Slice(0, 0))]), 0);
    var m2 := m1.(pos := 2, loc := Location(0, 2));
    IdentBranch(input, m0);
    assert DispatchStep(input, m0) == (Continue, m1);
    ResolveOne(input, Slice(0, 0));
    assert input[0..1] == "a";
    NameFlushBranch(input, m1);
    assert DispatchStep(input, m1) == (Yield(Some(NameToken(Location(0, 1), [Ident("a")]))), m2);
    NameExtendsOverBlankEnd();
  }

  /** An identifier character after a marker is dropped. */
  lemma IdentAfterMarkerDropped()
    ensures Lex("*b ") == [NameToken(Location(0, 1), [Star])]
  {
    var input := "*b ";
    var m0 := Initial();
    var m1 := Machine(1, Location(0, 1), PartialName(Location(0, 1), [Star]), 0);
    var m2 := m1.(pos := 2, loc := Location(0, 2));
    var m3 := m1.(pos := 3, loc := Location(0, 3));
    MarkerBranch(input, m0);
    assert DispatchStep(input, m0) == (Continue, m1);
    IdentBranch(input, m1);
    assert DispatchStep(input, m1) == (Continue, m2);
    assert Resolve(input, [Star]) == [Star];
    NameFlushBranch(input, m2);
    assert DispatchStep(input, m2) == (Yield(Some(NameToken(Location(0, 1), [Star]))), m3);
    assert DispatchStep(input, m3) == (Yield(None), m3);
  }

  /**
   * A `-` that is not followed by `>`: the pending name and the character
   * after the `-` are lost, and the new name is the `-` alone.
   */
  lemma DashFallback()
    ensures Lex("x-y ") == [NameToken(Location(0, 3), [Ident("-")])]
  {
    var input := "x-y ";
    var m0 := Initial();
    var m1 := Machine(1, Location(0, 1), PartialName(Location(0, 1), [Ident(Slice(0, 0))]), 0);
    var m2 := Machine(3, Location(0, 3), PartialName(Location(0, 3), [Ident(Slice(1, 1))]), 0);
    var m3 := m2.(pos := 4, loc := Location(0, 4));
    IdentBranch(input, m0);
    assert DispatchStep(input, m0) == (Continue, m1);
    OperatorFallbackBranch(input, m1, Link);
    assert DispatchStep(input, m1) == (Continue, m2);
    ResolveOne(input, Slice(1, 1));
    assert input[1..2] == "-";
    NameFlushBranch(input, m2);
    assert DispatchStep(input, m2) == (Yield(Some(NameToken(Location(0, 3), [Ident("-")]))), m3);
    assert DispatchStep(input, m3) == (Yield(None), m3);
  }
}
