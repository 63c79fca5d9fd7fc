/** Splitting a line into arguments, told by how arguments are written: bare, in double or single quotes, or bare with
    a quoted end. */
module SdsSplit {
  import opened RespNumbers
  import opened SdsQuote

  /** What stands between double quotes: a byte for itself, one behind a backslash, or one given by two digits. */
  datatype Piece = Char1(c: byte) | Escaped(c: byte) | Hex(a: byte, b: byte)

  /** What stands between single quotes: a byte for itself, or an apostrophe behind a backslash. */
  datatype Single1 = Byte1(c: byte) | Apostrophe1

  datatype Tail = Unquoted | InDouble(pieces: seq<Piece>) | InSingle(bytes: seq<Single1>)

  /** An argument as it is written. */
  datatype Arg = Arg(bare: seq<byte>, tail: Tail)

  // ---------------------------------------------------------------- how it is written and what it means

  function Piece1(x: Piece): seq<byte> {
    match x
    case Char1(c) => [c]
    case Escaped(c) => [BACKSLASH, c]
    case Hex(a, b) => [BACKSLASH, 120, a, b]
  }

  function Meant1(x: Piece): byte {
    match x
    case Char1(c) => c
    case Escaped(c) => Unescape(c)
    case Hex(a, b) => (HexValue(a) * 16 + HexValue(b)) as byte
  }

  function Pieces(xs: seq<Piece>): seq<byte> {
    if xs == [] then [] else Piece1(xs[0]) + Pieces(xs[1..])
  }

  function Meant(xs: seq<Piece>): seq<byte> {
    if xs == [] then [] else [Meant1(xs[0])] + Meant(xs[1..])
  }

  function SinglePiece(x: Single1): seq<byte> {
    if x.Byte1? then [x.c] else [BACKSLASH, APOSTROPHE]
  }

  function Singles(xs: seq<Single1>): seq<byte> {
    if xs == [] then [] else SinglePiece(xs[0]) + Singles(xs[1..])
  }

  function Single1Meant(x: Single1): byte {
    if x.Byte1? then x.c else APOSTROPHE
  }

  function SingleMeant(xs: seq<Single1>): seq<byte> {
    if xs == [] then [] else [Single1Meant(xs[0])] + SingleMeant(xs[1..])
  }

  function Written(a: Arg): seq<byte> {
    a.bare + match a.tail
      case Unquoted => []
      case InDouble(xs) => [QUOTE] + Pieces(xs) + [QUOTE]
      case InSingle(xs) => [APOSTROPHE] + Singles(xs) + [APOSTROPHE]
  }

  function ValueOf(a: Arg): seq<byte> {
    a.bare + match a.tail
      case Unquoted => []
      case InDouble(xs) => Meant(xs)
      case InSingle(xs) => SingleMeant(xs)
  }

  function Values(args: seq<Arg>): seq<seq<byte>> {
    if args == [] then [] else [ValueOf(args[0])] + Values(args[1..])
  }

  function All(args: seq<Arg>, blanks: seq<seq<byte>>): seq<byte>
    requires |args| == |blanks|
  {
    if args == [] then [] else Written(args[0]) + blanks[0] + All(args[1..], blanks[1..])
  }

  // ---------------------------------------------------------------- what may be written where

  /** Written so that it is read as it is meant, with `after` behind it. A backslash stands for itself only at the end
      of the line. */
  predicate PiecesOk(xs: seq<Piece>, after: seq<byte>) {
    xs == [] ||
    (var rest := Pieces(xs[1..]) + after;
     PiecesOk(xs[1..], after) &&
     match xs[0]
     case Char1(c) => c != QUOTE && c != 0 && (c == BACKSLASH ==> rest == [])
     case Escaped(c) => c != 0 && !(c == 120 && |rest| >= 2 && IsHex(rest[0]) && IsHex(rest[1]))
     case Hex(a, b) => IsHex(a) && IsHex(b))
  }

  predicate SinglesOk(xs: seq<Single1>, after: seq<byte>) {
    xs == [] ||
    (var rest := Singles(xs[1..]) + after;
     SinglesOk(xs[1..], after) &&
     (xs[0].Byte1? ==>
        xs[0].c != APOSTROPHE && xs[0].c != 0 && (xs[0].c == BACKSLASH ==> rest == [] || rest[0] != APOSTROPHE)))
  }

  predicate Bare(c: byte) {
    !Terminates(c) && c != QUOTE && c != APOSTROPHE
  }

  predicate BareOk(bare: seq<byte>) {
    (forall i :: 0 <= i < |bare| ==> Bare(bare[i])) && (bare != [] ==> !IsSpace(bare[0]))
  }

  /** A quoted end stands before a blank or the end of the line; a bare one before one of the four blanks that end
      it. */
  predicate ArgOk(a: Arg, after: seq<byte>) {
    && BareOk(a.bare) && (a.bare == [] ==> !a.tail.Unquoted?)
    && match a.tail
       case Unquoted => after == [] || Terminates(after[0])
       case InDouble(xs) => PiecesOk(xs, [QUOTE] + after) && (after == [] || IsSpace(after[0]))
       case InSingle(xs) => SinglesOk(xs, [APOSTROPHE] + after) && (after == [] || IsSpace(after[0]))
  }

  predicate AllOk(args: seq<Arg>, blanks: seq<seq<byte>>, after: seq<byte>)
    requires |args| == |blanks|
  {
    args == [] ||
    (&& (forall i :: 0 <= i < |blanks[0]| ==> IsSpace(blanks[0][i]))
     && ArgOk(args[0], blanks[0] + All(args[1..], blanks[1..]) + after) && AllOk(args[1..], blanks[1..], after))
  }

  /** A quote that is not closed, or one whose closing quote is followed by something else than a blank. */
  datatype Trouble =
    | OpenDouble(bare: seq<byte>, pieces: seq<Piece>)
    | OpenSingle(bare: seq<byte>, bytes: seq<Single1>)
    | Glued(a: Arg, next: seq<byte>)

  function Bad(t: Trouble): seq<byte> {
    match t
    case OpenDouble(bare, xs) => bare + [QUOTE] + Pieces(xs)
    case OpenSingle(bare, xs) => bare + [APOSTROPHE] + Singles(xs)
    case Glued(a, next) => Written(a) + next
  }

  predicate TroubleOk(t: Trouble) {
    match t
    case OpenDouble(bare, xs) => BareOk(bare) && PiecesOk(xs, [])
    case OpenSingle(bare, xs) => BareOk(bare) && SinglesOk(xs, [])
    case Glued(a, next) =>
      && BareOk(a.bare) && next != [] && next[0] != 0 && !IsSpace(next[0])
      && match a.tail
         case Unquoted => false
         case InDouble(xs) => PiecesOk(xs, [QUOTE] + next)
         case InSingle(xs) => SinglesOk(xs, [APOSTROPHE] + next)
  }

  // ---------------------------------------------------------------- reading what is written

  lemma CharAt(line: seq<byte>, p: nat, x: seq<byte>, y: seq<byte>)
    requires p <= |line| && line[p..] == x + y
    ensures p + |x| <= |line| && line[p + |x|..] == y
    ensures forall i :: 0 <= i < |x| ==> Char(line, p + i) == x[i]
    ensures forall i :: 0 <= i < |y| ==> Char(line, p + |x| + i) == y[i]
    ensures y == [] ==> Char(line, p + |x|) == 0
    ensures |x| + |y| <= 1 ==> Char(line, p + 1) == 0
  {
    forall i | 0 <= i < |x + y| ensures Char(line, p + i) == (x + y)[i] { assert line[p..][i] == line[p + i]; }
    forall i | 0 <= i < |y| ensures Char(line, p + |x| + i) == y[i] { assert (x + y)[|x| + i] == y[i]; }
    forall i | 0 <= i < |x| ensures Char(line, p + i) == x[i] { assert (x + y)[i] == x[i]; }
    assert line[p + |x|..] == line[p..][|x|..];
  }

  lemma Behind(line: seq<byte>, p: nat, x: seq<byte>, y: seq<byte>)
    requires p <= |line| && line[p..] == x + y
    ensures p + |x| <= |line| && line[p + |x|..] == y && (x != [] ==> line[p] == x[0])
  {
    assert line[p + |x|..] == line[p..][|x|..];
    if x != [] { assert line[p..][0] == x[0]; }
  }

  lemma {:induction false} ReadPieces(line: seq<byte>, p: nat, xs: seq<Piece>, after: seq<byte>, cur: seq<byte>)
    requires p <= |line| && line[p..] == Pieces(xs) + after && PiecesOk(xs, after)
    ensures p + |Pieces(xs)| <= |line| && line[p + |Pieces(xs)|..] == after
    ensures Token(line, p, Double, cur) == Token(line, p + |Pieces(xs)|, Double, cur + Meant(xs))
    decreases |xs|
  {
    hide Token, Piece1, Meant1, Pieces, PiecesOk, IsHex, Meant;
    if xs == [] {
      NoPieces(after);
      assert [] + after == after && cur + [] == cur;
    } else {
      var rest := Pieces(xs[1..]) + after;
      PiecesFirst(xs, after, cur);
      Behind(line, p, Piece1(xs[0]), rest);
      ReadPiece(line, p, xs[0], rest, cur);
      ReadPieces(line, p + |Piece1(xs[0])|, xs[1..], after, cur + [Meant1(xs[0])]);
    }
  }

  lemma PiecesFirst(xs: seq<Piece>, after: seq<byte>, cur: seq<byte>)
    requires xs != [] && PiecesOk(xs, after)
    ensures Pieces(xs) == Piece1(xs[0]) + Pieces(xs[1..]) && PiecesOk(xs[1..], after)
    ensures Pieces(xs) + after == Piece1(xs[0]) + (Pieces(xs[1..]) + after)
    ensures cur + [Meant1(xs[0])] + Meant(xs[1..]) == cur + Meant(xs)
    ensures var rest := Pieces(xs[1..]) + after;
      match xs[0]
      case Char1(c) => c != QUOTE && c != 0 && (c == BACKSLASH ==> rest == [])
      case Escaped(c) => c != 0 && !(c == 120 && |rest| >= 2 && IsHex(rest[0]) && IsHex(rest[1]))
      case Hex(a, b) => IsHex(a) && IsHex(b)
  {
    hide IsHex, Piece1, Meant1;
    Regroup(Piece1(xs[0]), Pieces(xs[1..]), after);
    Regroup(cur, [Meant1(xs[0])], Meant(xs[1..]));
  }

  lemma ReadPiece(line: seq<byte>, p: nat, x: Piece, rest: seq<byte>, cur: seq<byte>)
    requires p <= |line| && line[p..] == Piece1(x) + rest
    requires match x
      case Char1(c) => c != QUOTE && c != 0 && (c == BACKSLASH ==> rest == [])
      case Escaped(c) => c != 0 && !(c == 120 && |rest| >= 2 && IsHex(rest[0]) && IsHex(rest[1]))
      case Hex(a, b) => IsHex(a) && IsHex(b)
    ensures p + |Piece1(x)| <= |line|
          && Token(line, p, Double, cur) == Token(line, p + |Piece1(x)|, Double, cur + [Meant1(x)])
  {
    CharAt(line, p, Piece1(x), rest);
    match x
    case Char1(c) =>
      assert Char(line, p) == c;
    case Escaped(c) =>
      assert Char(line, p) == BACKSLASH && Char(line, p + 1) == c;
      if HexHere(line, p) { HexFollows(line, p + 2, rest); }
    case Hex(a, b) =>
      assert Char(line, p) == BACKSLASH && Char(line, p + 1) == 120 && Char(line, p + 2) == a && Char(line, p + 3) == b;
  }

  lemma HexFollows(line: seq<byte>, p: nat, rest: seq<byte>)
    requires p <= |line| && line[p..] == rest && IsHex(Char(line, p)) && IsHex(Char(line, p + 1))
    ensures |rest| >= 2 && rest[0] == Char(line, p) && rest[1] == Char(line, p + 1)
  {}

  lemma {:induction false} ReadSingles(line: seq<byte>, p: nat, xs: seq<Single1>, after: seq<byte>, cur: seq<byte>)
    requires p <= |line| && line[p..] == Singles(xs) + after && SinglesOk(xs, after)
    ensures p + |Singles(xs)| <= |line| && line[p + |Singles(xs)|..] == after
    ensures Token(line, p, Mode.Single, cur) == Token(line, p + |Singles(xs)|, Mode.Single, cur + SingleMeant(xs))
    decreases |xs|
  {
    hide Token, SinglePiece, Single1Meant, Singles, SinglesOk, SingleMeant;
    if xs == [] {
      NoSingles(after);
      assert [] + after == after && cur + [] == cur;
    } else {
      var rest := Singles(xs[1..]) + after;
      SinglesFirst(xs, after, cur);
      Behind(line, p, SinglePiece(xs[0]), rest);
      ReadSingle(line, p, xs[0], rest, cur);
      ReadSingles(line, p + |SinglePiece(xs[0])|, xs[1..], after, cur + [Single1Meant(xs[0])]);
    }
  }

  lemma SinglesFirst(xs: seq<Single1>, after: seq<byte>, cur: seq<byte>)
    requires xs != [] && SinglesOk(xs, after)
    ensures Singles(xs) == SinglePiece(xs[0]) + Singles(xs[1..]) && SinglesOk(xs[1..], after)
    ensures Singles(xs) + after == SinglePiece(xs[0]) + (Singles(xs[1..]) + after)
    ensures cur + [Single1Meant(xs[0])] + SingleMeant(xs[1..]) == cur + SingleMeant(xs)
    ensures var rest := Singles(xs[1..]) + after; var x := xs[0];
      x.Byte1? ==> x.c != APOSTROPHE && x.c != 0 && (x.c == BACKSLASH ==> rest == [] || rest[0] != APOSTROPHE)
  {
    hide SinglePiece, Single1Meant;
    Regroup(SinglePiece(xs[0]), Singles(xs[1..]), after);
    Regroup(cur, [Single1Meant(xs[0])], SingleMeant(xs[1..]));
  }

  lemma ReadSingle(line: seq<byte>, p: nat, x: Single1, rest: seq<byte>, cur: seq<byte>)
    requires p <= |line| && line[p..] == SinglePiece(x) + rest
    requires x.Byte1? ==> x.c != APOSTROPHE && x.c != 0 && (x.c == BACKSLASH ==> rest == [] || rest[0] != APOSTROPHE)
    ensures p + |SinglePiece(x)| <= |line|
    ensures Token(line, p, Mode.Single, cur) ==
            Token(line, p + |SinglePiece(x)|, Mode.Single, cur + [Single1Meant(x)])
  {
    CharAt(line, p, SinglePiece(x), rest);
    if x.Byte1? {
      assert Char(line, p) == x.c;
    } else {
      assert Char(line, p) == BACKSLASH && Char(line, p + 1) == APOSTROPHE;
    }
  }

  lemma ReadOne(line: seq<byte>, p: nat, c: byte, cur: seq<byte>)
    requires p < |line| && line[p] == c && Bare(c)
    ensures Token(line, p, Plain, cur) == Token(line, p + 1, Plain, cur + [c])
  {}

  lemma {:induction false} ReadBare(line: seq<byte>, p: nat, bare: seq<byte>, after: seq<byte>, cur: seq<byte>)
    requires p <= |line| && line[p..] == bare + after && forall i :: 0 <= i < |bare| ==> Bare(bare[i])
    ensures p + |bare| <= |line| && line[p + |bare|..] == after
    ensures Token(line, p, Plain, cur) == Token(line, p + |bare|, Plain, cur + bare)
    decreases |bare|
  {
    hide Token, Bare;
    if bare == [] {
      assert bare + after == after && cur + [] == cur;
    } else {
      assert bare + after == [bare[0]] + (bare[1..] + after);
      Behind(line, p, [bare[0]], bare[1..] + after);
      assert Bare(bare[0]);
      ReadOne(line, p, bare[0], cur);
      ReadBare(line, p + 1, bare[1..], after, cur + [bare[0]]);
      assert cur + [bare[0]] + bare[1..] == cur + bare;
    }
  }

  lemma DoubleOpens(line: seq<byte>, p: nat, cur: seq<byte>)
    requires p < |line|
    ensures line[p] == QUOTE ==> Token(line, p, Plain, cur) == Token(line, p + 1, Double, cur)
    ensures line[p] == APOSTROPHE ==> Token(line, p, Plain, cur) == Token(line, p + 1, Mode.Single, cur)
  {}

  lemma QuoteCloses(line: seq<byte>, p: nat, after: seq<byte>, cur: seq<byte>)
    requires p < |line| && line[p + 1..] == after && (after == [] || after[0] != 0)
    ensures line[p] == QUOTE ==>
              Token(line, p, Double, cur) == if after == [] || IsSpace(after[0]) then Word(p + 1, cur) else Fail
    ensures line[p] == APOSTROPHE ==>
              Token(line, p, Mode.Single, cur) == if after == [] || IsSpace(after[0]) then Word(p + 1, cur) else Fail
  {
    assert line[p..] == [line[p]] + after;
    CharAt(line, p, [line[p]], after);
  }

  // ---------------------------------------------------------------- lines

  /** Up to the end of what is quoted. */
  lemma ReachDouble(line: seq<byte>, p: nat, bare: seq<byte>, xs: seq<Piece>, after: seq<byte>)
    requires p <= |line| && line[p..] == bare + [QUOTE] + Pieces(xs) + after
    requires (forall i :: 0 <= i < |bare| ==> Bare(bare[i])) && PiecesOk(xs, after)
    ensures var e := p + |bare| + 1 + |Pieces(xs)|;
      e <= |line| && line[e..] == after && Token(line, p, Plain, []) == Token(line, e, Double, bare + Meant(xs))
  {
    hide Token, Pieces, PiecesOk, Meant, Bare;
    var q := p + |bare|;
    assert bare + [QUOTE] + Pieces(xs) + after == bare + ([QUOTE] + (Pieces(xs) + after));
    ReadBare(line, p, bare, [QUOTE] + (Pieces(xs) + after), []);
    assert [] + bare == bare;
    Behind(line, q, [QUOTE], Pieces(xs) + after);
    DoubleOpens(line, q, bare);
    ReadPieces(line, q + 1, xs, after, bare);
  }

  lemma ReachSingle(line: seq<byte>, p: nat, bare: seq<byte>, xs: seq<Single1>, after: seq<byte>)
    requires p <= |line| && line[p..] == bare + [APOSTROPHE] + Singles(xs) + after
    requires (forall i :: 0 <= i < |bare| ==> Bare(bare[i])) && SinglesOk(xs, after)
    ensures var e := p + |bare| + 1 + |Singles(xs)|;
      && e <= |line| && line[e..] == after
      && Token(line, p, Plain, []) == Token(line, e, Mode.Single, bare + SingleMeant(xs))
  {
    hide Token, Singles, SinglesOk, SingleMeant, Bare;
    var q := p + |bare|;
    assert bare + [APOSTROPHE] + Singles(xs) + after == bare + ([APOSTROPHE] + (Singles(xs) + after));
    ReadBare(line, p, bare, [APOSTROPHE] + (Singles(xs) + after), []);
    assert [] + bare == bare;
    Behind(line, q, [APOSTROPHE], Singles(xs) + after);
    DoubleOpens(line, q, bare);
    ReadSingles(line, q + 1, xs, after, bare);
  }

  /** A quoted argument with what follows: read as meant, or glued. */
  lemma ReadClosed(line: seq<byte>, p: nat, a: Arg, after: seq<byte>)
    requires p <= |line| && line[p..] == Written(a) + after && !a.tail.Unquoted? && (after == [] || after[0] != 0)
    requires forall i :: 0 <= i < |a.bare| ==> Bare(a.bare[i])
    requires match a.tail
      case InDouble(xs) => PiecesOk(xs, [QUOTE] + after)
      case InSingle(xs) => SinglesOk(xs, [APOSTROPHE] + after)
      case _ => true
    ensures var n := p + |Written(a)|;
      && n <= |line| && line[n..] == after
      && Token(line, p, Plain, []) == if after == [] || IsSpace(after[0]) then Word(n, ValueOf(a)) else Fail
  {
    match a.tail
    case InDouble(xs) => CloseDouble(line, p, a.bare, xs, after);
    case InSingle(xs) => CloseSingle(line, p, a.bare, xs, after);
  }

  lemma CloseDouble(line: seq<byte>, p: nat, bare: seq<byte>, xs: seq<Piece>, after: seq<byte>)
    requires p <= |line| && line[p..] == Written(Arg(bare, InDouble(xs))) + after && (after == [] || after[0] != 0)
    requires (forall i :: 0 <= i < |bare| ==> Bare(bare[i])) && PiecesOk(xs, [QUOTE] + after)
    ensures var a := Arg(bare, InDouble(xs));
      var n := p + |Written(a)|;
      && n <= |line| && line[n..] == after
      && Token(line, p, Plain, []) == if after == [] || IsSpace(after[0]) then Word(n, ValueOf(a)) else Fail
  {
    hide Token, Pieces, PiecesOk, Meant, Bare, IsSpace;
    assert Written(Arg(bare, InDouble(xs))) + after == bare + [QUOTE] + Pieces(xs) + ([QUOTE] + after);
    ReachDouble(line, p, bare, xs, [QUOTE] + after);
    Behind(line, p + |bare| + 1 + |Pieces(xs)|, [QUOTE], after);
    QuoteCloses(line, p + |bare| + 1 + |Pieces(xs)|, after, bare + Meant(xs));
  }

  lemma CloseSingle(line: seq<byte>, p: nat, bare: seq<byte>, xs: seq<Single1>, after: seq<byte>)
    requires p <= |line| && line[p..] == Written(Arg(bare, InSingle(xs))) + after && (after == [] || after[0] != 0)
    requires (forall i :: 0 <= i < |bare| ==> Bare(bare[i])) && SinglesOk(xs, [APOSTROPHE] + after)
    ensures var a := Arg(bare, InSingle(xs));
      var n := p + |Written(a)|;
      && n <= |line| && line[n..] == after
      && Token(line, p, Plain, []) == if after == [] || IsSpace(after[0]) then Word(n, ValueOf(a)) else Fail
  {
    hide Token, Singles, SinglesOk, SingleMeant, Bare, IsSpace;
    assert Written(Arg(bare, InSingle(xs))) + after == bare + [APOSTROPHE] + Singles(xs) + ([APOSTROPHE] + after);
    ReachSingle(line, p, bare, xs, [APOSTROPHE] + after);
    Behind(line, p + |bare| + 1 + |Singles(xs)|, [APOSTROPHE], after);
    QuoteCloses(line, p + |bare| + 1 + |Singles(xs)|, after, bare + SingleMeant(xs));
  }

  /** One argument is read as it is meant. */
  lemma ReadArg(line: seq<byte>, p: nat, a: Arg, after: seq<byte>)
    requires p <= |line| && line[p..] == Written(a) + after && ArgOk(a, after) && 0 !in after
    ensures var n := p + |Written(a)|;
            && n <= |line| && line[n..] == after && Written(a) != []
            && !IsSpace(Char(line, p)) && Char(line, p) != 0
            && Token(line, p, Plain, []) == Word(if a.tail.Unquoted? && after != [] then n + 1 else n, ValueOf(a))
            && (a.tail.Unquoted? && after != [] ==> IsSpace(after[0]))
  {
    hide Token, Pieces, PiecesOk, Singles, SinglesOk, Meant, SingleMeant;
    Behind(line, p, Written(a), after);
    FirstOf(a);
    if a.tail.Unquoted? {
      assert a.bare + [] == a.bare;
      ReadBare(line, p, a.bare, after, []);
      assert [] + a.bare == a.bare;
      WordEnds(line, p + |a.bare|, after, a.bare);
    } else {
      ReadClosed(line, p, a, after);
    }
  }

  lemma FirstOf(a: Arg)
    requires BareOk(a.bare) && (a.bare == [] ==> !a.tail.Unquoted?)
    ensures Written(a) != [] && !IsSpace(Written(a)[0]) && Written(a)[0] != 0
  {
    if a.bare != [] { assert Bare(a.bare[0]) && Written(a)[0] == a.bare[0]; }
  }

  lemma WordEnds(line: seq<byte>, p: nat, after: seq<byte>, cur: seq<byte>)
    requires p <= |line| && line[p..] == after && (after == [] || Terminates(after[0])) && 0 !in after
    ensures Token(line, p, Plain, cur) == Word(if after == [] then p else p + 1, cur)
    ensures after != [] ==> IsSpace(after[0])
  {
    if after != [] { assert line[p] == after[0]; }
  }

  lemma SkipSpaces(line: seq<byte>, p: nat, blank: seq<byte>, after: seq<byte>)
    requires p <= |line| && line[p..] == blank + after && forall i :: 0 <= i < |blank| ==> IsSpace(blank[i])
    ensures p + |blank| <= |line| && line[p + |blank|..] == after && Skip(line, p) == Skip(line, p + |blank|)
    decreases |blank|
  {
    if blank == [] {
      assert blank + after == after;
    } else {
      assert blank + after == [blank[0]] + (blank[1..] + after);
      Behind(line, p, [blank[0]], blank[1..] + after);
      SkipSpaces(line, p + 1, blank[1..], after);
    }
  }

  /** One argument, its blanks, and the rest of the line. */
  lemma ReadFirst(line: seq<byte>, p: nat, a: Arg, blank: seq<byte>, after: seq<byte>)
    requires p <= |line| && line[p..] == Written(a) + (blank + after) && ArgOk(a, blank + after) && 0 !in blank + after
    requires forall i :: 0 <= i < |blank| ==> IsSpace(blank[i])
    ensures var n := p + |Written(a)| + |blank|;
      && n <= |line| && line[n..] == after && |Written(a)| > 0
      && Words(line, p) == Prepend([ValueOf(a)], Words(line, n))
  {
    hide Token, ArgOk, Written, ValueOf, Skip, IsSpace, Words;
    ReadArg(line, p, a, blank + after);
    var n := p + |Written(a)|;
    SkipNone(line, p);
    SkipSpaces(line, n, blank, after);
    var end := if a.tail.Unquoted? && blank + after != [] then n + 1 else n;
    if end == n + 1 { SkipOne(line, n); }
    WordsFirst(line, p, end, n + |blank|, ValueOf(a));
  }

  lemma SkipNone(line: seq<byte>, p: nat)
    requires p <= |line| && !IsSpace(Char(line, p))
    ensures Skip(line, p) == p
  {}

  lemma SkipOne(line: seq<byte>, p: nat)
    requires p < |line| && IsSpace(line[p])
    ensures Skip(line, p + 1) == Skip(line, p)
  {}

  lemma WordsFirst(line: seq<byte>, p: nat, end: nat, next: nat, text: seq<byte>)
    requires p <= |line| && Skip(line, p) == p && Char(line, p) != 0 && Token(line, p, Plain, []) == Word(end, text)
    requires end <= |line| && next <= |line| && Skip(line, end) == Skip(line, next)
    ensures Words(line, p) == Prepend([text], Words(line, next))
  {
    hide Token, Skip;
    WordsSkip(line, end, next);
  }

  lemma WordsSkip(line: seq<byte>, p: nat, q: nat)
    requires p <= |line| && q <= |line| && Skip(line, p) == Skip(line, q)
    ensures Words(line, p) == Words(line, q)
  {
    hide Token, Skip;
  }

  /** The arguments at the front of a line are read as they are meant, whatever follows them. */
  lemma {:induction false} ReadAll(line: seq<byte>, p: nat, args: seq<Arg>, blanks: seq<seq<byte>>, after: seq<byte>)
    requires p <= |line| && |args| == |blanks| && line[p..] == All(args, blanks) + after && AllOk(args, blanks, after)
    requires 0 !in line
    ensures var n := p + |All(args, blanks)|;
      n <= |line| && line[n..] == after && Words(line, p) == Prepend(Values(args), Words(line, n))
    decreases |args|
  {
    hide Words, Written, ValueOf, ArgOk;
    if args == [] {
      assert All(args, blanks) + after == after;
      PrependNone(Words(line, p));
    } else {
      var rest := All(args[1..], blanks[1..]) + after;
      assert All(args, blanks) + after == Written(args[0]) + (blanks[0] + rest);
      assert blanks[0] + rest == blanks[0] + All(args[1..], blanks[1..]) + after;
      Behind(line, p, Written(args[0]), blanks[0] + rest);
      assert 0 !in blanks[0] + rest by { NoNul(line, p + |Written(args[0])|, blanks[0] + rest); }
      ReadFirst(line, p, args[0], blanks[0], rest);
      var n := p + |Written(args[0])| + |blanks[0]|;
      ReadAll(line, n, args[1..], blanks[1..], after);
      PrependTwo([ValueOf(args[0])], Values(args[1..]), Words(line, n + |All(args[1..], blanks[1..])|));
    }
  }

  lemma NoNul(line: seq<byte>, p: nat, s: seq<byte>)
    requires 0 !in line && p <= |line| && line[p..] == s
    ensures 0 !in s
  {
    forall i | 0 <= i < |s| ensures s[i] != 0 { assert line[p + i] == s[i]; }
  }

  lemma PrependTwo(v: seq<seq<byte>>, w: seq<seq<byte>>, r: Option<seq<seq<byte>>>)
    ensures Prepend(v, Prepend(w, r)) == Prepend(v + w, r)
  {
    if r.Some? { assert v + (w + r.value) == v + w + r.value; }
  }

  /** A quote that is not closed, or glued to what follows, spoils the line. */
  lemma ReadTrouble(line: seq<byte>, p: nat, t: Trouble)
    requires p <= |line| && line[p..] == Bad(t) && TroubleOk(t) && 0 !in line
    ensures Words(line, p) == None
  {
    hide Token, Pieces, PiecesOk, Singles, SinglesOk, Meant, SingleMeant, Skip, Written, Words;
    match t
    case OpenDouble(bare, xs) =>
      assert Bad(t) == bare + [QUOTE] + Pieces(xs) + [];
      ReachDouble(line, p, bare, xs, []);
      NeverCloses(line, p + |bare| + 1 + |Pieces(xs)|, bare + Meant(xs));
      StartsHere(line, p, bare, [QUOTE] + Pieces(xs));
    case OpenSingle(bare, xs) =>
      assert Bad(t) == bare + [APOSTROPHE] + Singles(xs) + [];
      ReachSingle(line, p, bare, xs, []);
      NeverCloses(line, p + |bare| + 1 + |Singles(xs)|, bare + SingleMeant(xs));
      StartsHere(line, p, bare, [APOSTROPHE] + Singles(xs));
    case Glued(a, next) =>
      ReadClosed(line, p, a, next);
      GluedStarts(line, p, a, next);
  }

  lemma GluedStarts(line: seq<byte>, p: nat, a: Arg, next: seq<byte>)
    requires p <= |line| && line[p..] == Written(a) + next && TroubleOk(Glued(a, next))
    ensures Token(line, p, Plain, []).Fail? ==> Words(line, p) == None
  {
    hide Token, Pieces, PiecesOk, Singles, SinglesOk, Skip, Words;
    match a.tail
    case InDouble(xs) =>
      assert Written(a) + next == a.bare + ([QUOTE] + Pieces(xs) + [QUOTE] + next);
      StartsHere(line, p, a.bare, [QUOTE] + Pieces(xs) + [QUOTE] + next);
    case InSingle(xs) =>
      assert Written(a) + next == a.bare + ([APOSTROPHE] + Singles(xs) + [APOSTROPHE] + next);
      StartsHere(line, p, a.bare, [APOSTROPHE] + Singles(xs) + [APOSTROPHE] + next);
    case Unquoted =>
  }

  lemma NeverCloses(line: seq<byte>, p: nat, cur: seq<byte>)
    requires p == |line|
    ensures Token(line, p, Double, cur) == Fail && Token(line, p, Mode.Single, cur) == Fail
  {}

  lemma StartsHere(line: seq<byte>, p: nat, bare: seq<byte>, after: seq<byte>)
    requires p <= |line| && line[p..] == bare + after && BareOk(bare) && after != []
          && (after[0] == QUOTE || after[0] == APOSTROPHE)
    ensures Skip(line, p) == p && Char(line, p) != 0
    ensures Token(line, p, Plain, []).Fail? ==> Words(line, p) == None
  {
    hide Token;
    assert line[p..][0] == line[p];
    if bare != [] { assert Bare(bare[0]) && line[p] == bare[0]; }
    SkipNone(line, p);
  }

  // ---------------------------------------------------------------- every line is written in some way

  lemma {:induction false} FindPieces(line: seq<byte>, p: nat) returns (xs: seq<Piece>)
    requires p <= |line| && 0 !in line
    ensures var e := p + |Pieces(xs)|;
      && e <= |line| && line[p..] == Pieces(xs) + line[e..] && PiecesOk(xs, line[e..])
      && (e == |line| || line[e] == QUOTE)
    decreases |line| - p
  {
    hide Pieces, PiecesOk, Piece1, HexHere, IsHex, Char;
    if p == |line| || line[p] == QUOTE {
      xs := [];
      NoPieces(line[p..]);
    } else {
      var x := if HexHere(line, p) then Hex(Char(line, p + 2), Char(line, p + 3))
               else if line[p] == BACKSLASH && p + 1 < |line| then Escaped(line[p + 1]) else Char1(line[p]);
      PieceHere(line, p, x);
      var next := FindPieces(line, p + |Piece1(x)|);
      xs := [x] + next;
      PieceFits(line, p, x, next);
    }
  }

  lemma NoPieces(after: seq<byte>)
    ensures Pieces([]) == [] && PiecesOk([], after) && Meant([]) == []
  {}

  lemma PieceHere(line: seq<byte>, p: nat, x: Piece)
    requires p < |line| && 0 !in line && line[p] != QUOTE
    requires x == if HexHere(line, p) then Hex(Char(line, p + 2), Char(line, p + 3))
                  else if line[p] == BACKSLASH && p + 1 < |line| then Escaped(line[p + 1]) else Char1(line[p])
    ensures p < p + |Piece1(x)| <= |line| && line[p..] == Piece1(x) + line[p + |Piece1(x)|..]
    ensures var rest := line[p + |Piece1(x)|..];
      match x
      case Char1(c) => c != QUOTE && c != 0 && (c == BACKSLASH ==> rest == [])
      case Escaped(c) => c != 0 && !(c == 120 && |rest| >= 2 && IsHex(rest[0]) && IsHex(rest[1]))
      case Hex(a, b) => IsHex(a) && IsHex(b)
  {
    assert forall i :: 0 <= i < |line| ==> line[i] != 0;
  }

  lemma PieceFits(line: seq<byte>, p: nat, x: Piece, next: seq<Piece>)
    requires var q := p + |Piece1(x)|; var e := q + |Pieces(next)|;
      e <= |line| && line[p..] == Piece1(x) + line[q..] && line[q..] == Pieces(next) + line[e..]
                     && PiecesOk(next, line[e..])
    requires var rest := line[p + |Piece1(x)|..];
      match x
      case Char1(c) => c != QUOTE && c != 0 && (c == BACKSLASH ==> rest == [])
      case Escaped(c) => c != 0 && !(c == 120 && |rest| >= 2 && IsHex(rest[0]) && IsHex(rest[1]))
      case Hex(a, b) => IsHex(a) && IsHex(b)
    ensures var xs := [x] + next; var e := p + |Pieces(xs)|;
      e <= |line| && line[p..] == Pieces(xs) + line[e..] && PiecesOk(xs, line[e..])
      && e == p + |Piece1(x)| + |Pieces(next)|
  {
    var xs := [x] + next;
    assert xs[1..] == next && Pieces(xs) == Piece1(x) + Pieces(next);
    var e := p + |Pieces(xs)|;
    Regroup(Piece1(x), Pieces(next), line[e..]);
  }

  lemma {:induction false} FindSingles(line: seq<byte>, p: nat) returns (xs: seq<Single1>)
    requires p <= |line| && 0 !in line
    ensures var e := p + |Singles(xs)|;
      && e <= |line| && line[p..] == Singles(xs) + line[e..] && SinglesOk(xs, line[e..])
      && (e == |line| || line[e] == APOSTROPHE)
    decreases |line| - p
  {
    hide Singles, SinglesOk, SinglePiece;
    if p == |line| || line[p] == APOSTROPHE {
      xs := [];
      NoSingles(line[p..]);
    } else {
      var x := if line[p] == BACKSLASH && p + 1 < |line| && line[p + 1] == APOSTROPHE then Apostrophe1
               else Byte1(line[p]);
      SingleHere(line, p, x);
      var next := FindSingles(line, p + |SinglePiece(x)|);
      xs := [x] + next;
      SingleFits(line, p, x, next);
    }
  }

  lemma NoSingles(after: seq<byte>)
    ensures Singles([]) == [] && SinglesOk([], after) && SingleMeant([]) == []
  {}

  lemma SingleHere(line: seq<byte>, p: nat, x: Single1)
    requires p < |line| && 0 !in line && line[p] != APOSTROPHE
    requires x == if line[p] == BACKSLASH && p + 1 < |line| && line[p + 1] == APOSTROPHE then Apostrophe1
                  else Byte1(line[p])
    ensures p < p + |SinglePiece(x)| <= |line| && line[p..] == SinglePiece(x) + line[p + |SinglePiece(x)|..]
    ensures var rest := line[p + |SinglePiece(x)|..];
      x.Byte1? ==> x.c != APOSTROPHE && x.c != 0 && (x.c == BACKSLASH ==> rest == [] || rest[0] != APOSTROPHE)
  {}

  lemma SingleFits(line: seq<byte>, p: nat, x: Single1, next: seq<Single1>)
    requires var q := p + |SinglePiece(x)|; var e := q + |Singles(next)|;
      e <= |line| && line[p..] == SinglePiece(x) + line[q..] && line[q..] == Singles(next) + line[e..]
                     && SinglesOk(next, line[e..])
    requires var rest := line[p + |SinglePiece(x)|..];
      x.Byte1? ==> x.c != APOSTROPHE && x.c != 0 && (x.c == BACKSLASH ==> rest == [] || rest[0] != APOSTROPHE)
    ensures var xs := [x] + next; var e := p + |Singles(xs)|;
      e <= |line| && line[p..] == Singles(xs) + line[e..] && SinglesOk(xs, line[e..])
      && e == p + |SinglePiece(x)| + |Singles(next)|
  {
    var xs := [x] + next;
    assert xs[1..] == next && Singles(xs) == SinglePiece(x) + Singles(next);
    var e := p + |Singles(xs)|;
    Regroup(SinglePiece(x), Singles(next), line[e..]);
  }

  lemma {:induction false} FindBare(line: seq<byte>, p: nat) returns (bare: seq<byte>)
    requires p <= |line|
    ensures var e := p + |bare|;
      && e <= |line| && line[p..] == bare + line[e..] && (forall i :: 0 <= i < |bare| ==> Bare(bare[i]))
      && (e == |line| || !Bare(line[e])) && (bare != [] ==> bare[0] == line[p])
    decreases |line| - p
  {
    if p == |line| || !Bare(line[p]) {
      bare := [];
    } else {
      var next := FindBare(line, p + 1);
      bare := [line[p]] + next;
      assert line[p..] == [line[p]] + line[p + 1..];
    }
  }

  lemma {:induction false} FindBlank(line: seq<byte>, p: nat) returns (blank: seq<byte>)
    requires p <= |line|
    ensures var e := p + |blank|;
      && e <= |line| && line[p..] == blank + line[e..] && (forall i :: 0 <= i < |blank| ==> IsSpace(blank[i]))
      && (e == |line| || !IsSpace(line[e]))
    decreases |line| - p
  {
    if p == |line| || !IsSpace(line[p]) {
      blank := [];
    } else {
      var next := FindBlank(line, p + 1);
      blank := [line[p]] + next;
      assert line[p..] == [line[p]] + line[p + 1..];
    }
  }

  datatype Found = FoundArg(a: Arg) | FoundTrouble(t: Trouble)

  /** Where no blank stands, an argument starts, or trouble. */
  lemma FindArg(line: seq<byte>, p: nat) returns (r: Found)
    requires p < |line| && 0 !in line && !IsSpace(line[p])
    ensures match r
      case FoundArg(a) => var n := p + |Written(a)|; p < n <= |line| && line[p..] == Written(a) + line[n..]
                                                     && ArgOk(a, line[n..])
      case FoundTrouble(t) => line[p..] == Bad(t) && TroubleOk(t)
  {
    hide Pieces, PiecesOk, Singles, SinglesOk, IsSpace;
    var bare := FindBare(line, p);
    var e := p + |bare|;
    assert BareOk(bare);
    if e < |line| && line[e] == QUOTE {
      r := FindDouble(line, p, bare);
    } else if e < |line| && line[e] == APOSTROPHE {
      r := FindSingle(line, p, bare);
    } else {
      assert bare + [] == bare;
      NotBare(line[p]);
      assert line[e..] == [] || line[e..][0] == line[e];
      r := FoundArg(Arg(bare, Unquoted));
    }
  }

  lemma NotBare(c: byte)
    requires c != 0
    ensures !Bare(c) && c != QUOTE && c != APOSTROPHE ==> IsSpace(c)
  {}

  lemma FindDouble(line: seq<byte>, p: nat, bare: seq<byte>) returns (r: Found)
    requires p + |bare| < |line| && 0 !in line && line[p..] == bare + line[p + |bare|..] && line[p + |bare|] == QUOTE
          && BareOk(bare)
    ensures match r
      case FoundArg(a) => var n := p + |Written(a)|; p < n <= |line| && line[p..] == Written(a) + line[n..]
                                                     && ArgOk(a, line[n..])
      case FoundTrouble(t) => line[p..] == Bad(t) && TroubleOk(t)
  {
    hide Pieces, PiecesOk, IsSpace, BareOk, ArgOk, Bare, Written, Bad, TroubleOk;
    var e := p + |bare|;
    OneOff(line, e);
    var xs := FindPieces(line, e + 1);
    var f := e + 1 + |Pieces(xs)|;
    if f == |line| {
      OpenEnds(line, p, e, bare, Pieces(xs));
      LeftOpen(OpenDouble(bare, xs));
      r := FoundTrouble(OpenDouble(bare, xs));
    } else {
      var a := Arg(bare, InDouble(xs));
      OneOff(line, f);
      Regroup(bare, [QUOTE] + Pieces(xs), [QUOTE]);
      Regroup([line[e]], Pieces(xs), line[f..]);
      WrittenDouble(bare, xs);
      r := Closing(line, p, f, a, [QUOTE] + Pieces(xs), QUOTE);
    }
  }

  lemma Regroup(a: seq<byte>, b: seq<byte>, c: seq<byte>)
    ensures a + (b + c) == a + b + c
  {}

  lemma OneOff(line: seq<byte>, p: nat)
    requires p < |line|
    ensures line[p..] == [line[p]] + line[p + 1..]
  {}

  lemma LeftOpen(t: Trouble)
    requires !t.Glued? && BareOk(t.bare) && (t.OpenDouble? ==> PiecesOk(t.pieces, []))
    requires t.OpenSingle? ==> SinglesOk(t.bytes, [])
    ensures TroubleOk(t)
    ensures t.OpenDouble? ==> Bad(t) == t.bare + [QUOTE] + Pieces(t.pieces)
    ensures t.OpenSingle? ==> Bad(t) == t.bare + [APOSTROPHE] + Singles(t.bytes)
  {}

  lemma GluedTo(a: Arg, next: seq<byte>)
    ensures Bad(Glued(a, next)) == Written(a) + next
  {}

  lemma OpenEnds(line: seq<byte>, p: nat, e: nat, bare: seq<byte>, inner: seq<byte>)
    requires p <= e < |line| && line[p..] == bare + line[e..] && line[e + 1..] == inner + line[|line|..]
    ensures line[p..] == bare + [line[e]] + inner && line[|line|..] == []
  {
    OneOff(line, e);
    assert inner + [] == inner;
  }

  lemma WrittenDouble(bare: seq<byte>, xs: seq<Piece>)
    ensures Written(Arg(bare, InDouble(xs))) == bare + ([QUOTE] + Pieces(xs) + [QUOTE])
  {}

  lemma WrittenSingle(bare: seq<byte>, xs: seq<Single1>)
    ensures Written(Arg(bare, InSingle(xs))) == bare + ([APOSTROPHE] + Singles(xs) + [APOSTROPHE])
  {}

  lemma ClosedHere(line: seq<byte>, p: nat, f: nat, a: Arg, inner: seq<byte>, quote: byte)
    requires p + |a.bare| + |inner| == f < |line| && line[f] == quote && Written(a) == a.bare + inner + [quote]
    requires line[p..] == a.bare + line[p + |a.bare|..] && line[p + |a.bare|..] == inner + line[f..]
    ensures p + |Written(a)| == f + 1 && line[p..] == Written(a) + line[f + 1..]
    ensures f + 1 < |line| ==> line[f + 1..][0] == line[f + 1]
  {
    hide Written;
    assert line[f..] == [quote] + line[f + 1..];
    assert a.bare + (inner + ([quote] + line[f + 1..])) == Written(a) + line[f + 1..];
  }

  lemma ClosedOk(a: Arg, after: seq<byte>)
    requires BareOk(a.bare) && (after == [] || after[0] != 0)
    requires match a.tail
      case Unquoted => false
      case InDouble(xs) => PiecesOk(xs, [QUOTE] + after)
      case InSingle(xs) => SinglesOk(xs, [APOSTROPHE] + after)
    ensures if after == [] || IsSpace(after[0]) then ArgOk(a, after) else TroubleOk(Glued(a, after))
  {}

  lemma Closing(line: seq<byte>, p: nat, f: nat, a: Arg, inner: seq<byte>, quote: byte) returns (r: Found)
    requires p + |a.bare| + |inner| == f < |line| && line[f] == quote && Written(a) == a.bare + inner + [quote]
    requires line[p..] == a.bare + line[p + |a.bare|..] && line[p + |a.bare|..] == inner + line[f..]
    requires BareOk(a.bare) && 0 !in line
    requires match a.tail
      case Unquoted => false
      case InDouble(xs) => PiecesOk(xs, [QUOTE] + line[f + 1..])
      case InSingle(xs) => SinglesOk(xs, [APOSTROPHE] + line[f + 1..])
    ensures match r
      case FoundArg(a) => var n := p + |Written(a)|; p < n <= |line| && line[p..] == Written(a) + line[n..]
                                                     && ArgOk(a, line[n..])
      case FoundTrouble(t) => line[p..] == Bad(t) && TroubleOk(t)
  {
    hide Pieces, PiecesOk, Singles, SinglesOk, IsSpace, BareOk, ArgOk, Bare, Written, Bad, TroubleOk;
    GluedTo(a, line[f + 1..]);
    ClosedHere(line, p, f, a, inner, quote);
    r := if f + 1 == |line| || IsSpace(line[f + 1]) then FoundArg(a) else FoundTrouble(Glued(a, line[f + 1..]));
    ClosedOk(a, line[f + 1..]);
  }

  lemma FindSingle(line: seq<byte>, p: nat, bare: seq<byte>) returns (r: Found)
    requires p + |bare| < |line| && 0 !in line && line[p..] == bare + line[p + |bare|..]
          && line[p + |bare|] == APOSTROPHE && BareOk(bare)
    ensures match r
      case FoundArg(a) => var n := p + |Written(a)|; p < n <= |line| && line[p..] == Written(a) + line[n..]
                                                     && ArgOk(a, line[n..])
      case FoundTrouble(t) => line[p..] == Bad(t) && TroubleOk(t)
  {
    hide Singles, SinglesOk, IsSpace, BareOk, ArgOk, Bare, Written, Bad, TroubleOk;
    var e := p + |bare|;
    OneOff(line, e);
    var xs := FindSingles(line, e + 1);
    var f := e + 1 + |Singles(xs)|;
    if f == |line| {
      OpenEnds(line, p, e, bare, Singles(xs));
      LeftOpen(OpenSingle(bare, xs));
      r := FoundTrouble(OpenSingle(bare, xs));
    } else {
      var a := Arg(bare, InSingle(xs));
      OneOff(line, f);
      Regroup(bare, [APOSTROPHE] + Singles(xs), [APOSTROPHE]);
      Regroup([line[e]], Singles(xs), line[f..]);
      WrittenSingle(bare, xs);
      r := Closing(line, p, f, a, [APOSTROPHE] + Singles(xs), APOSTROPHE);
    }
  }

  /** A line in its parts: blanks, arguments each with its blanks, and perhaps trouble at the end. */
  datatype Parts = Parts(lead: seq<byte>, args: seq<Arg>, blanks: seq<seq<byte>>, end: Option<Trouble>)

  function EndOf(x: Parts): seq<byte> {
    if x.end.None? then [] else Bad(x.end.value)
  }

  predicate PartsOf(line: seq<byte>, x: Parts) {
    && |x.args| == |x.blanks| && (forall i :: 0 <= i < |x.lead| ==> IsSpace(x.lead[i]))
    && line == x.lead + All(x.args, x.blanks) + EndOf(x) && AllOk(x.args, x.blanks, EndOf(x))
    && (x.end.Some? ==> TroubleOk(x.end.value))
  }

  /** Every line can be taken apart like this. */
  lemma {:induction false} FindParts(line: seq<byte>, p: nat) returns (x: Parts)
    requires p <= |line| && 0 !in line
    ensures PartsOf(line[p..], x)
    decreases |line| - p
  {
    hide ArgOk, Written, Bad, TroubleOk;
    var lead := FindBlank(line, p);
    var q := p + |lead|;
    if q == |line| {
      x := Parts(lead, [], [], None);
      assert lead + [] + [] == lead == line[p..];
    } else {
      var r := FindArg(line, q);
      match r
      case FoundTrouble(t) =>
        x := Parts(lead, [], [], Some(t));
        assert lead + [] + Bad(t) == lead + Bad(t);
      case FoundArg(a) =>
        var n := q + |Written(a)|;
        var y := FindParts(line, n);
        x := Parts(lead, [a] + y.args, [y.lead] + y.blanks, y.end);
        MoreParts(line, p, q, n, lead, a, y);
    }
  }

  lemma MoreParts(line: seq<byte>, p: nat, q: nat, n: nat, lead: seq<byte>, a: Arg, y: Parts)
    requires p <= q < n <= |line| && line[p..] == lead + line[q..] && line[q..] == Written(a) + line[n..]
    requires ArgOk(a, line[n..]) && PartsOf(line[n..], y) && forall i :: 0 <= i < |lead| ==> IsSpace(lead[i])
    ensures PartsOf(line[p..], Parts(lead, [a] + y.args, [y.lead] + y.blanks, y.end))
  {
    hide ArgOk, Written, Bad, TroubleOk;
    var x := Parts(lead, [a] + y.args, [y.lead] + y.blanks, y.end);
    assert x.args[1..] == y.args && x.blanks[1..] == y.blanks;
    assert All(x.args, x.blanks) == Written(a) + y.lead + All(y.args, y.blanks);
    assert lead + (Written(a) + (y.lead + All(y.args, y.blanks) + EndOf(y))) == lead + All(x.args, x.blanks) + EndOf(x);
  }

  /** The arguments in front of the end are read for what they mean. */
  lemma ReadLine(line: seq<byte>, lead: seq<byte>, args: seq<Arg>, blanks: seq<seq<byte>>, end: seq<byte>)
    requires 0 !in line && |args| == |blanks| && line == lead + All(args, blanks) + end && AllOk(args, blanks, end)
    requires forall i :: 0 <= i < |lead| ==> IsSpace(lead[i])
    ensures var e := |lead| + |All(args, blanks)|;
      e <= |line| && line[e..] == end && Words(line, 0) == Prepend(Values(args), Words(line, e))
  {
    hide Words, AllOk, All, Skip, Values, IsSpace, Prepend;
    Apart(line, lead, All(args, blanks), end);
    SkipSpaces(line, 0, lead, All(args, blanks) + end);
    WordsSkip(line, 0, |lead|);
    ReadAll(line, |lead|, args, blanks, end);
  }

  lemma Apart(line: seq<byte>, a: seq<byte>, b: seq<byte>, c: seq<byte>)
    requires line == a + b + c
    ensures line[0..] == a + (b + c)
  {}

  lemma PrependEnds(words: seq<seq<byte>>)
    ensures Prepend(words, Some([])) == Some(words) && Prepend(words, None) == None
  {
    assert words + [] == words;
  }

  /** Splitting a line, told by how it is written: it gives exactly what the arguments mean, and fails exactly if the
      line ends in a quote that is not closed or in one that is glued to what follows. */
  lemma SplitParts(line: seq<byte>, x: Parts)
    requires 0 !in line && PartsOf(line, x)
    ensures Words(line, 0) == if x.end.None? then Some(Values(x.args)) else None
  {
    hide Words, AllOk, TroubleOk, Bad, All, Values, IsSpace, Prepend;
    ReadLine(line, x.lead, x.args, x.blanks, EndOf(x));
    PrependEnds(Values(x.args));
    var e := |x.lead| + |All(x.args, x.blanks)|;
    if x.end.None? {
      EndWords(line, e);
    } else {
      ReadTrouble(line, e, x.end.value);
    }
  }

  lemma EndWords(line: seq<byte>, p: nat)
    requires p == |line|
    ensures Words(line, p) == Some([])
  {}

  /** For every line of a C string: splitting fails if and only if it can be taken apart with trouble at its end, and
      gives `ws` if and only if it can be taken apart into arguments that mean `ws`. */
  lemma SplitExactly(line: seq<byte>)
    requires 0 !in line
    ensures Words(line, 0) == None <==> exists x :: PartsOf(line, x) && x.end.Some?
    ensures forall ws ::
              Words(line, 0) == Some(ws) <==> exists x :: PartsOf(line, x) && x.end.None? && Values(x.args) == ws
  {
    hide Words, PartsOf, Values;
    var y := FindParts(line, 0);
    assert line[0..] == line;
    forall x | PartsOf(line, x) ensures Words(line, 0) == if x.end.None? then Some(Values(x.args)) else None {
      SplitParts(line, x);
    }
  }

  lemma PartsFrom(args: seq<Arg>, blanks: seq<seq<byte>>)
    requires |args| == |blanks| && AllOk(args, blanks, [])
    ensures PartsOf(All(args, blanks), Parts([], args, blanks, None))
  {
    hide AllOk, All;
    assert [] + All(args, blanks) + [] == All(args, blanks);
  }

  lemma PlainPartsOf(words: seq<seq<byte>>)
    requires forall i :: 0 <= i < |words| ==> Plain1(words[i])
    ensures PartsOf(Joined(words), Parts([], Plainly(words), Spaces(|words|), None)) && 0 !in Joined(words)
  {
    hide AllOk, All, Plain1, PartsOf, Joined, Plainly;
    PlainParts(words);
    PlainAll(words);
    PartsFrom(Plainly(words), Spaces(|words|));
  }

  /** Ordinary words between single spaces, as in `SET key value`. */
  lemma PlainWords(words: seq<seq<byte>>)
    requires forall i :: 0 <= i < |words| ==>
              words[i] != [] && (forall k :: 0 <= k < |words[i]| ==> Bare(words[i][k]) && !IsSpace(words[i][k]))
    ensures Words(Joined(words), 0) == Some(words)
  {
    hide PartsOf, Plainly, Spaces, Words, Values;
    assert forall i :: 0 <= i < |words| ==> Plain1(words[i]);
    PlainPartsOf(words);
    PlainValues(words);
    SplitParts(Joined(words), Parts([], Plainly(words), Spaces(|words|), None));
  }

  function Joined(words: seq<seq<byte>>): seq<byte> {
    if words == [] then [] else words[0] + (if |words| > 1 then [32] else []) + Joined(words[1..])
  }

  function Plainly(words: seq<seq<byte>>): seq<Arg> {
    if words == [] then [] else [Arg(words[0], Unquoted)] + Plainly(words[1..])
  }

  lemma {:induction false} PlainAll(words: seq<seq<byte>>)
    ensures |Plainly(words)| == |words| && All(Plainly(words), Spaces(|words|)) == Joined(words)
  {
    if words != [] {
      PlainAll(words[1..]);
      var args, blanks := Plainly(words), Spaces(|words|);
      assert args[1..] == Plainly(words[1..]) && blanks[1..] == Spaces(|words| - 1);
      assert words[0] + [] == words[0] == Written(args[0]);
    }
  }

  lemma {:induction false} PlainValues(words: seq<seq<byte>>)
    ensures Values(Plainly(words)) == words
  {
    if words != [] {
      PlainValues(words[1..]);
      assert words[0] + [] == words[0] && Plainly(words)[1..] == Plainly(words[1..]);
      assert words == [words[0]] + words[1..];
    }
  }

  predicate Plain1(w: seq<byte>) {
    w != [] && forall k :: 0 <= k < |w| ==> Bare(w[k]) && !IsSpace(w[k])
  }

  lemma PlainArg(w: seq<byte>, after: seq<byte>)
    requires Plain1(w) && (after == [] || after[0] == 32)
    ensures ArgOk(Arg(w, Unquoted), after) && 0 !in w
  {
    assert forall k :: 0 <= k < |w| ==> Bare(w[k]);
  }

  lemma {:induction false} PlainParts(words: seq<seq<byte>>)
    requires forall i :: 0 <= i < |words| ==> Plain1(words[i])
    ensures |Plainly(words)| == |words|
    ensures AllOk(Plainly(words), Spaces(|words|), []) && 0 !in Joined(words)
  {
    hide Plain1, ArgOk, All;
    PlainAll(words);
    if words != [] {
      PlainParts(words[1..]);
      PlainAll(words[1..]);
      var args, blanks := Plainly(words), Spaces(|words|);
      assert args[1..] == Plainly(words[1..]) && blanks[1..] == Spaces(|words| - 1);
      assert blanks[0] == if |words| > 1 then [32] else [];
      assert |words| == 1 ==> words[1..] == [];
      var after := blanks[0] + All(args[1..], blanks[1..]) + [];
      assert after == blanks[0] + Joined(words[1..]);
      PlainArg(words[0], after);
    }
  }
}
