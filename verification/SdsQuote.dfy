/** Quoting a byte string and splitting a line back into arguments. */
module SdsQuote {
  import opened RespNumbers

  // ---------------------------------------------------------------- quoting

  const QUOTE: byte := 34
  const APOSTROPHE: byte := 39
  const BACKSLASH: byte := 92

  /** `isprint` and `isspace` of the C locale. */
  predicate IsPrint(c: byte) { 32 <= c <= 126 }

  predicate IsSpace(c: byte) { 9 <= c <= 13 || c == 32 }

  function HexDigit(n: nat): byte
    requires n < 16
  {
    if n < 10 then (48 + n) as byte else (87 + n) as byte
  }

  /** One byte as `sdscatrepr` writes it. */
  function Escape(c: byte): seq<byte> {
    if c == BACKSLASH || c == QUOTE then [BACKSLASH, c]
    else if c == 10 then [BACKSLASH, 110]
    else if c == 13 then [BACKSLASH, 114]
    else if c == 9 then [BACKSLASH, 116]
    else if c == 7 then [BACKSLASH, 97]
    else if c == 8 then [BACKSLASH, 98]
    else if IsPrint(c) then [c]
    else [BACKSLASH, 120, HexDigit(c as int / 16), HexDigit(c as int % 16)]
  }

  function Escapes(b: seq<byte>): seq<byte> {
    if b == [] then [] else Escapes(b[..|b| - 1]) + Escape(b[|b| - 1])
  }

  function Quoted(b: seq<byte>): seq<byte> {
    [QUOTE] + Escapes(b) + [QUOTE]
  }

  lemma EscapesNone(p: seq<byte>)
    requires p == []
    ensures Escapes(p) == []
  {
  }

  lemma EscapesNext(p: seq<byte>, i: nat)
    requires i < |p|
    ensures Escapes(p[..i + 1]) == Escapes(p[..i]) + Escape(p[i])
  {
    assert p[..i + 1][..i] == p[..i];
  }

  /** `sdscatrepr` (sds.c 867-890). */
  method CatRepr(s: seq<byte>, p: seq<byte>) returns (r: seq<byte>)
    ensures r == s + Quoted(p)
  {
    hide Escapes;
    r := s + [QUOTE];
    assert Escapes(p[..0]) == [] by { EscapesNone(p[..0]); }
    var i := 0;
    while i < |p|
      invariant i <= |p| && r == s + [QUOTE] + Escapes(p[..i])
    {
      var c := p[i];
      ghost var before := r;
      EscapesNext(p, i);
      if c == BACKSLASH || c == QUOTE {
        r := r + [BACKSLASH, c];
      } else if c == 10 {
        r := r + [BACKSLASH, 110];
      } else if c == 13 {
        r := r + [BACKSLASH, 114];
      } else if c == 9 {
        r := r + [BACKSLASH, 116];
      } else if c == 7 {
        r := r + [BACKSLASH, 97];
      } else if c == 8 {
        r := r + [BACKSLASH, 98];
      } else if IsPrint(c) {
        r := r + [c];
      } else {
        r := r + [BACKSLASH, 120, HexDigit(c as int / 16), HexDigit(c as int % 16)];
      }
      assert r == before + Escape(c);
      i := i + 1;
    }
    assert p[..i] == p;
    r := r + [QUOTE];
  }

  // ---------------------------------------------------------------- splitting

  predicate IsHex(c: byte) {
    48 <= c <= 57 || 97 <= c <= 102 || 65 <= c <= 70
  }

  function HexValue(c: byte): (n: nat)
    ensures n < 16
  {
    if 48 <= c <= 57 then c as int - 48
    else if 97 <= c <= 102 then c as int - 87
    else if 65 <= c <= 70 then c as int - 55
    else 0
  }

  function Unescape(c: byte): byte {
    if c == 110 then 10 else if c == 114 then 13 else if c == 116 then 9 else if c == 98 then 8 else if c == 97 then 7
      else c
  }

  /** The character at `p`; the line ends with a NUL. */
  function Char(line: seq<byte>, p: nat): byte {
    if p < |line| then line[p] else 0
  }

  datatype Mode = Plain | Double | Single

  datatype Scan = Fail | Word(end: nat, text: seq<byte>)

  predicate HexHere(line: seq<byte>, p: nat) {
    Char(line, p) == BACKSLASH && Char(line, p + 1) == 120 && IsHex(Char(line, p + 2)) && IsHex(Char(line, p + 3))
  }

  predicate Follows(line: seq<byte>, p: nat) {
    Char(line, p) == 0 || IsSpace(Char(line, p))
  }

  predicate Terminates(c: byte) {
    c == 32 || c == 10 || c == 13 || c == 9 || c == 0
  }

  /** The argument that starts, or goes on, at `p`. */
  function Token(line: seq<byte>, p: nat, mode: Mode, cur: seq<byte>): (r: Scan)
    requires p <= |line|
    ensures r.Word? ==> p <= r.end <= |line| && (mode.Plain? && !Terminates(Char(line, p)) ==> p < r.end)
    decreases |line| - p
  {
    var c := Char(line, p);
    match mode
    case Double =>
      if HexHere(line, p) then
        Token(line, p + 4, Double, cur + [(HexValue(Char(line, p + 2)) * 16 + HexValue(Char(line, p + 3))) as byte])
      else if c == BACKSLASH && Char(line, p + 1) != 0 then
        Token(line, p + 2, Double, cur + [Unescape(Char(line, p + 1))])
      else if c == QUOTE then if Follows(line, p + 1) then Word(p + 1, cur) else Fail
      else if c == 0 then Fail
      else Token(line, p + 1, Double, cur + [c])
    case Single =>
      if c == BACKSLASH && Char(line, p + 1) == APOSTROPHE then Token(line, p + 2, Single, cur + [APOSTROPHE])
      else if c == APOSTROPHE then if Follows(line, p + 1) then Word(p + 1, cur) else Fail
      else if c == 0 then Fail
      else Token(line, p + 1, Single, cur + [c])
    case Plain =>
      if Terminates(c) then Word(if c == 0 then p else p + 1, cur)
      else if c == QUOTE then Token(line, p + 1, Double, cur)
      else if c == APOSTROPHE then Token(line, p + 1, Single, cur)
      else Token(line, p + 1, Plain, cur + [c])
  }

  function Skip(line: seq<byte>, p: nat): (q: nat)
    requires p <= |line|
    ensures p <= q <= |line| && !(Char(line, q) != 0 && IsSpace(Char(line, q)))
    decreases |line| - p
  {
    if Char(line, p) != 0 && IsSpace(Char(line, p)) then Skip(line, p + 1) else p
  }

  /** The arguments of a line from `p` on, or nothing for unbalanced quotes. */
  function Words(line: seq<byte>, p: nat): Option<seq<seq<byte>>>
    requires p <= |line|
    decreases |line| - p
  {
    var q := Skip(line, p);
    if Char(line, q) == 0 then Some([]) else
    match Token(line, q, Plain, [])
    case Fail => None
    case Word(end, text) =>
      match Words(line, end)
      case None => None
      case Some(ws) => Some([text] + ws)
  }

  function Prepend(v: seq<seq<byte>>, r: Option<seq<seq<byte>>>): Option<seq<seq<byte>>> {
    match r
    case None => None
    case Some(ws) => Some(v + ws)
  }

  lemma PrependNone(r: Option<seq<seq<byte>>>)
    ensures Prepend([], r) == r
  {
    if r.Some? { assert [] + r.value == r.value; }
  }

  /** Words are counted in an int. Beyond that the room asked for the next one is no size that there can be. */
  function Counted(r: Option<seq<seq<byte>>>): Option<seq<seq<byte>>> {
    if r.Some? && |r.value| > INT_MAX then None else r
  }

  /** `sdssplitargs` (sds.c 942-1058): the loops over the running cursor compute `Words`, if they can be counted. */
  method SplitArgs(line: seq<byte>) returns (r: Option<seq<seq<byte>>>)
    ensures r == Counted(Words(line, 0))
  {
    var p := 0;
    var vector: seq<seq<byte>> := [];
    PrependNone(Words(line, 0));
    while true
      invariant p <= |line| && |vector| <= INT_MAX && Words(line, 0) == Prepend(vector, Words(line, p))
      decreases |line| - p
    {
      ghost var start := p;
      while Char(line, p) != 0 && IsSpace(Char(line, p))
        invariant start <= p <= |line| && Skip(line, p) == Skip(line, start)
        decreases |line| - p
      {
        p := p + 1;
      }
      if Char(line, p) == 0 {
        assert Words(line, start) == Some([]);
        assert vector + [] == vector;
        return Some(vector);
      }
      ghost var q := p;
      var mode, done, current := Plain, false, [];
      while !done
        invariant q <= p <= |line| && (!done ==> Token(line, p, mode, current) == Token(line, q, Plain, []))
        invariant done ==> Token(line, q, Plain, []) == Word(p, current)
        decreases !done, |line| - p
      {
        var c := Char(line, p);
        var step := if c == 0 then 0 else 1;
        if mode.Double? {
          if HexHere(line, p) {
            current := current + [(HexValue(Char(line, p + 2)) * 16 + HexValue(Char(line, p + 3))) as byte];
            p := p + 3;
          } else if c == BACKSLASH && Char(line, p + 1) != 0 {
            p := p + 1;
            current := current + [Unescape(Char(line, p))];
          } else if c == QUOTE {
            if !Follows(line, p + 1) { return None; }
            done := true;
          } else if c == 0 {
            return None;
          } else {
            current := current + [c];
          }
        } else if mode.Single? {
          if c == BACKSLASH && Char(line, p + 1) == APOSTROPHE {
            p := p + 1;
            current := current + [APOSTROPHE];
          } else if c == APOSTROPHE {
            if !Follows(line, p + 1) { return None; }
            done := true;
          } else if c == 0 {
            return None;
          } else {
            current := current + [c];
          }
        } else {
          if Terminates(c) {
            done := true;
          } else if c == QUOTE {
            mode := Double;
          } else if c == APOSTROPHE {
            mode := Single;
          } else {
            current := current + [c];
          }
        }
        p := p + step;
      }
      assert Words(line, start) == Prepend([current], Words(line, p));
      assert forall ws: seq<seq<byte>> :: vector + ([current] + ws) == vector + [current] + ws;
      if |vector| == INT_MAX { return None; }
      vector := vector + [current];
    }
  }

  // ---------------------------------------------------------------- round trip

  /** A line of quoted arguments, each followed by its blanks. */
  function Line(args: seq<seq<byte>>, blanks: seq<seq<byte>>): seq<byte>
    requires |args| == |blanks|
  {
    if args == [] then [] else Quoted(args[0]) + blanks[0] + Line(args[1..], blanks[1..])
  }

  ghost predicate AllSpace(b: seq<byte>) {
    forall i :: 0 <= i < |b| ==> IsSpace(b[i])
  }

  /** Blanks between any two arguments. */
  ghost predicate Apart(blanks: seq<seq<byte>>) {
    && (forall i :: 0 <= i < |blanks| ==> AllSpace(blanks[i]))
    && (forall i :: 0 <= i < |blanks| - 1 ==> blanks[i] != [])
  }

  lemma HexBack(n: nat)
    requires n < 16
    ensures IsHex(HexDigit(n)) && HexValue(HexDigit(n)) == n
  {
  }

  /** Reading one escaped byte inside quotes. */
  lemma ReadEscape(line: seq<byte>, p: nat, c: byte, cur: seq<byte>)
    requires p + |Escape(c)| <= |line| && line[p..p + |Escape(c)|] == Escape(c)
    ensures Token(line, p, Double, cur) == Token(line, p + |Escape(c)|, Double, cur + [c])
  {
    var e := Escape(c);
    assert forall k :: 0 <= k < |e| ==> Char(line, p + k) == e[k] by {
      forall k | 0 <= k < |e| ensures Char(line, p + k) == e[k] { assert line[p..p + |e|][k] == line[p + k]; }
    }
    assert Char(line, p) == e[0];
    if |e| >= 2 { assert Char(line, p + 1) == e[1]; }
    if |e| == 4 {
      HexBack(c as int / 16);
      HexBack(c as int % 16);
      assert Char(line, p + 2) == e[2] && Char(line, p + 3) == e[3];
      assert HexHere(line, p);
    }
  }

  /** Escaping in order from the front. */
  lemma {:induction false} EscapesFront(b: seq<byte>)
    requires b != []
    ensures Escapes(b) == Escape(b[0]) + Escapes(b[1..])
  {
    hide Escape;
    var n := |b| - 1;
    if n == 0 {
      assert b[..0] == [] && b[1..] == [] && [] + Escape(b[0]) == Escape(b[0]) + [];
    } else {
      hide Escapes;
      EscapesFront(b[..n]);
      EscapesLast(b);
      EscapesLast(b[1..]);
      assert b[1..][..n - 1] == b[..n][1..] && b[1..][n - 1] == b[n];
      assert Escape(b[0]) + (Escapes(b[..n][1..]) + Escape(b[n])) == (Escape(b[0]) + Escapes(b[..n][1..])) +
        Escape(b[n]);
    }
  }

  lemma EscapesLast(b: seq<byte>)
    requires b != []
    ensures Escapes(b) == Escapes(b[..|b| - 1]) + Escape(b[|b| - 1])
  {
  }

  /** Reading the rest of a quoted argument. */
  lemma {:induction false} ReadQuoted(line: seq<byte>, p: nat, b: seq<byte>, cur: seq<byte>)
    requires var n := |Escapes(b)|; p + n < |line| && line[p..p + n] == Escapes(b) && line[p + n] == QUOTE
                                                   && Follows(line, p + n + 1)
    ensures Token(line, p, Double, cur) == Word(p + |Escapes(b)| + 1, cur + b)
    decreases |b|
  {
    hide Escape, Escapes, Token, Follows;
    if b == [] {
      EscapesNone(b);
      assert cur + b == cur;
      AtQuote(line, p, cur);
    } else {
      EscapesFront(b);
      var e, rest := Escape(b[0]), Escapes(b[1..]);
      SplitSlice(line, p, e, rest);
      ReadEscape(line, p, b[0], cur);
      ReadQuoted(line, p + |e|, b[1..], cur + [b[0]]);
      assert cur + [b[0]] + b[1..] == cur + b;
    }
  }

  lemma AtQuote(line: seq<byte>, p: nat, cur: seq<byte>)
    requires p < |line| && line[p] == QUOTE && Follows(line, p + 1)
    ensures Token(line, p, Double, cur) == Word(p + 1, cur)
  {
  }

  lemma SplitSlice(line: seq<byte>, p: nat, x: seq<byte>, y: seq<byte>)
    requires p + |x + y| <= |line| && line[p..p + |x + y|] == x + y
    ensures line[p..p + |x|] == x && line[p + |x|..p + |x| + |y|] == y
  {
    var z := line[p..p + |x + y|];
    assert line[p..p + |x|] == z[..|x|] && line[p + |x|..p + |x| + |y|] == z[|x|..];
  }

  lemma {:induction false} SkipBlanks(line: seq<byte>, p: nat, q: nat)
    requires p <= q <= |line| && (forall i :: p <= i < q ==> IsSpace(line[i])) && (q == |line| || !IsSpace(line[q]))
    ensures Skip(line, p) == q
    decreases q - p
  {
    if p < q { SkipBlanks(line, p + 1, q); }
  }

  /** Where the parts of the first argument lie. */
  lemma Layout(line: seq<byte>, q: nat, a: seq<byte>, blank: seq<byte>, tail: seq<byte>)
    requires q <= |line| && line[q..] == Quoted(a) + blank + tail
    ensures var n := |Escapes(a)| + 2;
            && q + n + |blank| <= |line| && line[q] == QUOTE && line[q + 1..q + n - 1] == Escapes(a)
            && line[q + n - 1] == QUOTE
            && line[q + n..] == blank + tail && line[q + n + |blank|..] == tail
            && forall i :: q + n <= i < q + n + |blank| ==> line[i] == blank[i - q - n]
  {
    hide Escapes;
    var rest, n := line[q..], |Escapes(a)| + 2;
    assert line[q] == rest[0] && line[q + n - 1] == rest[n - 1];
    assert line[q + 1..q + n - 1] == rest[1..n - 1] == Escapes(a);
    assert line[q + n..] == rest[n..] == blank + tail;
    assert line[q + n + |blank|..] == rest[n + |blank|..] == tail;
    forall i | q + n <= i < q + n + |blank| ensures line[i] == blank[i - q - n] {
      assert line[i] == rest[i - q];
    }
  }

  /** One quoted argument is one word. */
  lemma FirstWord(line: seq<byte>, q: nat, a: seq<byte>, blank: seq<byte>, tail: seq<byte>)
    requires q <= |line| && line[q..] == Quoted(a) + blank + tail
    requires blank + tail == [] || IsSpace((blank + tail)[0])
    ensures q < |line| && line[q] == QUOTE && Token(line, q, Plain, []) == Word(q + |Escapes(a)| + 2, a)
  {
    hide Token, Escapes;
    var n := |Escapes(a)| + 2;
    Layout(line, q, a, blank, tail);
    assert q + n < |line| ==> line[q + n] == line[q + n..][0];
    ReadQuoted(line, q + 1, a, []);
    assert [] + a == a;
    OpenQuote(line, q);
  }

  lemma OneMore(line: seq<byte>, p: nat, q: nat, end: nat, text: seq<byte>, ws: seq<seq<byte>>)
    requires p <= |line| && q == Skip(line, p) && Char(line, q) != 0 && Token(line, q, Plain, []) == Word(end, text)
    requires end <= |line| && Words(line, end) == Some(ws)
    ensures Words(line, p) == Some([text] + ws)
  {
    hide Token, Skip;
  }

  /** Splitting a line of quoted arguments, whatever bytes they hold and whatever blanks stand between them, gives
      those arguments. */
  lemma {:induction false} SplitLine(line: seq<byte>, p: nat, args: seq<seq<byte>>, blanks: seq<seq<byte>>, q: nat)
    requires |args| == |blanks| && Apart(blanks) && p <= q <= |line| && (forall i :: p <= i < q ==> IsSpace(line[i]))
    requires line[q..] == Line(args, blanks)
    ensures Words(line, p) == Some(args)
    decreases |args|
  {
    hide Line, Apart, Words;
    if args == [] {
      NoWords(line, p, q, args, blanks);
    } else {
      var n := |Escapes(args[0])| + 2;
      RestLine(line, q, args, blanks);
      ApartTail(blanks);
      SplitLine(line, q + n, args[1..], blanks[1..], q + n + |blanks[0]|);
      HeadWord(line, p, q, args, blanks);
    }
  }

  lemma NoWords(line: seq<byte>, p: nat, q: nat, args: seq<seq<byte>>, blanks: seq<seq<byte>>)
    requires args == blanks == [] && p <= q <= |line| && line[q..] == Line(args, blanks)
          && forall i :: p <= i < q ==> IsSpace(line[i])
    ensures Words(line, p) == Some(args)
  {
    hide Token, Skip;
    assert q == |line|;
    SkipBlanks(line, p, q);
  }

  lemma RestLine(line: seq<byte>, q: nat, args: seq<seq<byte>>, blanks: seq<seq<byte>>)
    requires |args| == |blanks| && args != [] && Apart(blanks) && q <= |line| && line[q..] == Line(args, blanks)
    ensures var n, m := |Escapes(args[0])| + 2, |blanks[0]|;
            && q + n + m <= |line| && (forall i :: q + n <= i < q + n + m ==> IsSpace(line[i]))
            && line[q + n + m..] == Line(args[1..], blanks[1..])
  {
    hide Escapes, Quoted;
    Layout(line, q, args[0], blanks[0], Line(args[1..], blanks[1..]));
    ApartFirst(blanks);
  }

  lemma HeadWord(line: seq<byte>, p: nat, q: nat, args: seq<seq<byte>>, blanks: seq<seq<byte>>)
    requires |args| == |blanks| && args != [] && Apart(blanks) && p <= q <= |line| && line[q..] == Line(args, blanks)
    requires forall i :: p <= i < q ==> IsSpace(line[i])
    requires var e := q + |Escapes(args[0])| + 2; e <= |line| && Words(line, e) == Some(args[1..])
    ensures Words(line, p) == Some(args)
  {
    hide Escapes, Quoted, Words, Skip, Token, Apart;
    Boundary(args, blanks);
    FirstWord(line, q, args[0], blanks[0], Line(args[1..], blanks[1..]));
    SkipBlanks(line, p, q);
    OneMore(line, p, q, q + |Escapes(args[0])| + 2, args[0], args[1..]);
    assert [args[0]] + args[1..] == args;
  }

  lemma ApartFirst(blanks: seq<seq<byte>>)
    requires Apart(blanks) && blanks != []
    ensures forall i :: 0 <= i < |blanks[0]| ==> IsSpace(blanks[0][i])
  {
    assert AllSpace(blanks[0]);
  }

  lemma ApartTail(blanks: seq<seq<byte>>)
    requires Apart(blanks) && blanks != []
    ensures Apart(blanks[1..])
  {
    var t := blanks[1..];
    forall i | 0 <= i < |t| ensures AllSpace(t[i]) && (i < |t| - 1 ==> t[i] != []) {
      assert t[i] == blanks[i + 1];
    }
  }

  lemma OpenQuote(line: seq<byte>, q: nat)
    requires q < |line| && line[q] == QUOTE
    ensures Token(line, q, Plain, []) == Token(line, q + 1, Double, [])
  {
  }

  /** What follows a quoted argument is a blank, unless it was the last. */
  lemma Boundary(args: seq<seq<byte>>, blanks: seq<seq<byte>>)
    requires |args| == |blanks| && args != [] && Apart(blanks)
    ensures var after := blanks[0] + Line(args[1..], blanks[1..]); after == [] || IsSpace(after[0])
  {
    assert AllSpace(blanks[0]);
    if |args| == 1 {
      assert args[1..] == [];
    } else {
      assert blanks[0] != [];
    }
  }

  function Spaces(n: nat): seq<seq<byte>> {
    seq(n, i requires 0 <= i < n => if i < n - 1 then [32] else [])
  }

  /** Quoting each argument and joining with single spaces, then splitting, gives the arguments back. */
  lemma RoundTrip(args: seq<seq<byte>>)
    ensures Words(Line(args, Spaces(|args|)), 0) == Some(args)
  {
    var blanks := Spaces(|args|);
    assert Apart(blanks) by {
      forall i | 0 <= i < |blanks| ensures AllSpace(blanks[i]) && (i < |blanks| - 1 ==> blanks[i] != []) {
      }
    }
    var line := Line(args, blanks);
    assert line[0..] == line;
    SplitLine(line, 0, args, blanks, 0);
  }

  /** A quoted string is printable text, whatever bytes went in. */
  lemma {:induction false} QuotedPrints(b: seq<byte>, i: nat)
    requires i < |Quoted(b)|
    ensures IsPrint(Quoted(b)[i])
  {
    EscapesPrint(b);
  }

  lemma {:induction false} EscapesPrint(b: seq<byte>)
    ensures forall i :: 0 <= i < |Escapes(b)| ==> IsPrint(Escapes(b)[i])
  {
    if b != [] { EscapesPrint(b[..|b| - 1]); }
  }
}
