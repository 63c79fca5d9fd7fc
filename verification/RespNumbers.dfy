/** Decimal numbers of the protocol: printing, counting digits, and strict parsing. */
module RespNumbers {

  newtype byte = x: int | 0 <= x < 256

  datatype Option<T> = None | Some(value: T)

  const INT_MAX: int := 0x7fff_ffff
  const LLONG_MAX: int := 0x7fff_ffff_ffff_ffff
  const LLONG_MIN: int := -0x8000_0000_0000_0000
  const ULLONG_MAX: int := 0xffff_ffff_ffff_ffff

  predicate IsDigit(b: byte) {
    48 <= b <= 57
  }

  /** The decimal digits of a number, as `%d` and `%zu` print them. */
  function ShowNat(n: nat): (s: seq<byte>)
    ensures |s| > 0 && forall i :: 0 <= i < |s| ==> IsDigit(s[i])
    ensures n > 0 ==> s[0] != 48
    ensures n < 10 <==> |s| == 1
  {
    if n < 10 then [(48 + n) as byte] else ShowNat(n / 10) + [(48 + n % 10) as byte]
  }

  function Show(v: int): seq<byte> {
    if v < 0 then [45] + ShowNat(-v) else ShowNat(v)
  }

  function NatOf(s: seq<byte>): nat
    requires forall i :: 0 <= i < |s| ==> IsDigit(s[i])
  {
    if s == [] then 0
    else
      assert IsDigit(s[|s| - 1]);
      10 * NatOf(s[..|s| - 1]) + (s[|s| - 1] as int - 48)
  }

  lemma {:induction false} NatOfShow(n: nat)
    ensures NatOf(ShowNat(n)) == n
  {
    if n < 10 {
      assert ShowNat(n)[..0] == [];
    } else {
      NatOfShow(n / 10);
      var s := ShowNat(n);
      assert s[..|s| - 1] == ShowNat(n / 10);
    }
  }

  /** Digits without a leading zero are exactly what printing gives. */
  lemma {:induction false} ShowNatOf(s: seq<byte>)
    requires |s| > 0 && (forall i :: 0 <= i < |s| ==> IsDigit(s[i])) && s[0] != 48
    ensures ShowNat(NatOf(s)) == s && NatOf(s) > 0
  {
    var t := s[..|s| - 1];
    if |s| == 1 {
      assert t == [];
      assert s == [s[0]];
    } else {
      ShowNatOf(t);
      assert s == t + [s[|s| - 1]];
    }
  }

  lemma ShowInjective(v: int, w: int)
    requires Show(v) == Show(w)
    ensures v == w
  {
    hide ShowNat, NatOf;
    ShownForm(v);
    ShownForm(w);
    if v < 0 && w < 0 {
      NatOfShow(-v);
      NatOfShow(-w);
    } else if v >= 0 && w >= 0 {
      NatOfShow(v);
      NatOfShow(w);
    }
  }

  /** The only texts accepted are the printed forms of numbers that fit a long long. */
  ghost predicate Parses(s: seq<byte>, v: int) {
    s == Show(v) && LLONG_MIN <= v <= LLONG_MAX
  }

  lemma ShownOnce(s: seq<byte>)
    ensures forall v, w :: Parses(s, v) && Parses(s, w) ==> v == w
  {
    forall v, w | Parses(s, v) && Parses(s, w) ensures v == w { ShowInjective(v, w); }
  }

  ghost function ParseLL(s: seq<byte>): Option<int> {
    if exists v :: Parses(s, v) then (ShownOnce(s); var v :| Parses(s, v); Some(v)) else None
  }

  lemma ParseShown(v: int)
    requires LLONG_MIN <= v <= LLONG_MAX
    ensures ParseLL(Show(v)) == Some(v)
  {
    assert Parses(Show(v), v);
    ShownOnce(Show(v));
  }

  lemma ParseNone(s: seq<byte>)
    requires forall v :: !Parses(s, v)
    ensures ParseLL(s) == None
  {}

  lemma {:induction false} NatOfGrows(s: seq<byte>, k: nat)
    requires (forall i :: 0 <= i < |s| ==> IsDigit(s[i])) && k <= |s|
    ensures NatOf(s) >= NatOf(s[..k])
  {
    if k < |s| {
      NatOfGrows(s[..|s| - 1], k);
      assert s[..|s| - 1][..k] == s[..k];
    } else {
      assert s[..k] == s;
    }
  }

  lemma ShownForm(v: int)
    ensures var s := Show(v);
      if v < 0 then |s| > 1 && s[0] == 45 && s[1..] == ShowNat(-v) && IsDigit(s[1]) && s[1] != 48
      else s == ShowNat(v) && IsDigit(s[0]) && (s[0] == 48 ==> |s| == 1)
  {}

  /** Texts that denote no number: nothing behind the sign, a stray byte, or a leading zero. */
  lemma Bad(s: seq<byte>, neg: bool, ds: seq<byte>)
    requires s == (if neg then [45] + ds else ds) && (!neg ==> ds == [] || ds[0] != 45)
    requires || ds == [] || (exists i :: 0 <= i < |ds| && !IsDigit(ds[i])) || (ds[0] == 48 && (neg || |ds| > 1))
    ensures ParseLL(s) == None
  {
    forall v ensures !Parses(s, v) {
      ShownForm(v);
    }
    ParseNone(s);
  }

  /** A sign and digits without a leading zero: the number they denote, if it fits. */
  lemma Good(s: seq<byte>, neg: bool, ds: seq<byte>)
    requires s == (if neg then [45] + ds else ds) && |ds| > 0 && (forall i :: 0 <= i < |ds| ==> IsDigit(ds[i]))
          && ds[0] != 48
    ensures var v := if neg then -(NatOf(ds) as int) else NatOf(ds);
      ParseLL(s) == if LLONG_MIN <= v <= LLONG_MAX then Some(v) else None
  {
    var v := if neg then -(NatOf(ds) as int) else NatOf(ds);
    ShowNatOf(ds);
    assert Show(v) == s;
    if LLONG_MIN <= v <= LLONG_MAX {
      ParseShown(v);
    } else {
      forall w ensures !Parses(s, w) { if Show(w) == s { ShowInjective(v, w); } }
      ParseNone(s);
    }
  }

  /** The digits from `p` on, as long as their value fits 64 bits. */
  method ReadDigits(s: seq<byte>, p: nat) returns (fits: bool, v: nat, q: nat)
    requires p < |s| && 49 <= s[p] <= 57
    ensures p < q <= |s| && (forall i :: p <= i < q ==> IsDigit(s[i]))
    ensures fits <==> NatOf(s[p..q]) <= ULLONG_MAX
    ensures fits ==> v == NatOf(s[p..q]) && (q < |s| ==> !IsDigit(s[q]))
  {
    v := s[p] as int - 48;
    q := p + 1;
    assert s[p..q] == [s[p]] && [s[p]][..0] == [];
    while q < |s| && IsDigit(s[q])
      invariant p < q <= |s| && (forall i :: p <= i < q ==> IsDigit(s[i])) && v == NatOf(s[p..q]) && 0 < v <= ULLONG_MAX
    {
      assert s[p..q + 1][..q - p] == s[p..q];
      assert NatOf(s[p..q + 1]) == 10 * v + (s[q] as int - 48);
      if v > ULLONG_MAX / 10 || v * 10 > ULLONG_MAX - (s[q] as int - 48) {
        return false, v, q + 1;
      }
      v := v * 10 + (s[q] as int - 48);
      q := q + 1;
    }
    return true, v, q;
  }

  /** `string2ll` (read.c 159-220): strict, with overflow checks in unsigned arithmetic. */
  method String2ll(s: seq<byte>) returns (r: Option<int>)
    ensures r == ParseLL(s)
  {
    hide ParseLL, Show, ShowNat, NatOf;
    if |s| == 0 {
      Bad(s, false, s);
      return None;
    }
    if |s| == 1 && s[0] == 48 {
      Zero(s);
      return Some(0);
    }
    var neg := s[0] == 45;
    var p := if neg then 1 else 0;
    ghost var ds := s[p..];
    assert s == if neg then [45] + ds else ds;
    if p == |s| || !(49 <= s[p] <= 57) {
      if p < |s| { assert ds[0] == s[p] && (ds[0] == 48 || !IsDigit(ds[0])); }
      Bad(s, neg, ds);
      return None;
    }
    var fits, v, q := ReadDigits(s, p);
    if !fits {
      Overflowed(s, neg, p, q);
      return None;
    }
    if q < |s| {
      assert ds[q - p] == s[q] && !IsDigit(ds[q - p]);
      Bad(s, neg, ds);
      return None;
    }
    assert s[p..q] == ds;
    Good(s, neg, ds);
    if (neg && v > -LLONG_MIN) || (!neg && v > LLONG_MAX) {
      return None;
    }
    return Some(if neg then -v else v);
  }

  lemma Zero(s: seq<byte>)
    requires s == [48]
    ensures ParseLL(s) == Some(0)
  {
    ParseShown(0);
  }

  lemma Slices(s: seq<byte>, p: nat, q: nat)
    requires p <= q <= |s|
    ensures s[p..][..q - p] == s[p..q]
  {
    assert forall i :: 0 <= i < q - p ==> s[p..][..q - p][i] == s[p + i] == s[p..q][i];
  }

  /** Once the digits read exceed 64 bits, no number that fits is denoted. */
  lemma Overflowed(s: seq<byte>, neg: bool, p: nat, q: nat)
    requires p < q <= |s| && neg == (s[0] == 45) && p == (if neg then 1 else 0)
          && (forall i :: p <= i < q ==> IsDigit(s[i]))
    requires NatOf(s[p..q]) > ULLONG_MAX && s[p] != 48
    ensures ParseLL(s) == None
  {
    var ds := s[p..];
    if neg { assert s == [s[0]] + s[1..]; } else { assert s[0..] == s; }
    Slices(s, p, q);
    if forall i :: 0 <= i < |ds| ==> IsDigit(ds[i]) {
      NatOfGrows(ds, q - p);
      Good(s, neg, ds);
    } else {
      Bad(s, neg, ds);
    }
  }

  lemma {:induction false} ShowLength(v: nat)
    requires v >= 10000
    ensures |ShowNat(v)| == |ShowNat(v / 10000)| + 4
  {
    assert v / 10 / 10 / 10 / 10 == v / 10000;
    assert |ShowNat(v)| == |ShowNat(v / 10)| + 1;
    assert |ShowNat(v / 10)| == |ShowNat(v / 10 / 10)| + 1;
    assert |ShowNat(v / 10 / 10)| == |ShowNat(v / 10 / 10 / 10)| + 1;
  }

  /** `countDigits` (hiredis.c 266-276) counts the digits that will be printed. */
  method CountDigits(v0: nat) returns (result: nat)
    ensures result == |ShowNat(v0)|
  {
    var v := v0;
    result := 1;
    while true
      invariant result - 1 + |ShowNat(v)| == |ShowNat(v0)|
      decreases v
    {
      if v < 10 { return; }
      if v < 100 { result := result + 1; return; }
      if v < 1000 { assert |ShowNat(v / 10)| == 2; result := result + 2; return; }
      if v < 10000 { assert |ShowNat(v / 10 / 10)| == 2; assert |ShowNat(v / 10)| == 3; result := result + 3; return; }
      ShowLength(v);
      v := v / 10000;
      result := result + 4;
    }
  }
}
