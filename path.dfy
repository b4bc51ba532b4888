/** BIP 32 derivation-path text.  The Python script hands bip_utils the path
    string "{change}/{index}"; the library splits it at '/', drops empty
    elements and reads each remaining one as a decimal, non-hardened index
    below 2^32.  The lemma
    `PathStringParses` shows that this string always denotes exactly the two
    steps change, then index, that the Go script performs directly. */
module DerivationPath {
  import opened Wrappers
  import opened Crypto

  predicate IsDigit(c: char) {
    '0' <= c <= '9'
  }

  predicate AllDigits(s: string) {
    forall i :: 0 <= i < |s| ==> IsDigit(s[i])
  }

  function DigitChar(d: nat): (c: char)
    requires d < 10
    ensures IsDigit(c)
  {
    ('0' as int + d) as char
  }

  function DigitValue(c: char): nat
    requires IsDigit(c)
  {
    c as int - '0' as int
  }

  /** Decimal text of a natural number, as Python's str() writes it. */
  function NatToString(n: nat): (s: string)
    ensures |s| > 0 && AllDigits(s)
    decreases n
  {
    if n < 10 then [DigitChar(n)] else NatToString(n / 10) + [DigitChar(n % 10)]
  }

  /** Decimal text of an integer, with a leading '-' when negative. */
  function IntToString(i: int): string {
    if i < 0 then "-" + NatToString(-i) else NatToString(i)
  }

  /** The value of a string of decimal digits. */
  function DigitsValue(s: string): nat
    requires AllDigits(s)
    decreases |s|
  {
    if |s| == 0 then 0 else DigitsValue(s[..|s| - 1]) * 10 + DigitValue(s[|s| - 1])
  }

  /** Reading back the decimal text of n gives n. */
  lemma {:induction false} NatToStringRoundTrip(n: nat)
    ensures DigitsValue(NatToString(n)) == n
    decreases n
  {
    if n >= 10 {
      var s := NatToString(n);
      assert s[..|s| - 1] == NatToString(n / 10);
      NatToStringRoundTrip(n / 10);
    }
  }

  /** The '/'-separated elements of a path (at least one, possibly empty). */
  function Split(s: string): (parts: seq<string>)
    ensures |parts| >= 1
    decreases |s|
  {
    if |s| == 0 then [""]
    else
      var rest := Split(s[1..]);
      if s[0] == '/' then [""] + rest
      else [[s[0]] + rest[0]] + rest[1..]
  }

  lemma {:induction false} SplitNoSlash(a: string, t: string)
    requires '/' !in a
    ensures Split(a + t) == [a + Split(t)[0]] + Split(t)[1..]
    decreases |a|
  {
    if |a| == 0 {
      assert a + t == t && a + Split(t)[0] == Split(t)[0];
      assert Split(t) == [Split(t)[0]] + Split(t)[1..];
    } else {
      assert (a + t)[0] == a[0] && (a + t)[1..] == a[1..] + t;
      assert '/' !in a[1..] by {
        forall i | 0 <= i < |a[1..]| ensures a[1..][i] != '/' {
          assert a[1..][i] == a[i + 1];
        }
      }
      SplitNoSlash(a[1..], t);
      assert [a[0]] + (a[1..] + Split(t)[0]) == a + Split(t)[0];
    }
  }

  /** A path of two slash-free elements splits into exactly those two. */
  lemma SplitTwo(a: string, b: string)
    requires '/' !in a && '/' !in b
    ensures Split(a + "/" + b) == [a, b]
  {
    SplitNoSlash(b, "");
    assert b + "" == b;
    assert Split("/" + b) == [""] + Split(b) by {
      assert ("/" + b)[1..] == b;
    }
    SplitNoSlash(a, "/" + b);
    assert a + "/" + b == a + ("/" + b);
    assert a + "" == a;
  }

  lemma DigitsHaveNoSlash(s: string)
    requires AllDigits(s)
    ensures '/' !in s
  {
  }

  /** One non-hardened path element: decimal digits with a value below 2^32. */
  function ParseElement(e: string): Option<uint32> {
    if |e| > 0 && AllDigits(e) && DigitsValue(e) < 0x1_0000_0000 then Some(DigitsValue(e)) else None
  }

  function ParseElements(es: seq<string>): Option<seq<uint32>> {
    if es == [] then Some([])
    else
      match ParseElement(es[0])
      case None => None
      case Some(v) =>
        match ParseElements(es[1..])
        case None => None
        case Some(vs) => Some([v] + vs)
  }

  /** The elements that are not empty, in order: bip_utils drops empty
      elements (filter(None, ...)) before parsing. */
  function NonEmpty(parts: seq<string>): (r: seq<string>)
    ensures |r| <= |parts|
    ensures forall e :: e in r <==> e in parts && e != ""
    decreases |parts|
  {
    if parts == [] then []
    else (if parts[0] == "" then [] else [parts[0]]) + NonEmpty(parts[1..])
  }

  /** The child indices a path string denotes, or None if an element is malformed. */
  function ParsePath(path: string): Option<seq<uint32>> {
    ParseElements(NonEmpty(Split(path)))
  }

  /** The empty path, and a path of slashes only, denote no step at all. */
  lemma EmptyPathHasNoSteps()
    ensures ParsePath("") == Some([])
    ensures ParsePath("/") == Some([])
  {
    assert Split("") == [""];
    assert "/"[1..] == "";
    assert Split("/") == ["", ""];
  }

  /** Two non-empty elements are both kept. */
  lemma NonEmptyPair(a: string, b: string)
    requires a != "" && b != ""
    ensures NonEmpty([a, b]) == [a, b]
  {
    assert [a, b][1..] == [b];
    assert [b][1..] == [];
  }

  /** The first derivation step: 1 for the change chain, 0 for receiving. */
  function ChangeIndex(change: bool): (c: uint32)
    ensures c <= 1 && (c == 1 <==> change)
  {
    if change then 1 else 0
  }

  /** The Python script's path text f"{change_idx}/{index}". */
  function PathString(change: nat, index: int): (s: string)
    ensures var c := NatToString(change);
      && |s| > |c| && s[..|c|] == c && s[|c|] == '/' && '/' !in c
      && (index >= 0 ==> s[|c| + 1..] == NatToString(index))
      && (index < 0 ==> s[|c| + 1..] == "-" + NatToString(-index))
  {
    DigitsHaveNoSlash(NatToString(change));
    NatToString(change) + "/" + IntToString(index)
  }

  /** The path text denotes the two steps change then index exactly when the
      index is a 32-bit unsigned value; otherwise it is rejected. */
  lemma PathStringParses(change: uint32, index: int)
    ensures 0 <= index < 0x1_0000_0000 ==> ParsePath(PathString(change, index)) == Some([change, index])
    ensures !(0 <= index < 0x1_0000_0000) ==> ParsePath(PathString(change, index)) == None
  {
    var c, i := NatToString(change), IntToString(index);
    DigitsHaveNoSlash(c);
    NatToStringRoundTrip(change);
    assert ParseElement(c) == Some(change);
    if index < 0 {
      var d := NatToString(-index);
      DigitsHaveNoSlash(d);
      assert i == "-" + d;
      assert '/' !in i by {
        forall k | 0 <= k < |i| ensures i[k] != '/' {
          if k > 0 { assert i[k] == d[k - 1]; }
        }
      }
      SplitTwo(c, i);
      NonEmptyPair(c, i);
      assert !IsDigit(i[0]);
      assert ParseElement(i) == None;
      assert [c, i][1..] == [i];
      assert ParseElements([i]) == None;
      assert ParsePath(PathString(change, index)) == ParseElements([c, i]);
    } else {
      DigitsHaveNoSlash(i);
      NatToStringRoundTrip(index);
      SplitTwo(c, i);
      NonEmptyPair(c, i);
      assert [c, i][1..] == [i];
      assert [i][1..] == [];
      if index < 0x1_0000_0000 {
        var v: uint32 := index;
        assert ParseElement([i][0]) == Some(v);
        assert ParseElements([i][1..]) == Some([]);
        assert [v] + [] == [v];
        assert ParseElements([i]) == Some([v]);
        assert [c, i][0] == c && [change] + [v] == [change, v];
        assert ParseElements([c, i]) == Some([change, v]);
      } else {
        assert ParseElement(i) == None;
        assert ParseElements([i]) == None;
      }
      assert ParsePath(PathString(change, index)) == ParseElements([c, i]);
    }
  }
}
