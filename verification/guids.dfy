/** 128-bit identifiers and their textual forms, as far as `Guid.TryParse`
    is used by the gateway binding logic: the `D` form
    (`xxxxxxxx-xxxx-xxxx-xxxx-xxxxxxxxxxxx`), the `N` form (32 digits), and
    the `D` form wrapped in braces (`B`) or parentheses (`P`). Hexadecimal
    digits are accepted in either case. */
module Guids {
  import opened Wrappers
  import opened CaseFold

  type Nibble = x: int | 0 <= x < 16

  /** A GUID, as its 32 hexadecimal digits in textual order. */
  type Guid = s: seq<Nibble> | |s| == 32 witness seq(32, _ => 0)

  function HexValue(c: char): (r: Option<Nibble>)
    ensures r.Some? <==> ('0' <= c <= '9' || 'a' <= c <= 'f' || 'A' <= c <= 'F')
  {
    if '0' <= c <= '9' then Some(c as int - '0' as int)
    else if 'a' <= c <= 'f' then Some(c as int - 'a' as int + 10)
    else if 'A' <= c <= 'F' then Some(c as int - 'A' as int + 10)
    else None
  }

  /** The lower-case digit `Guid.ToString` writes for `n`. */
  function HexChar(n: Nibble): (c: char)
    ensures HexValue(c) == Some(n)
    ensures !('A' <= c <= 'Z')
  {
    if n < 10 then ('0' as int + n) as char else ('a' as int + n - 10) as char
  }

  /** The digits of `s`, when every character of `s` is a hexadecimal digit. */
  function ParseDigits(s: string): (r: Option<seq<Nibble>>)
    ensures r.Some? <==> forall i :: 0 <= i < |s| ==> HexValue(s[i]).Some?
    ensures r.Some? ==> |r.value| == |s| && forall i :: 0 <= i < |s| ==> HexValue(s[i]) == Some(r.value[i])
    decreases |s|
  {
    if s == [] then Some([])
    else match (HexValue(s[0]), ParseDigits(s[1..]))
      case (Some(d), Some(ds)) =>
        assert forall i :: 0 < i < |s| ==> s[i] == s[1..][i - 1];
        Some([d] + ds)
      case (None, _) => None
      case (_, None) =>
        assert forall i :: 0 <= i < |s| - 1 ==> s[1..][i] == s[i + 1];
        None
  }

  function Hex(ds: seq<Nibble>): (s: string)
    ensures |s| == |ds|
  {
    seq(|ds|, i requires 0 <= i < |ds| => HexChar(ds[i]))
  }

  /** The `D` form without its hyphens: the four hyphens sit at positions 8,
      13, 18 and 23. */
  predicate HyphensAt(s: string)
    requires |s| == 36
  {
    s[8] == '-' && s[13] == '-' && s[18] == '-' && s[23] == '-'
  }

  function DropHyphens(s: string): (r: string)
    requires |s| == 36
    ensures |r| == 32
  {
    s[..8] + s[9..13] + s[14..18] + s[19..23] + s[24..]
  }

  function ParseD(s: string): (r: Option<Guid>)
    requires |s| == 36
    ensures r.Some? <==> HyphensAt(s) && ParseDigits(DropHyphens(s)).Some?
    ensures r.Some? ==> forall i :: 0 <= i < 32 ==> HexValue(DropHyphens(s)[i]) == Some(r.value[i])
  {
    if !HyphensAt(s) then None
    else match ParseDigits(DropHyphens(s))
      case None => None
      case Some(ds) => Some(ds)
  }

  /** `Guid.TryParse` over the `D`, `N`, `B` and `P` forms. */
  function TryParse(s: string): (r: Option<Guid>)
    ensures r.Some? ==> |s| == 32 || |s| == 36 || |s| == 38
    ensures |s| == 32 ==> (r.Some? <==> forall i :: 0 <= i < 32 ==> HexValue(s[i]).Some?)
    ensures |s| == 32 && r.Some? ==> forall i :: 0 <= i < 32 ==> HexValue(s[i]) == Some(r.value[i])
  {
    if |s| == 32 then
      match ParseDigits(s)
      case None => None
      case Some(ds) => Some(ds)
    else if |s| == 36 then ParseD(s)
    else if |s| == 38 && ((s[0] == '{' && s[37] == '}') || (s[0] == '(' && s[37] == ')')) then
      ParseD(s[1..37])
    else None
  }

  /** `Guid.ToString()`: the lower-case `D` form. */
  function Format(g: Guid): (s: string)
    ensures |s| == 36
  {
    Hex(g[..8]) + "-" + Hex(g[8..12]) + "-" + Hex(g[12..16]) + "-" + Hex(g[16..20]) + "-" + Hex(g[20..])
  }

  lemma ParseDigitsOfHex(ds: seq<Nibble>)
    ensures ParseDigits(Hex(ds)) == Some(ds)
  {
    var r := ParseDigits(Hex(ds));
    assert r.Some?;
    assert r.value == ds by {
      forall i | 0 <= i < |ds| ensures r.value[i] == ds[i] {
        assert HexValue(Hex(ds)[i]) == Some(ds[i]);
      }
    }
  }

  /** Every GUID parses back from its own text. */
  lemma TryParseFormat(g: Guid)
    ensures TryParse(Format(g)) == Some(g)
  {
    var s := Format(g);
    assert HyphensAt(s);
    assert DropHyphens(s) == Hex(g) by {
      assert s[..8] == Hex(g[..8]);
      assert s[9..13] == Hex(g[8..12]);
      assert s[14..18] == Hex(g[12..16]);
      assert s[19..23] == Hex(g[16..20]);
      assert s[24..] == Hex(g[20..]);
      assert Hex(g) == Hex(g[..8]) + Hex(g[8..12]) + Hex(g[12..16]) + Hex(g[16..20]) + Hex(g[20..]);
    }
    ParseDigitsOfHex(g);
  }

  lemma FoldHexDigit(c: char, n: Nibble)
    requires HexValue(c) == Some(n)
    ensures ToLowerAscii(c) == HexChar(n)
  {
  }

  lemma FoldOfParsedDigits(s: string, ds: seq<Nibble>)
    requires ParseDigits(s) == Some(ds)
    ensures Fold(s) == Hex(ds)
  {
    forall i | 0 <= i < |s| ensures Fold(s)[i] == Hex(ds)[i] {
      FoldHexDigit(s[i], ds[i]);
    }
  }

  /** Position, among the 32 digits, of the character at position `i` of
      the `D` form. */
  function DigitIndex(i: int): (j: int)
  {
    if i < 8 then i else if i < 13 then i - 1 else if i < 18 then i - 2 else if i < 23 then i - 3 else i - 4
  }

  predicate IsHyphenPosition(i: int)
  {
    i == 8 || i == 13 || i == 18 || i == 23
  }

  lemma FormatAt(g: Guid, i: int)
    requires 0 <= i < 36
    ensures Format(g)[i] == if IsHyphenPosition(i) then '-' else HexChar(g[DigitIndex(i)])
  {
  }

  lemma DropHyphensAt(s: string, i: int)
    requires |s| == 36 && 0 <= i < 36 && !IsHyphenPosition(i)
    ensures 0 <= DigitIndex(i) < 32 && DropHyphens(s)[DigitIndex(i)] == s[i]
  {
  }

  lemma FoldOfParsedD(s: string, g: Guid)
    requires |s| == 36 && ParseD(s) == Some(g)
    ensures Fold(s) == Format(g)
  {
    var t := DropHyphens(s);
    FoldOfParsedDigits(t, g);
    forall i | 0 <= i < 36 ensures Fold(s)[i] == Format(g)[i] {
      FormatAt(g, i);
      if !IsHyphenPosition(i) {
        DropHyphensAt(s, i);
        assert Fold(t)[DigitIndex(i)] == Hex(g)[DigitIndex(i)];
      }
    }
  }

  lemma ParseDigitsIgnoresCase(s: string)
    ensures ParseDigits(Fold(s)) == ParseDigits(s)
  {
    var f := Fold(s);
    forall i | 0 <= i < |s| ensures HexValue(f[i]) == HexValue(s[i]) {
    }
    if ParseDigits(s).Some? {
      var a, b := ParseDigits(s).value, ParseDigits(f).value;
      forall i | 0 <= i < |s| ensures a[i] == b[i] {
        assert HexValue(s[i]) == Some(a[i]) && HexValue(f[i]) == Some(b[i]);
      }
      assert a == b;
    }
  }

  lemma ParseDIgnoresCase(s: string)
    requires |s| == 36
    ensures ParseD(Fold(s)) == ParseD(s)
  {
    var f := Fold(s);
    assert DropHyphens(f) == Fold(DropHyphens(s));
    ParseDigitsIgnoresCase(DropHyphens(s));
  }

  /** Parsing does not see the case of letters. */
  lemma TryParseIgnoresCase(s: string)
    ensures TryParse(Fold(s)) == TryParse(s)
  {
    var f := Fold(s);
    if |s| == 32 {
      ParseDigitsIgnoresCase(s);
    } else if |s| == 36 {
      ParseDIgnoresCase(s);
    } else if |s| == 38 {
      assert f[1..37] == Fold(s[1..37]);
      ParseDIgnoresCase(s[1..37]);
    }
  }

  /** The converse of `TryParseFormat`: a string parses as `g` exactly when,
      ignoring the case of its letters, it is one of the four texts of `g`. */
  lemma TryParseOnlyFormats(s: string, g: Guid)
    ensures TryParse(s) == Some(g) <==>
      Fold(s) in {Hex(g), Format(g), "{" + Format(g) + "}", "(" + Format(g) + ")"}
  {
    if TryParse(s) == Some(g) {
      if |s| == 32 {
        FoldOfParsedDigits(s, g);
      } else if |s| == 36 {
        FoldOfParsedD(s, g);
      } else {
        var inner := s[1..37];
        FoldOfParsedD(inner, g);
        assert Fold(s) == [Fold(s)[0]] + Fold(inner) + [Fold(s)[37]];
      }
    }
    if Fold(s) in {Hex(g), Format(g), "{" + Format(g) + "}", "(" + Format(g) + ")"} {
      TryParseIgnoresCase(s);
      var f := Fold(s);
      if f == Hex(g) {
        ParseDigitsOfHex(g);
      } else if f == Format(g) {
        TryParseFormat(g);
      } else {
        assert f[1..37] == Format(g);
        TryParseFormat(g);
      }
    }
  }
}
