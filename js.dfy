/** The few pieces of JavaScript runtime behaviour that the chart logic
    depends on: `undefined` cells, the coercion of a value to a property
    key, `parseFloat` as a classifier, and the order in which
    `Object.entries` lists the keys of a plain object. */
module Js {
  import opened Seqs

  datatype Option<T> = None | Some(value: T)

  /** One parsed CSV record: column name to raw cell text. */
  type Row = map<string, string>

  /** The parsed file, in file order. */
  type Dataset = seq<Row>

  /** `row[key]`: the cell, or `undefined` (None) when the row lacks the key. */
  function Get(row: Row, key: string): Option<string> {
    if key in row then Some(row[key]) else None
  }

  /** A cell value used as an object key: `String(undefined)` is "undefined". */
  function CellKey(v: Option<string>): string {
    if v.Some? then v.value else "undefined"
  }

  /** `row[v]` for `v` a selection that may still be `null`: JavaScript uses
      the key "null" for it. */
  function SelectionKey(v: Option<string>): string {
    if v.Some? then v.value else "null"
  }

  /** ECMAScript WhiteSpace and LineTerminator code points, which
      `parseFloat` skips before the number. */
  predicate IsWhiteSpace(c: char) {
    c == '\t' || c == '\n' || c == '\U{000B}' || c == '\U{000C}' || c == '\r' ||
    c == ' ' || c == '\U{00A0}' || c == '\U{1680}' ||
    ('\U{2000}' <= c <= '\U{200A}') ||
    c == '\U{2028}' || c == '\U{2029}' || c == '\U{202F}' || c == '\U{205F}' ||
    c == '\U{3000}' || c == '\U{FEFF}'
  }

  predicate IsDigit(c: char) {
    '0' <= c <= '9'
  }

  /** `s` with its leading white space removed. */
  function TrimStart(s: string): string
  {
    if s != [] && IsWhiteSpace(s[0]) then TrimStart(s[1..]) else s
  }

  /** The length of the run of decimal digits that `s` starts with. */
  function DigitRun(s: string): (n: nat)
    ensures n <= |s|
  {
    if s != [] && IsDigit(s[0]) then 1 + DigitRun(s[1..]) else 0
  }

  /** Whether an unsigned string starts with a StrUnsignedDecimalLiteral:
      "Infinity", a digit, or a point followed by a digit. */
  predicate StartsDecimal(u: string) {
    "Infinity" <= u ||
    (|u| > 0 && IsDigit(u[0])) ||
    (|u| > 1 && u[0] == '.' && IsDigit(u[1]))
  }

  /** The end of the literal's digits and fraction in `u`: digits, then
      optionally a point and more digits. */
  function MantissaEnd(u: string): (j: nat)
    ensures j <= |u|
  {
    var i := DigitRun(u);
    if i < |u| && u[i] == '.' then i + 1 + DigitRun(u[i + 1..]) else i
  }

  /** The length of the exponent that `x` starts with: `e` or `E`, an
      optional sign and at least one digit; 0 when there is none. */
  function ExponentLength(x: string): (n: nat)
    ensures n <= |x|
  {
    if |x| > 1 && (x[0] == 'e' || x[0] == 'E') then
      var e := if x[1] == '+' || x[1] == '-' then 2 else 1;
      if e <= |x| && DigitRun(x[e..]) > 0 then e + DigitRun(x[e..]) else 0
    else 0
  }

  /** The longest prefix of `u` that is a StrUnsignedDecimalLiteral: digits,
      an optional fraction and an optional exponent with at least one digit. */
  function DecimalPrefix(u: string): (p: string)
    ensures p <= u
  {
    if "Infinity" <= u then "Infinity"
    else
      var j := MantissaEnd(u);
      u[..j + ExponentLength(u[j..])]
  }

  // The grammar StrUnsignedDecimalLiteral of section 7.1.4.1 of ECMA-262,
  // written as a predicate on whole strings, against which DecimalPrefix
  // is proved to read the longest literal.

  predicate AllDigits(s: string) {
    forall i | 0 <= i < |s| :: IsDigit(s[i])
  }

  /** DecimalDigits: one digit or more. */
  predicate IsDigits(s: string) {
    |s| > 0 && AllDigits(s)
  }

  /** ExponentPart: `e` or `E`, an optional sign, and digits. */
  predicate IsExponentPart(s: string) {
    |s| > 1 && (s[0] == 'e' || s[0] == 'E') &&
    (IsDigits(s[1..]) || ((s[1] == '+' || s[1] == '-') && IsDigits(s[2..])))
  }

  /** The literal before its exponent: `12`, `12.`, `12.5` or `.5`. */
  predicate IsMantissa(s: string) {
    IsDigits(s) ||
    (exists d | 0 < d < |s| :: IsDigits(s[..d]) && s[d] == '.' && AllDigits(s[d + 1..])) ||
    (|s| > 1 && s[0] == '.' && IsDigits(s[1..]))
  }

  /** StrUnsignedDecimalLiteral: "Infinity", or a mantissa with an optional
      exponent. */
  predicate IsUnsignedDecimal(s: string) {
    s == "Infinity" || IsMantissa(s) ||
    exists k | 0 < k < |s| :: IsMantissa(s[..k]) && IsExponentPart(s[k..])
  }

  lemma {:induction false} DigitRunSpec(s: string)
    ensures forall t | 0 <= t < DigitRun(s) :: IsDigit(s[t])
    ensures DigitRun(s) < |s| ==> !IsDigit(s[DigitRun(s)])
  {
    if s != [] && IsDigit(s[0]) {
      DigitRunSpec(s[1..]);
      forall t | 0 < t < DigitRun(s) ensures IsDigit(s[t]) {
        assert s[t] == s[1..][t - 1];
      }
    }
  }

  /** A run of digits at the start of `s` is no longer than DigitRun. */
  lemma DigitsBound(s: string, q: string)
    requires AllDigits(q) && q <= s
    ensures |q| <= DigitRun(s)
  {
    DigitRunSpec(s);
  }

  /** Every character before MantissaEnd is a digit or the point. */
  lemma MantissaChars(u: string)
    ensures forall p | 0 <= p < MantissaEnd(u) :: IsDigit(u[p]) || u[p] == '.'
  {
    var i := DigitRun(u);
    DigitRunSpec(u);
    if i < |u| && u[i] == '.' {
      DigitRunSpec(u[i + 1..]);
      forall p | i + 1 <= p < MantissaEnd(u) ensures IsDigit(u[p]) {
        assert u[p] == u[i + 1..][p - (i + 1)];
      }
    }
  }

  /** No mantissa at the start of `u` reaches past MantissaEnd. */
  lemma MantissaBound(u: string, q: string)
    requires IsMantissa(q) && q <= u
    ensures |q| <= MantissaEnd(u)
  {
    var i := DigitRun(u);
    DigitRunSpec(u);
    if IsDigits(q) {
      DigitsBound(u, q);
    } else if d :| 0 < d < |q| && IsDigits(q[..d]) && q[d] == '.' && AllDigits(q[d + 1..]) {
      DigitsBound(u, q[..d]);
      assert q[d] == u[d];
      assert d == i;
      DigitsBound(u[i + 1..], q[d + 1..]);
    } else {
      assert q[0] == u[0] == '.';
      DigitsBound(u[1..], q[1..]);
    }
  }

  /** The digits and fraction that DecimalPrefix reads form a mantissa. */
  lemma MantissaHolds(u: string)
    requires StartsDecimal(u) && !("Infinity" <= u)
    ensures IsMantissa(u[..MantissaEnd(u)])
  {
    var i := DigitRun(u);
    var j := MantissaEnd(u);
    var q := u[..j];
    DigitRunSpec(u);
    if i > 0 {
      assert IsDigits(u[..i]);
      if i < |u| && u[i] == '.' {
        DigitRunSpec(u[i + 1..]);
        assert q[..i] == u[..i] && q[i] == '.';
        assert q[i + 1..] == u[i + 1..][..DigitRun(u[i + 1..])];
      } else {
        assert q == u[..i];
      }
    } else {
      assert u[1..][0] == u[1];
      DigitRunSpec(u[1..]);
      assert q[1..] == u[1..][..DigitRun(u[1..])];
    }
  }

  /** The exponent that ExponentLength measures is an ExponentPart. */
  lemma ExponentHolds(x: string)
    requires ExponentLength(x) > 0
    ensures IsExponentPart(x[..ExponentLength(x)])
  {
    var n := ExponentLength(x);
    var e := if x[1] == '+' || x[1] == '-' then 2 else 1;
    DigitRunSpec(x[e..]);
    var y := x[..n];
    forall t | e <= t < n ensures IsDigit(y[t]) {
      assert y[t] == x[e..][t - e];
    }
    if e == 1 {
      assert IsDigits(y[1..]);
    } else {
      assert IsDigits(y[2..]);
    }
  }

  /** No prefix of `x` longer than ExponentLength is an ExponentPart. */
  lemma ExponentLongest(x: string, m: nat)
    requires ExponentLength(x) < m <= |x|
    ensures !IsExponentPart(x[..m])
  {
    var y := x[..m];
    if IsExponentPart(y) {
      assert y[0] == x[0] && y[1] == x[1];
      if IsDigits(y[1..]) {
        DigitsBound(x[1..], y[1..]);
      } else {
        DigitsBound(x[2..], y[2..]);
      }
    }
  }

  /** DecimalPrefix reads a StrUnsignedDecimalLiteral. */
  lemma DecimalPrefixIsLiteral(u: string)
    requires StartsDecimal(u)
    ensures IsUnsignedDecimal(DecimalPrefix(u))
  {
    if !("Infinity" <= u) {
      var j := MantissaEnd(u);
      MantissaHolds(u);
      var p := DecimalPrefix(u);
      var n := ExponentLength(u[j..]);
      if n > 0 {
        ExponentHolds(u[j..]);
        assert p[..j] == u[..j];
        assert p[j..] == u[j..][..n];
      } else {
        assert p == u[..j];
      }
    }
  }

  /** A string that starts with "Infinity" has no longer literal prefix. */
  lemma InfinityLongest(q: string)
    requires "Infinity" < q
    ensures !IsUnsignedDecimal(q)
  {
    assert q[0] == 'I';
    if IsMantissa(q) {
      MantissaStart(q);
    }
    forall k | 0 < k < |q| ensures !IsMantissa(q[..k]) {
      if IsMantissa(q[..k]) {
        MantissaStart(q[..k]);
      }
    }
  }

  /** No prefix of `u` longer than DecimalPrefix is a literal. */
  lemma DecimalPrefixLongest(u: string, m: nat)
    requires StartsDecimal(u) && |DecimalPrefix(u)| < m <= |u|
    ensures !IsUnsignedDecimal(u[..m])
  {
    var q := u[..m];
    if "Infinity" <= u {
      assert q[..8] == "Infinity";
      InfinityLongest(q);
    } else {
      assert q != "Infinity" by { assert |q| == 8 ==> u[..8] == q; }
      if IsMantissa(q) {
        MantissaBound(u, q);
      }
      forall k | 0 < k < |q| && IsMantissa(q[..k]) ensures !IsExponentPart(q[k..]) {
        SplitLongest(u, m, k);
      }
    }
  }

  /** Past DecimalPrefix, a mantissa followed by an exponent is not a
      prefix of `u` either. */
  lemma SplitLongest(u: string, m: nat, k: nat)
    requires !("Infinity" <= u)
    requires MantissaEnd(u) + ExponentLength(u[MantissaEnd(u)..]) < m <= |u|
    requires 0 < k < m && IsMantissa(u[..m][..k])
    ensures !IsExponentPart(u[..m][k..])
  {
    var q := u[..m];
    var j := MantissaEnd(u);
    MantissaBound(u, q[..k]);
    MantissaChars(u);
    if IsExponentPart(q[k..]) {
      assert u[k] == q[k..][0];
      assert k == j;
      assert q[k..] == u[k..m];
      assert u[j..][..m - j] == u[j..m];
      ExponentLongest(u[j..], m - j);
    }
  }

  /** A mantissa starts with a digit or with a point and a digit. */
  lemma MantissaStart(q: string)
    requires IsMantissa(q)
    ensures IsDigit(q[0]) || (|q| > 1 && q[0] == '.' && IsDigit(q[1]))
  {
    if !IsDigits(q) {
      if d :| 0 < d < |q| && IsDigits(q[..d]) && q[d] == '.' && AllDigits(q[d + 1..]) {
        assert q[..d][0] == q[0];
      } else {
        assert q[1..][0] == q[1];
      }
    }
  }

  /** Every non-empty literal at the start of `u` shows in StartsDecimal. */
  lemma LiteralStarts(u: string, n: nat)
    requires 0 < n <= |u| && IsUnsignedDecimal(u[..n])
    ensures StartsDecimal(u)
  {
    var q := u[..n];
    if q == "Infinity" {
    } else if IsMantissa(q) {
      MantissaStart(q);
      assert q[0] == u[0];
      assert |q| > 1 ==> q[1] == u[1];
    } else {
      var k :| 0 < k < |q| && IsMantissa(q[..k]) && IsExponentPart(q[k..]);
      MantissaStart(q[..k]);
      assert q[..k][0] == u[0];
      assert k > 1 ==> q[..k][1] == u[1];
    }
  }

  /** A JavaScript number as far as these pages use it: `NaN`, or the double
      that `parseFloat` reads from the decimal literal `literal`. The
      conversion of that literal to binary floating point is not modelled. */
  datatype Number = NaN | Float(literal: string)

  /** `parseFloat(v)`: skip white space, read an optional sign and the
      longest decimal literal; `NaN` when there is none. `parseFloat` of
      `undefined` reads the text "undefined", which is `NaN`. */
  function ParseFloat(v: Option<string>): (n: Number)
  {
    if v.None? then NaN
    else
      var t := TrimStart(v.value);
      var signed := t != [] && (t[0] == '+' || t[0] == '-');
      var u := if signed then t[1..] else t;
      if StartsDecimal(u) then Float((if signed then [t[0]] else []) + DecimalPrefix(u)) else NaN
  }

  /** `!isNaN(parseFloat(v))`: the cell parses as a number. */
  predicate Numeric(v: Option<string>) {
    ParseFloat(v).Float?
  }

  /** How `parseFloat` reads a present cell: after the white space and an
      optional sign, the cell is numeric exactly when a non-empty prefix of
      the rest is a StrUnsignedDecimalLiteral, and then the number read is
      the sign and the longest such prefix. A missing cell never parses. */
  lemma NumericIff(s: string)
    ensures !Numeric(None)
    ensures var t := TrimStart(s);
      var signed := t != [] && (t[0] == '+' || t[0] == '-');
      var u := if signed then t[1..] else t;
      (Numeric(Some(s)) <==> exists n | 0 < n <= |u| :: IsUnsignedDecimal(u[..n])) &&
      (Numeric(Some(s)) ==> exists n | 0 < n <= |u| ::
        IsUnsignedDecimal(u[..n]) &&
        ParseFloat(Some(s)) == Float((if signed then [t[0]] else []) + u[..n]) &&
        forall m | n < m <= |u| :: !IsUnsignedDecimal(u[..m]))
  {
    var t := TrimStart(s);
    var signed := t != [] && (t[0] == '+' || t[0] == '-');
    var u := if signed then t[1..] else t;
    if StartsDecimal(u) {
      var p := DecimalPrefix(u);
      DecimalPrefixIsLiteral(u);
      assert |p| > 0;
      assert u[..|p|] == p;
      forall m | |p| < m <= |u| ensures !IsUnsignedDecimal(u[..m]) {
        DecimalPrefixLongest(u, m);
      }
    } else {
      forall n | 0 < n <= |u| ensures !IsUnsignedDecimal(u[..n]) {
        if IsUnsignedDecimal(u[..n]) {
          LiteralStarts(u, n);
        }
      }
    }
  }

  /** parseFloat reads only a prefix: trailing text after the number is
      ignored. */
  lemma ParseFloatIgnoresSuffix()
    ensures ParseFloat(Some("3kg")) == Float("3")
  {
    assert TrimStart("3kg") == "3kg";
    assert DigitRun("kg") == 0 && DigitRun("3kg") == 1;
  }

  /** An exponent marker without digits is not part of the number. */
  lemma ParseFloatIncompleteExponent()
    ensures ParseFloat(Some("1e")) == Float("1")
  {
    assert TrimStart("1e") == "1e";
    assert DigitRun("e") == 0 && DigitRun("1e") == 1 && MantissaEnd("1e") == 1;
    assert DecimalPrefix("1e") == "1";
  }

  /** Text that does not start a number gives NaN. */
  lemma ParseFloatRejectsWord()
    ensures ParseFloat(Some("abc")) == NaN
  {
    assert TrimStart("abc") == "abc";
  }

  /** The empty cell and a missing cell give NaN. */
  lemma ParseFloatRejectsEmpty()
    ensures ParseFloat(Some("")) == NaN && ParseFloat(None) == NaN
  {
  }

  // ---------------------------------------------------------------------
  // Object.entries key order

  /** The numeric value of a string of decimal digits. */
  function DigitsValue(s: string): nat {
    if s == [] then 0
    else 10 * DigitsValue(s[..|s| - 1]) + (if IsDigit(s[|s| - 1]) then (s[|s| - 1] - '0') as nat else 0)
  }

  /** An array index: the canonical decimal form of an integer below
      2^32 - 1. Such keys of an ordinary object are listed first. */
  predicate IsArrayIndex(k: string) {
    |k| > 0 && DigitRun(k) == |k| && (k[0] != '0' || |k| == 1) && DigitsValue(k) < 0xFFFF_FFFF
  }

  /** The array-index keys, in the order given. */
  function IndexKeys(ks: seq<string>): seq<string> {
    if ks == [] then []
    else (if IsArrayIndex(ks[0]) then [ks[0]] else []) + IndexKeys(ks[1..])
  }

  /** The other keys, in the order given. */
  function NameKeys(ks: seq<string>): seq<string> {
    if ks == [] then []
    else (if IsArrayIndex(ks[0]) then [] else [ks[0]]) + NameKeys(ks[1..])
  }

  predicate AscendingIndices(ks: seq<string>) {
    forall i, j :: 0 <= i < j < |ks| ==> DigitsValue(ks[i]) <= DigitsValue(ks[j])
  }

  function InsertIndex(k: string, ks: seq<string>): (r: seq<string>)
    ensures multiset(r) == multiset(ks) + multiset{k}
    ensures AscendingIndices(ks) ==> AscendingIndices(r)
  {
    if ks == [] then [k]
    else if DigitsValue(k) <= DigitsValue(ks[0]) then [k] + ks
    else
      var rest := InsertIndex(k, ks[1..]);
      assert ks == [ks[0]] + ks[1..];
      InsertAscending(k, ks, rest);
      [ks[0]] + rest
  }

  lemma InsertAscending(k: string, ks: seq<string>, rest: seq<string>)
    requires ks != [] && DigitsValue(ks[0]) < DigitsValue(k)
    requires multiset(rest) == multiset(ks[1..]) + multiset{k}
    requires AscendingIndices(ks[1..]) ==> AscendingIndices(rest)
    ensures AscendingIndices(ks) ==> AscendingIndices([ks[0]] + rest)
  {
    if AscendingIndices(ks) {
      var r := [ks[0]] + rest;
      assert AscendingIndices(ks[1..]);
      forall i | 0 <= i < |rest| ensures DigitsValue(ks[0]) <= DigitsValue(rest[i]) {
        assert rest[i] in multiset(rest);
        if rest[i] != k {
          assert rest[i] in ks[1..];
          var m :| 0 <= m < |ks[1..]| && ks[1..][m] == rest[i];
          assert ks[m + 1] == rest[i];
        }
      }
      forall i, j | 0 <= i < j < |r| ensures DigitsValue(r[i]) <= DigitsValue(r[j]) {
        if i > 0 {
          assert r[i] == rest[i - 1] && r[j] == rest[j - 1];
        } else {
          assert r[j] == rest[j - 1];
        }
      }
    }
  }

  function SortIndices(ks: seq<string>): (r: seq<string>)
    ensures multiset(r) == multiset(ks)
    ensures AscendingIndices(r)
  {
    if ks == [] then []
    else
      assert ks == [ks[0]] + ks[1..];
      InsertIndex(ks[0], SortIndices(ks[1..]))
  }

  /** The order of `Object.entries` on a plain object whose keys were created
      in the order `created`: array indices first, in ascending numeric
      order, then every other key in creation order. */
  function OwnKeys(created: seq<string>): seq<string> {
    SortIndices(IndexKeys(created)) + NameKeys(created)
  }

  lemma {:induction false} SplitKeys(ks: seq<string>)
    ensures multiset(IndexKeys(ks)) + multiset(NameKeys(ks)) == multiset(ks)
    ensures forall k :: k in IndexKeys(ks) ==> IsArrayIndex(k)
    ensures forall k :: k in NameKeys(ks) ==> !IsArrayIndex(k)
  {
    if ks != [] {
      SplitKeys(ks[1..]);
      assert ks == [ks[0]] + ks[1..];
    }
  }

  /** `Object.entries` lists every key exactly once (a rearrangement of the
      creation order): first the array indices, ascending, then the other
      keys in creation order. */
  lemma OwnKeysSpec(created: seq<string>)
    requires Distinct(created)
    ensures multiset(OwnKeys(created)) == multiset(created)
    ensures Distinct(OwnKeys(created))
    ensures forall k :: k in OwnKeys(created) <==> k in created
    ensures var n := |IndexKeys(created)|;
      n <= |OwnKeys(created)| &&
      (forall k :: k in OwnKeys(created)[..n] ==> IsArrayIndex(k)) &&
      AscendingIndices(OwnKeys(created)[..n]) &&
      OwnKeys(created)[n..] == NameKeys(created) &&
      (forall k :: k in OwnKeys(created)[n..] ==> !IsArrayIndex(k))
  {
    SplitKeys(created);
    OwnKeysPermutes(created);
    var s := SortIndices(IndexKeys(created));
    var r := OwnKeys(created);
    assert r[..|s|] == s && r[|s|..] == NameKeys(created);
    forall k | k in s ensures IsArrayIndex(k) {
      assert k in multiset(s);
    }
  }

  lemma OwnKeysPermutes(created: seq<string>)
    requires Distinct(created)
    requires multiset(IndexKeys(created)) + multiset(NameKeys(created)) == multiset(created)
    ensures multiset(OwnKeys(created)) == multiset(created)
    ensures Distinct(OwnKeys(created))
    ensures forall k :: k in OwnKeys(created) <==> k in created
  {
    var r := OwnKeys(created);
    assert multiset(r) == multiset(SortIndices(IndexKeys(created))) + multiset(NameKeys(created));
    PermutationKeepsDistinct(r, created);
    forall k ensures k in r <==> k in created {
      assert k in r <==> k in multiset(r);
      assert k in created <==> k in multiset(created);
    }
  }
}
